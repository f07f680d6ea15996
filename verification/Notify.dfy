/** Breaking a long message into chunks that are each short enough and proper markup. */
module Notify {
  import opened Markup

  const MAX_MESSAGE: int := 4096
  const TAG_SLACK: int := 64

  // -- lines -----------------------------------------------------------------

  /** `text.split("\n")` */
  function Lines(text: string): (lines: seq<string>)
    ensures lines != []
  {
    if text == [] then [[]]
    else
      var rest := Lines(text[1..]);
      if text[0] == '\n' then [[]] + rest else [[text[0]] + rest[0]] + rest[1..]
  }

  function Join(lines: seq<string>): string {
    if lines == [] then []
    else if |lines| == 1 then lines[0]
    else lines[0] + "\n" + Join(lines[1..])
  }

  lemma {:induction false} JoinSnoc(lines: seq<string>, line: string)
    requires lines != []
    ensures Join(lines + [line]) == Join(lines) + "\n" + line
  {
    assert (lines + [line])[1..] == lines[1..] + [line];
    if |lines| > 1 {
      JoinSnoc(lines[1..], line);
      Regroup(lines[0] + "\n", Join(lines[1..]), "\n", line);
    }
  }

  lemma Regroup(a: string, b: string, c: string, d: string)
    ensures a + (b + c + d) == a + b + c + d
  {
  }

  lemma {:induction false} LinesJoin(text: string)
    ensures Join(Lines(text)) == text
  {
    if text != [] {
      LinesJoin(text[1..]);
      assert text == [text[0]] + text[1..];
    }
  }

  // -- fitting one line ------------------------------------------------------

  /** `\s` */
  predicate IsSpace(c: char) {
    var n := c as int;
    || 9 <= n <= 13 || 28 <= n <= 32 || n == 0x85 || n == 0xA0 || n == 0x1680 || 0x2000 <= n <= 0x200A
    || n == 0x2028 || n == 0x2029 || n == 0x202F || n == 0x205F || n == 0x3000
  }

  /** Half an entity or half a tag begins at `p` and runs to the end. */
  predicate HalfAt(s: string, p: nat)
    requires p < |s|
  {
    || (s[p] == '&' && forall k | p < k < |s| :: s[k] != ';' && !IsSpace(s[k]))
    || (s[p] == '<' && forall k | p < k < |s| :: s[k] != '>')
  }

  function FirstHalf(s: string, p: nat): (r: nat)
    requires p <= |s|
    ensures p <= r <= |s|
    ensures forall q | p <= q < r :: !HalfAt(s, q)
    ensures r < |s| ==> HalfAt(s, r)
    decreases |s| - p
  {
    if p == |s| || HalfAt(s, p) then p else FirstHalf(s, p + 1)
  }

  /** `re.sub(r"&[^;\s]*$|<[^>]*$", "", s)` */
  function Trim(s: string): (r: string)
    ensures r <= s
  {
    s[..FirstHalf(s, 0)]
  }

  /** `s[:room]`: a negative bound counts from the end. */
  function Head(s: string, room: int): (r: string)
    ensures r <= s
    ensures 0 <= room ==> |r| <= room
  {
    if room >= |s| then s else if room >= 0 then s[..room] else if |s| + room >= 0 then s[..|s| + room] else []
  }

  /** `_fit` */
  function Fit(line: string, room: int): (r: string)
    ensures r <= line
    ensures 0 <= room ==> |r| <= room
    ensures |line| <= room ==> r == line
  {
    if |line| <= room then line else Trim(Head(line, room))
  }

  /** What fits is the line up to the room there is, less only half an entity or tag at the cut. */
  lemma FitCutsOnlyAHalf(line: string, room: int)
    requires 0 <= room < |line|
    ensures var r := Fit(line, room);
            && r == line[..|r|] && (|r| == room || HalfAt(line[..room], |r|))
            && forall q | 0 <= q < |r| :: !HalfAt(line[..room], q)
  {
    assert Head(line, room) == line[..room];
  }

  // -- text whose tags and entities are complete -----------------------------

  predicate IsEntityChar(c: char) {
    IsNameChar(c) || c == '#'
  }

  function EntityEnd(s: string, i: nat): (r: nat)
    requires i <= |s|
    ensures i <= r <= |s|
    ensures forall k | i <= k < r :: IsEntityChar(s[k])
    ensures r < |s| ==> !IsEntityChar(s[r])
    decreases |s| - i
  {
    if i < |s| && IsEntityChar(s[i]) then EntityEnd(s, i + 1) else i
  }

  /** How long the entity at the start is, 0 when there is none. */
  function EntityLen(s: string): (r: nat)
    ensures r <= |s|
    ensures r > 0 ==> r > 1 && s[0] == '&' && s[r - 1] == ';' && forall k | 1 <= k < r - 1 :: IsEntityChar(s[k])
  {
    if s == [] || s[0] != '&' then 0
    else
      var e := EntityEnd(s, 1);
      if e < |s| && s[e] == ';' then e + 1 else 0
  }

  /** The length of the first tag, entity or plain character; 0 when none is complete. */
  function TokenLen(s: string): (r: nat)
    requires s != []
    ensures r <= |s|
  {
    if TagLen(s) > 0 then (if '&' in s[..TagLen(s)] then 0 else TagLen(s))
    else if s[0] == '&' then EntityLen(s)
    else if s[0] == '<' then 0
    else 1
  }

  /** Escaped text: every `<` begins a complete tag without `&` in it, every `&` a complete entity. */
  predicate Tidy(s: string)
    decreases |s|
  {
    s == [] || (TokenLen(s) > 0 && Tidy(s[TokenLen(s)..]))
  }

  lemma TokenIsLocal(s: string, u: string)
    requires s != [] && TokenLen(s) > 0 && TokenLen(s) <= |u| && u[..TokenLen(s)] == s[..TokenLen(s)]
    ensures TokenLen(u) == TokenLen(s)
  {
    var n := TokenLen(s);
    assert forall k | 0 <= k < n :: u[k] == u[..n][k] == s[..n][k] == s[k];
    if TagLen(s) > 0 {
      TagIsLocal(s, u);
    } else if s[0] == '&' {
      assert EntityEnd(u, 1) == EntityEnd(s, 1);
    }
  }

  /** Nothing in a complete token looks like half of one. */
  lemma TokenIsWhole(s: string, q: nat)
    requires s != [] && q < TokenLen(s)
    ensures !HalfAt(s, q)
  {
    var n := TokenLen(s);
    if TagLen(s) > 0 {
      assert s[n - 1] == '>';
      assert s[..n][q] == s[q];
    } else if s[0] == '&' {
      assert s[n - 1] == ';';
    }
  }

  /** Up to its end, it looks like nothing else. */
  lemma CutTokenIsHalf(s: string, k: nat)
    requires s != [] && 0 < k < TokenLen(s)
    ensures HalfAt(s[..k], 0)
  {
    var cut := s[..k];
    assert forall i | 0 <= i < k :: cut[i] == s[i];
    if TagLen(s) > 0 {
      assert forall i | 1 <= i < k :: s[i] != '>' by {
        NoGtInside(s);
      }
    }
  }

  lemma NoGtInside(s: string)
    requires TagLen(s) > 0
    ensures forall i | 0 <= i < TagLen(s) - 1 :: s[i] != '>'
  {
    assert forall k | NameStart(s) <= k < NameEnd(s, NameStart(s)) :: IsNameChar(s[k]);
  }

  lemma HalvesShift(s: string, n: nat, q: nat)
    requires n <= |s| && q < |s| - n
    ensures HalfAt(s, n + q) <==> HalfAt(s[n..], q)
  {
    var t := s[n..];
    assert forall k | n + q < k < |s| :: s[k] == t[k - n];
    assert forall k | q < k < |t| :: t[k] == s[k + n];
  }

  lemma TrimAfterToken(s: string)
    requires s != [] && TokenLen(s) > 0
    ensures Trim(s) == s[..TokenLen(s)] + Trim(s[TokenLen(s)..])
  {
    var n := TokenLen(s);
    forall q | 0 <= q < n
      ensures !HalfAt(s, q)
    {
      TokenIsWhole(s, q);
    }
    var r, t := FirstHalf(s, 0), FirstHalf(s[n..], 0);
    assert r >= n;
    if r < |s| { HalvesShift(s, n, r - n); }
    if t < |s| - n { HalvesShift(s, n, t); }
    assert r == n + t;
  }

  lemma TidyAfterToken(s: string, rest: string)
    requires s != [] && TokenLen(s) > 0 && Tidy(rest)
    ensures Tidy(s[..TokenLen(s)] + rest)
  {
    var r := s[..TokenLen(s)] + rest;
    assert r[..TokenLen(s)] == s[..TokenLen(s)];
    TokenIsLocal(s, r);
    assert r[TokenLen(r)..] == rest;
  }

  lemma TrimPastToken(s: string, k: nat, rest: string)
    requires s != [] && 0 < TokenLen(s) <= k <= |s| && rest == s[TokenLen(s)..][..k - TokenLen(s)]
    ensures Trim(s[..k]) == s[..TokenLen(s)] + Trim(rest)
  {
    var cut, n := s[..k], TokenLen(s);
    assert cut[..n] == s[..n];
    TokenIsLocal(s, cut);
    TrimAfterToken(cut);
    assert cut[n..] == rest;
  }

  lemma NoHalfPastToken(s: string, k: nat)
    requires s != [] && 0 < TokenLen(s) <= k <= |s|
    requires Tidy(Trim(s[TokenLen(s)..][..k - TokenLen(s)]))
    ensures Tidy(Trim(s[..k]))
  {
    var rest := s[TokenLen(s)..][..k - TokenLen(s)];
    TrimPastToken(s, k, rest);
    TidyAfterToken(s, Trim(rest));
  }

  /** Cut anywhere and trimmed, escaped text is still escaped text: `_fit` leaves no half behind. */
  lemma {:induction false} FitLeavesNoHalf(s: string, k: nat)
    requires Tidy(s) && k <= |s|
    ensures Tidy(Trim(s[..k]))
    decreases |s|
  {
    if k < (if s == [] then 1 else TokenLen(s)) {
      CutTokenLeavesNothing(s, k);
    } else {
      FitLeavesNoHalf(s[TokenLen(s)..], k - TokenLen(s));
      NoHalfPastToken(s, k);
    }
  }

  lemma CutTokenLeavesNothing(s: string, k: nat)
    requires k <= |s| && (s != [] ==> k < TokenLen(s))
    ensures Trim(s[..k]) == []
  {
    if k > 0 {
      CutTokenIsHalf(s, k);
    }
  }

  /** And escaped text is clean markup. */
  lemma {:induction false} TidyIsClean(s: string)
    requires Tidy(s)
    ensures Clean(s)
    decreases |s|
  {
    if s != [] {
      var n := TokenLen(s);
      TidyIsClean(s[n..]);
      if TagLen(s) == 0 && s[0] == '&' {
        PlainIsClean(s, 0, n);
        assert s[0..] == s;
      }
    }
  }

  lemma OneCharMore(s: string)
    requires s != [] && s[0] != '<' && Clean(s[1..])
    ensures Clean(s)
  {
  }

  lemma {:induction false} PlainIsClean(s: string, i: nat, n: nat)
    requires i <= n <= |s| && Clean(s[n..]) && forall k | i <= k < n :: s[k] != '<'
    ensures Clean(s[i..])
    decreases n - i
  {
    if i < n {
      assert s[i..][1..] == s[i + 1..];
      PlainIsClean(s, i + 1, n);
      OneCharMore(s[i..]);
    }
  }

  /** Whatever the room, a fitted line of escaped text is escaped text. */
  lemma FittedIsTidy(line: string, room: int)
    requires Tidy(line)
    ensures Tidy(Fit(line, room)) && Clean(Fit(line, room))
  {
    if |line| > room {
      var head := Head(line, room);
      assert head == line[..|head|];
      FitLeavesNoHalf(line, |head|);
    }
    TidyIsClean(Fit(line, room));
  }
}
