/** The markup of a message as `notify` sees it: a regular expression for tags, and a stack. */
module Markup {
  /** An opening tag: its name, and its text as it stands in the message. */
  datatype Mark = Mark(name: string, text: string)

  datatype Tag = Opens(mark: Mark) | Closes(name: string)

  predicate IsNameChar(c: char) {
    'a' <= c <= 'z' || 'A' <= c <= 'Z' || '0' <= c <= '9' || c == '-'
  }

  function NameEnd(s: string, i: nat): (r: nat)
    requires i <= |s|
    ensures i <= r <= |s|
    ensures forall k | i <= k < r :: IsNameChar(s[k])
    ensures r < |s| ==> !IsNameChar(s[r])
    decreases |s| - i
  {
    if i < |s| && IsNameChar(s[i]) then NameEnd(s, i + 1) else i
  }

  /** Where the next `>` is; the length if there is none. */
  function NextGt(s: string, i: nat): (r: nat)
    requires i <= |s|
    ensures i <= r <= |s|
    ensures forall k | i <= k < r :: s[k] != '>'
    ensures r < |s| ==> s[r] == '>'
    decreases |s| - i
  {
    if i < |s| && s[i] != '>' then NextGt(s, i + 1) else i
  }

  function NameStart(s: string): nat {
    if |s| > 1 && s[1] == '/' then 2 else 1
  }

  /** How long the tag at the start of `s` is, 0 when there is none: `<(/?)([a-zA-Z0-9-]+)[^>]*>`. */
  function TagLen(s: string): (r: nat)
    ensures r <= |s|
    ensures r > 0 ==> s[0] == '<' && NameStart(s) < NameEnd(s, NameStart(s)) < r && s[r - 1] == '>'
    ensures r > 0 ==> forall k | NameEnd(s, NameStart(s)) <= k < r - 1 :: s[k] != '>'
  {
    if s == [] || s[0] != '<' || NameStart(s) == NameEnd(s, NameStart(s)) then 0
    else
      var gt := NextGt(s, NameEnd(s, NameStart(s)));
      if gt == |s| then 0 else gt + 1
  }

  function TagAt(s: string): Tag
    requires TagLen(s) > 0
  {
    var name := s[NameStart(s)..NameEnd(s, NameStart(s))];
    if NameStart(s) == 2 then Closes(name) else Opens(Mark(name, s[..TagLen(s)]))
  }

  /** `_TAG.finditer` */
  function Tags(s: string): seq<Tag>
    decreases |s|
  {
    if s == [] then []
    else if TagLen(s) > 0 then [TagAt(s)] + Tags(s[TagLen(s)..])
    else Tags(s[1..])
  }

  /** Every `<` begins a tag that is complete. */
  predicate Clean(s: string)
    decreases |s|
  {
    if s == [] then true
    else if TagLen(s) > 0 then Clean(s[TagLen(s)..])
    else s[0] != '<' && Clean(s[1..])
  }

  /** A tag is found wherever its text stands. */
  lemma TagIsLocal(s: string, u: string)
    requires TagLen(s) > 0 && TagLen(s) <= |u| && u[..TagLen(s)] == s[..TagLen(s)]
    ensures TagLen(u) == TagLen(s) && TagAt(u) == TagAt(s)
  {
    var n := TagLen(s);
    assert forall k | 0 <= k < n :: u[k] == u[..n][k] == s[..n][k] == s[k];
    assert NameStart(u) == NameStart(s);
    assert NameEnd(u, NameStart(u)) == NameEnd(s, NameStart(s));
    assert NextGt(u, NameEnd(u, NameStart(u))) == NextGt(s, NameEnd(s, NameStart(s)));
    var i, e := NameStart(s), NameEnd(s, NameStart(s));
    assert forall k | i <= k < e :: u[k] == s[k];
    assert u[i..e] == s[i..e];
  }

  lemma TagStays(a: string, b: string)
    requires TagLen(a) > 0
    ensures TagLen(a + b) == TagLen(a) && TagAt(a + b) == TagAt(a)
    ensures (a + b)[TagLen(a)..] == a[TagLen(a)..] + b
  {
    assert (a + b)[..TagLen(a)] == a[..TagLen(a)];
    TagIsLocal(a, a + b);
  }

  lemma TagInFront(a: string, b: string)
    requires TagLen(a) > 0
    ensures Tags(a + b) == [TagAt(a)] + Tags(a[TagLen(a)..] + b)
    ensures Clean(a + b) <==> Clean(a[TagLen(a)..] + b)
  {
    TagStays(a, b);
  }

  lemma Prepend(x: Tag, a: seq<Tag>, b: seq<Tag>)
    ensures [x] + (a + b) == [x] + a + b
  {
  }

  /** Clean text is scanned the same whatever follows it. */
  lemma {:induction false} TagsOfSum(a: string, b: string)
    requires Clean(a)
    ensures Tags(a + b) == Tags(a) + Tags(b)
    ensures Clean(a + b) <==> Clean(b)
    decreases |a|
  {
    if a == [] {
      assert a + b == b;
    } else if TagLen(a) > 0 {
      TagsOfSum(a[TagLen(a)..], b);
      TagInFront(a, b);
      Prepend(TagAt(a), Tags(a[TagLen(a)..]), Tags(b));
    } else {
      assert (a + b)[1..] == a[1..] + b;
      TagsOfSum(a[1..], b);
    }
  }

  // -- the stack of open tags ------------------------------------------------

  /** `_track` */
  function Track(stack: seq<Mark>, tags: seq<Tag>): seq<Mark>
    decreases |tags|
  {
    if tags == [] then stack
    else match tags[0]
      case Opens(m) => Track(stack + [m], tags[1..])
      case Closes(n) =>
        if stack != [] && stack[|stack| - 1].name == n then Track(stack[..|stack| - 1], tags[1..])
        else Track(stack, tags[1..])
  }

  /** Every closing tag closes the tag opened last. */
  predicate Nests(stack: seq<Mark>, tags: seq<Tag>)
    decreases |tags|
  {
    tags == [] || match tags[0]
      case Opens(m) => Nests(stack + [m], tags[1..])
      case Closes(n) => stack != [] && stack[|stack| - 1].name == n && Nests(stack[..|stack| - 1], tags[1..])
  }

  lemma {:induction false} TrackOfSum(stack: seq<Mark>, a: seq<Tag>, b: seq<Tag>)
    ensures Track(stack, a + b) == Track(Track(stack, a), b)
    ensures Nests(stack, a + b) <==> Nests(stack, a) && Nests(Track(stack, a), b)
    decreases |a|
  {
    if a == [] {
      assert a + b == b;
    } else {
      assert (a + b)[1..] == a[1..] + b;
      match a[0]
      case Opens(m) => TrackOfSum(stack + [m], a[1..], b);
      case Closes(n) =>
        if stack != [] && stack[|stack| - 1].name == n {
          TrackOfSum(stack[..|stack| - 1], a[1..], b);
        } else {
          TrackOfSum(stack, a[1..], b);
        }
    }
  }

  /** Markup that stands on its own: complete tags, properly nested, all closed. */
  predicate Balanced(s: string) {
    Clean(s) && Nests([], Tags(s)) && Track([], Tags(s)) == []
  }

  // -- closing and reopening -------------------------------------------------

  function CloseTag(name: string): string {
    "</" + name + ">"
  }

  /** `_closing` */
  function Closing(stack: seq<Mark>): string {
    if stack == [] then [] else CloseTag(stack[|stack| - 1].name) + Closing(stack[..|stack| - 1])
  }

  /** `_opening` */
  function Opening(stack: seq<Mark>): string {
    if stack == [] then [] else Opening(stack[..|stack| - 1]) + stack[|stack| - 1].text
  }

  ghost predicate Good(m: Mark) {
    && m.name != [] && (forall c | c in m.name :: IsNameChar(c))
    && m.text != [] && Clean(m.text) && Tags(m.text) == [Opens(m)]
  }

  ghost predicate AllGood(stack: seq<Mark>) {
    forall m | m in stack :: Good(m)
  }

  lemma TagTextIsGood(s: string)
    requires TagLen(s) > 0 && TagAt(s).Opens?
    ensures Good(TagAt(s).mark)
  {
    var m := TagAt(s).mark;
    assert m.text[..TagLen(s)] == s[..TagLen(s)];
    TagIsLocal(s, m.text);
    assert m.text[TagLen(s)..] == [];
    assert Tags(m.text) == [TagAt(m.text)] + Tags([]);
  }

  /** The open tags found in any line are good ones, and are no longer than the line. */
  lemma {:induction false} TrackIsGood(stack: seq<Mark>, s: string)
    requires AllGood(stack)
    ensures AllGood(Track(stack, Tags(s)))
    ensures |Opening(Track(stack, Tags(s)))| <= |Opening(stack)| + |s|
    decreases |s|
  {
    if s != [] {
      if TagLen(s) > 0 {
        var rest := s[TagLen(s)..];
        assert ([TagAt(s)] + Tags(rest))[1..] == Tags(rest);
        match TagAt(s) {
          case Opens(m) =>
            TagTextIsGood(s);
            assert (stack + [m])[..|stack|] == stack;
            TrackIsGood(stack + [m], rest);
          case Closes(n) =>
            if stack != [] && stack[|stack| - 1].name == n {
              TrackIsGood(stack[..|stack| - 1], rest);
            } else {
              TrackIsGood(stack, rest);
            }
        }
      } else {
        TrackIsGood(stack, s[1..]);
      }
    }
  }

  lemma CloseTagIsTag(name: string)
    requires name != [] && forall c | c in name :: IsNameChar(c)
    ensures Clean(CloseTag(name)) && Tags(CloseTag(name)) == [Closes(name)]
  {
    var s := CloseTag(name);
    var n := |name|;
    assert s[..2] == "</" && s[2..n + 2] == name && s[n + 2] == '>' && |s| == n + 3;
    assert forall k | 2 <= k < n + 2 :: s[k] == name[k - 2];
    assert NameStart(s) == 2 && NameEnd(s, 2) == n + 2;
    assert NextGt(s, n + 2) == n + 2;
    assert TagLen(s) == n + 3 && TagAt(s) == Closes(name);
    assert s[n + 3..] == [];
    assert Tags(s) == [TagAt(s)] + Tags([]);
  }

  lemma TrackOne(stack: seq<Mark>, m: Mark)
    ensures Track(stack, [Opens(m)]) == stack + [m] && Nests(stack, [Opens(m)])
  {
    assert [Opens(m)][1..] == [];
  }

  /** Reopening builds the stack up from nothing. */
  lemma {:induction false} OpeningOpens(stack: seq<Mark>)
    requires AllGood(stack)
    ensures Clean(Opening(stack)) && Nests([], Tags(Opening(stack))) && Track([], Tags(Opening(stack))) == stack
    ensures stack != [] ==> Opening(stack) != []
  {
    if stack != [] {
      var front, m := stack[..|stack| - 1], stack[|stack| - 1];
      assert front + [m] == stack;
      OpeningOpens(front);
      assert Good(m);
      TagsOfSum(Opening(front), m.text);
      assert Tags(Opening(stack)) == Tags(Opening(front)) + [Opens(m)];
      TrackOfSum([], Tags(Opening(front)), [Opens(m)]);
      TrackOne(front, m);
    }
  }

  /** Closing takes it down to nothing. */
  lemma {:induction false} ClosingCloses(stack: seq<Mark>)
    requires AllGood(stack)
    ensures Clean(Closing(stack)) && Nests(stack, Tags(Closing(stack))) && Track(stack, Tags(Closing(stack))) == []
  {
    if stack != [] {
      var front, m := stack[..|stack| - 1], stack[|stack| - 1];
      ClosingCloses(front);
      assert Good(m);
      CloseTagIsTag(m.name);
      TagsOfSum(CloseTag(m.name), Closing(front));
      TrackOfSum(stack, [Closes(m.name)], Tags(Closing(front)));
      assert [Closes(m.name)][1..] == [];
    }
  }
}
