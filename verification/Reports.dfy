/** The archive of reports: one file a run, named so that names sort by time, and pruned per job. */
module Reports {
  import opened Text

  const KEEP_PER_JOB := 400

  /** A point in time, as far as a file name tells it. */
  datatype When = When(year: nat, month: nat, day: nat, hour: nat, minute: nat, second: nat, micro: nat)
  {
    /** Years are written in four digits from 1000 on. */
    predicate Valid() {
      && 1000 <= year <= 9999 && 1 <= month <= 12 && 1 <= day <= 31
      && hour < 24 && minute < 60 && second < 60 && micro < 1000000
    }
  }

  predicate LessOr(m: nat, n: nat, otherwise: bool) {
    m < n || (m == n && otherwise)
  }

  predicate Earlier(a: When, b: When) {
    LessOr(a.year, b.year,
      LessOr(a.month, b.month,
        LessOr(a.day, b.day,
          LessOr(a.hour, b.hour,
            LessOr(a.minute, b.minute,
              LessOr(a.second, b.second, a.micro < b.micro))))))
  }

  // -- file names ------------------------------------------------------------

  datatype Field = Number(n: nat, width: nat) | Mark(c: char)

  function Written(f: Field): string {
    match f
    case Number(n, width) => Digits(n, width)
    case Mark(c) => [c]
  }

  function Render(fields: seq<Field>): string {
    if fields == [] then [] else Written(fields[0]) + Render(fields[1..])
  }

  /** `"%Y%m%d-%H%M%S.%f"` */
  function Fields(w: When): seq<Field> {
    [Number(w.year, 4), Number(w.month, 2), Number(w.day, 2), Mark('-'),
     Number(w.hour, 2), Number(w.minute, 2), Number(w.second, 2), Mark('.'), Number(w.micro, 6)]
  }

  function Suffix(job: string): string {
    "-" + job + ".json"
  }

  function FileName(w: When, job: string): string {
    Render(Fields(w)) + Suffix(job)
  }

  /** The same fields in the same widths, wide enough. */
  ghost predicate SameShape(a: seq<Field>, b: seq<Field>) {
    |a| == |b| && forall i | 0 <= i < |a| ::
      if a[i].Number? then b[i].Number? && b[i].width == a[i].width && a[i].n < Pow10(a[i].width) &&
        b[i].n < Pow10(a[i].width)
      else b[i] == a[i]
  }

  predicate FirstLess(a: seq<Field>, b: seq<Field>)
    requires |a| == |b|
  {
    a != [] && ((a[0].Number? && b[0].Number? && a[0].n < b[0].n) || (a[0] == b[0] && FirstLess(a[1..], b[1..])))
  }

  lemma {:induction false} RenderInOrder(a: seq<Field>, b: seq<Field>)
    requires SameShape(a, b)
    ensures |Render(a)| == |Render(b)|
    ensures Before(Render(a), Render(b)) <==> FirstLess(a, b)
    ensures Render(a) == Render(b) <==> a == b
  {
    if a != [] {
      RenderInOrder(a[1..], b[1..]);
      var p, q := Written(a[0]), Written(b[0]);
      if a[0].Number? {
        DigitsInOrder(a[0].n, b[0].n, a[0].width);
      } else {
        BeforeIsOrder(p, p, p);
      }
      BeforeByParts(p, q, Render(a[1..]), Render(b[1..]));
      assert Render(a)[..|p|] == p && Render(b)[..|p|] == q;
      assert Render(a)[|p|..] == Render(a[1..]) && Render(b)[|p|..] == Render(b[1..]);
      assert a == [a[0]] + a[1..] && b == [b[0]] + b[1..];
    }
  }

  lemma FieldsInOrder(v: When, w: When)
    requires v.Valid() && w.Valid()
    ensures SameShape(Fields(v), Fields(w))
    ensures FirstLess(Fields(v), Fields(w)) <==> Earlier(v, w)
    ensures Fields(v) == Fields(w) <==> v == w
  {
    assert Pow10(2) == 100;
    assert Pow10(4) == 100 * Pow10(2);
    assert Pow10(6) == 100 * Pow10(4);
    FieldByField(v, w);
  }

  lemma FirstLessFrom(a: seq<Field>, b: seq<Field>, i: nat)
    requires i < |a| == |b|
    ensures FirstLess(a[i..], b[i..]) <==>
              || (a[i].Number? && b[i].Number? && a[i].n < b[i].n)
              || (a[i] == b[i] && FirstLess(a[i + 1..], b[i + 1..]))
  {
    assert a[i..][1..] == a[i + 1..] && b[i..][1..] == b[i + 1..];
  }

  lemma ClockFields(v: When, w: When)
    ensures FirstLess(Fields(v)[4..], Fields(w)[4..]) <==>
              LessOr(v.hour, w.hour, LessOr(v.minute, w.minute, LessOr(v.second, w.second, v.micro < w.micro)))
  {
    var a, b := Fields(v), Fields(w);
    FirstLessFrom(a, b, 8);
    FirstLessFrom(a, b, 7);
    FirstLessFrom(a, b, 6);
    FirstLessFrom(a, b, 5);
    FirstLessFrom(a, b, 4);
    assert !FirstLess(a[9..], b[9..]);
  }

  lemma FieldByField(v: When, w: When)
    ensures FirstLess(Fields(v), Fields(w)) <==> Earlier(v, w)
  {
    var a, b := Fields(v), Fields(w);
    ClockFields(v, w);
    FirstLessFrom(a, b, 3);
    FirstLessFrom(a, b, 2);
    FirstLessFrom(a, b, 1);
    FirstLessFrom(a, b, 0);
    assert a[0..] == a && b[0..] == b;
  }

  /** The names of a job's files are in the order of their times, and differ when those do. */
  lemma NamesInOrder(v: When, w: When, job: string)
    requires v.Valid() && w.Valid()
    ensures Before(FileName(v, job), FileName(w, job)) <==> Earlier(v, w)
    ensures FileName(v, job) == FileName(w, job) <==> v == w
  {
    FieldsInOrder(v, w);
    RenderInOrder(Fields(v), Fields(w));
    BeforeByParts(Render(Fields(v)), Render(Fields(w)), Suffix(job), Suffix(job));
    BeforeIsOrder(Suffix(job), Suffix(job), Suffix(job));
    assert FileName(v, job)[..|Render(Fields(v))|] == Render(Fields(v));
    assert FileName(w, job)[..|Render(Fields(w))|] == Render(Fields(w));
  }

  predicate EndsWith(name: string, suffix: string) {
    |suffix| <= |name| && name[|name| - |suffix|..] == suffix
  }

  /** A name ends in a job's suffix exactly when the file is that job's. */
  lemma SuffixNamesTheJob(stamp: string, job: string, asked: string)
    requires '-' !in job && '-' !in asked
    ensures EndsWith(stamp + Suffix(job), Suffix(asked)) <==> job == asked
  {
    var name, suffix := stamp + Suffix(job), Suffix(asked);
    assert forall i | 0 <= i < |job| :: Suffix(job)[i + 1] == job[i];
    assert forall i | 0 <= i < |asked| :: suffix[i + 1] == asked[i];
    if |suffix| <= |name| {
      var tail := name[|name| - |suffix|..];
      if |asked| < |job| {
        assert tail[0] == Suffix(job)[|job| - |asked|] == job[|job| - |asked| - 1];
        assert tail[0] != suffix[0];
      } else if |asked| > |job| {
        var at := |asked| - |job|;
        assert tail[at] == Suffix(job)[0] && suffix[at] == asked[at - 1];
        assert tail[at] != suffix[at];
      } else {
        assert tail == Suffix(job);
        assert Suffix(job)[1..|job| + 1] == job && suffix[1..|asked| + 1] == asked;
      }
    }
  }

  // -- the latest of a set of names ------------------------------------------

  function Above(names: set<string>, n: string): set<string> {
    set m | m in names && Before(n, m)
  }

  /** The names with fewer than `k` above them. */
  function Top(names: set<string>, k: nat): set<string> {
    set n | n in names && |Above(names, n)| < k
  }

  lemma Fewer(a: set<string>, b: set<string>)
    requires a <= b
    ensures |a| <= |b|
  {
    assert b == a + (b - a);
  }

  lemma {:induction false} Greatest(names: set<string>) returns (top: string)
    requires names != {}
    ensures top in names && forall n | n in names && n != top :: Before(n, top)
  {
    top :| top in names;
    var rest := names - {top};
    assert forall n | n in names && n != top :: n in rest;
    if rest != {} {
      var other := Greatest(rest);
      var first := top;
      BeforeIsOrder(first, other, other);
      if Before(first, other) {
        top := other;
      } else {
        forall n | n in rest
          ensures Before(n, first)
        {
          BeforeIsOrder(n, other, first);
        }
      }
    }
  }

  lemma {:induction false} Least(names: set<string>) returns (bottom: string)
    requires names != {}
    ensures bottom in names && forall n | n in names && n != bottom :: Before(bottom, n)
  {
    bottom :| bottom in names;
    var rest := names - {bottom};
    assert forall n | n in names && n != bottom :: n in rest;
    if rest != {} {
      var other := Least(rest);
      var first := bottom;
      BeforeIsOrder(first, other, other);
      if Before(other, first) {
        bottom := other;
      } else {
        forall n | n in rest
          ensures Before(first, n)
        {
          BeforeIsOrder(first, other, n);
        }
      }
    }
  }

  lemma TopIsSmall(names: set<string>, k: nat)
    ensures |Top(names, k)| <= k
  {
    var top := Top(names, k);
    if top != {} {
      var bottom := Least(top);
      assert top - {bottom} <= Above(names, bottom);
      Fewer(top - {bottom}, Above(names, bottom));
    }
  }

  /** A name the top lost is outnumbered in the top as well. */
  lemma LostIsOutnumbered(names: set<string>, k: nat, n: string)
    requires exists m :: m in names && Before(n, m) && m !in Top(names, k)
    ensures |Above(Top(names, k), n)| >= k
  {
    var lost := set m | m in names && Before(n, m) && m !in Top(names, k);
    var some :| some in names && Before(n, some) && some !in Top(names, k);
    assert some in lost;
    var m := Greatest(lost);
    forall h | h in Above(names, m)
      ensures h in Above(Top(names, k), n)
    {
      BeforeIsOrder(n, m, h);
      BeforeIsOrder(h, m, h);
    }
    Fewer(Above(names, m), Above(Top(names, k), n));
  }

  /** Keeping the top as names come in is keeping the top of them all. */
  lemma TopOnTheWay(names: set<string>, k: nat, x: string)
    ensures Top(Top(names, k) + {x}, k) == Top(names + {x}, k)
  {
    var top, all := Top(names, k), names + {x};
    var some := top + {x};
    forall n | n in all
      ensures n in Top(some, k) <==> n in Top(all, k)
    {
      assert Above(some, n) <= Above(all, n);
      Fewer(Above(some, n), Above(all, n));
      assert Above(names, n) <= Above(all, n);
      Fewer(Above(names, n), Above(all, n));
      if Above(some, n) != Above(all, n) {
        var m :| m in Above(all, n) && m !in Above(some, n);
        LostIsOutnumbered(names, k, n);
        Fewer(Above(top, n), Above(some, n));
      }
    }
  }

  // -- in terms of times -----------------------------------------------------

  type History = set<(When, string)>

  ghost predicate AllValid(history: History) {
    forall e | e in history :: e.0.Valid() && '-' !in e.1
  }

  function Times(history: History, job: string): set<When> {
    set e | e in history && e.1 == job :: e.0
  }

  function FileNames(times: set<When>, job: string): set<string> {
    set w | w in times :: FileName(w, job)
  }

  function Later(times: set<When>, w: When): set<When> {
    set v | v in times && Earlier(w, v)
  }

  /** The times with fewer than `k` later ones. */
  function Latest(times: set<When>, k: nat): set<When> {
    set w | w in times && |Later(times, w)| < k
  }

  lemma {:induction false} AsManyNames(times: set<When>, job: string)
    requires forall w | w in times :: w.Valid()
    ensures |FileNames(times, job)| == |times|
  {
    if times != {} {
      var w :| w in times;
      AsManyNames(times - {w}, job);
      assert FileNames(times, job) == FileNames(times - {w}, job) + {FileName(w, job)};
      forall v | v in times - {w}
        ensures FileName(v, job) != FileName(w, job)
      {
        NamesInOrder(v, w, job);
      }
    }
  }

  /** The top names are those of the latest times. */
  lemma TopNamesAreLatest(times: set<When>, job: string, k: nat)
    requires forall w | w in times :: w.Valid()
    ensures Top(FileNames(times, job), k) == FileNames(Latest(times, k), job)
  {
    forall w | w in times
      ensures |Above(FileNames(times, job), FileName(w, job))| == |Later(times, w)|
    {
      forall v | v in times
        ensures Before(FileName(w, job), FileName(v, job)) <==> Earlier(w, v)
      {
        NamesInOrder(w, v, job);
      }
      assert Above(FileNames(times, job), FileName(w, job)) == FileNames(Later(times, w), job);
      AsManyNames(Later(times, w), job);
    }
  }

  // -- the directory ---------------------------------------------------------

  function OfJob(files: set<string>, job: string): set<string> {
    set f | f in files && EndsWith(f, Suffix(job))
  }

  /** Newest name first. */
  ghost predicate Descending(list: seq<string>) {
    forall i, j | 0 <= i < j < |list| :: Before(list[j], list[i])
  }

  function Elems(list: seq<string>): set<string> {
    set n | n in list
  }

  lemma {:induction false} ElemsSize(list: seq<string>)
    requires Descending(list)
    ensures |Elems(list)| == |list|
  {
    if list != [] {
      var front, last := list[..|list| - 1], list[|list| - 1];
      ElemsSize(front);
      assert list == front + [last];
      assert Elems(list) == Elems(front) + {last};
      forall i | 0 <= i < |front|
        ensures front[i] != last
      {
        BeforeIsOrder(last, last, last);
        assert Before(list[|list| - 1], list[i]);
      }
    }
  }

  lemma PlaceIsRank(list: seq<string>, i: nat)
    requires Descending(list) && i < |list|
    ensures |Above(Elems(list), list[i])| == i
  {
    var head := list[..i];
    forall n | n in Elems(list)
      ensures n in head <==> Before(list[i], n)
    {
      var j :| 0 <= j < |list| && list[j] == n;
      BeforeIsOrder(list[i], n, list[i]);
      if j < i { assert head[j] == n; }
    }
    assert Above(Elems(list), list[i]) == Elems(head);
    ElemsSize(head);
  }

  function Surplus(list: seq<string>, k: nat): seq<string> {
    if |list| > k then list[k..] else []
  }

  /** The list without its surplus is the top. */
  lemma SurplusIsTheRest(list: seq<string>, k: nat)
    requires Descending(list)
    ensures Elems(list) - Elems(Surplus(list, k)) == Top(Elems(list), k)
  {
    forall i: nat | i < |list|
      ensures list[i] in Top(Elems(list), k) <==> i < k
      ensures list[i] in Surplus(list, k) <==> k <= i
    {
      PlaceIsRank(list, i);
      if k <= i {
        assert Surplus(list, k)[i - k] == list[i];
      } else if list[i] in Surplus(list, k) {
        var j :| k <= j < |list| && list[j] == list[i];
        PlaceIsRank(list, j);
      }
    }
  }

  lemma OneJobEach(f: string, job: string, other: string)
    requires '-' !in job && '-' !in other && job != other && EndsWith(f, Suffix(job))
    ensures !EndsWith(f, Suffix(other))
  {
    var stamp := f[..|f| - |Suffix(job)|];
    assert f == stamp + Suffix(job);
    SuffixNamesTheJob(stamp, job, other);
  }

  lemma OneFileMore(files: set<string>, w: When, job: string, other: string)
    requires '-' !in job && '-' !in other
    ensures OfJob(files + {FileName(w, job)}, other) ==
            OfJob(files, other) + (if other == job then {FileName(w, job)} else {})
  {
    SuffixNamesTheJob(Render(Fields(w)), job, other);
  }

  /** What pruning a job's files leaves. */
  function Pruned(files: set<string>, job: string, k: nat): set<string> {
    files - OfJob(files, job) + Top(OfJob(files, job), k)
  }

  lemma PruningIsPerJob(files: set<string>, job: string, other: string, k: nat)
    requires '-' !in job && '-' !in other
    ensures OfJob(Pruned(files, job, k), other) ==
            if other == job then Top(OfJob(files, job), k) else OfJob(files, other)
  {
    if other != job {
      forall f | f in files && EndsWith(f, Suffix(job))
        ensures !EndsWith(f, Suffix(other))
      {
        OneJobEach(f, job, other);
      }
    }
  }

  lemma OneTimeMore(history: History, w: When, job: string, other: string)
    ensures FileNames(Times(history + {(w, job)}, other), other) ==
            FileNames(Times(history, other), other) + (if other == job then {FileName(w, job)} else {})
  {
    var more := history + {(w, job)};
    assert forall v :: v in Times(more, other) <==> v in Times(history, other) || (other == job && v == w);
  }

  ghost predicate Kept(files: set<string>, history: History, job: string, k: nat) {
    OfJob(files, job) == Top(FileNames(Times(history, job), job), k)
  }

  lemma StillTop(files: set<string>, names: set<string>, x: string, job: string, other: string, k: nat)
    requires '-' !in job && '-' !in other && OfJob(files, other) == Top(names, k)
    requires OfJob(files + {x}, other) == OfJob(files, other) + (if other == job then {x} else {})
    ensures var after := OfJob(Pruned(files + {x}, job, k), other);
            && after == Top(names + (if other == job then {x} else {}), k)
            && (other != job ==> after == OfJob(files, other))
  {
    PruningIsPerJob(files + {x}, job, other, k);
    if other == job {
      TopOnTheWay(names, k, x);
    } else {
      assert names + {} == names;
    }
  }

  lemma StillKept(files: set<string>, history: History, w: When, job: string, other: string, k: nat)
    requires '-' !in job && '-' !in other && Kept(files, history, other, k)
    ensures var after := Pruned(files + {FileName(w, job)}, job, k);
            && Kept(after, history + {(w, job)}, other, k)
            && (other != job ==> OfJob(after, other) == OfJob(files, other))
  {
    OneFileMore(files, w, job, other);
    OneTimeMore(history, w, job, other);
    StillTop(files, FileNames(Times(history, other), other), FileName(w, job), job, other, k);
  }

  class Archive {
    var files: set<string>
    ghost var history: History

    /** Whatever has been archived, a job's files are its latest. */
    ghost predicate Valid()
      reads this
    {
      AllValid(history) && forall job | '-' !in job :: Kept(files, history, job, KEEP_PER_JOB)
    }

    constructor ()
      ensures Valid() && files == {} && history == {}
    {
      files, history := {}, {};
    }

    /** `_files` */
    method Files(job: string) returns (list: seq<string>)
      ensures Descending(list) && OfJob(files, job) == Elems(list)
    {
      var rest := OfJob(files, job);
      list := [];
      while rest != {}
        invariant Descending(list)
        invariant rest <= OfJob(files, job) && rest !! Elems(list)
        invariant OfJob(files, job) == rest + Elems(list)
        invariant forall n, m | n in rest && m in list :: Before(n, m)
        decreases rest
      {
        var top := NewestOf(rest);
        assert Elems(list + [top]) == Elems(list) + {top};
        list := list + [top];
        rest := rest - {top};
      }
    }

    method NewestOf(names: set<string>) returns (top: string)
      requires names != {}
      ensures top in names && forall n | n in names && n != top :: Before(n, top)
    {
      top :| top in names;
      var rest := names - {top};
      while rest != {}
        invariant rest <= names - {top} && top in names
        invariant forall n | n in names && n != top && n !in rest :: Before(n, top)
        decreases rest
      {
        var n :| n in rest;
        BeforeIsOrder(top, n, n);
        rest := rest - {n};
        if Before(top, n) {
          BelowToo(names, rest, top, n);
          top := n;
        }
      }
    }

    /** `_prune` */
    method Prune(job: string)
      modifies this`files
      ensures files == Pruned(old(files), job, KEEP_PER_JOB)
    {
      var list := Files(job);
      var surplus := Surplus(list, KEEP_PER_JOB);
      ghost var was := files;
      for i := 0 to |surplus|
        invariant files == was - Elems(surplus[..i])
      {
        assert Elems(surplus[..i + 1]) == Elems(surplus[..i]) + {surplus[i]} by {
          assert surplus[..i + 1] == surplus[..i] + [surplus[i]];
        }
        files := files - {surplus[i]};
      }
      assert surplus[..|surplus|] == surplus;
      SurplusIsTheRest(list, KEEP_PER_JOB);
    }

    /** `archive`, of a run that ended at `w`. */
    method Add(w: When, job: string)
      requires Valid() && w.Valid() && '-' !in job
      modifies this
      ensures Valid() && history == old(history) + {(w, job)}
      ensures forall other | '-' !in other && other != job :: OfJob(files, other) == OfJob(old(files), other)
    {
      ghost var was, before := files, history;
      files := files + {FileName(w, job)};
      history := history + {(w, job)};
      Prune(job);
      forall other | '-' !in other
        ensures Kept(files, history, other, KEEP_PER_JOB)
        ensures other != job ==> OfJob(files, other) == OfJob(was, other)
      {
        StillKept(was, before, w, job, other, KEEP_PER_JOB);
      }
    }

    /** In terms of times: of every job exactly the latest are kept, no more than the cap. */
    lemma KeepsTheLatest(job: string)
      requires Valid() && '-' !in job
      ensures OfJob(files, job) == FileNames(Latest(Times(history, job), 400), job)
      ensures |OfJob(files, job)| <= 400
    {
      TopNamesAreLatest(Times(history, job), job, KEEP_PER_JOB);
      TopIsSmall(FileNames(Times(history, job), job), KEEP_PER_JOB);
    }
  }

  lemma BelowToo(names: set<string>, rest: set<string>, top: string, n: string)
    requires Before(top, n)
    requires forall m | m in names && m != top && m != n && m !in rest :: Before(m, top)
    ensures forall m | m in names && m != n && m !in rest :: Before(m, n)
  {
    forall m | m in names && m != n && m !in rest
      ensures Before(m, n)
    {
      BeforeIsOrder(m, top, n);
    }
  }
}
