/** The lockout after wrong passwords: a table of failures, capped, that forgets the oldest first. */
module Lockout {
  import opened Fleet

  const MAX_ATTEMPTS := 5
  const LOCKOUT_SECONDS := 300.0
  const MAX_TRACKED := 1024

  /** Who a failure is counted against: a client, and the account it tried or `UNKNOWN`. */
  datatype Key = Key(client: string, account: string)
  const UNKNOWN := "\0unknown"

  datatype Record = Record(count: nat, lockedUntil: real, last: real)
  const BLANK := Record(0, 0.0, 0.0)

  /** `int(x)`: towards zero. */
  function Trunc(x: real): int {
    if x >= 0.0 then x.Floor else -(-x).Floor
  }

  function At(table: map<Key, Record>, key: Key): Option<Record> {
    if key in table then Some(table[key]) else None
  }

  /** `_locked_for`; the clock is read twice. */
  function LockedFor(r: Option<Record>, t1: real, t2: real): int {
    if r.Some? && r.value.lockedUntil > t1 then Trunc(r.value.lockedUntil - t2) else 0
  }

  /** What one more failure makes of a record. */
  function Counted(r: Option<Record>, now: real): Record {
    var was := if r.Some? then r.value else BLANK;
    var count := (if now - was.last > LOCKOUT_SECONDS then 0 else was.count) + 1;
    if count >= MAX_ATTEMPTS then Record(0, now + LOCKOUT_SECONDS, now) else Record(count, was.lockedUntil, now)
  }

  /** The last fraction of a second of a lock is free: seen at one instant, it refuses exactly
      while a whole second is left. */
  lemma LockHoldsUntilItsLastSecond(r: Record, now: real)
    ensures LockedFor(Some(r), now, now) != 0 <==> r.lockedUntil - now >= 1.0
  {
    var left := r.lockedUntil - now;
    if left > 0.0 { assert left.Floor as real <= left < left.Floor as real + 1.0; }
  }

  // -- a stale record is as good as none -------------------------------------

  predicate Stale(r: Record, now: real) {
    r.lockedUntil <= now && now - r.last > LOCKOUT_SECONDS
  }

  predicate Gone(r: Option<Record>, now: real) {
    r.None? || Stale(r.value, now)
  }

  /** Nothing done from `now` on can tell the two apart. */
  predicate Agree(a: Option<Record>, b: Option<Record>, now: real) {
    || (Gone(a, now) && Gone(b, now))
    || (a.Some? && b.Some? && a.value.count == b.value.count && a.value.last == b.value.last &&
        (a.value.lockedUntil == b.value.lockedUntil || (a.value.lockedUntil <= now && b.value.lockedUntil <= now)))
  }

  /** The failures that still count. */
  function CountAt(r: Option<Record>, now: real): nat {
    if r.None? || now - r.value.last > LOCKOUT_SECONDS then 0 else r.value.count
  }

  /** Records that agree take the same decision at any later time, hold the same count, and agree
      after another failure and for ever. */
  lemma AgreeForEver(a: Option<Record>, b: Option<Record>, now: real, t1: real, t2: real)
    requires Agree(a, b, now) && 0.0 <= now <= t1
    ensures LockedFor(a, t1, t2) == LockedFor(b, t1, t2)
    ensures CountAt(a, t1) == CountAt(b, t1)
    ensures Agree(a, b, t1)
    ensures Agree(Some(Counted(a, t1)), Some(Counted(b, t1)), t1)
  {
  }

  // -- the rate --------------------------------------------------------------

  /** In time order, and any six in a row more than 299 seconds apart from first to last. */
  predicate Spaced(f: seq<real>) {
    var n := |f|;
    n == 0 || (Spaced(f[..n - 1]) && (n >= 2 ==> f[n - 2] <= f[n - 1]) && (n >= 6 ==> f[n - 1] - f[n - 6] > 299.0))
  }

  lemma {:induction false} SpacedOut(f: seq<real>, i: nat, j: nat)
    requires Spaced(f) && i <= j < |f|
    ensures f[i] <= f[j]
    ensures j >= i + 5 ==> f[j] - f[i] > 299.0
  {
    var n := |f|;
    var front := f[..n - 1];
    if j < n - 1 {
      SpacedOut(front, i, j);
      assert f[i] == front[i] && f[j] == front[j];
    } else if i < n - 1 {
      SpacedOut(front, i, n - 2);
      if j > i + 5 {
        assert front[i] == f[i] && front[n - 2] == f[n - 2];
      }
    }
  }

  /** Where the failures a record counts begin: at the very first one, or after a pause. */
  ghost predicate CountsFrom(f: seq<real>, r: Record) {
    && f != [] && r.last == f[|f| - 1] && r.count < MAX_ATTEMPTS && r.count <= |f|
    && (r.count == 0 ==> r.lockedUntil == r.last + LOCKOUT_SECONDS)
    && (0 < r.count < |f| ==> f[|f| - r.count] - f[|f| - r.count - 1] > 299.0)
  }

  /** A table's record follows the failures `f` of its key. */
  ghost predicate Tracks(f: seq<real>, r: Option<Record>, now: real) {
    && Spaced(f)
    && (f != [] ==> f[|f| - 1] <= now)
    && (r.None? ==> f == [] || now - f[|f| - 1] > LOCKOUT_SECONDS)
    && (r.Some? ==> CountsFrom(f, r.value))
  }

  lemma RefusedWhileLocked(r: Record, t1: real, t2: real)
    requires t1 <= t2 && LockedFor(Some(r), t1, t2) == 0
    ensures t2 > r.lockedUntil - 1.0
  {
    var left := r.lockedUntil - t2;
    assert left.Floor as real <= left < left.Floor as real + 1.0;
  }

  lemma CountStep(f: seq<real>, r: Option<Record>, t1: real, t2: real, t3: real)
    requires Tracks(f, r, t3) && t1 <= t2 <= t3 && LockedFor(r, t1, t2) == 0
    ensures var count := (if r.Some? && t3 - r.value.last <= LOCKOUT_SECONDS then r.value.count else 0) + 1;
            && count <= |f| + 1
            && (count <= |f| ==> (f + [t3])[|f| + 1 - count] - (f + [t3])[|f| - count] > 299.0)
  {
    if r.Some? && r.value.count == 0 {
      RefusedWhileLocked(r.value, t1, t2);
    }
  }

  /** A wrong password that was checked keeps the record in step. */
  lemma TrackStep(f: seq<real>, r: Option<Record>, t1: real, t2: real, t3: real)
    requires Tracks(f, r, t3) && t1 <= t2 <= t3 && LockedFor(r, t1, t2) == 0
    ensures Tracks(f + [t3], Some(Counted(r, t3)), t3)
  {
    CountStep(f, r, t1, t2, t3);
    var g := f + [t3];
    var n := |f|;
    assert g[..n] == f;
    var count := (if r.Some? && t3 - r.value.last <= LOCKOUT_SECONDS then r.value.count else 0) + 1;
    if n >= 5 {
      SpacedOut(f, n - 5, n - count);
      if count > 1 { SpacedOut(f, n + 1 - count, n - 1); }
    }
  }

  function Within(f: seq<real>, start: real, length: real): set<int> {
    set i | 0 <= i < |f| && start <= f[i] <= start + length
  }

  lemma FromTheFirst(f: seq<real>, start: real, length: real, first: nat)
    requires Spaced(f) && length <= 299.0
    requires first < |f| && start <= f[first] && forall i | 0 <= i < first :: f[i] < start
    ensures Within(f, start, length) <= {first, first + 1, first + 2, first + 3, first + 4}
  {
    forall i | first + 5 <= i < |f|
      ensures f[i] > start + length
    {
      SpacedOut(f, first, i);
    }
  }

  /** Hence at most five of them fall in any closed interval of 299 seconds. */
  lemma AtMostFive(f: seq<real>, start: real, length: real)
    requires Spaced(f) && length <= 299.0
    ensures |Within(f, start, length)| <= 5
  {
    if Within(f, start, length) != {} {
      var first := LeastIndex(f, start);
      FromTheFirst(f, start, length, first);
      var five := {first, first + 1, first + 2, first + 3, first + 4};
      assert five == Within(f, start, length) + (five - Within(f, start, length));
    }
  }

  lemma LeastIndex(f: seq<real>, start: real) returns (first: nat)
    requires exists i :: 0 <= i < |f| && start <= f[i]
    ensures first < |f| && start <= f[first] && forall i | 0 <= i < first :: f[i] < start
  {
    first := 0;
    while f[first] < start
      invariant first < |f|
      invariant forall i | 0 <= i < first :: f[i] < start
      decreases |f| - first
    {
      first := first + 1;
    }
  }

  /** The record of a key after the failures `f`. */
  function RecordAfter(f: seq<real>): Option<Record> {
    if f == [] then None else Some(Counted(RecordAfter(f[..|f| - 1]), f[|f| - 1]))
  }

  /** A wrong password, looked up at `t1` and `t2` and counted at `t3`, after the failures `f`. */
  ghost predicate MayFail(f: seq<real>, t1: real, t2: real, t3: real) {
    (f != [] ==> f[|f| - 1] <= t1) && t1 <= t2 <= t3 && LockedFor(RecordAfter(f), t1, t2) == 0
  }

  ghost predicate FailsAt(f: seq<real>, now: real) {
    exists t1, t2 :: MayFail(f, t1, t2, now)
  }

  /** Wrong passwords of one key that were all let through to the check. */
  ghost predicate Checked(f: seq<real>) {
    f == [] || (Checked(f[..|f| - 1]) && FailsAt(f[..|f| - 1], f[|f| - 1]))
  }

  lemma {:induction false} CheckedIsSpaced(f: seq<real>)
    requires Checked(f)
    ensures Spaced(f)
    ensures f != [] ==> Tracks(f, RecordAfter(f), f[|f| - 1])
  {
    if f != [] {
      var front, last := f[..|f| - 1], f[|f| - 1];
      CheckedIsSpaced(front);
      var t1, t2 :| MayFail(front, t1, t2, last);
      TrackStep(front, RecordAfter(front), t1, t2, last);
      assert f == front + [last];
    }
  }

  lemma CheckedOnceMore(f: seq<real>, now: real)
    requires Checked(f) && MayFail(f, now, now, now)
    ensures Checked(f + [now]) && RecordAfter(f + [now]) == Some(Counted(RecordAfter(f), now))
  {
    assert (f + [now])[..|f + [now]| - 1] == f && (f + [now])[|f + [now]| - 1] == now;
    assert FailsAt(f, now);
  }

  // -- when exactly the lock holds -------------------------------------------

  /** Failures in a row, each at most 300 seconds after the one before. */
  function Streak(f: seq<real>): nat {
    var n := |f|;
    if n == 0 then 0
    else if n >= 2 && f[n - 1] - f[n - 2] <= 300.0 then Streak(f[..n - 1]) + 1
    else 1
  }

  /** The record counts the row modulo five, and locks at every fifth. */
  ghost predicate CountsTheRow(f: seq<real>, r: Option<Record>) {
    if f == [] then r.None?
    else
      && r.Some? && r.value.count == Streak(f) % 5 && r.value.last == f[|f| - 1]
      && (if Streak(f) % 5 == 0 then r.value.lockedUntil == r.value.last + 300.0
          else r.value.lockedUntil < r.value.last + 1.0)
  }

  lemma RowGoesOn(f: seq<real>, t1: real, t2: real, now: real)
    requires CountsTheRow(f, RecordAfter(f)) && MayFail(f, t1, t2, now) && 0.0 <= now
    ensures CountsTheRow(f + [now], Some(Counted(RecordAfter(f), now)))
  {
    assert (f + [now])[..|f + [now]| - 1] == f;
    if f != [] && Streak(f) % 5 == 0 {
      RefusedWhileLocked(RecordAfter(f).value, t1, t2);
    }
  }

  /** Checked failures, since the clock began and up to `now`. */
  ghost predicate Genuine(f: seq<real>, now: real) {
    Checked(f) && (f != [] ==> 0.0 <= f[0] && f[|f| - 1] <= now)
  }

  lemma {:induction false} GenuineCount(f: seq<real>, now: real)
    requires Genuine(f, now)
    ensures CountsTheRow(f, RecordAfter(f)) && (f != [] ==> 0.0 <= f[|f| - 1])
  {
    if f != [] {
      var front, last := f[..|f| - 1], f[|f| - 1];
      var t1, t2 :| MayFail(front, t1, t2, last);
      GenuineCount(front, last);
      RowGoesOn(front, t1, t2, last);
      assert f == front + [last];
    }
  }

  /** A key is refused exactly after every fifth failure in a row, for as long as a second of the 300 is
      left: not after fewer, and not longer. */
  lemma LockedExactlyAfterFive(f: seq<real>, now: real)
    requires Genuine(f, now)
    ensures LockedFor(RecordAfter(f), now, now) != 0 <==>
              f != [] && Streak(f) % 5 == 0 && now - f[|f| - 1] <= 299.0
  {
    GenuineCount(f, now);
    if f != [] {
      LockHoldsUntilItsLastSecond(RecordAfter(f).value, now);
    }
  }

  function Ones(n: nat): (f: seq<real>)
    ensures |f| == n && forall i | 0 <= i < n :: f[i] == 1.0
  {
    if n == 0 then [] else Ones(n - 1) + [1.0]
  }

  lemma OneMoreAtOnce(n: nat)
    requires n < 5
    ensures var was := if n == 0 then None else Some(Record(n, 0.0, 1.0));
            && LockedFor(was, 1.0, 1.0) == 0
            && Counted(was, 1.0) == if n == 4 then Record(0, 301.0, 1.0) else Record(n + 1, 0.0, 1.0)
  {
  }

  /** Five wrong passwords at one instant are all checked. */
  lemma {:induction false} FiveAtOnce(n: nat)
    requires n <= 5
    ensures Checked(Ones(n))
    ensures RecordAfter(Ones(n)) == if n == 0 then None
                                    else Some(if n == 5 then Record(0, 301.0, 1.0) else Record(n, 0.0, 1.0))
  {
    if n > 0 {
      FiveAtOnce(n - 1);
      OneMoreAtOnce(n - 1);
      assert MayFail(Ones(n - 1), 1.0, 1.0, 1.0);
      CheckedOnceMore(Ones(n - 1), 1.0);
    }
  }

  /** And a sixth when less than a second of the lock is left. */
  lemma SixthIsChecked(now: real)
    requires 300.0 < now
    ensures Checked(Ones(5) + [now])
  {
    FiveAtOnce(5);
    LockHoldsUntilItsLastSecond(Record(0, 301.0, 1.0), now);
    CheckedOnceMore(Ones(5), now);
  }

  /** Of one key's checked wrong passwords at most five fall in every closed interval of `length`
      seconds, exactly when that is at most 299: a lock of 300 is free for its last fraction. */
  lemma AtMostFiveIff(length: real)
    ensures (forall f, start | Checked(f) :: |Within(f, start, length)| <= 5) <==> length <= 299.0
  {
    forall f, start | Checked(f) && length <= 299.0
      ensures |Within(f, start, length)| <= 5
    {
      CheckedIsSpaced(f);
      AtMostFive(f, start, length);
    }
    if length > 299.0 {
      var f := Ones(5) + [1.0 + length];
      SixthIsChecked(1.0 + length);
      assert Within(f, 1.0, length) == {0, 1, 2, 3, 4, 5};
      assert |{0, 1, 2, 3, 4, 5}| == 6;
    }
  }

  // -- the table -------------------------------------------------------------

  datatype Outcome = Refused(seconds: int) | Wrong | Right

  function Times(wrong: map<Key, seq<real>>, key: Key): seq<real> {
    if key in wrong then wrong[key] else []
  }

  /** The failures known after some were forgotten and at most one was added. */
  ghost predicate Timed(before: map<Key, seq<real>>, cleared: set<Key>, added: Option<(Key, real)>,
                        after: map<Key, seq<real>>) {
    forall k :: Times(after, k) ==
      (if k in cleared then [] else Times(before, k)) +
        (if added.Some? && k == added.value.0 then [added.value.1] else [])
  }

  lemma TimedThenAdded(before: map<Key, seq<real>>, cleared: set<Key>, middle: map<Key, seq<real>>, key: Key, now: real)
    requires Timed(before, cleared, None, middle)
    ensures Timed(before, cleared, Some((key, now)), middle[key := Times(middle, key) + [now]])
  {
    forall k
      ensures Times(middle[key := Times(middle, key) + [now]], k) ==
              (if k in cleared then [] else Times(before, k)) + (if k == key then [now] else [])
    {
      assert Times(middle, k) == (if k in cleared then [] else Times(before, k)) + [];
    }
  }

  ghost predicate TableInStep(failures: map<Key, Record>, uncapped: map<Key, Record>, lost: set<Key>,
                              wrong: map<Key, seq<real>>, now: real) {
    && (forall k :: k !in lost ==> Agree(At(failures, k), At(uncapped, k), now))
    && (forall k :: Tracks(Times(wrong, k), At(failures, k), now))
    && Recounted(uncapped, lost, wrong, now)
  }

  /** Of a key that lost nothing, the uncapped table has what its failures since its last success make. */
  ghost predicate Recounted(uncapped: map<Key, Record>, lost: set<Key>, wrong: map<Key, seq<real>>, now: real) {
    forall k :: k !in lost ==> At(uncapped, k) == RecordAfter(Times(wrong, k)) && Genuine(Times(wrong, k), now)
  }

  lemma RecountedLater(uncapped: map<Key, Record>, lost: set<Key>, wrong: map<Key, seq<real>>, now: real, later: real)
    requires Recounted(uncapped, lost, wrong, now) && now <= later
    ensures Recounted(uncapped, lost, wrong, later)
  {
  }

  lemma RecountedMore(uncapped: map<Key, Record>, lost: set<Key>, wrong: map<Key, seq<real>>, key: Key, t1: real,
                      t2: real, now: real)
    requires Recounted(uncapped, lost, wrong, now) && 0.0 <= now
    requires key !in lost ==> MayFail(Times(wrong, key), t1, t2, now)
    ensures Recounted(uncapped[key := Counted(At(uncapped, key), now)], lost,
                      wrong[key := Times(wrong, key) + [now]], now)
  {
    var f := Times(wrong, key);
    assert (f + [now])[..|f + [now]| - 1] == f;
    if key !in lost {
      assert FailsAt(f, now);
    }
    forall k | k !in lost && k != key
      ensures Times(wrong[key := f + [now]], k) == Times(wrong, k)
    {
    }
  }

  class Guard {
    var failures: map<Key, Record>
    /** The table if it had no cap, fed the same failures and successes. */
    ghost var uncapped: map<Key, Record>
    /** Keys that lost a live record to the cap since their last success. */
    ghost var lost: set<Key>
    /** When a key's wrong passwords were counted, since its last success or loss. */
    ghost var wrong: map<Key, seq<real>>
    ghost var clock: real

    ghost predicate InStep(now: real)
      reads this
    {
      TableInStep(failures, uncapped, lost, wrong, now)
    }

    ghost predicate Valid()
      reads this
    {
      0.0 <= clock && |failures| <= MAX_TRACKED && InStep(clock)
    }

    constructor ()
      ensures Valid() && failures == map[]
    {
      failures, uncapped, lost, wrong, clock := map[], map[], {}, map[], 0.0;
    }

    lemma Later(now: real)
      requires Valid() && clock <= now
      ensures InStep(now)
    {
      forall k | k !in lost
        ensures Agree(At(failures, k), At(uncapped, k), now)
      {
        AgreeForEver(At(failures, k), At(uncapped, k), clock, now, now);
      }
      forall k
        ensures Tracks(Times(wrong, k), At(failures, k), now)
      {
        assert Tracks(Times(wrong, k), At(failures, k), clock);
      }
      RecountedLater(uncapped, lost, wrong, clock, now);
    }

    /** The loop over stale records. */
    method DropStale(now: real)
      requires InStep(now)
      modifies this`failures
      ensures InStep(now)
      ensures forall k :: k in failures <==> k in old(failures) && !Stale(old(failures)[k], now)
      ensures forall k | k in failures :: failures[k] == old(failures)[k]
      ensures |failures| <= |old(failures)|
    {
      var stale := set k | k in failures && Stale(failures[k], now);
      ghost var was := failures;
      ghost var all := stale;
      while stale != {}
        invariant stale <= all && InStep(now)
        invariant failures == was - (all - stale)
        invariant |failures| <= |was|
        decreases stale
      {
        var k :| k in stale;
        DropOne(k, now);
        stale := stale - {k};
      }
    }

    method DropOne(k: Key, now: real)
      requires InStep(now) && k in failures && Stale(failures[k], now)
      modifies this`failures
      ensures InStep(now) && failures == old(failures) - {k} && |failures| < |old(failures)|
    {
      ghost var before := failures;
      failures := failures - {k};
      Shrinks(before, k);
      StaleIsGone(before, k, now);
    }

    lemma StaleIsGone(before: map<Key, Record>, k: Key, now: real)
      requires k in before && Stale(before[k], now) && failures == before - {k}
      requires forall j :: j !in lost ==> Agree(At(before, j), At(uncapped, j), now)
      requires forall j :: Tracks(Times(wrong, j), At(before, j), now)
      requires Recounted(uncapped, lost, wrong, now)
      ensures InStep(now)
    {
      forall j
        ensures j !in lost ==> Agree(At(failures, j), At(uncapped, j), now)
        ensures Tracks(Times(wrong, j), At(failures, j), now)
      {
        assert Tracks(Times(wrong, j), At(before, j), now);
        if j != k { assert At(failures, j) == At(before, j); }
      }
    }

    /** `min(_failures, key=...last)` */
    method Oldest() returns (key: Key)
      requires failures.Keys != {}
      ensures key in failures && forall k | k in failures :: failures[key].last <= failures[k].last
    {
      key :| key in failures;
      var rest := failures.Keys - {key};
      while rest != {}
        invariant rest <= failures.Keys && key in failures
        invariant forall k | k in failures && k !in rest :: failures[key].last <= failures[k].last
        decreases rest
      {
        var k :| k in rest;
        rest := rest - {k};
        if failures[k].last < failures[key].last {
          key := k;
        }
      }
    }

    /** The loop that makes room: the oldest go first, and a live one that goes is lost. */
    method MakeRoom(now: real)
      requires InStep(now)
      modifies this`failures, this`lost, this`wrong
      ensures InStep(now) && |failures| < MAX_TRACKED
      ensures OldestWent(old(failures), failures)
      ensures lost == old(lost) + (old(failures).Keys - failures.Keys)
      ensures WrongFollows(old(failures), old(wrong), failures, wrong)
      ensures |old(failures)| < MAX_TRACKED ==> failures == old(failures)
    {
      ghost var was, lostBefore, wrongBefore := failures, lost, wrong;
      while |failures| >= MAX_TRACKED
        invariant InStep(now) && OldestWent(was, failures)
        invariant lost == lostBefore + (was.Keys - failures.Keys)
        invariant WrongFollows(was, wrongBefore, failures, wrong)
        invariant |was| < MAX_TRACKED ==> failures == was
        decreases |failures|
      {
        var k := Oldest();
        OldestWentStep(was, failures, k);
        LostStep(was, failures, lostBefore, k);
        WrongFollowsStep(was, wrongBefore, failures, wrong, k);
        Forget(k, now);
      }
    }

    method Forget(key: Key, now: real)
      requires InStep(now) && key in failures
      modifies this`failures, this`lost, this`wrong
      ensures InStep(now) && failures == old(failures) - {key}
      ensures lost == old(lost) + {key} && wrong == old(wrong)[key := []]
      ensures |failures| == |old(failures)| - 1
    {
      ghost var before, tracked := failures, wrong;
      failures := failures - {key};
      lost, wrong := lost + {key}, wrong[key := []];
      Shrinks(before, key);
      forall j
        ensures j !in lost ==> Agree(At(failures, j), At(uncapped, j), now)
        ensures Tracks(Times(wrong, j), At(failures, j), now)
      {
        if j != key {
          assert At(failures, j) == At(before, j);
          assert Times(wrong, j) == Times(tracked, j);
        }
      }
    }

    /** What `_record_failure` does to a full table. */
    method Prune(now: real) returns (ghost evicted: set<Key>)
      requires InStep(now)
      modifies this`failures, this`lost, this`wrong
      ensures InStep(now) && |failures| < MAX_TRACKED
      ensures Pruned(old(failures), failures, evicted, now)
      ensures lost == old(lost) + evicted
      ensures Timed(old(wrong), evicted, None, wrong)
    {
      evicted := {};
      if |failures| >= MAX_TRACKED {
        ghost var was := failures;
        DropStale(now);
        ghost var live, wrongBefore := failures, wrong;
        MakeRoom(now);
        evicted := live.Keys - failures.Keys;
        PrunedInTwo(was, live, failures, now);
        WrongIsTimed(live, wrongBefore, failures, wrong);
      }
    }

    method Add(key: Key, ghost t1: real, ghost t2: real, now: real)
      requires InStep(now) && 0.0 <= t1 <= t2 <= now && LockedFor(At(failures, key), t1, t2) == 0
      requires key !in lost ==> MayFail(Times(wrong, key), t1, t2, now)
      modifies this`failures, this`uncapped, this`wrong
      ensures InStep(now)
      ensures failures == old(failures)[key := Counted(At(old(failures), key), now)]
      ensures uncapped == old(uncapped)[key := Counted(At(old(uncapped), key), now)]
      ensures wrong == old(wrong)[key := Times(old(wrong), key) + [now]]
    {
      FailureKeepsInStep(failures, uncapped, lost, wrong, key, t1, t2, now);
      failures := failures[key := Counted(At(failures, key), now)];
      uncapped := uncapped[key := Counted(At(uncapped, key), now)];
      wrong := wrong[key := Times(wrong, key) + [now]];
    }

    /** `_record_failure`; the pruning leaves `left`, and the cap pushes out the live `evicted`. */
    method RecordFailure(key: Key, ghost t1: real, ghost t2: real, now: real)
      returns (ghost left: map<Key, Record>, ghost evicted: set<Key>)
      requires Valid() && clock <= t1 <= t2 <= now && LockedFor(At(failures, key), t1, t2) == 0
      modifies this
      ensures Valid() && clock == now
      ensures uncapped == old(uncapped)[key := Counted(At(old(uncapped), key), now)]
      ensures lost == old(lost) + evicted
      ensures Timed(old(wrong), evicted, Some((key, now)), wrong)
      ensures Pruned(old(failures), left, evicted, now) && failures == left[key := Counted(At(left, key), now)]
    {
      MayBeCounted(key, t1, t2, now);
      Later(now);
      evicted := Prune(now);
      left := failures;
      UnlockedWhenPruned(old(failures), left, evicted, now, key, t1, t2);
      TimedThenAdded(old(wrong), evicted, wrong, key, now);
      Add(key, t1, t2, now);
      Grows(left, key, Counted(At(left, key), now));
      clock := now;
    }

    lemma MayBeCounted(key: Key, t1: real, t2: real, now: real)
      requires Valid() && clock <= t1 <= t2 <= now && LockedFor(At(failures, key), t1, t2) == 0
      ensures key !in lost ==> MayFail(Times(wrong, key), t1, t2, now)
    {
      if key !in lost {
        AgreeForEver(At(failures, key), At(uncapped, key), clock, t1, t2);
        assert Genuine(Times(wrong, key), clock);
      }
    }

    /** A key that lost nothing to the cap is refused exactly after every fifth of its failures in a row,
        counted since its last success, while a second of the 300 is left. */
    lemma LockedExactly(key: Key, now: real)
      requires Valid() && key !in lost && clock <= now
      ensures var f := Times(wrong, key);
              LockedFor(At(failures, key), now, now) != 0 <==>
                f != [] && Streak(f) % 5 == 0 && now - f[|f| - 1] <= 299.0
    {
      AgreeForEver(At(failures, key), At(uncapped, key), clock, now, now);
      RecountedLater(uncapped, lost, wrong, clock, now);
      LockedExactlyAfterFive(Times(wrong, key), now);
    }

    /** `verify`, with the clock at `t1` and `t2` when the lock is looked up and at `t3` when a
        failure is counted. `operator` is the account there is, `matches` what bcrypt answers. */
    method Verify(client: string, username: string, operator: Option<string>, matches: bool,
                  t1: real, t2: real, t3: real)
      returns (outcome: Outcome, ghost left: map<Key, Record>, ghost evicted: set<Key>)
      requires Valid() && clock <= t1 <= t2 <= t3
      modifies this
      ensures Valid() && |failures| <= 1024
      ensures var known := operator == Some(username);
              var key := Key(client, if known then username else UNKNOWN);
              && (outcome.Refused? <==> LockedFor(At(old(failures), key), t1, t2) != 0)
              && (key !in old(lost) ==> (outcome.Refused? <==> LockedFor(At(old(uncapped), key), t1, t2) != 0))
              && (!outcome.Refused? ==> (outcome.Right? <==> known && matches))
              && match outcome
                 case Refused(_) =>
                   failures == old(failures) && uncapped == old(uncapped) && lost == old(lost) && wrong == old(wrong)
                 case Wrong =>
                   && Pruned(old(failures), left, evicted, t3) && failures == left[key := Counted(At(left, key), t3)]
                   && uncapped == old(uncapped)[key := Counted(At(old(uncapped), key), t3)]
                   && lost == old(lost) + evicted && Timed(old(wrong), evicted, Some((key, t3)), wrong)
                 case Right =>
                   && failures == old(failures) - {key} && uncapped == old(uncapped) - {key}
                   && lost == old(lost) - {key} && wrong == old(wrong)[key := []]
    {
      var known := operator == Some(username);
      var key := Key(client, if known then username else UNKNOWN);
      var remaining := LockedFor(At(failures, key), t1, t2);
      left, evicted := failures, {};
      if key !in lost {
        AgreeForEver(At(failures, key), At(uncapped, key), clock, t1, t2);
      }
      if remaining != 0 {
        outcome := Refused(remaining);
        Pass(t3);
      } else if known && matches {
        outcome := Right;
        Pass(t3);
        Clear(key);
      } else {
        left, evicted := RecordFailure(key, t1, t2, t3);
        outcome := Wrong;
      }
    }

    /** Between successes and losses, at most five wrong passwords are checked for one key in any
        closed interval of 299 seconds. */
    lemma RateBound(key: Key, start: real)
      requires Valid()
      ensures |Within(Times(wrong, key), start, 299.0)| <= 5
    {
      assert Tracks(Times(wrong, key), At(failures, key), clock);
      AtMostFive(Times(wrong, key), start, 299.0);
    }

    ghost method Pass(now: real)
      requires Valid() && clock <= now
      modifies this`clock
      ensures Valid() && clock == now
    {
      Later(now);
      clock := now;
    }

    /** `_failures.pop(key, None)` */
    method Clear(key: Key)
      requires Valid()
      modifies this`failures, this`uncapped, this`lost, this`wrong
      ensures Valid()
      ensures failures == old(failures) - {key} && uncapped == old(uncapped) - {key}
      ensures lost == old(lost) - {key} && wrong == old(wrong)[key := []]
    {
      SuccessClears(failures, uncapped, lost, wrong, key, clock);
      Fewer(failures, key);
      failures, uncapped := failures - {key}, uncapped - {key};
      lost, wrong := lost - {key}, wrong[key := []];
    }
  }

  /** The records the pruning leaves of `was`: without the stale ones and, of the live ones, without
      `evicted`; only a full table is pruned, and nothing evicted is younger than what stays. */
  ghost predicate Pruned(was: map<Key, Record>, left: map<Key, Record>, evicted: set<Key>, now: real) {
    && left.Keys <= was.Keys && (forall k | k in left :: left[k] == was[k])
    && evicted <= was.Keys && evicted !! left.Keys
    && (forall k | k in was && k !in left && k !in evicted :: Stale(was[k], now))
    && (forall k | k in evicted :: !Stale(was[k], now))
    && (forall k, j | k in evicted && j in left :: was[k].last <= left[j].last)
    && (|was| < MAX_TRACKED ==> left == was)
  }

  lemma UnlockedWhenPruned(was: map<Key, Record>, left: map<Key, Record>, evicted: set<Key>, now: real, key: Key,
                           t1: real, t2: real)
    requires Pruned(was, left, evicted, now) && LockedFor(At(was, key), t1, t2) == 0
    ensures LockedFor(At(left, key), t1, t2) == 0
  {
  }

  lemma PrunedInTwo(was: map<Key, Record>, live: map<Key, Record>, left: map<Key, Record>, now: real)
    requires |was| >= MAX_TRACKED
    requires forall k :: k in live <==> k in was && !Stale(was[k], now)
    requires forall k | k in live :: live[k] == was[k]
    requires OldestWent(live, left)
    ensures Pruned(was, left, live.Keys - left.Keys, now)
  {
  }

  /** What is left are records as they were, none older than one that went. */
  ghost predicate OldestWent(was: map<Key, Record>, left: map<Key, Record>) {
    && left.Keys <= was.Keys && (forall k | k in left :: left[k] == was[k])
    && (forall k, j | k in was && k !in left && j in left :: was[k].last <= was[j].last)
  }

  /** The failures of a key that lost its record are counted anew; nobody else's change. */
  ghost predicate WrongFollows(was: map<Key, Record>, wrongBefore: map<Key, seq<real>>,
                               left: map<Key, Record>, wrong: map<Key, seq<real>>) {
    forall k :: Times(wrong, k) == if k in was && k !in left then [] else Times(wrongBefore, k)
  }

  lemma LostStep(was: map<Key, Record>, left: map<Key, Record>, lost: set<Key>, key: Key)
    requires left.Keys <= was.Keys && key in left
    ensures lost + (was.Keys - left.Keys) + {key} == lost + (was.Keys - (left - {key}).Keys)
  {
    assert (left - {key}).Keys == left.Keys - {key};
  }

  lemma WrongIsTimed(was: map<Key, Record>, wrongBefore: map<Key, seq<real>>,
                     left: map<Key, Record>, wrong: map<Key, seq<real>>)
    requires WrongFollows(was, wrongBefore, left, wrong)
    ensures Timed(wrongBefore, was.Keys - left.Keys, None, wrong)
  {
    forall k
      ensures Times(wrong, k) == (if k in was.Keys - left.Keys then [] else Times(wrongBefore, k)) + []
    {
      assert Times(wrong, k) == if k in was && k !in left then [] else Times(wrongBefore, k);
    }
  }

  lemma WrongFollowsStep(was: map<Key, Record>, wrongBefore: map<Key, seq<real>>,
                         left: map<Key, Record>, wrong: map<Key, seq<real>>, key: Key)
    requires WrongFollows(was, wrongBefore, left, wrong) && key in was
    ensures WrongFollows(was, wrongBefore, left - {key}, wrong[key := []])
  {
    forall k
      ensures Times(wrong[key := []], k) == if k in was && k !in left - {key} then [] else Times(wrongBefore, k)
    {
      assert Times(wrong, k) == if k in was && k !in left then [] else Times(wrongBefore, k);
    }
  }

  lemma OldestWentStep(was: map<Key, Record>, left: map<Key, Record>, k: Key)
    requires OldestWent(was, left) && k in left && forall j | j in left :: left[k].last <= left[j].last
    ensures OldestWent(was, left - {k})
  {
  }

  lemma FailureKeepsInStep(failures: map<Key, Record>, uncapped: map<Key, Record>, lost: set<Key>,
                           wrong: map<Key, seq<real>>, key: Key, t1: real, t2: real, now: real)
    requires TableInStep(failures, uncapped, lost, wrong, now)
    requires 0.0 <= t1 <= t2 <= now && LockedFor(At(failures, key), t1, t2) == 0
    requires key !in lost ==> MayFail(Times(wrong, key), t1, t2, now)
    ensures TableInStep(failures[key := Counted(At(failures, key), now)],
            uncapped[key := Counted(At(uncapped, key), now)],
                        lost, wrong[key := Times(wrong, key) + [now]], now)
  {
    var r, u, w := failures[key := Counted(At(failures, key), now)], uncapped[key := Counted(At(uncapped, key), now)],
                   wrong[key := Times(wrong, key) + [now]];
    RecountedMore(uncapped, lost, wrong, key, t1, t2, now);
    forall k
      ensures k !in lost ==> Agree(At(r, k), At(u, k), now)
      ensures Tracks(Times(w, k), At(r, k), now)
    {
      assert Tracks(Times(wrong, k), At(failures, k), now);
      assert k !in lost ==> Agree(At(failures, k), At(uncapped, k), now);
      if k == key {
        TrackStep(Times(wrong, k), At(failures, k), t1, t2, now);
        if k !in lost {
          AgreeForEver(At(failures, k), At(uncapped, k), now, now, now);
        }
      } else {
        assert At(r, k) == At(failures, k) && At(u, k) == At(uncapped, k) && Times(w, k) == Times(wrong, k);
      }
    }
  }

  lemma SuccessClears(failures: map<Key, Record>, uncapped: map<Key, Record>, lost: set<Key>,
                      wrong: map<Key, seq<real>>, key: Key, now: real)
    requires TableInStep(failures, uncapped, lost, wrong, now)
    ensures TableInStep(failures - {key}, uncapped - {key}, lost - {key}, wrong[key := []], now)
  {
    forall k
      ensures k !in lost - {key} ==> Agree(At(failures - {key}, k), At(uncapped - {key}, k), now)
      ensures Tracks(Times(wrong[key := []], k), At(failures - {key}, k), now)
    {
      assert Tracks(Times(wrong, k), At(failures, k), now);
      if k != key {
        assert At(failures - {key}, k) == At(failures, k) && At(uncapped - {key}, k) == At(uncapped, k);
      }
    }
  }

  lemma Grows(m: map<Key, Record>, k: Key, r: Record)
    ensures |m[k := r]| <= |m| + 1
  {
    assert m[k := r].Keys == m.Keys + {k};
    assert |m[k := r].Keys| == |m[k := r]| && |m.Keys| == |m|;
  }

  lemma Fewer(m: map<Key, Record>, k: Key)
    ensures |m - {k}| <= |m|
  {
    if k in m {
      Shrinks(m, k);
    } else {
      assert m - {k} == m;
    }
  }

  lemma Shrinks(m: map<Key, Record>, k: Key)
    requires k in m
    ensures |m - {k}| == |m| - 1
  {
    assert (m - {k}).Keys == m.Keys - {k};
    assert |m.Keys| == |m| && |(m - {k}).Keys| == |m - {k}|;
  }
}
