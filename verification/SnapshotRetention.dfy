/** What daily/, weekly/ and monthly/ should hold, computed from the whole history. */
module SnapshotRetention {
  import opened SnapshotFs
  import opened SnapshotPull

  /** The distinct keys of a history, in order of first appearance. */
  ghost function KeySeq(key: RunId -> int, pub: seq<RunId>): seq<int> {
    if pub == [] then []
    else
      var ks := KeySeq(key, pub[..|pub| - 1]);
      var k := key(pub[|pub| - 1]);
      if Has(ks, k) then ks else ks + [k]
  }

  /** The first run published under a key; 0 if there is none. */
  ghost function FirstRun(key: RunId -> int, pub: seq<RunId>, k: int): RunId {
    if pub == [] then 0 else if key(pub[0]) == k then pub[0] else FirstRun(key, pub[1..], k)
  }

  ghost predicate Seen(key: RunId -> int, pub: seq<RunId>, k: int) {
    exists i :: 0 <= i < |pub| && key(pub[i]) == k
  }

  ghost predicate Has(xs: seq<int>, x: int) {
    exists i :: 0 <= i < |xs| && xs[i] == x
  }

  function Drop(n: int, keep: int): int {
    if keep <= 0 then n else if n > keep then n - keep else 0
  }

  /** The last `keep` elements. */
  function Tail<T>(xs: seq<T>, keep: int): seq<T> {
    xs[Drop(|xs|, keep)..]
  }

  ghost predicate Monotone(key: RunId -> int) {
    forall a, b | a <= b :: key(a) <= key(b)
  }

  lemma {:induction false} KeySeqHas(key: RunId -> int, pub: seq<RunId>, k: int)
    ensures Has(KeySeq(key, pub), k) <==> Seen(key, pub, k)
  {
    if pub != [] {
      var n := |pub| - 1;
      var init := pub[..n];
      KeySeqHas(key, init, k);
      KeySeqHas(key, init, key(pub[n]));
      var ks := KeySeq(key, init);
      if Has(ks, k) {
        var i :| 0 <= i < |init| && key(init[i]) == k;
        assert key(pub[i]) == k;
        var j :| 0 <= j < |ks| && ks[j] == k;
        assert KeySeq(key, pub)[j] == k;
      }
      if k == key(pub[n]) && !Has(ks, k) {
        assert KeySeq(key, pub) == ks + [k];
        assert KeySeq(key, pub)[|ks|] == k;
      }
      if i :| 0 <= i < |pub| && key(pub[i]) == k {
        if i < n { assert key(init[i]) == k; }
      }
    }
  }

  lemma {:induction false} KeySeqIncreasing(key: RunId -> int, pub: seq<RunId>)
    requires Increasing(pub) && Monotone(key)
    ensures Increasing(KeySeq(key, pub))
    ensures pub != [] ==> KeySeq(key, pub) != [] && KeySeq(key, pub)[|KeySeq(key, pub)| - 1] == key(pub[|pub| - 1])
  {
    if pub != [] {
      var n := |pub| - 1;
      var init := pub[..n];
      KeySeqIncreasing(key, init);
      var ks := KeySeq(key, init);
      forall j | 0 <= j < |ks| ensures ks[j] <= key(pub[n]) {
        assert Has(ks, ks[j]);
        KeySeqHas(key, init, ks[j]);
        var i :| 0 <= i < |init| && key(init[i]) == ks[j];
        assert pub[i] == init[i];
      }
      if Has(ks, key(pub[n])) {
        var j :| 0 <= j < |ks| && ks[j] == key(pub[n]);
        assert ks[j] <= ks[|ks| - 1] <= key(pub[n]);
      }
    }
  }

  lemma {:induction false} FirstRunMeaning(key: RunId -> int, pub: seq<RunId>, k: int)
    requires Seen(key, pub, k)
    ensures exists i :: 0 <= i < |pub| && pub[i] == FirstRun(key, pub, k) && key(pub[i]) == k
                        && forall j | 0 <= j < i :: key(pub[j]) != k
  {
    if key(pub[0]) != k {
      var rest := pub[1..];
      var i :| 0 <= i < |pub| && key(pub[i]) == k;
      assert key(rest[i - 1]) == k;
      FirstRunMeaning(key, rest, k);
      var x :| 0 <= x < |rest| && rest[x] == FirstRun(key, rest, k) && key(rest[x]) == k
               && forall j | 0 <= j < x :: key(rest[j]) != k;
      forall j | 0 <= j < x + 1 ensures key(pub[j]) != k {
        if j > 0 { assert key(rest[j - 1]) != k; }
      }
      assert pub[x + 1] == rest[x];
    }
  }

  lemma {:induction false} FirstRunSnoc(key: RunId -> int, pub: seq<RunId>, r: RunId, k: int)
    ensures Seen(key, pub, k) ==> FirstRun(key, pub + [r], k) == FirstRun(key, pub, k)
    ensures !Seen(key, pub, k) && key(r) == k ==> FirstRun(key, pub + [r], k) == r
  {
    if pub == [] {
      assert (pub + [r])[1..] == [];
    } else if key(pub[0]) == k {
      assert Seen(key, pub, k);
    } else {
      var rest := pub[1..];
      assert (pub + [r])[1..] == rest + [r];
      FirstRunSnoc(key, rest, r, k);
      if Seen(key, pub, k) {
        var i :| 0 <= i < |pub| && key(pub[i]) == k;
        assert key(rest[i - 1]) == k;
      } else {
        forall i | 0 <= i < |rest| ensures key(rest[i]) != k {
          assert rest[i] == pub[i + 1];
        }
      }
    }
  }

  ghost predicate Holds(s: Backup, p: Point, r: RunId) {
    && p in s.fs.dirs && p in s.origin && s.origin[p] == r
    && r in s.sealed && Contents(s.fs, p) == s.sealed[r]
  }

  /** daily/ is the KEEP_DAILY newest runs ever published. */
  ghost predicate DailyRetained(cfg: Config, s: Backup) {
    && s.base == Drop(|s.pub|, cfg.keepDaily)
    && forall r :: Daily(r) in s.fs.dirs <==> r in Tail(s.pub, cfg.keepDaily)
  }

  /** The directory of p's class that has the given key. */
  function Named(p: Point, k: int): Point {
    match p
    case Daily(_) => Daily(k)
    case Partial(_) => Partial(k)
    case Failed(_) => Failed(k)
    case Weekly(_) => Weekly(k)
    case Monthly(_) => Monthly(k)
  }

  /** p's class is exactly the keys ks, each holding the first run published under it, byte
      for byte as it was published. */
  ghost predicate KeysHeld(s: Backup, p: Point, key: RunId -> int, ks: seq<int>) {
    && Increasing(ks)
    && (forall k :: Named(p, k) in s.fs.dirs <==> Has(ks, k))
    && (forall k | Has(ks, k) :: Seen(key, s.pub, k) && Holds(s, Named(p, k), FirstRun(key, s.pub, k)))
  }

  /** weekly/ is the KEEP_WEEKLY greatest weeks ever seen. */
  ghost predicate WeeklyRetained(cfg: Config, s: Backup) {
    KeysHeld(s, Weekly(0), cfg.week, Tail(KeySeq(cfg.week, s.pub), cfg.keepWeekly))
  }

  /** monthly/ is the KEEP_MONTHLY greatest months ever seen. */
  ghost predicate MonthlyRetained(cfg: Config, s: Backup) {
    KeysHeld(s, Monthly(0), cfg.month, Tail(KeySeq(cfg.month, s.pub), cfg.keepMonthly))
  }

  ghost predicate Retained(cfg: Config, s: Backup) {
    DailyRetained(cfg, s) && WeeklyRetained(cfg, s) && MonthlyRetained(cfg, s)
  }

  /** A key that retention has dropped does not come back: later histories drop it too. */
  lemma DroppedStaysDropped(key: RunId -> int, pub: seq<RunId>, more: seq<RunId>, keep: int, k: int)
    requires Increasing(pub + more) && Monotone(key)
    requires Seen(key, pub, k) && !Has(Tail(KeySeq(key, pub), keep), k)
    ensures !Has(Tail(KeySeq(key, pub + more), keep), k)
  {
    KeySeqHas(key, pub, k);
    KeySeqExtends(key, pub, more);
    KeySeqIncreasing(key, pub + more);
    var ks, all := KeySeq(key, pub), KeySeq(key, pub + more);
    var i :| 0 <= i < |ks| && ks[i] == k;
    forall x | Drop(|ks|, keep) <= x < |ks| ensures ks[x] != k {
      assert Tail(ks, keep)[x - Drop(|ks|, keep)] == ks[x];
    }
    forall j | 0 <= j < |Tail(all, keep)| ensures Tail(all, keep)[j] != k {
      assert Tail(all, keep)[j] == all[Drop(|all|, keep) + j] && all[i] == k;
    }
  }

  lemma {:induction false} KeySeqExtends(key: RunId -> int, pub: seq<RunId>, more: seq<RunId>)
    ensures KeySeq(key, pub) <= KeySeq(key, pub + more)
  {
    if more == [] {
      assert pub + more == pub;
    } else {
      var n := |more| - 1;
      KeySeqExtends(key, pub, more[..n]);
      assert (pub + more)[..|pub| + n] == pub + more[..n];
    }
  }

  /** Where every sequence of pulls starts. */
  lemma InitRetained(cfg: Config, s: Backup)
    requires Init(s)
    ensures Retained(cfg, s)
  {
  }

  // ---------------------------------------------------------------- sorted listings

  /** An increasing list is determined by its elements. */
  lemma {:induction false} IncreasingUnique(xs: seq<int>, ys: seq<int>)
    requires Increasing(xs) && Increasing(ys) && forall x :: Has(xs, x) <==> Has(ys, x)
    ensures xs == ys
  {
    if xs == [] || ys == [] {
      if xs != [] { assert Has(xs, xs[0]); }
      if ys != [] { assert Has(ys, ys[0]); }
    } else {
      var m, n := |xs| - 1, |ys| - 1;
      assert Has(xs, xs[m]) && Has(ys, ys[n]);
      assert xs[m] == ys[n];
      forall x ensures Has(xs[..m], x) <==> Has(ys[..n], x) {
        InitHas(xs, x);
        InitHas(ys, x);
      }
      IncreasingUnique(xs[..m], ys[..n]);
      assert xs == xs[..m] + [xs[m]] && ys == ys[..n] + [ys[n]];
    }
  }

  lemma InitHas(xs: seq<int>, x: int)
    requires Increasing(xs) && xs != []
    ensures Has(xs[..|xs| - 1], x) <==> Has(xs, x) && x != xs[|xs| - 1]
  {
    if Has(xs, x) && x != xs[|xs| - 1] {
      var i :| 0 <= i < |xs| && xs[i] == x;
      assert xs[..|xs| - 1][i] == x;
    }
  }

  lemma TailTail<T>(xs: seq<T>, keep: int)
    ensures Tail(Tail(xs, keep), keep) == Tail(xs, keep)
  {
  }

  /** Pruning after each addition is the same as pruning once at the end. */
  lemma TailSnoc<T>(xs: seq<T>, x: T, keep: int)
    ensures Tail(Tail(xs, keep) + [x], keep) == Tail(xs + [x], keep)
  {
  }

  lemma TailIncreasing(xs: seq<int>, keep: int)
    requires Increasing(xs)
    ensures Increasing(Tail(xs, keep))
  {
  }

  /** Publishing one more run, before retention looks at the class again. */
  lemma KeysAfterPublish(key: RunId -> int, pub: seq<RunId>, r: RunId, keep: int)
    requires Increasing(pub + [r]) && Monotone(key) && keep >= 0
    ensures var k := key(r);
      var before, after := KeySeq(key, pub), KeySeq(key, pub + [r]);
      if Has(before, k) then after == before && (keep >= 1 ==> Has(Tail(before, keep), k))
      else after == before + [k] && Increasing(Tail(before, keep) + [k]) && !Has(Tail(before, keep), k)
  {
    var k := key(r);
    var before := KeySeq(key, pub);
    assert (pub + [r])[..|pub|] == pub;
    KeySeqIncreasing(key, pub + [r]);
    var after := KeySeq(key, pub + [r]);
    if Has(before, k) {
      if keep >= 1 {
        assert Tail(before, keep)[|Tail(before, keep)| - 1] == before[|before| - 1] == k;
      }
    } else {
      TailBelow(before, k, keep);
    }
  }

  lemma TailBelow(before: seq<int>, k: int, keep: int)
    requires Increasing(before + [k]) && keep >= 0
    ensures Increasing(Tail(before, keep) + [k]) && !Has(Tail(before, keep), k)
  {
    var d := Drop(|before|, keep);
    var all, tail := before + [k], Tail(before, keep) + [k];
    forall i, j | 0 <= i < j < |tail| ensures tail[i] < tail[j] {
      assert tail[i] == all[d + i] && tail[j] == all[d + j];
    }
    forall j | 0 <= j < |Tail(before, keep)| ensures Tail(before, keep)[j] != k {
      assert tail[j] == Tail(before, keep)[j] && tail[|tail| - 1] == k;
    }
  }
}
