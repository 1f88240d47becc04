/** The pull script itself, loop by loop.  Every file-system change goes through `Do`, so a
    run of the script is a path of the machine in SnapshotPull and everything proved there
    about crashes applies between any two of its changes. */
module SnapshotScripts {
  import opened Options
  import opened SnapshotFs
  import opened SnapshotPull
  import opened SnapshotRetention

  // ---------------------------------------------------------------- what a group of steps leaves alone

  ghost predicate SameHistory(a: Backup, b: Backup) {
    b.pub == a.pub && b.base == a.base && b.latest == a.latest && b.latestAt == a.latestAt
    && b.sealed == a.sealed && b.origin == a.origin
  }

  ghost predicate SamePoint(a: Backup, b: Backup, q: Point) {
    (q in b.fs.dirs <==> q in a.fs.dirs) && Contents(b.fs, q) == Contents(a.fs, q)
  }

  ghost predicate SameExcept(a: Backup, b: Backup, p: Point) {
    forall q | q != p :: SamePoint(a, b, q)
  }

  lemma SameExceptTrans(a: Backup, b: Backup, c: Backup, p: Point)
    requires SameExcept(a, b, p) && SameExcept(b, c, p)
    ensures SameExcept(a, c, p)
  {
    forall q | q != p ensures SamePoint(a, c, q) {
      assert SamePoint(a, b, q) && SamePoint(b, c, q);
    }
  }

  ghost predicate SameRecovery(a: Backup, b: Backup) {
    SameHistory(a, b) && forall q | RecoveryPoint(q) :: SamePoint(a, b, q)
  }

  lemma RetainedFrame(cfg: Config, a: Backup, b: Backup)
    requires SameRecovery(a, b) && Retained(cfg, a)
    ensures Retained(cfg, b)
  {
    hide KeysHeld;
    forall r ensures SamePoint(a, b, Daily(r)) && SamePoint(a, b, Weekly(r)) && SamePoint(a, b, Monthly(r)) {
      assert RecoveryPoint(Daily(r)) && RecoveryPoint(Weekly(r)) && RecoveryPoint(Monthly(r));
    }
    KeysHeldFrame(a, b, Weekly(0), cfg.week, Tail(KeySeq(cfg.week, a.pub), cfg.keepWeekly));
    KeysHeldFrame(a, b, Monthly(0), cfg.month, Tail(KeySeq(cfg.month, a.pub), cfg.keepMonthly));
  }

  lemma RemoveFileEffect(cfg: Config, s: Backup, n: Name)
    requires Inv(cfg, s) && Enabled(cfg, s, RemoveFile(n))
    ensures var t := Apply(cfg, s, RemoveFile(n));
      && t == s.(fs := t.fs) && t.fs.dirs.Keys == s.fs.dirs.Keys
      && t.fs.dirs[s.phase.victim] == s.fs.dirs[s.phase.victim] - {n}
      && SameExcept(s, t, s.phase.victim)
  {
    forall q ensures Contents(Unlink(s.fs, s.phase.victim, n), q)
                  == if q == s.phase.victim then Contents(s.fs, q) - {n} else Contents(s.fs, q)
    {
      UnlinkContents(s.fs, s.phase.victim, n, q);
    }
  }

  lemma RemoveDirEffect(cfg: Config, s: Backup)
    requires Inv(cfg, s) && Enabled(cfg, s, RemoveDir)
    ensures var t := Apply(cfg, s, RemoveDir);
      && s.phase.victim !in t.fs.dirs && SameExcept(s, t, s.phase.victim)
      && t == s.(fs := t.fs, phase := s.phase.back,
                 base := if s.phase.victim.Daily? then s.base + 1 else s.base, origin := s.origin - {s.phase.victim})
  {
    RmdirKeeps(s.fs, s.phase.victim);
  }

  /** v is gone, nothing else has changed. */
  ghost predicate Removed(a: Backup, b: Backup, v: Point) {
    && v !in b.fs.dirs && SameExcept(a, b, v)
    && b == a.(fs := b.fs, base := if v.Daily? then a.base + 1 else a.base, origin := a.origin - {v})
  }

  lemma RemovedWhole(a: Backup, b: Backup, c: Backup, d: Backup, v: Point)
    requires b == a.(phase := Removing(v, a.phase)) && c == b.(fs := c.fs) && SameExcept(b, c, v)
    requires v !in d.fs.dirs && SameExcept(c, d, v)
    requires d == c.(fs := d.fs, phase := a.phase, base := if v.Daily? then c.base + 1 else c.base,
                   origin := c.origin - {v})
    ensures Removed(a, d, v)
  {
    SameExceptTrans(b, c, d, v);
    forall q | q != v ensures SamePoint(a, d, q) {
      assert SamePoint(b, d, q);
    }
  }

  // ---------------------------------------------------------------- pruning

  ghost predicate Sorted(ps: seq<Point>) {
    forall i, j | 0 <= i < j < |ps| :: Order(ps[i]) < Order(ps[j])
  }

  function Set(ps: seq<Point>): set<Point> {
    set p | p in ps
  }

  /** The oldest entries, all but `keep` of them, are gone; nothing else has changed. */
  ghost predicate Pruned(a: Backup, b: Backup, p: Point, entries: seq<Point>, gone: int)
  {
    && 0 <= gone <= |entries| && Sorted(entries) && Set(entries) == Class(a, p)
    && Class(b, p) == Set(entries[gone..])
    && (forall q | q !in entries[..gone] :: SamePoint(a, b, q) && (q in b.origin <==> q in a.origin)
                                            && (q in a.origin ==> b.origin[q] == a.origin[q]))
    && b == a.(fs := b.fs, base := if p.Daily? then a.base + gone else a.base, origin := b.origin)
  }

  lemma {:induction false} SortedSize(ps: seq<Point>)
    requires Sorted(ps)
    ensures |Set(ps)| == |ps|
  {
    if ps == [] {
      assert Set(ps) == {};
    } else {
      SortedSize(ps[1..]);
      assert Set(ps) == {ps[0]} + Set(ps[1..]);
      assert ps[0] !in Set(ps[1..]);
    }
  }

  lemma NextIsExcess(cfg: Config, s: Backup, p: Point, rest: seq<Point>)
    requires Sorted(rest) && Set(rest) == Class(s, p) && |rest| > Keep(cfg, p) >= 0
    ensures Excess(cfg, s, rest[0]) && SameClass(p, rest[0])
  {
    SortedSize(rest);
    assert rest[0] in Class(s, p);
    assert Class(s, rest[0]) == Class(s, p);
    forall q | q in Class(s, p) ensures Order(rest[0]) <= Order(q) {
      var i :| 0 <= i < |rest| && rest[i] == q;
    }
  }

  lemma NextToPrune(cfg: Config, a: Backup, s: Backup, p: Point, entries: seq<Point>, i: int)
    requires Pruned(a, s, p, entries, i) && i < |entries| - Keep(cfg, p) && Keep(cfg, p) >= 0
    ensures Excess(cfg, s, entries[i]) && SameClass(p, entries[i]) && s.phase == a.phase
  {
    hide Class, Set, Excess;
    SortedSuffix(entries, i);
    NextIsExcess(cfg, s, p, entries[i..]);
  }

  lemma SortedSuffix(ps: seq<Point>, i: int)
    requires Sorted(ps) && 0 <= i <= |ps|
    ensures Sorted(ps[i..])
  {
  }

  lemma PrunedStart(a: Backup, p: Point, entries: seq<Point>)
    requires Sorted(entries) && Set(entries) == Class(a, p)
    ensures Pruned(a, a, p, entries, 0)
  {
    assert entries[0..] == entries;
  }

  lemma PrunedClass(a: Backup, b: Backup, c: Backup, p: Point, entries: seq<Point>, i: int)
    requires 0 <= i < |entries| && Sorted(entries) && Class(b, p) == Set(entries[i..])
    requires entries[i] !in c.fs.dirs && forall q | q != entries[i] :: q in c.fs.dirs <==> q in b.fs.dirs
    ensures Class(c, p) == Set(entries[i + 1..])
  {
    var v := entries[i];
    assert entries[i..] == [v] + entries[i + 1..];
    forall k | i + 1 <= k < |entries| ensures entries[k] != v {
      assert Order(entries[i]) < Order(entries[k]);
    }
    assert v !in entries[i + 1..];
    forall q ensures q in Class(c, p) <==> q in Set(entries[i + 1..]) {
      assert q in Class(b, p) <==> q in Set(entries[i..]);
    }
  }

  lemma PrunedStep(a: Backup, b: Backup, c: Backup, p: Point, entries: seq<Point>, i: int)
    requires Pruned(a, b, p, entries, i) && i < |entries| && SameClass(p, entries[i])
    requires Removed(b, c, entries[i])
    ensures Pruned(a, c, p, entries, i + 1)
  {
    assert entries[..i + 1] == entries[..i] + [entries[i]];
    forall q | q != entries[i] ensures q in c.fs.dirs <==> q in b.fs.dirs {
      assert SamePoint(b, c, q);
    }
    PrunedClass(a, b, c, p, entries, i);
    forall q | q !in entries[..i + 1] ensures SamePoint(a, c, q) {
      assert SamePoint(a, b, q) && SamePoint(b, c, q);
    }
  }

  function Excessive(n: int, keep: int): int {
    if n > keep then n - keep else 0
  }

  lemma PrunedDaily(cfg: Config, a: Backup, b: Backup, entries: seq<Point>)
    requires cfg.keepDaily >= 1 && History(cfg, a) && History(cfg, b)
    requires Pruned(a, b, Daily(0), entries, Excessive(|entries|, cfg.keepDaily))
    ensures DailyRetained(cfg, b)
  {
    DailyClass(cfg, a, 0);
    SortedSize(entries);
  }

  function Orders(ps: seq<Point>): (os: seq<int>)
    ensures |os| == |ps| && forall i | 0 <= i < |os| :: os[i] == Order(ps[i])
  {
    seq(|ps|, i requires 0 <= i < |ps| => Order(ps[i]))
  }

  lemma ListedKey(a: Backup, p: Point, entries: seq<Point>, k: int)
    requires p.Weekly? || p.Monthly?
    requires Set(entries) == Class(a, p)
    ensures Has(Orders(entries), k) <==> Named(p, k) in a.fs.dirs
  {
    if Has(Orders(entries), k) {
      var i :| 0 <= i < |entries| && Orders(entries)[i] == k;
      assert entries[i] in Class(a, p);
      assert entries[i] == Named(p, k);
    }
    if Named(p, k) in a.fs.dirs {
      assert Named(p, k) in Class(a, p);
      assert Named(p, k) in entries;
      var i :| 0 <= i < |entries| && entries[i] == Named(p, k);
      assert Orders(entries)[i] == k;
    }
  }

  lemma PrunedKeys(a: Backup, b: Backup, p: Point, key: RunId -> int, ks: seq<int>, keep: int, entries: seq<Point>)
    requires (p.Weekly? || p.Monthly?) && keep >= 0
    requires KeysHeld(a, p, key, ks) && Pruned(a, b, p, entries, Excessive(|entries|, keep))
    ensures KeysHeld(b, p, key, Tail(ks, keep))
  {
    PrunedNames(a, b, p, key, ks, keep, entries);
    forall k | Has(Tail(ks, keep), k) ensures Seen(key, b.pub, k) && Holds(b, Named(p, k), FirstRun(key, b.pub, k)) {
      PrunedHolds(a, b, p, key, ks, keep, entries, k);
    }
  }

  /** The entries that stay carry the greatest keys. */
  lemma PrunedNames(a: Backup, b: Backup, p: Point, key: RunId -> int, ks: seq<int>, keep: int, entries: seq<Point>)
    requires (p.Weekly? || p.Monthly?) && keep >= 0
    requires KeysHeld(a, p, key, ks) && Pruned(a, b, p, entries, Excessive(|entries|, keep))
    ensures Increasing(Tail(ks, keep))
    ensures forall k :: Named(p, k) in b.fs.dirs <==> Has(Tail(ks, keep), k)
  {
    hide Holds, Seen, FirstRun, SamePoint;
    var gone := Excessive(|entries|, keep);
    forall k ensures Has(Orders(entries), k) <==> Has(ks, k) {
      ListedKey(a, p, entries, k);
    }
    IncreasingUnique(Orders(entries), ks);
    assert Orders(entries[gone..]) == Tail(ks, keep);
    TailIncreasing(ks, keep);
    forall k ensures Named(p, k) in b.fs.dirs <==> Has(Tail(ks, keep), k) {
      ListedKey(b, p, entries[gone..], k);
    }
  }

  lemma PrunedHolds(a: Backup, b: Backup, p: Point, key: RunId -> int, ks: seq<int>, keep: int, entries: seq<Point>,
                    k: int)
    requires (p.Weekly? || p.Monthly?) && keep >= 0
    requires KeysHeld(a, p, key, ks) && Pruned(a, b, p, entries, Excessive(|entries|, keep))
    requires Has(Tail(ks, keep), k) && Named(p, k) in b.fs.dirs
    ensures Seen(key, b.pub, k) && Holds(b, Named(p, k), FirstRun(key, b.pub, k))
  {
    TailHas(ks, keep, k);
    hide Has, Tail, Increasing;
    assert Named(p, k) in Class(b, p);
    NotGone(entries, Excessive(|entries|, keep), Named(p, k));
  }

  lemma TailHas(ks: seq<int>, keep: int, k: int)
    requires Has(Tail(ks, keep), k)
    ensures Has(ks, k)
  {
    var i :| 0 <= i < |Tail(ks, keep)| && Tail(ks, keep)[i] == k;
    assert ks[Drop(|ks|, keep) + i] == k;
  }

  lemma NotGone(entries: seq<Point>, gone: int, q: Point)
    requires Sorted(entries) && 0 <= gone <= |entries| && q in Set(entries[gone..])
    ensures q !in entries[..gone]
  {
    var i :| 0 <= i < |entries[gone..]| && entries[gone..][i] == q;
    forall j | 0 <= j < |entries[..gone]| ensures entries[..gone][j] != q {
      assert Order(entries[j]) < Order(entries[gone + i]);
    }
  }

  function KeyOf(cfg: Config, p: Point): RunId -> int {
    if p.Weekly? then cfg.week else cfg.month
  }

  /** One class is pruned, the others are as they were. */
  ghost predicate ClassPruned(cfg: Config, a: Backup, b: Backup, p: Point) {
    && b == a.(fs := b.fs, base := b.base, origin := b.origin)
    && (if p.Daily? then DailyRetained(cfg, b) else b.base == a.base)
    && (forall q | !SameClass(p, q) :: SamePoint(a, b, q) && SameOrigin(a, b, q))
    && (Keep(cfg, p) == 0 ==> Class(b, p) == {})
    && (forall q | q in b.fs.dirs :: q in a.fs.dirs)
    && (p.Weekly? || p.Monthly? ==>
          forall ks | KeysHeld(a, p, KeyOf(cfg, p), ks) :: KeysHeld(b, p, KeyOf(cfg, p), Tail(ks, Keep(cfg, p))))
  }

  ghost predicate SameOrigin(a: Backup, b: Backup, q: Point) {
    (q in b.origin <==> q in a.origin) && (q in a.origin ==> b.origin[q] == a.origin[q])
  }

  lemma PrunedClassEffect(cfg: Config, a: Backup, b: Backup, p: Point, entries: seq<Point>)
    requires ValidConfig(cfg) && History(cfg, a) && History(cfg, b)
    requires p == Daily(0) || p == Weekly(0) || p == Monthly(0) || p == Failed(0)
    requires Pruned(a, b, p, entries, Excessive(|entries|, Keep(cfg, p)))
    ensures ClassPruned(cfg, a, b, p)
  {
    if p.Daily? {
      PrunedDaily(cfg, a, b, entries);
    }
    if p.Weekly? || p.Monthly? {
      forall ks | KeysHeld(a, p, KeyOf(cfg, p), ks) ensures KeysHeld(b, p, KeyOf(cfg, p), Tail(ks, Keep(cfg, p))) {
        PrunedKeys(a, b, p, KeyOf(cfg, p), ks, Keep(cfg, p), entries);
      }
    }
    forall q | !SameClass(p, q) ensures SamePoint(a, b, q) && SameOrigin(a, b, q) {
      forall i | 0 <= i < |entries| ensures entries[i] != q {
        assert entries[i] in Set(entries);
      }
    }
    forall q | q in b.fs.dirs ensures q in a.fs.dirs {
      if q in entries {
        assert q in Set(entries);
      } else {
        assert SamePoint(a, b, q);
      }
    }
  }

  function Least(m: int, n: int): int {
    if m < n then m else n
  }

  /** The class keeps as many directories as it may, the ones with the greatest names. */
  ghost predicate Quota(a: Backup, b: Backup, p: Point, keep: int) {
    && Class(b, p) <= Class(a, p)
    && |Class(b, p)| == Least(|Class(a, p)|, keep)
    && forall gone, kept | gone in Class(a, p) - Class(b, p) && kept in Class(b, p) :: Order(gone) < Order(kept)
  }

  /** A suffix of a sorted listing: how many it has, and that they come after the rest. */
  lemma SuffixSize(entries: seq<Point>, gone: int)
    requires Sorted(entries) && 0 <= gone <= |entries|
    ensures |Set(entries)| == |entries| && |Set(entries[gone..])| == |entries| - gone
    ensures Set(entries[gone..]) <= Set(entries)
  {
    var rest := entries[gone..];
    assert forall i | gone <= i < |entries| :: entries[i] == rest[i - gone];
    SortedSize(entries);
    SortedSize(rest);
  }

  lemma SuffixAfter(entries: seq<Point>, gone: int, q: Point, r: Point)
    requires Sorted(entries) && 0 <= gone <= |entries|
    requires q in Set(entries) && q !in Set(entries[gone..]) && r in Set(entries[gone..])
    ensures Order(q) < Order(r)
  {
    var i :| 0 <= i < |entries| && entries[i] == q;
    var j :| 0 <= j < |entries[gone..]| && entries[gone..][j] == r;
    assert forall k | gone <= k < |entries| :: entries[gone..][k - gone] == entries[k];
    assert r == entries[gone + j];
  }

  lemma PrunedQuota(cfg: Config, a: Backup, b: Backup, p: Point, entries: seq<Point>)
    requires Keep(cfg, p) >= 0 && Pruned(a, b, p, entries, Excessive(|entries|, Keep(cfg, p)))
    ensures Quota(a, b, p, Keep(cfg, p))
  {
    hide Class, Set, Sorted;
    var gone := Excessive(|entries|, Keep(cfg, p));
    SuffixSize(entries, gone);
    forall q, r | q in Class(a, p) - Class(b, p) && r in Class(b, p) ensures Order(q) < Order(r) {
      SuffixAfter(entries, gone, q, r);
    }
  }

  lemma SameClassThrough(a: Backup, b: Backup, p: Point)
    requires forall q | SameClass(p, q) :: SamePoint(a, b, q)
    ensures Class(b, p) == Class(a, p)
  {
    forall q ensures q in Class(b, p) <==> q in Class(a, p) {
      if SameClass(p, q) {
        assert SamePoint(a, b, q);
      }
    }
  }

  /** Keys held before another class changes are held after. */
  lemma KeysHeldFrame(a: Backup, b: Backup, p: Point, key: RunId -> int, ks: seq<int>)
    requires KeysHeld(a, p, key, ks) && b.pub == a.pub && b.sealed == a.sealed
    requires forall k :: SamePoint(a, b, Named(p, k)) && SameOrigin(a, b, Named(p, k))
    ensures KeysHeld(b, p, key, ks)
  {
    forall k ensures Named(p, k) in b.fs.dirs <==> Has(ks, k) {
      assert SamePoint(a, b, Named(p, k));
    }
    forall k | Has(ks, k) ensures Seen(key, b.pub, k) && Holds(b, Named(p, k), FirstRun(key, b.pub, k)) {
      assert SamePoint(a, b, Named(p, k)) && SameOrigin(a, b, Named(p, k));
    }
  }

  lemma OtherClassPruned(cfg: Config, a: Backup, b: Backup, p: Point, r: Point, key: RunId -> int, ks: seq<int>)
    requires ClassPruned(cfg, a, b, p) && KeysHeld(a, r, key, ks) && !SameClass(p, r) && (r.Weekly? || r.Monthly?)
    ensures KeysHeld(b, r, key, ks)
  {
    forall k ensures SamePoint(a, b, Named(r, k)) && SameOrigin(a, b, Named(r, k)) {
      assert !SameClass(p, Named(r, k));
    }
    KeysHeldFrame(a, b, r, key, ks);
  }

  lemma DailyUntouched(cfg: Config, a: Backup, b: Backup, p: Point)
    requires ClassPruned(cfg, a, b, p) && !p.Daily? && DailyRetained(cfg, a)
    ensures DailyRetained(cfg, b)
  {
    forall r ensures SamePoint(a, b, Daily(r)) {
      assert !SameClass(p, Daily(r));
    }
  }

  /** All four classes have been pruned. */
  ghost predicate AllPruned(cfg: Config, a: Backup, b: Backup) {
    && b == a.(fs := b.fs, base := b.base, origin := b.origin)
    && DailyRetained(cfg, b)
    && (forall q | q in b.fs.dirs :: q in a.fs.dirs)
    && (forall r :: Partial(r) in b.fs.dirs <==> Partial(r) in a.fs.dirs)
    && (cfg.keepWeekly == 0 ==> forall k :: Weekly(k) !in b.fs.dirs)
    && (cfg.keepMonthly == 0 ==> forall k :: Monthly(k) !in b.fs.dirs)
    && (forall ks | KeysHeld(a, Weekly(0), cfg.week, ks) :: KeysHeld(b, Weekly(0), cfg.week, Tail(ks, cfg.keepWeekly)))
    && (forall ks | KeysHeld(a, Monthly(0), cfg.month, ks) ::
          KeysHeld(b, Monthly(0), cfg.month, Tail(ks, cfg.keepMonthly)))
  }

  /** The four passes of retention, in order. */
  ghost predicate FourPasses(cfg: Config, a: Backup, b: Backup, c: Backup, d: Backup, e: Backup) {
    && ClassPruned(cfg, a, b, Daily(0)) && ClassPruned(cfg, b, c, Weekly(0))
    && ClassPruned(cfg, c, d, Monthly(0)) && ClassPruned(cfg, d, e, Failed(0))
  }

  lemma AllPrunedDaily(cfg: Config, a: Backup, b: Backup, c: Backup, d: Backup, e: Backup)
    requires FourPasses(cfg, a, b, c, d, e)
    ensures e == a.(fs := e.fs, base := e.base, origin := e.origin) && DailyRetained(cfg, e)
    ensures forall q | q in e.fs.dirs :: q in a.fs.dirs
  {
    DailyUntouched(cfg, b, c, Weekly(0));
    DailyUntouched(cfg, c, d, Monthly(0));
    DailyUntouched(cfg, d, e, Failed(0));
  }

  lemma AllPrunedNone(cfg: Config, a: Backup, b: Backup, c: Backup, d: Backup, e: Backup)
    requires FourPasses(cfg, a, b, c, d, e)
    ensures cfg.keepWeekly == 0 ==> forall k :: Weekly(k) !in e.fs.dirs
    ensures cfg.keepMonthly == 0 ==> forall k :: Monthly(k) !in e.fs.dirs
  {
    forall k ensures (Weekly(k) in e.fs.dirs ==> Weekly(k) in Class(c, Weekly(0)))
                  && (Monthly(k) in e.fs.dirs ==> Monthly(k) in Class(d, Monthly(0)))
    {
      assert !SameClass(Monthly(0), Weekly(k)) && !SameClass(Failed(0), Weekly(k)) && !SameClass(Failed(0), Monthly(k));
      assert SamePoint(c, d, Weekly(k)) && SamePoint(d, e, Weekly(k)) && SamePoint(d, e, Monthly(k));
    }
  }

  lemma PartialUntouched(cfg: Config, a: Backup, b: Backup, p: Point)
    requires ClassPruned(cfg, a, b, p) && !p.Partial?
    ensures forall r :: Partial(r) in b.fs.dirs <==> Partial(r) in a.fs.dirs
  {
    forall r ensures SamePoint(a, b, Partial(r)) {
      assert !SameClass(p, Partial(r));
    }
  }

  lemma AllPrunedWeekly(cfg: Config, a: Backup, b: Backup, c: Backup, d: Backup, e: Backup, ks: seq<int>)
    requires FourPasses(cfg, a, b, c, d, e) && KeysHeld(a, Weekly(0), cfg.week, ks)
    ensures KeysHeld(e, Weekly(0), cfg.week, Tail(ks, cfg.keepWeekly))
  {
    OtherClassPruned(cfg, a, b, Daily(0), Weekly(0), cfg.week, ks);
    assert KeyOf(cfg, Weekly(0)) == cfg.week && KeysHeld(b, Weekly(0), KeyOf(cfg, Weekly(0)), ks);
    OtherClassPruned(cfg, c, d, Monthly(0), Weekly(0), cfg.week, Tail(ks, cfg.keepWeekly));
    OtherClassPruned(cfg, d, e, Failed(0), Weekly(0), cfg.week, Tail(ks, cfg.keepWeekly));
  }

  lemma AllPrunedMonthly(cfg: Config, a: Backup, b: Backup, c: Backup, d: Backup, e: Backup, ks: seq<int>)
    requires FourPasses(cfg, a, b, c, d, e) && KeysHeld(a, Monthly(0), cfg.month, ks)
    ensures KeysHeld(e, Monthly(0), cfg.month, Tail(ks, cfg.keepMonthly))
  {
    OtherClassPruned(cfg, a, b, Daily(0), Monthly(0), cfg.month, ks);
    OtherClassPruned(cfg, b, c, Weekly(0), Monthly(0), cfg.month, ks);
    assert KeyOf(cfg, Monthly(0)) == cfg.month && KeysHeld(c, Monthly(0), KeyOf(cfg, Monthly(0)), ks);
    OtherClassPruned(cfg, d, e, Failed(0), Monthly(0), cfg.month, Tail(ks, cfg.keepMonthly));
  }

  lemma AllPrunedKeys(cfg: Config, a: Backup, b: Backup, c: Backup, d: Backup, e: Backup)
    requires FourPasses(cfg, a, b, c, d, e)
    ensures AllPruned(cfg, a, e)
  {
    AllPrunedDaily(cfg, a, b, c, d, e);
    AllPrunedNone(cfg, a, b, c, d, e);
    PartialUntouched(cfg, a, b, Daily(0));
    PartialUntouched(cfg, b, c, Weekly(0));
    PartialUntouched(cfg, c, d, Monthly(0));
    PartialUntouched(cfg, d, e, Failed(0));
    forall ks | KeysHeld(a, Weekly(0), cfg.week, ks)
      ensures KeysHeld(e, Weekly(0), cfg.week, Tail(ks, cfg.keepWeekly)) {
      AllPrunedWeekly(cfg, a, b, c, d, e, ks);
    }
    forall ks | KeysHeld(a, Monthly(0), cfg.month, ks)
      ensures KeysHeld(e, Monthly(0), cfg.month, Tail(ks, cfg.keepMonthly)) {
      AllPrunedMonthly(cfg, a, b, c, d, e, ks);
    }
  }

  /** All four classes are within their quotas. */
  ghost predicate AllQuotas(cfg: Config, a: Backup, b: Backup) {
    && Quota(a, b, Daily(0), cfg.keepDaily) && Quota(a, b, Weekly(0), cfg.keepWeekly)
    && Quota(a, b, Monthly(0), cfg.keepMonthly) && Quota(a, b, Failed(0), cfg.keepFailed)
  }

  lemma ClassKept(cfg: Config, a: Backup, b: Backup, p: Point, r: Point)
    requires ClassPruned(cfg, a, b, p) && !SameClass(p, r)
    requires r == Daily(0) || r == Weekly(0) || r == Monthly(0) || r == Failed(0)
    ensures Class(b, r) == Class(a, r)
  {
    forall q | SameClass(r, q) ensures SamePoint(a, b, q) {
      assert !SameClass(p, q);
    }
    SameClassThrough(a, b, r);
  }

  lemma QuotasTogether(cfg: Config, a: Backup, b: Backup, c: Backup, d: Backup, e: Backup)
    requires FourPasses(cfg, a, b, c, d, e)
    requires Quota(a, b, Daily(0), cfg.keepDaily) && Quota(b, c, Weekly(0), cfg.keepWeekly)
    requires Quota(c, d, Monthly(0), cfg.keepMonthly) && Quota(d, e, Failed(0), cfg.keepFailed)
    ensures AllQuotas(cfg, a, e)
  {
    hide ClassPruned;
    ClassKept(cfg, b, c, Weekly(0), Daily(0));
    ClassKept(cfg, c, d, Monthly(0), Daily(0));
    ClassKept(cfg, d, e, Failed(0), Daily(0));
    ClassKept(cfg, a, b, Daily(0), Weekly(0));
    ClassKept(cfg, c, d, Monthly(0), Weekly(0));
    ClassKept(cfg, d, e, Failed(0), Weekly(0));
    ClassKept(cfg, a, b, Daily(0), Monthly(0));
    ClassKept(cfg, b, c, Weekly(0), Monthly(0));
    ClassKept(cfg, d, e, Failed(0), Monthly(0));
    ClassKept(cfg, a, b, Daily(0), Failed(0));
    ClassKept(cfg, b, c, Weekly(0), Failed(0));
    ClassKept(cfg, c, d, Monthly(0), Failed(0));
  }

  /** Retention alone never disturbs a retained state. */
  lemma PrunedRetained(cfg: Config, a: Backup, b: Backup)
    requires AllPruned(cfg, a, b) && Retained(cfg, a)
    ensures Retained(cfg, b)
  {
    TailTail(KeySeq(cfg.week, a.pub), cfg.keepWeekly);
    TailTail(KeySeq(cfg.month, a.pub), cfg.keepMonthly);
  }

  // ---------------------------------------------------------------- publishing and promoting

  /** Up to retention, the class holds what the history asks for. */
  ghost predicate KeysPromoted(s: Backup, p: Point, key: RunId -> int, keep: int) {
    keep == 0 || exists ks :: KeysHeld(s, p, key, ks) && Tail(ks, keep) == Tail(KeySeq(key, s.pub), keep)
  }

  lemma PromotedRetained(cfg: Config, a: Backup, b: Backup)
    requires AllPruned(cfg, a, b)
    requires KeysPromoted(a, Weekly(0), cfg.week, cfg.keepWeekly)
          && KeysPromoted(a, Monthly(0), cfg.month, cfg.keepMonthly)
    ensures Retained(cfg, b)
  {
    if cfg.keepWeekly != 0 {
      var ws :| KeysHeld(a, Weekly(0), cfg.week, ws)
                && Tail(ws, cfg.keepWeekly) == Tail(KeySeq(cfg.week, a.pub), cfg.keepWeekly);
    } else {
      assert Tail(KeySeq(cfg.week, a.pub), 0) == [];
    }
    if cfg.keepMonthly != 0 {
      var ms :| KeysHeld(a, Monthly(0), cfg.month, ms)
                && Tail(ms, cfg.keepMonthly) == Tail(KeySeq(cfg.month, a.pub), cfg.keepMonthly);
    } else {
      assert Tail(KeySeq(cfg.month, a.pub), 0) == [];
    }
  }

  /** Before promotion: the class is still that of the shorter history. */
  lemma HeldAfterPublish(a: Backup, b: Backup, p: Point, key: RunId -> int, ks: seq<int>, run: RunId)
    requires (p.Weekly? || p.Monthly?) && KeysHeld(a, p, key, ks)
    requires b.pub == a.pub + [run] && b.origin == a.origin
    requires forall r | r in a.sealed && r in a.pub :: r in b.sealed && b.sealed[r] == a.sealed[r]
    requires forall k :: SamePoint(a, b, Named(p, k))
    ensures KeysHeld(b, p, key, ks)
  {
    forall k ensures Named(p, k) in b.fs.dirs <==> Has(ks, k) {
      assert SamePoint(a, b, Named(p, k));
    }
    forall k | Has(ks, k) ensures Seen(key, b.pub, k) && Holds(b, Named(p, k), FirstRun(key, b.pub, k)) {
      assert SamePoint(a, b, Named(p, k)) && Seen(key, a.pub, k);
      var i :| 0 <= i < |a.pub| && key(a.pub[i]) == k;
      assert key(b.pub[i]) == k;
      FirstRunSnoc(key, a.pub, run, k);
      FirstRunMeaning(key, a.pub, k);
    }
  }

  /** The key of the newest run is held already, so nothing is copied. */
  lemma AlreadyPromoted(s: Backup, p: Point, key: RunId -> int, pub: seq<RunId>, run: RunId, keep: int)
    requires (p.Weekly? || p.Monthly?) && s.pub == pub + [run] && Increasing(s.pub) && Monotone(key) && keep >= 0
    requires KeysHeld(s, p, key, Tail(KeySeq(key, pub), keep)) && Named(p, key(run)) in s.fs.dirs
    ensures KeysPromoted(s, p, key, keep)
  {
    var ks := Tail(KeySeq(key, pub), keep);
    KeysAfterPublish(key, pub, run, keep);
    TailTail(KeySeq(key, pub), keep);
    assert KeysHeld(s, p, key, ks) && Tail(ks, keep) == Tail(KeySeq(key, s.pub), keep);
  }

  /** `cp -al` has run to its end: `to` is a full copy of the run, nothing else has changed. */
  ghost predicate Copied(a: Backup, b: Backup, run: RunId, to: Point) {
    && b == a.(fs := b.fs, origin := a.origin[to := run])
    && to in b.fs.dirs && Contents(b.fs, to) == Contents(a.fs, Daily(run)) && SameExcept(a, b, to)
  }

  lemma AddedKey(a: Backup, b: Backup, p: Point, key: RunId -> int, ks: seq<int>, k: int, run: RunId)
    requires (p.Weekly? || p.Monthly?) && KeysHeld(a, p, key, ks) && Increasing(ks + [k])
    requires Copied(a, b, run, Named(p, k)) && run in a.sealed && a.sealed[run] == Contents(a.fs, Daily(run))
    requires Seen(key, a.pub, k) && FirstRun(key, a.pub, k) == run
    ensures KeysHeld(b, p, key, ks + [k])
  {
    forall x ensures Has(ks + [k], x) <==> Has(ks, x) || x == k {
      if Has(ks, x) {
        var i :| 0 <= i < |ks| && ks[i] == x;
        assert (ks + [k])[i] == x;
      }
      assert (ks + [k])[|ks|] == k;
    }
    forall x | x != k ensures SamePoint(a, b, Named(p, x)) {
      assert Named(p, x) != Named(p, k);
    }
    assert Holds(b, Named(p, k), run);
    forall x ensures Named(p, x) in b.fs.dirs <==> Has(ks + [k], x) {
      assert Named(p, x) in a.fs.dirs <==> Has(ks, x);
    }
    forall x | Has(ks + [k], x) ensures Seen(key, b.pub, x) && Holds(b, Named(p, x), FirstRun(key, b.pub, x)) {
      if x != k {
        assert Holds(a, Named(p, x), FirstRun(key, a.pub, x));
      }
    }
  }

  /** The key of the newest run is not held, and that run has been copied. */
  lemma FreshlyPromoted(a: Backup, b: Backup, p: Point, key: RunId -> int, pub: seq<RunId>, run: RunId, keep: int)
    requires (p.Weekly? || p.Monthly?) && a.pub == pub + [run] && Increasing(a.pub) && Monotone(key) && keep >= 0
    requires KeysHeld(a, p, key, Tail(KeySeq(key, pub), keep)) && Named(p, key(run)) !in a.fs.dirs
    requires Copied(a, b, run, Named(p, key(run)))
    requires run in a.sealed && a.sealed[run] == Contents(a.fs, Daily(run))
    ensures KeysPromoted(b, p, key, keep)
  {
    if keep > 0 {
      var k := key(run);
      var before := KeySeq(key, pub);
      KeysAfterPublish(key, pub, run, keep);
      assert !Has(before, k);
      KeySeqHas(key, pub, k);
      FirstRunSnoc(key, pub, run, k);
      TailSnoc(before, k, keep);
      assert key(a.pub[|pub|]) == k;
      AddedKey(a, b, p, key, Tail(before, keep), k, run);
      var ks := Tail(before, keep) + [k];
      assert KeysHeld(b, p, key, ks) && Tail(ks, keep) == Tail(KeySeq(key, b.pub), keep);
    }
  }

  /** Copying into one class leaves the other alone. */
  lemma OtherClassCopied(a: Backup, b: Backup, p: Point, key: RunId -> int, ks: seq<int>, run: RunId, to: Point)
    requires (p.Weekly? && to.Monthly?) || (p.Monthly? && to.Weekly?)
    requires Copied(a, b, run, to) && KeysHeld(a, p, key, ks)
    ensures KeysHeld(b, p, key, ks)
  {
    KeysHeldFrame(a, b, p, key, ks);
  }

  lemma OtherClassPromoted(a: Backup, b: Backup, p: Point, key: RunId -> int, keep: int, run: RunId, to: Point)
    requires (p.Weekly? && to.Monthly?) || (p.Monthly? && to.Weekly?)
    requires Copied(a, b, run, to) && KeysPromoted(a, p, key, keep)
    ensures KeysPromoted(b, p, key, keep)
  {
    if keep != 0 {
      var ks :| KeysHeld(a, p, key, ks) && Tail(ks, keep) == Tail(KeySeq(key, a.pub), keep);
      OtherClassCopied(a, b, p, key, ks, run, to);
    }
  }

  lemma BeginCopyEffect(cfg: Config, s: Backup, to: Point)
    requires Inv(cfg, s) && Enabled(cfg, s, BeginCopy(to))
    ensures var t := Apply(cfg, s, BeginCopy(to));
      && t == s.(fs := t.fs, phase := Copying(s.phase.run, to), origin := s.origin[to := s.phase.run])
      && to in t.fs.dirs && t.fs.dirs[to] == map[] && Daily(s.phase.run) in t.fs.dirs && SameExcept(s, t, to)
  {
    MkdirKeeps(s.fs, to);
  }

  /** In the middle of a copy: `left` is still to be linked. */
  ghost predicate Linking(a: Backup, b: Backup, run: RunId, to: Point, left: set<Name>) {
    && b == a.(fs := b.fs) && SameExcept(a, b, to) && Mirrors(b.fs, Daily(run), to)
    && left !! b.fs.dirs[to].Keys && left + b.fs.dirs[to].Keys == b.fs.dirs[Daily(run)].Keys
  }

  lemma LinkingStart(a: Backup, run: RunId, to: Point)
    requires Daily(run) in a.fs.dirs && to in a.fs.dirs && a.fs.dirs[to] == map[]
    ensures Linking(a, a, run, to, a.fs.dirs[Daily(run)].Keys)
  {
  }

  lemma LinkSameExcept(s: Backup, t: Backup, run: RunId, to: Point, n: Name)
    requires Valid(s.fs) && Linked(s.fs, Daily(run), n) && to in s.fs.dirs && n !in s.fs.dirs[to]
    requires t.fs == Link(s.fs, Daily(run), to, n)
    ensures SameExcept(s, t, to)
  {
    LinkKeeps(s.fs, Daily(run), to, n);
  }

  lemma LinkingNext(cfg: Config, a: Backup, s: Backup, run: RunId, to: Point, left: set<Name>, n: Name)
    requires Valid(s.fs) && a.phase == Copying(run, to) && (to.Weekly? || to.Monthly?)
    requires Linking(a, s, run, to, left) && n in left
    ensures Enabled(cfg, s, CopyFile(n))
  {
    hide SameExcept;
    assert n in s.fs.dirs[Daily(run)].Keys && n !in s.fs.dirs[to].Keys;
  }

  lemma LinkingStep(cfg: Config, a: Backup, s: Backup, run: RunId, to: Point, left: set<Name>, n: Name)
    requires Valid(s.fs) && a.phase == Copying(run, to) && (to.Weekly? || to.Monthly?)
    requires Linking(a, s, run, to, left) && n in left && Enabled(cfg, s, CopyFile(n))
    ensures Linking(a, Apply(cfg, s, CopyFile(n)), run, to, left - {n})
  {
    hide SameExcept, Mirrors;
    var t := Apply(cfg, s, CopyFile(n));
    LinkSameExcept(s, t, run, to, n);
    SameExceptTrans(a, s, t, to);
    LinkMirrors(s.fs, Daily(run), to, n);
    assert (left - {n}) + t.fs.dirs[to].Keys == left + s.fs.dirs[to].Keys;
  }

  lemma LinkingDone(a: Backup, b: Backup, run: RunId, to: Point)
    requires Valid(b.fs) && Linking(a, b, run, to, {})
    ensures b == a.(fs := b.fs) && SameExcept(a, b, to) && to in b.fs.dirs && Daily(run) in b.fs.dirs
    ensures b.fs.dirs[to].Keys == b.fs.dirs[Daily(run)].Keys
    ensures Contents(b.fs, to) == Contents(b.fs, Daily(run))
  {
    hide SameExcept;
    assert {} + b.fs.dirs[to].Keys == b.fs.dirs[to].Keys;
    MirrorComplete(b.fs, Daily(run), to);
  }

  lemma CopiedWhole(a: Backup, b: Backup, c: Backup, d: Backup, run: RunId, to: Point)
    requires to.Weekly? || to.Monthly?
    requires b == a.(fs := b.fs, phase := b.phase, origin := a.origin[to := run]) && SameExcept(a, b, to)
    requires c == b.(fs := c.fs) && SameExcept(b, c, to)
    requires to in c.fs.dirs && Contents(c.fs, to) == Contents(c.fs, Daily(run))
    requires d == c.(phase := a.phase)
    ensures Copied(a, d, run, to)
  {
    SameExceptTrans(a, b, c, to);
    assert SamePoint(a, c, Daily(run));
    forall q | q != to ensures SamePoint(a, d, q) {
      assert SamePoint(a, c, q);
    }
  }

  /** The state right after the link switch, when pub0 was the history before. */
  ghost predicate JustPublished(cfg: Config, s: Backup, pub0: seq<RunId>, run: RunId) {
    && s.pub == pub0 + [run] && Increasing(s.pub)
    && run in s.sealed && s.sealed[run] == Contents(s.fs, Daily(run))
    && KeysHeld(s, Weekly(0), cfg.week, Tail(KeySeq(cfg.week, pub0), cfg.keepWeekly))
    && KeysHeld(s, Monthly(0), cfg.month, Tail(KeySeq(cfg.month, pub0), cfg.keepMonthly))
  }

  /** promote_run for one class: copy unless the key is there. */
  ghost predicate PromotedTo(a: Backup, b: Backup, run: RunId, to: Point) {
    if to in a.fs.dirs then b == a else Copied(a, b, run, to)
  }

  lemma PromoteWeekHeld(cfg: Config, a: Backup, b: Backup, pub0: seq<RunId>, run: RunId)
    requires ValidConfig(cfg) && JustPublished(cfg, a, pub0, run) && PromotedTo(a, b, run, Weekly(cfg.week(run)))
    ensures KeysPromoted(b, Weekly(0), cfg.week, cfg.keepWeekly)
  {
    hide KeysHeld, KeysPromoted, Copied, Increasing;
    assert Monotone(cfg.week);
    if Weekly(cfg.week(run)) in a.fs.dirs {
      AlreadyPromoted(a, Weekly(0), cfg.week, pub0, run, cfg.keepWeekly);
    } else {
      FreshlyPromoted(a, b, Weekly(0), cfg.week, pub0, run, cfg.keepWeekly);
    }
  }

  lemma PromoteWeek(cfg: Config, a: Backup, b: Backup, pub0: seq<RunId>, run: RunId)
    requires ValidConfig(cfg) && JustPublished(cfg, a, pub0, run) && PromotedTo(a, b, run, Weekly(cfg.week(run)))
    ensures KeysPromoted(b, Weekly(0), cfg.week, cfg.keepWeekly)
    ensures KeysHeld(b, Monthly(0), cfg.month, Tail(KeySeq(cfg.month, pub0), cfg.keepMonthly))
    ensures b.pub == a.pub && b.sealed == a.sealed && Contents(b.fs, Daily(run)) == Contents(a.fs, Daily(run))
  {
    var to := Weekly(cfg.week(run));
    PromoteWeekHeld(cfg, a, b, pub0, run);
    if to !in a.fs.dirs {
      OtherClassCopied(a, b, Monthly(0), cfg.month, Tail(KeySeq(cfg.month, pub0), cfg.keepMonthly), run, to);
      assert SamePoint(a, b, Daily(run));
    }
  }

  lemma PromoteMonth(cfg: Config, b: Backup, c: Backup, pub0: seq<RunId>, run: RunId)
    requires ValidConfig(cfg) && b.pub == pub0 + [run] && Increasing(b.pub)
    requires run in b.sealed && b.sealed[run] == Contents(b.fs, Daily(run))
    requires KeysPromoted(b, Weekly(0), cfg.week, cfg.keepWeekly)
    requires KeysHeld(b, Monthly(0), cfg.month, Tail(KeySeq(cfg.month, pub0), cfg.keepMonthly))
    requires PromotedTo(b, c, run, Monthly(cfg.month(run)))
    ensures KeysPromoted(c, Weekly(0), cfg.week, cfg.keepWeekly)
    ensures KeysPromoted(c, Monthly(0), cfg.month, cfg.keepMonthly)
  {
    hide KeysHeld, KeysPromoted, Copied, Increasing;
    assert Monotone(cfg.month);
    var to := Monthly(cfg.month(run));
    if to in b.fs.dirs {
      AlreadyPromoted(b, Monthly(0), cfg.month, pub0, run, cfg.keepMonthly);
    } else {
      FreshlyPromoted(b, c, Monthly(0), cfg.month, pub0, run, cfg.keepMonthly);
      OtherClassPromoted(b, c, Weekly(0), cfg.week, cfg.keepWeekly, run, to);
    }
  }

  lemma KeysPromotedPhase(s: Backup, ph: Phase, p: Point, key: RunId -> int, keep: int)
    requires KeysPromoted(s, p, key, keep)
    ensures KeysPromoted(s.(phase := ph), p, key, keep)
  {
    hide KeysHeld;
    if keep != 0 {
      var ks :| KeysHeld(s, p, key, ks) && Tail(ks, keep) == Tail(KeySeq(key, s.pub), keep);
      KeysHeldFrame(s, s.(phase := ph), p, key, ks);
    }
  }

  /** Both promotions and the step after them. */
  lemma PromotedBoth(cfg: Config, a: Backup, b: Backup, c: Backup, pub0: seq<RunId>, run: RunId)
    requires ValidConfig(cfg) && JustPublished(cfg, a, pub0, run)
    requires PromotedTo(a, b, run, Weekly(cfg.week(run))) && PromotedTo(b, c, run, Monthly(cfg.month(run)))
    ensures KeysPromoted(c.(phase := Retaining), Weekly(0), cfg.week, cfg.keepWeekly)
    ensures KeysPromoted(c.(phase := Retaining), Monthly(0), cfg.month, cfg.keepMonthly)
  {
    hide KeysHeld, KeysPromoted, PromotedTo, ValidConfig;
    PromoteWeek(cfg, a, b, pub0, run);
    PromoteMonth(cfg, b, c, pub0, run);
    KeysPromotedPhase(c, Retaining, Weekly(0), cfg.week, cfg.keepWeekly);
    KeysPromotedPhase(c, Retaining, Monthly(0), cfg.month, cfg.keepMonthly);
  }

  // ---------------------------------------------------------------- fetching

  predicate ForPhase(ph: Phase, n: Name) {
    (ph.Fetching? && FromRun(n)) || (ph.Checked? && n.Fileset?)
  }

  /** `--link-dest` finds the same file in the latest run. */
  predicate Reusable(s: Backup, n: Name, c: Content) {
    && s.latest.Some? && Linked(s.fs, Daily(s.latest.value), n)
    && s.fs.nodes[s.fs.dirs[Daily(s.latest.value)][n]].data == c
  }

  /** The partial directory has gained one file, nothing else has changed. */
  ghost predicate Gained(a: Backup, b: Backup, p: Point, n: Name, c: Content) {
    && b == a.(fs := b.fs, phase := b.phase) && SameExcept(a, b, p) && p in b.fs.dirs && p in a.fs.dirs
    && n in b.fs.dirs[p] && b.fs.dirs == a.fs.dirs[p := a.fs.dirs[p][n := b.fs.dirs[p][n]]]
    && Contents(b.fs, p) == Contents(a.fs, p)[n := c]
  }

  /** A file that the latest run has with the same bytes is a link to that one. */
  ghost predicate Shared(a: Backup, b: Backup, p: Point, n: Name, c: Content) {
    a.latest.Some? && n in Contents(a.fs, Daily(a.latest.value)) && Contents(a.fs, Daily(a.latest.value))[n] == c ==>
      && p in b.fs.dirs && n in b.fs.dirs[p] && Daily(a.latest.value) in a.fs.dirs
      && n in a.fs.dirs[Daily(a.latest.value)] && b.fs.dirs[p][n] == a.fs.dirs[Daily(a.latest.value)][n]
  }

  lemma NotReusable(a: Backup, b: Backup, p: Point, n: Name, c: Content)
    requires Valid(a.fs) && !Reusable(a, n, c)
    ensures Shared(a, b, p, n, c)
  {
  }

  lemma LinkShares(a: Backup, b: Backup, p: Point, n: Name, c: Content)
    requires Reusable(a, n, c) && p in a.fs.dirs && b.fs == Link(a.fs, Daily(a.latest.value), p, n)
    ensures Shared(a, b, p, n, c)
  {
  }

  /** Nothing but p has other links than before, and p has kept those it had. */
  ghost predicate OnlyAdds(a: Backup, b: Backup, p: Point) {
    && b.latest == a.latest && p in a.fs.dirs && p in b.fs.dirs
    && b.fs.dirs == a.fs.dirs[p := b.fs.dirs[p]]
    && forall n | n in a.fs.dirs[p] :: n in b.fs.dirs[p] && b.fs.dirs[p][n] == a.fs.dirs[p][n]
  }

  ghost predicate AllShared(a: Backup, b: Backup, p: Point, files: map<Name, Content>, left: set<Name>) {
    OnlyAdds(a, b, p) && forall n | n in files && n !in left :: Shared(a, b, p, n, files[n])
  }

  lemma SharedNext(a: Backup, b: Backup, c: Backup, p: Point, files: map<Name, Content>, left: set<Name>, n: Name)
    requires p.Partial? && AllShared(a, b, p, files, left) && n in left && n in files && n !in b.fs.dirs[p]
    requires Gained(b, c, p, n, files[n]) && Shared(b, c, p, n, files[n]) && SameExcept(a, b, p)
    ensures AllShared(a, c, p, files, left - {n})
  {
    hide Contents;
    var m: Name := n;
    if a.latest.Some? {
      assert SamePoint(a, b, Daily(a.latest.value));
    }
  }

  lemma LinkGains(a: Backup, b: Backup, q: Point, p: Point, n: Name, c: Content)
    requires Valid(a.fs) && p in a.fs.dirs && n !in a.fs.dirs[p] && Linked(a.fs, q, n)
    requires a.fs.nodes[a.fs.dirs[q][n]].data == c && b == a.(fs := Link(a.fs, q, p, n))
    ensures Gained(a, b, p, n, c)
  {
    LinkKeeps(a.fs, q, p, n);
  }

  lemma CreateGains(a: Backup, b: Backup, p: Point, n: Name, c: Content, i: Inode, ph: Phase)
    requires Valid(a.fs) && p in a.fs.dirs && n !in a.fs.dirs[p] && i !in a.fs.nodes
    requires b == a.(fs := Create(a.fs, p, n, c, i), phase := ph)
    ensures Gained(a, b, p, n, c)
  {
    CreateKeeps(a.fs, p, n, c, i);
  }

  function Without(files: map<Name, Content>, left: set<Name>): map<Name, Content> {
    map n | n in files && n !in left :: files[n]
  }

  /** After receiving the names outside `left`. */
  ghost predicate Receiving(a: Backup, b: Backup, p: Point, files: map<Name, Content>, left: set<Name>) {
    && b == a.(fs := b.fs) && SameExcept(a, b, p) && p in b.fs.dirs && p in a.fs.dirs
    && left <= files.Keys && left !! b.fs.dirs[p].Keys
    && Contents(b.fs, p) == Contents(a.fs, p) + Without(files, left)
  }

  lemma WithoutStep(was: map<Name, Content>, files: map<Name, Content>, left: set<Name>, n: Name)
    requires n in left && left <= files.Keys
    ensures (was + Without(files, left))[n := files[n]] == was + Without(files, left - {n})
  {
  }

  lemma ReceivingStep(a: Backup, b: Backup, c: Backup, p: Point, files: map<Name, Content>, left: set<Name>, n: Name)
    requires Receiving(a, b, p, files, left) && n in left && Gained(b, c, p, n, files[n]) && c.phase == b.phase
    ensures Receiving(a, c, p, files, left - {n})
  {
    SameExceptTrans(a, b, c, p);
    WithoutStep(Contents(a.fs, p), files, left, n);
  }

  /** The whole transfer list has arrived. */
  ghost predicate Received(a: Backup, b: Backup, p: Point, files: map<Name, Content>) {
    && b == a.(fs := b.fs) && SameExcept(a, b, p) && p in b.fs.dirs
    && Contents(b.fs, p) == Contents(a.fs, p) + files
  }

  lemma ReceivingStart(s: Backup, p: Point, files: map<Name, Content>)
    requires p in s.fs.dirs && forall n | n in files :: n !in s.fs.dirs[p]
    ensures Receiving(s, s, p, files, files.Keys)
  {
    assert Without(files, files.Keys) == map[];
  }

  lemma ReceivingDone(a: Backup, b: Backup, p: Point, files: map<Name, Content>)
    requires Receiving(a, b, p, files, {})
    ensures Received(a, b, p, files)
  {
    assert Without(files, {}) == files;
  }

  lemma SameRecoveryTrans(a: Backup, b: Backup, c: Backup)
    requires SameRecovery(a, b) && SameRecovery(b, c)
    ensures SameRecovery(a, c)
  {
    forall q | RecoveryPoint(q) ensures SamePoint(a, c, q) {
      assert SamePoint(a, b, q) && SamePoint(b, c, q);
    }
  }

  lemma OnlyPartial(a: Backup, b: Backup, p: Point)
    requires (p.Partial? || p.Failed?) && SameHistory(a, b) && SameExcept(a, b, p)
    ensures SameRecovery(a, b)
  {
    forall q | RecoveryPoint(q) ensures SamePoint(a, b, q) {
      assert q != p;
    }
  }

  lemma MakePartialEffect(s: Backup, t: Backup, run: RunId)
    requires Valid(s.fs) && Partial(run) !in s.fs.dirs
          && t == s.(fs := Mkdir(s.fs, Partial(run)), phase := Fetching(run))
    ensures SameExcept(s, t, Partial(run)) && t.fs.dirs[Partial(run)] == map[] && Contents(t.fs, Partial(run)) == map[]
  {
    MkdirKeeps(s.fs, Partial(run));
  }

  lemma FetchedBy(a: Backup, b: Backup, c: Backup, run: RunId, files: map<Name, Content>)
    requires b == a.(fs := b.fs, phase := b.phase) && SameExcept(a, b, Partial(run))
    requires Contents(b.fs, Partial(run)) == map[] && Received(b, c, Partial(run), files)
    ensures Unpublished(a, c, run) && Contents(c.fs, Partial(run)) == files
  {
    UnpublishedBy(a, b, c, run);
    assert map[] + files == files;
  }

  lemma FetchedShares(a: Backup, b: Backup, c: Backup, run: RunId, files: map<Name, Content>)
    requires Partial(run) !in a.fs.dirs && b == a.(fs := Mkdir(a.fs, Partial(run)), phase := b.phase)
    requires SameExcept(a, b, Partial(run)) && AllShared(b, c, Partial(run), files, {})
    ensures forall n | n in files :: Shared(a, c, Partial(run), n, files[n])
  {
    hide Contents;
    forall n | n in files ensures Shared(a, c, Partial(run), n, files[n]) {
      assert Shared(b, c, Partial(run), n, files[n]);
      if a.latest.Some? {
        assert SamePoint(a, b, Daily(a.latest.value));
      }
    }
  }

  lemma AbortEffect(cfg: Config, s: Backup, tag: int)
    requires Inv(cfg, s) && Enabled(cfg, s, Abort(tag))
    ensures var t := Apply(cfg, s, Abort(tag));
      && SameRecovery(s, t)
      && (InPartial(s.phase) ==>
            Failed(tag) in t.fs.dirs && Contents(t.fs, Failed(tag)) == Contents(s.fs, Partial(s.phase.run)))
  {
    if InPartial(s.phase) {
      AbortApart(s, Apply(cfg, s, Abort(tag)), s.phase.run, tag);
    }
  }

  lemma AbortApart(s: Backup, t: Backup, run: RunId, tag: int)
    requires Valid(s.fs) && Partial(run) in s.fs.dirs && Failed(tag) !in s.fs.dirs
    requires t == s.(fs := Rename(s.fs, Partial(run), Failed(tag)), phase := t.phase)
    ensures SameRecovery(s, t)
    ensures Failed(tag) in t.fs.dirs && Contents(t.fs, Failed(tag)) == Contents(s.fs, Partial(run))
  {
    hide Valid;
    RenameContents(s.fs, Partial(run), Failed(tag));
  }

  lemma PublishEffect(cfg: Config, s: Backup)
    requires Inv(cfg, s) && Enabled(cfg, s, Publish)
    ensures var t := Apply(cfg, s, Publish);
      && t.pub == s.pub + [s.phase.run] && t.base == s.base && t.origin == s.origin
      && t.sealed == s.sealed[s.phase.run := Contents(s.fs, Partial(s.phase.run))]
      && Contents(t.fs, Daily(s.phase.run)) == Contents(s.fs, Partial(s.phase.run))
      && (forall k :: SamePoint(s, t, Weekly(k)) && SamePoint(s, t, Monthly(k)))
  {
    hide Inv, Valid, History, LatestOk, PhaseOk, AllIntact, Contents;
    InvIs(cfg, s);
    RenameKeeps(s.fs, Partial(s.phase.run), Daily(s.phase.run));
  }

  lemma PublishedFromRetained(cfg: Config, a: Backup, b: Backup, run: RunId)
    requires ValidConfig(cfg) && Retained(cfg, a) && Increasing(a.pub) && Above(a, run)
    requires b.pub == a.pub + [run] && b.origin == a.origin && b.sealed == a.sealed[run := Contents(b.fs, Daily(run))]
    requires forall k :: SamePoint(a, b, Weekly(k)) && SamePoint(a, b, Monthly(k))
    ensures JustPublished(cfg, b, a.pub, run)
  {
    forall r | r in a.pub ensures r != run {
      var i :| 0 <= i < |a.pub| && a.pub[i] == r;
    }
    HeldAfterPublish(a, b, Weekly(0), cfg.week, Tail(KeySeq(cfg.week, a.pub), cfg.keepWeekly), run);
    HeldAfterPublish(a, b, Monthly(0), cfg.month, Tail(KeySeq(cfg.month, a.pub), cfg.keepMonthly), run);
  }

  // ---------------------------------------------------------------- the host

  class PullHost {
    const cfg: Config
    var s: Backup
    // every state the disk has been in, so every state a crash can leave behind
    ghost var trace: seq<Backup>

    ghost predicate Valid()
      reads this
    {
      && ValidConfig(cfg) && Inv(cfg, s)
      && trace != [] && trace[|trace| - 1] == s && Chain(cfg, trace)
    }

    constructor (cfg: Config, disk: Backup)
      requires ValidConfig(cfg) && Inv(cfg, disk)
      ensures Valid() && this.cfg == cfg && s == disk && trace == [disk]
    {
      this.cfg := cfg;
      s := disk;
      trace := [disk];
    }

    /** One change on disk. */
    method Do(step: Step)
      requires Valid() && Enabled(cfg, s, step) && (step.Choose? ==> Above(s, step.run))
      modifies this
      ensures Valid() && s == Apply(cfg, old(s), step) && trace == old(trace) + [s]
    {
      hide Inv, Enabled, Apply;
      StepKeepsInv(cfg, s, step);
      ghost var was := s;
      s := Apply(cfg, s, step);
      assert OneStep(cfg, was, s);
      assert (trace + [s])[..|trace|] == trace;
      trace := trace + [s];
    }

    /** The files of a directory, one unlink at a time. */
    method RemoveFiles(v: Point)
      requires Valid() && s.phase.Removing? && s.phase.victim == v && v in s.fs.dirs
      modifies this
      ensures Valid() && old(trace) <= trace && s == old(s).(fs := s.fs)
      ensures SameExcept(old(s), s, v) && v in s.fs.dirs && s.fs.dirs[v] == map[]
    {
      hide Inv, Chain;
      ghost var was := s;
      while s.fs.dirs[v] != map[]
        invariant Valid() && old(trace) <= trace && v in s.fs.dirs
        invariant s == was.(fs := s.fs) && SameExcept(was, s, v)
        decreases |s.fs.dirs[v]|
      {
        var n :| n in s.fs.dirs[v];
        ghost var before := s;
        InvIs(cfg, s);
        RemoveFileEffect(cfg, s, n);
        Do(RemoveFile(n));
        SameExceptTrans(was, before, s, v);
      }
    }

    /** `rm -rf` of one directory that retention has selected. */
    method SafeRemove(v: Point)
      requires Valid() && Excess(cfg, s, v) && (s.phase.Locked? || s.phase.Retaining?)
      modifies this
      ensures Valid() && Removed(old(s), s, v) && old(trace) <= trace
    {
      hide Inv, Chain, SameExcept;
      ghost var was := s;
      Do(BeginRemove(v));
      ghost var begun := s;
      RemoveFiles(v);
      ghost var emptied := s;
      RemoveDirEffect(cfg, s);
      Do(RemoveDir);
      RemovedWhole(was, begun, emptied, s, v);
    }

    /** `find | sort`: the directories of one class, oldest first. */
    method Listing(p: Point) returns (entries: seq<Point>)
      requires SameClass(p, p)
      ensures Sorted(entries) && Set(entries) == Class(s, p)
    {
      ghost var all := Class(s, p);
      var rest := Class(s, p);
      entries := [];
      while rest != {}
        invariant Listed(all, entries, rest)
        decreases |rest|
      {
        OldestExists(rest);
        var oldest :| oldest in rest && forall q | q in rest :: Order(oldest) <= Order(q);
        ListedStep(s, p, all, entries, rest, oldest);
        entries := entries + [oldest];
        rest := rest - {oldest};
      }
    }

    /** The loop of prune_named_dirs: remove from the front of the sorted listing. */
    method PruneEntries(p: Point, entries: seq<Point>)
      requires Valid() && SameClass(p, p) && (s.phase.Locked? || s.phase.Retaining?)
      requires Sorted(entries) && Set(entries) == Class(s, p)
      modifies this
      ensures Valid() && old(trace) <= trace
      ensures Pruned(old(s), s, p, entries, Excessive(|entries|, Keep(cfg, p)))
    {
      hide Inv, Chain, Pruned, Removed, Excess, SameClass, Class, Set, Sorted;
      ghost var was := s;
      PrunedStart(s, p, entries);
      var i := 0;
      while i < |entries| - Keep(cfg, p)
        invariant 0 <= i <= Excessive(|entries|, Keep(cfg, p))
        invariant Valid() && old(trace) <= trace && Pruned(was, s, p, entries, i)
      {
        NextToPrune(cfg, was, s, p, entries, i);
        ghost var before := s;
        SafeRemove(entries[i]);
        PrunedStep(was, before, s, p, entries, i);
        i := i + 1;
      }
    }

    /** prune_named_dirs on daily/, weekly/, monthly/ or failed/. */
    method PruneNamedDirs(p: Point)
      requires Valid() && SameClass(p, p) && p == Named(p, 0) && (s.phase.Locked? || s.phase.Retaining?)
      modifies this
      ensures Valid() && old(trace) <= trace && ClassPruned(cfg, old(s), s, p)
      ensures Quota(old(s), s, p, Keep(cfg, p))
    {
      hide Inv, Chain;
      ghost var was := s;
      InvIs(cfg, s);
      var entries := Listing(p);
      PruneEntries(p, entries);
      InvIs(cfg, s);
      PrunedClassEffect(cfg, was, s, p, entries);
      PrunedQuota(cfg, was, s, p, entries);
    }

    method ApplyRetention()
      requires Valid() && (s.phase.Locked? || s.phase.Retaining?)
      modifies this
      ensures Valid() && old(trace) <= trace && AllPruned(cfg, old(s), s) && AllQuotas(cfg, old(s), s)
    {
      hide Inv, Chain;
      ghost var a := s;
      PruneNamedDirs(Daily(0));
      ghost var b := s;
      PruneNamedDirs(Weekly(0));
      ghost var c := s;
      PruneNamedDirs(Monthly(0));
      ghost var d := s;
      PruneNamedDirs(Failed(0));
      AllPrunedKeys(cfg, a, b, c, d, s);
      QuotasTogether(cfg, a, b, c, d, s);
    }

    /** The loop of `cp -al`: one hard link per file. */
    method LinkFiles(run: RunId, to: Point)
      requires Valid() && s.phase == Copying(run, to) && (to.Weekly? || to.Monthly?)
      requires Daily(run) in s.fs.dirs && to in s.fs.dirs && s.fs.dirs[to] == map[]
      modifies this
      ensures Valid() && old(trace) <= trace && s == old(s).(fs := s.fs)
      ensures SameExcept(old(s), s, to) && to in s.fs.dirs && Daily(run) in s.fs.dirs
      ensures s.fs.dirs[to].Keys == s.fs.dirs[Daily(run)].Keys
      ensures Contents(s.fs, to) == Contents(s.fs, Daily(run))
    {
      hide Inv, Chain, Linking, Enabled, Apply;
      ghost var was := s;
      LinkingStart(was, run, to);
      var left := s.fs.dirs[Daily(run)].Keys;
      while left != {}
        invariant Valid() && old(trace) <= trace && Linking(was, s, run, to, left)
        decreases |left|
      {
        var n :| n in left;
        InvIs(cfg, s);
        LinkingNext(cfg, was, s, run, to, left, n);
        LinkingStep(cfg, was, s, run, to, left, n);
        Do(CopyFile(n));
        left := left - {n};
      }
      InvIs(cfg, s);
      LinkingDone(was, s, run, to);
    }

    method CopyAll(run: RunId, to: Point)
      requires Valid() && s.phase == Switched(run) && Enabled(cfg, s, BeginCopy(to))
      modifies this
      ensures Valid() && old(trace) <= trace && Copied(old(s), s, run, to)
    {
      hide Inv, Chain;
      ghost var was := s;
      BeginCopyEffect(cfg, s, to);
      Do(BeginCopy(to));
      ghost var begun := s;
      LinkFiles(run, to);
      ghost var filled := s;
      Do(EndCopy);
      CopiedWhole(was, begun, filled, s, run, to);
    }

    /** promote_run: the first run of a week or month stands for it. */
    method PromoteRun(run: RunId, ghost pub0: seq<RunId>)
      requires Valid() && s.phase == Switched(run) && Daily(run) in s.fs.dirs
      modifies this
      ensures Valid() && old(trace) <= trace && s.phase == Retaining
      ensures s == old(s).(fs := s.fs, phase := s.phase, origin := s.origin)
      ensures JustPublished(cfg, old(s), pub0, run) ==>
                KeysPromoted(s, Weekly(0), cfg.week, cfg.keepWeekly)
                && KeysPromoted(s, Monthly(0), cfg.month, cfg.keepMonthly)
    {
      hide Inv, Chain, JustPublished, KeysPromoted, KeysHeld;
      ghost var a := s;
      var week, month := Weekly(cfg.week(run)), Monthly(cfg.month(run));
      if week !in s.fs.dirs {
        CopyAll(run, week);
        assert SamePoint(a, s, Daily(run));
      }
      ghost var b := s;
      if month !in s.fs.dirs {
        CopyAll(run, month);
        assert SamePoint(b, s, week);
      }
      ghost var c := s;
      Do(Promoted);
      if JustPublished(cfg, a, pub0, run) {
        PromotedBoth(cfg, a, b, c, pub0, run);
      }
    }

    /** An inode number that is not in use. */
    method NewInode() returns (i: Inode)
      ensures i !in s.fs.nodes
    {
      i := 0;
      var left := s.fs.nodes.Items;
      while left != {}
        invariant left <= s.fs.nodes.Items && forall x | x in s.fs.nodes.Items && x !in left :: x.0 < i
        decreases |left|
      {
        var x :| x in left;
        if i <= x.0 { i := x.0 + 1; }
        left := left - {x};
      }
      forall j | j in s.fs.nodes ensures j < i {
        assert (j, s.fs.nodes[j]) in s.fs.nodes.Items;
      }
    }

    /** rsync receives one file: a hard link to the latest run when the file is unchanged,
        otherwise a new inode. */
    method ReceiveFile(p: Point, n: Name, c: Content)
      requires Valid() && ForPhase(s.phase, n) && p == Partial(s.phase.run)
      requires p in s.fs.dirs && n !in s.fs.dirs[p]
      modifies this
      ensures Valid() && old(trace) <= trace && s.phase == old(s.phase) && Gained(old(s), s, p, n, c)
      ensures Shared(old(s), s, p, n, c)
    {
      hide Inv, Chain, History, LatestOk, PhaseOk, AllIntact, SameExcept, Shared;
      ghost var was := s;
      InvIs(cfg, s);
      if Reusable(s, n, c) {
        Do(if s.phase.Fetching? then FetchLink(n) else FilesetLink(n));
        LinkShares(was, s, p, n, c);
        LinkGains(was, s, Daily(was.latest.value), p, n, c);
      } else {
        var i := NewInode();
        Do(if s.phase.Fetching? then FetchCopy(n, c, i) else FilesetCopy(n, c, i));
        NotReusable(was, s, p, n, c);
        CreateGains(was, s, p, n, c, i, was.phase);
      }
    }

    /** pull_run and pull_fileset: the transfer list, file by file. */
    method Receive(p: Point, files: map<Name, Content>)
      requires Valid() && InPartial(s.phase) && p == Partial(s.phase.run) && p in s.fs.dirs
      requires forall n | n in files :: ForPhase(s.phase, n) && n !in s.fs.dirs[p]
      modifies this
      ensures Valid() && old(trace) <= trace && Received(old(s), s, p, files)
      ensures AllShared(old(s), s, p, files, {})
    {
      hide Inv, Chain, SameExcept, Shared, Gained;
      ghost var was := s;
      var left := files.Keys;
      ReceivingStart(s, p, files);
      while left != {}
        invariant Valid() && old(trace) <= trace && Receiving(was, s, p, files, left)
        invariant AllShared(was, s, p, files, left)
        decreases |left|
      {
        var n :| n in left;
        assert n in files && n !in s.fs.dirs[p].Keys;
        ghost var before := s;
        ReceiveFile(p, n, files[n]);
        SharedNext(was, before, s, p, files, left, n);
        ReceivingStep(was, before, s, p, files, left, n);
        left := left - {n};
      }
      ReceivingDone(was, s, p, files);
    }

    /** Choose a run and make its partial directory. */
    method BeginFetch(run: RunId)
      requires Valid() && s.phase.Locked? && Above(s, run) && Partial(run) !in s.fs.dirs
      modifies this
      ensures Valid() && old(trace) <= trace
      ensures s == old(s).(fs := Mkdir(old(s).fs, Partial(run)), phase := Fetching(run))
    {
      hide Inv, Chain;
      assert Daily(run) !in s.fs.dirs by {
        InvIs(cfg, s);
        AboveDaily(cfg, s, run);
      }
      Do(Choose(run));
      Do(MakePartial);
    }

    /** Everything between choosing a run and the checksum test. */
    method FetchRun(run: RunId, delivered: map<Name, Content>)
      requires Valid() && s.phase.Locked? && Above(s, run) && Partial(run) !in s.fs.dirs
      requires forall n | n in delivered :: FromRun(n)
      modifies this
      ensures Valid() && old(trace) <= trace && s.phase == Fetching(run) && Unpublished(old(s), s, run)
      ensures Partial(run) in s.fs.dirs && Contents(s.fs, Partial(run)) == delivered
      ensures forall n | n in delivered :: Shared(old(s), s, Partial(run), n, delivered[n])
    {
      hide Inv, Chain, SameExcept, Shared, AllShared;
      ghost var was := s;
      InvIs(cfg, s);
      BeginFetch(run);
      ghost var made := s;
      MakePartialEffect(was, made, run);
      Receive(Partial(run), delivered);
      FetchedBy(was, made, s, run, delivered);
      FetchedShares(was, made, s, run, delivered);
    }

    /** `.verified` and the checksum list of the filesets are new files. */
    method WriteFile(run: RunId, n: Name)
      requires Valid() && s.phase == Checked(run) && Partial(run) in s.fs.dirs && n !in s.fs.dirs[Partial(run)]
      requires n == FilesetSums || n == Verified
      modifies this
      ensures Valid() && old(trace) <= trace && s.phase == (if n == Verified then Marked(run) else Checked(run))
      ensures Gained(old(s), s, Partial(run), n,
                     if n == Verified then Blob("verified\n") else FilesetManifest(Contents(old(s).fs, Partial(run))))
    {
      hide Inv, Chain, History, LatestOk, PhaseOk, AllIntact, SameExcept;
      ghost var was := s;
      InvIs(cfg, s);
      var i := NewInode();
      if n == FilesetSums {
        Do(FilesetList(i));
        CreateGains(was, s, Partial(run), n, FilesetManifest(Contents(was.fs, Partial(run))), i, Checked(run));
      } else {
        Do(Mark(i));
        CreateGains(was, s, Partial(run), n, Blob("verified\n"), i, Marked(run));
      }
    }

    /** The filesets and their checksum list. */
    method ReceiveFilesets(run: RunId, filesets: map<Name, Content>)
      requires Valid() && s.phase == Checked(run) && Partial(run) in s.fs.dirs
      requires forall n | n in Contents(s.fs, Partial(run)) :: FromRun(n)
      requires forall n | n in filesets :: n.Fileset?
      modifies this
      ensures Valid() && old(trace) <= trace && s.phase == Checked(run) && Partial(run) in s.fs.dirs
      ensures Verified !in s.fs.dirs[Partial(run)] && Unpublished(old(s), s, run)
      ensures WithFilesets(Contents(old(s).fs, Partial(run)), filesets, Contents(s.fs, Partial(run)))
    {
      hide Inv, Chain, SameExcept, WithFilesets, FilesetManifest;
      var p := Partial(run);
      ghost var a := s;
      InvIs(cfg, s);
      NamesSeen(s.fs, p);
      Receive(p, filesets);
      ghost var b := s;
      InvIs(cfg, s);
      ReservedFree(a, b, p, filesets);
      if filesets != map[] {
        WriteFile(run, FilesetSums);
      }
      FilledBy(a, b, s, run, filesets);
    }

    /** Filesets, their checksum list, and the marker that says the run is verified. */
    method FinishPartial(run: RunId, filesets: map<Name, Content>)
      requires Valid() && s.phase == Checked(run) && Partial(run) in s.fs.dirs
      requires forall n | n in Contents(s.fs, Partial(run)) :: FromRun(n)
      requires forall n | n in filesets :: n.Fileset?
      modifies this
      ensures Valid() && old(trace) <= trace && s.phase == Marked(run) && Unpublished(old(s), s, run)
      ensures WholeRun(Contents(old(s).fs, Partial(run)), filesets, Contents(s.fs, Partial(run)))
    {
      hide Inv, Chain, WithFilesets, WholeRun;
      ghost var a := s;
      ReceiveFilesets(run, filesets);
      ghost var c := s;
      InvIs(cfg, s);
      NamesSeen(c.fs, Partial(run));
      WriteFile(run, Verified);
      MarkedBy(a, c, s, run, filesets);
    }

    /** The exit trap: a partial directory is kept under failed/. */
    method GiveUp(tag: int)
      requires Valid() && !s.phase.Idle? && Failed(tag) !in s.fs.dirs
      requires InPartial(s.phase) ==> Partial(s.phase.run) in s.fs.dirs
      modifies this
      ensures Valid() && old(trace) <= trace && s.phase.Idle? && SameRecovery(old(s), s)
      ensures InPartial(old(s).phase) ==>
                Failed(tag) in s.fs.dirs
                && Contents(s.fs, Failed(tag)) == Contents(old(s).fs, Partial(old(s).phase.run))
    {
      hide Inv, Chain;
      AbortEffect(cfg, s, tag);
      Do(Abort(tag));
    }

    /** `sha256sum --check --strict SHA256SUMS`. */
    method CheckSums(run: RunId) returns (ok: bool)
      requires Valid() && s.phase == Fetching(run)
      modifies this
      ensures Valid() && old(trace) <= trace && ok == Passes(Contents(old(s).fs, Partial(run)))
      ensures s == if ok then old(s).(phase := Checked(run)) else old(s)
    {
      hide Inv, Chain;
      ok := Passes(Contents(s.fs, Partial(run)));
      if ok {
        Do(Check);
      }
    }

    /** Fetch, then compare checksums. */
    method FetchAndCheck(run: RunId, delivered: map<Name, Content>, sent: bool) returns (ok: bool)
      requires Valid() && s.phase.Locked? && Above(s, run) && Partial(run) !in s.fs.dirs
      requires forall n | n in delivered :: FromRun(n)
      modifies this
      ensures Valid() && old(trace) <= trace && Unpublished(old(s), s, run) && (ok <==> sent && Passes(delivered))
      ensures s.phase == (if ok then Checked(run) else Fetching(run))
      ensures Partial(run) in s.fs.dirs && Contents(s.fs, Partial(run)) == delivered
    {
      hide Inv, Chain;
      ghost var was := s;
      FetchRun(run, delivered);
      ghost var fetched := s;
      ok := sent;
      if ok {
        ok := CheckSums(run);
      }
      PhaseUnpublished(was, fetched, s, run);
    }

    /** The loop over the filesets, and what follows when every one of them arrived.  An unsafe
        name or a failing transfer ends the script with what had arrived by then. */
    method TakeFilesets(run: RunId, filesets: map<Name, Content>, complete: bool)
      requires Valid() && s.phase == Checked(run) && Partial(run) in s.fs.dirs
      requires forall n | n in Contents(s.fs, Partial(run)) :: FromRun(n)
      requires forall n | n in filesets :: n.Fileset?
      modifies this
      ensures Valid() && old(trace) <= trace && Unpublished(old(s), s, run) && Partial(run) in s.fs.dirs
      ensures s.phase == (if complete then Marked(run) else Checked(run))
      ensures complete ==> WholeRun(Contents(old(s).fs, Partial(run)), filesets, Contents(s.fs, Partial(run)))
      ensures !complete ==> Contents(s.fs, Partial(run)) == Contents(old(s).fs, Partial(run)) + filesets
    {
      hide Inv, Chain, WholeRun;
      if complete {
        FinishPartial(run, filesets);
        InvIs(cfg, s);
      } else {
        InvIs(cfg, s);
        NamesSeen(s.fs, Partial(run));
        Receive(Partial(run), filesets);
      }
    }

    /** Fetch, verify, mark; or give up. */
    method Obtain(run: RunId, a: Attempt, tag: int) returns (ok: bool)
      requires Valid() && s.phase.Locked? && Above(s, run) && Partial(run) !in s.fs.dirs && Failed(tag) !in s.fs.dirs
      requires GoodNames(a)
      modifies this
      ensures Valid() && old(trace) <= trace && SameRecovery(old(s), s)
      ensures ok <==> a.sent && Passes(a.delivered) && a.complete
      ensures ok ==> s.phase == Marked(run) && WholeRun(a.delivered, a.filesets, Contents(s.fs, Partial(run)))
      ensures !ok ==> s.phase.Idle? && Failed(tag) in s.fs.dirs
      ensures !ok ==>
        Contents(s.fs, Failed(tag)) == if a.sent && Passes(a.delivered) then a.delivered + a.filesets else a.delivered
    {
      hide Inv, Chain, WholeRun;
      ghost var was := s;
      ok := FetchAndCheck(run, a.delivered, a.sent);
      if ok {
        ghost var checked := s;
        TakeFilesets(run, a.filesets, a.complete);
        UnpublishedBy(was, checked, s, run);
        ok := a.complete;
      }
      OnlyPartial(was, s, Partial(run));
      if !ok {
        ghost var kept := s;
        assert SamePoint(was, s, Failed(tag));
        GiveUp(tag);
        SameRecoveryTrans(was, kept, s);
      }
    }

    /** The rename that publishes the run and the rename that switches `latest`. */
    method PublishRun(run: RunId)
      requires Valid() && s.phase == Marked(run)
      modifies this
      ensures Valid() && old(trace) <= trace && s.phase == Switched(run) && Daily(run) in s.fs.dirs
      ensures s.pub == old(s).pub + [run] && s.latest == Some(run)
      ensures s.sealed == old(s).sealed[run := Contents(old(s).fs, Partial(run))]
      ensures Retained(cfg, old(s)) ==> JustPublished(cfg, s, old(s).pub, run)
    {
      hide Inv, Chain, Retained, JustPublished, Enabled, Apply;
      PublishAndSwitch(cfg, s, run);
      if Retained(cfg, s) {
        PublishKeeps(cfg, s, run);
      }
      Do(Publish);
      Do(Switch);
    }

    /** Publish, promote, prune. */
    method FinishRun(run: RunId)
      requires Valid() && s.phase == Marked(run)
      modifies this
      ensures Valid() && old(trace) <= trace && s.phase.Idle?
      ensures s.pub == old(s).pub + [run] && s.latest == Some(run)
      ensures s.sealed == old(s).sealed[run := Contents(old(s).fs, Partial(run))]
      ensures DailyRetained(cfg, s) && (Retained(cfg, old(s)) ==> Retained(cfg, s))
    {
      hide Inv, Chain, Retained, JustPublished, KeysPromoted, AllPruned, AllQuotas;
      ghost var a := s;
      PublishRun(run);
      PromoteRun(run, a.pub);
      ghost var c := s;
      ApplyRetention();
      ghost var d := s;
      AllPrunedIs(cfg, c, d);
      Do(Done);
      if Retained(cfg, a) {
        RetainedAtEnd(cfg, c, d, s);
      }
    }

    /** Take the lock; prune early when the disk is nearly full. */
    method CheckCapacity(nearlyFull: bool)
      requires Valid() && s.phase.Idle?
      modifies this
      ensures Valid() && old(trace) <= trace && s.phase.Locked? && s.pub == old(s).pub
      ensures Retained(cfg, old(s)) ==> Retained(cfg, s)
      ensures forall q | q in s.fs.dirs :: q in old(s).fs.dirs
      ensures forall r :: Partial(r) in s.fs.dirs <==> Partial(r) in old(s).fs.dirs
    {
      hide Inv, Chain, Retained, AllPruned, AllQuotas;
      ghost var a := s;
      Do(Lock);
      ghost var b := s;
      if nearlyFull {
        ApplyRetention();
        AllPrunedIs(cfg, b, s);
      }
      if Retained(cfg, a) {
        RetainedThrough(cfg, a, b, s, s);
      }
    }

    /** "no new completed source run": only retention is left to do. */
    method NothingNew()
      requires Valid() && s.phase.Locked?
      modifies this
      ensures Valid() && old(trace) <= trace && s.phase.Idle? && s.pub == old(s).pub
      ensures DailyRetained(cfg, s) && (Retained(cfg, old(s)) ==> Retained(cfg, s))
    {
      hide Inv, Chain, Retained, AllPruned, AllQuotas;
      ghost var a := s;
      Do(NoNewRun);
      ghost var b := s;
      ApplyRetention();
      ghost var c := s;
      AllPrunedIs(cfg, b, c);
      Do(Done);
      if Retained(cfg, a) {
        RetainedThrough(cfg, a, b, c, s);
      }
    }

    /** A new run: fetch it and, if it verifies, publish it. */
    method PullNew(run: RunId, a: Attempt, tag: int) returns (published: bool)
      requires Valid() && s.phase.Locked? && Above(s, run) && Partial(run) !in s.fs.dirs && Failed(tag) !in s.fs.dirs
      requires GoodNames(a)
      modifies this
      ensures Valid() && old(trace) <= trace && s.phase.Idle?
      ensures Retained(cfg, old(s)) ==> Retained(cfg, s)
      ensures published ==> DailyRetained(cfg, s)
      ensures published <==> a.sent && Passes(a.delivered) && a.complete
      ensures !published ==> Failed(tag) in s.fs.dirs
      ensures !published ==>
        Contents(s.fs, Failed(tag)) == if a.sent && Passes(a.delivered) then a.delivered + a.filesets else a.delivered
      ensures s.pub == if published then old(s).pub + [run] else old(s).pub
      ensures published ==> s.latest == Some(run) && Holding(s, run, a)
    {
      hide Inv, Chain, WholeRun;
      ghost var was := s;
      published := Obtain(run, a, tag);
      ghost var obtained := s;
      if published {
        FinishRun(run);
        PublishedIsThere(cfg, s, run);
      }
      if Retained(cfg, was) {
        RetainedFrame(cfg, was, obtained);
      }
    }

    /** One invocation of the script.  daily/ ends as it should be, whatever was there before,
        unless the pull fails on a new run or for want of space. */
    method Pull(a: Attempt, tag: int) returns (published: bool)
      requires Valid() && s.phase.Idle? && Failed(tag) !in s.fs.dirs
      requires a.newest.Some? ==> Above(s, a.newest.value) || IsLast(s, a.newest.value)
      requires GoodNames(a)
      modifies this
      ensures Valid() && old(trace) <= trace && s.phase.Idle?
      ensures Retained(cfg, old(s)) ==> Retained(cfg, s)
      ensures published || (!a.full && (a.newest.Some? ==> !Above(old(s), a.newest.value))) ==> DailyRetained(cfg, s)
      ensures published <==> !a.full && a.newest.Some? && Above(old(s), a.newest.value)
                             && Partial(a.newest.value) !in old(s).fs.dirs
                             && a.sent && Passes(a.delivered) && a.complete
      ensures !published && !a.full && a.newest.Some? && Above(old(s), a.newest.value)
              && Partial(a.newest.value) !in old(s).fs.dirs ==>
        && Failed(tag) in s.fs.dirs
        && Contents(s.fs, Failed(tag))
           == if a.sent && Passes(a.delivered) then a.delivered + a.filesets else a.delivered
      ensures s.pub == if published then old(s).pub + [a.newest.value] else old(s).pub
      ensures published ==> s.latest == a.newest && Holding(s, a.newest.value, a)
    {
      hide Inv, Chain;
      published := false;
      CheckCapacity(a.nearlyFull);
      ghost var locked := s;
      if a.newest.Some? {
        InvIs(cfg, s);
        NewestInDaily(cfg, s, a.newest.value);
      }
      if a.full {
        GiveUp(tag);
        if Retained(cfg, locked) { RetainedFrame(cfg, locked, s); }
      } else if a.newest.None? || Daily(a.newest.value) in s.fs.dirs {
        NothingNew();
      } else if Partial(a.newest.value) in s.fs.dirs {
        GiveUp(tag);
        if Retained(cfg, locked) { RetainedFrame(cfg, locked, s); }
      } else {
        published := PullNew(a.newest.value, a, tag);
      }
    }

    /** A name under failed/ that is not in use. */
    method NewTag() returns (tag: int)
      ensures Failed(tag) !in s.fs.dirs
    {
      tag := 0;
      var left := s.fs.dirs.Keys;
      while left != {}
        invariant left <= s.fs.dirs.Keys
        invariant forall p | p in s.fs.dirs && p !in left && p.Failed? :: p.tag < tag
      {
        var p :| p in left;
        if p.Failed? && tag <= p.tag {
          tag := p.tag + 1;
        }
        left := left - {p};
      }
    }
  }

  /** What the outside world does to one invocation: the head of the source listing, what rsync
      delivers and whether it succeeds, the filesets that arrive and whether all do, and the two
      outcomes of the capacity check. */
  datatype Attempt = Attempt(newest: Option<RunId>, delivered: map<Name, Content>, sent: bool,
                             filesets: map<Name, Content>, complete: bool, nearlyFull: bool, full: bool)

  ghost predicate GoodNames(a: Attempt) {
    (forall n | n in a.delivered :: FromRun(n)) && (forall n | n in a.filesets :: n.Fileset?)
  }

  /** The filesets have been added, and a list of exactly them with their checksums; without
      filesets there is no list. */
  ghost predicate WithFilesets(before: map<Name, Content>, filesets: map<Name, Content>, c: map<Name, Content>) {
    && c.Keys == before.Keys + filesets.Keys + (if filesets == map[] then {} else {FilesetSums})
    && (forall n | n in before :: c[n] == before[n])
    && (forall n | n in filesets :: c[n] == filesets[n])
    && (filesets != map[] ==>
          && c[FilesetSums].Manifest? && c[FilesetSums].sums.Keys == filesets.Keys
          && forall n | n in filesets :: c[FilesetSums].sums[n] == Digest(filesets[n]))
  }

  /** A finished run: what was delivered, the filesets and their list, and the marker. */
  ghost predicate WholeRun(delivered: map<Name, Content>, filesets: map<Name, Content>, c: map<Name, Content>) {
    && Verified in c && c[Verified] == Blob("verified\n") && Verified !in delivered && Verified !in filesets
    && WithFilesets(delivered, filesets, c - {Verified})
  }

  /** The published run is visible, complete, and recorded as such. */
  ghost predicate Holding(s: Backup, run: RunId, a: Attempt) {
    && run in s.sealed && Daily(run) in s.fs.dirs && Contents(s.fs, Daily(run)) == s.sealed[run]
    && WholeRun(a.delivered, a.filesets, s.sealed[run])
  }

  /** The test `-e daily/$run_id` tells the last published run from a newer one. */
  lemma NewestInDaily(cfg: Config, s: Backup, run: RunId)
    requires cfg.keepDaily >= 1 && History(cfg, s) && (Above(s, run) || IsLast(s, run))
    ensures Daily(run) in s.fs.dirs <==> !Above(s, run)
  {
    if Above(s, run) {
      AboveDaily(cfg, s, run);
    } else {
      LastIsInDaily(cfg, s);
    }
  }

  /** Retention with nothing published before it. */
  lemma RetainedThrough(cfg: Config, a: Backup, b: Backup, c: Backup, d: Backup)
    requires Retained(cfg, a) && b == a.(phase := b.phase) && d == c.(phase := d.phase)
    requires c == b || AllPruned(cfg, b, c)
    ensures Retained(cfg, d)
  {
    RetainedFrame(cfg, a, b);
    if c != b {
      PrunedRetained(cfg, b, c);
    }
    RetainedFrame(cfg, c, d);
  }

  lemma RetainedAtEnd(cfg: Config, c: Backup, d: Backup, e: Backup)
    requires AllPruned(cfg, c, d) && e == d.(phase := Idle)
    requires KeysPromoted(c, Weekly(0), cfg.week, cfg.keepWeekly)
          && KeysPromoted(c, Monthly(0), cfg.month, cfg.keepMonthly)
    ensures Retained(cfg, e)
  {
    PromotedRetained(cfg, c, d);
    RetainedFrame(cfg, d, e);
  }

  lemma SwitchKeeps(cfg: Config, b: Backup, c: Backup, pub0: seq<RunId>, run: RunId)
    requires JustPublished(cfg, b, pub0, run) && c == b.(latest := c.latest, latestAt := c.latestAt, phase := c.phase)
    ensures JustPublished(cfg, c, pub0, run)
  {
    var ws, ms := Tail(KeySeq(cfg.week, pub0), cfg.keepWeekly), Tail(KeySeq(cfg.month, pub0), cfg.keepMonthly);
    assert KeysHeld(c, Weekly(0), cfg.week, ws) by {
      assert KeysHeld(b, Weekly(0), cfg.week, ws);
    }
    assert KeysHeld(c, Monthly(0), cfg.month, ms) by {
      assert KeysHeld(b, Monthly(0), cfg.month, ms);
    }
  }

  lemma PublishAndSwitch(cfg: Config, s: Backup, run: RunId)
    requires Inv(cfg, s) && s.phase == Marked(run)
    ensures Enabled(cfg, s, Publish) && Enabled(cfg, Apply(cfg, s, Publish), Switch)
    ensures var t := Apply(cfg, Apply(cfg, s, Publish), Switch);
      && t.phase == Switched(run) && Daily(run) in t.fs.dirs && t.pub == s.pub + [run] && t.latest == Some(run)
      && t.sealed == s.sealed[run := Contents(s.fs, Partial(run))]
  {
    hide Inv, History, LatestOk, AllIntact, Good, Passes, Valid;
    InvIs(cfg, s);
    AboveDaily(cfg, s, run);
  }

  lemma PublishKeeps(cfg: Config, s: Backup, run: RunId)
    requires ValidConfig(cfg) && Inv(cfg, s) && s.phase == Marked(run) && Retained(cfg, s)
    requires Enabled(cfg, s, Publish) && Enabled(cfg, Apply(cfg, s, Publish), Switch)
    ensures JustPublished(cfg, Apply(cfg, Apply(cfg, s, Publish), Switch), s.pub, run)
  {
    hide Inv, Retained, JustPublished, SamePoint, Good, Passes, Valid, ValidConfig;
    InvIs(cfg, s);
    MarkedIsAbove(cfg, s);
    PublishEffect(cfg, s);
    var t := Apply(cfg, s, Publish);
    PublishedFromRetained(cfg, s, t, run);
    SwitchKeeps(cfg, t, Apply(cfg, t, Switch), s.pub, run);
  }

  lemma AllPrunedIs(cfg: Config, a: Backup, b: Backup)
    requires AllPruned(cfg, a, b)
    ensures b == a.(fs := b.fs, base := b.base, origin := b.origin) && DailyRetained(cfg, b)
    ensures forall q | q in b.fs.dirs :: q in a.fs.dirs
    ensures forall r :: Partial(r) in b.fs.dirs <==> Partial(r) in a.fs.dirs
  {
  }

  lemma NamesSeen(fs: Fs, p: Point)
    requires Valid(fs) && p in fs.dirs
    ensures fs.dirs[p].Keys == Contents(fs, p).Keys
  {
  }

  lemma ReservedFree(a: Backup, b: Backup, p: Point, filesets: map<Name, Content>)
    requires Valid(b.fs) && Received(a, b, p, filesets)
    requires forall n | n in Contents(a.fs, p) :: FromRun(n)
    requires forall n | n in filesets :: n.Fileset?
    ensures FilesetSums !in b.fs.dirs[p] && Verified !in b.fs.dirs[p]
  {
    NamesSeen(b.fs, p);
  }

  lemma FilledBy(a: Backup, b: Backup, c: Backup, run: RunId, filesets: map<Name, Content>)
    requires Received(a, b, Partial(run), filesets)
    requires if filesets == map[] then c == b
             else Gained(b, c, Partial(run), FilesetSums, FilesetManifest(Contents(b.fs, Partial(run))))
    requires forall n | n in Contents(a.fs, Partial(run)) :: FromRun(n)
    requires forall n | n in filesets :: n.Fileset?
    ensures Unpublished(a, c, run)
    ensures WithFilesets(Contents(a.fs, Partial(run)), filesets, Contents(c.fs, Partial(run)))
  {
    hide Contents;
    assert SameExcept(b, c, Partial(run)) by {
      assert c == b || Gained(b, c, Partial(run), FilesetSums, FilesetManifest(Contents(b.fs, Partial(run))));
    }
    UnpublishedBy(a, b, c, run);
    FilesetsListed(Contents(a.fs, Partial(run)), filesets);
  }

  lemma FilesetsListed(before: map<Name, Content>, filesets: map<Name, Content>)
    requires forall n | n in before :: FromRun(n)
    requires forall n | n in filesets :: n.Fileset?
    ensures WithFilesets(before, filesets,
                         if filesets == map[] then before + filesets
                         else (before + filesets)[FilesetSums := FilesetManifest(before + filesets)])
  {
    var all := before + filesets;
    assert FilesetManifest(all).sums.Keys == filesets.Keys;
  }

  lemma MarkedBy(a: Backup, c: Backup, d: Backup, run: RunId, filesets: map<Name, Content>)
    requires Unpublished(a, c, run)
    requires WithFilesets(Contents(a.fs, Partial(run)), filesets, Contents(c.fs, Partial(run)))
    requires Verified !in Contents(c.fs, Partial(run)) && Gained(c, d, Partial(run), Verified, Blob("verified\n"))
    ensures Unpublished(a, d, run) && WholeRun(Contents(a.fs, Partial(run)), filesets, Contents(d.fs, Partial(run)))
  {
    hide SameExcept, Contents;
    UnpublishedBy(a, c, d, run);
    assert Contents(d.fs, Partial(run)) - {Verified} == Contents(c.fs, Partial(run));
  }

  lemma PublishedIsThere(cfg: Config, s: Backup, run: RunId)
    requires cfg.keepDaily >= 1 && Inv(cfg, s) && IsLast(s, run)
    ensures Daily(run) in s.fs.dirs && run in s.sealed && Contents(s.fs, Daily(run)) == s.sealed[run]
  {
    hide Valid, LatestOk, PhaseOk, Good, Submap, Contents;
    LastIsInDaily(cfg, s);
    assert Intact(cfg, s, |s.pub| - 1);
  }

  /** Only the partial directory of the run differs. */
  ghost predicate Unpublished(a: Backup, b: Backup, run: RunId) {
    b == a.(fs := b.fs, phase := b.phase) && SameExcept(a, b, Partial(run))
  }

  lemma PhaseUnpublished(a: Backup, b: Backup, c: Backup, run: RunId)
    requires Unpublished(a, b, run) && c == b.(phase := c.phase)
    ensures Unpublished(a, c, run)
  {
    forall q | q != Partial(run) ensures SamePoint(a, c, q) {
      assert SamePoint(a, b, q);
    }
  }

  lemma UnpublishedBy(a: Backup, b: Backup, c: Backup, run: RunId)
    requires b == a.(fs := b.fs, phase := b.phase) && SameExcept(a, b, Partial(run))
    requires c == b.(fs := c.fs, phase := c.phase) && SameExcept(b, c, Partial(run))
    ensures Unpublished(a, c, run)
  {
    SameExceptTrans(a, b, c, Partial(run));
  }

  /** Consecutive states of a trace are one step of the machine apart. */
  ghost predicate Chain(cfg: Config, trace: seq<Backup>) {
    |trace| <= 1 || (Chain(cfg, trace[..|trace| - 1]) && OneStep(cfg, trace[|trace| - 2], trace[|trace| - 1]))
  }

  ghost predicate OneStep(cfg: Config, a: Backup, b: Backup) {
    exists step :: Enabled(cfg, a, step) && b == Apply(cfg, a, step)
  }

  lemma {:induction false} OldestExists(ps: set<Point>)
    requires ps != {}
    ensures exists p :: p in ps && forall q | q in ps :: Order(p) <= Order(q)
  {
    var x :| x in ps;
    if ps == {x} {
      assert x in ps && forall q | q in ps :: Order(x) <= Order(q);
    } else {
      var rest := ps - {x};
      assert ps == rest + {x};
      OldestExists(rest);
      var y :| y in rest && forall q | q in rest :: Order(y) <= Order(q);
      var z := if Order(x) <= Order(y) then x else y;
      assert z in ps && forall q | q in ps :: Order(z) <= Order(q);
    }
  }

  ghost predicate Listed(all: set<Point>, entries: seq<Point>, rest: set<Point>) {
    && Sorted(entries) && Set(entries) + rest == all
    && forall q, r | q in entries && r in rest :: Order(q) < Order(r)
  }

  /** Within one class, the position in the listing is the name. */
  lemma ListedStep(s: Backup, p: Point, all: set<Point>, entries: seq<Point>, rest: set<Point>, x: Point)
    requires all == Class(s, p) && Listed(all, entries, rest)
    requires x in rest && forall q | q in rest :: Order(x) <= Order(q)
    ensures Listed(all, entries + [x], rest - {x})
  {
    assert Set(entries + [x]) == Set(entries) + {x};
    forall q | q in rest - {x} ensures Order(x) < Order(q) {
      assert x in all && q in all;
    }
  }
}
