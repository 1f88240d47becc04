/** Both hosts together: every interleaving of exports and pulls, with a crash or a failing
    command allowed between any two steps of either script. */
module SnapshotProtocol {
  import opened SnapshotFs
  import Src = SnapshotSource
  import opened SnapshotPull

  datatype World = World(src: Src.Source, bak: Backup)

  datatype Move = Export(e: Src.Step) | Pull(p: Step)

  /** The puller may choose a run only if its listing of ready/ put that run first.  While
      it copies, ready/ may change under it, so what rsync delivers is unconstrained. */
  ghost predicate Allowed(cfg: Config, w: World, m: Move) {
    match m
    case Export(e) => Src.Enabled(w.src, e)
    case Pull(p) => Enabled(cfg, w.bak, p) && (p.Choose? ==> Src.Newest(w.src, p.run))
  }

  function Next(cfg: Config, w: World, m: Move): World
    requires Allowed(cfg, w, m)
  {
    match m
    case Export(e) => w.(src := Src.Apply(w.src, e))
    case Pull(p) => w.(bak := Apply(cfg, w.bak, p))
  }

  ghost predicate Init(w: World) {
    Src.Init(w.src) && SnapshotPull.Init(w.bak)
  }

  /** ready/ never falls behind what has been published. */
  ghost predicate Ahead(w: World, r: RunId) {
    exists q :: q in w.src.ready && r <= q
  }

  ghost predicate AheadOfAll(w: World) {
    && (w.bak.pub != [] ==> Ahead(w, w.bak.pub[|w.bak.pub| - 1]))
    && (HasRun(w.bak.phase) ==> Ahead(w, w.bak.phase.run))
  }

  ghost predicate WorldInv(cfg: Config, w: World) {
    Src.Inv(w.src) && Inv(cfg, w.bak) && AheadOfAll(w)
  }

  lemma InitHolds(cfg: Config, w: World)
    requires ValidConfig(cfg) && Init(w)
    ensures WorldInv(cfg, w)
  {
  }

  /** What the puller can see: the newest source run is newer than anything published, or it
      is the run published last. */
  lemma NewestIsAboveOrLast(cfg: Config, w: World, run: RunId)
    requires cfg.keepDaily >= 1 && WorldInv(cfg, w) && Src.Newest(w.src, run)
    ensures Above(w.bak, run) || IsLast(w.bak, run)
  {
    hide Inv, Src.Inv;
  }

  lemma ChosenIsNewer(cfg: Config, w: World, run: RunId)
    requires cfg.keepDaily >= 1 && WorldInv(cfg, w)
    requires Daily(run) !in w.bak.fs.dirs && Src.Newest(w.src, run)
    ensures Above(w.bak, run)
  {
    if w.bak.pub != [] {
      LastIsInDaily(cfg, w.bak);
    }
  }

  lemma AheadKept(cfg: Config, w: World, m: Move, r: RunId)
    requires WorldInv(cfg, w) && Allowed(cfg, w, m) && Ahead(w, r)
    ensures Ahead(Next(cfg, w, m), r)
  {
    hide Inv;
    if m.Export? {
      var q :| q in w.src.ready && r <= q;
      Src.NewestMonotone(w.src, m.e, q);
    }
  }

  lemma PullPhase(cfg: Config, s: Backup, p: Step)
    requires Inv(cfg, s) && Enabled(cfg, s, p)
    ensures var t := Apply(cfg, s, p);
      && (HasRun(t.phase) ==> (p.Choose? && t.phase.run == p.run) || (HasRun(s.phase) && t.phase.run == s.phase.run))
      && (t.pub == s.pub || (HasRun(s.phase) && t.pub == s.pub + [s.phase.run]))
  {
    hide Inv;
    if s.phase.Removing? {
      BackIsWaiting(cfg, s);
    }
  }

  lemma WorldIs(cfg: Config, w: World)
    ensures WorldInv(cfg, w) <==> Src.Inv(w.src) && Inv(cfg, w.bak) && AheadOfAll(w)
  {
  }

  lemma MoveKeepsAhead(cfg: Config, w: World, m: Move)
    requires cfg.keepDaily >= 1 && WorldInv(cfg, w) && Allowed(cfg, w, m)
    ensures AheadOfAll(Next(cfg, w, m))
  {
    hide Inv, Src.Inv;
    if w.bak.pub != [] { AheadKept(cfg, w, m, w.bak.pub[|w.bak.pub| - 1]); }
    if HasRun(w.bak.phase) { AheadKept(cfg, w, m, w.bak.phase.run); }
    if m.Pull? {
      PullPhase(cfg, w.bak, m.p);
      if m.p.Choose? {
        AheadKept(cfg, w, m, m.p.run);
      }
    }
  }

  lemma MoveKeepsInv(cfg: Config, w: World, m: Move)
    requires ValidConfig(cfg) && WorldInv(cfg, w) && Allowed(cfg, w, m)
    ensures WorldInv(cfg, Next(cfg, w, m))
  {
    hide WorldInv, Inv, Src.Inv, AheadOfAll;
    WorldIs(cfg, w);
    WorldIs(cfg, Next(cfg, w, m));
    MoveKeepsAhead(cfg, w, m);
    match m {
      case Export(e) =>
        Src.StepKeepsInv(w.src, e);
      case Pull(p) =>
        if p.Choose? {
          ChosenIsNewer(cfg, w, p.run);
        }
        StepKeepsInv(cfg, w.bak, p);
    }
  }

  // ---------------------------------------------------------------- whole behaviours

  /** A behaviour: the worlds visited by a list of moves. */
  ghost predicate Behaviour(cfg: Config, ws: seq<World>, ms: seq<Move>) {
    && |ws| == |ms| + 1 && Init(ws[0])
    && forall k | 0 <= k < |ms| :: Allowed(cfg, ws[k], ms[k]) && ws[k + 1] == Next(cfg, ws[k], ms[k])
  }

  lemma {:induction false} BehaviourInv(cfg: Config, ws: seq<World>, ms: seq<Move>, k: int)
    requires ValidConfig(cfg) && Behaviour(cfg, ws, ms) && 0 <= k < |ws|
    ensures WorldInv(cfg, ws[k])
  {
    if k == 0 {
      InitHolds(cfg, ws[0]);
    } else {
      BehaviourInv(cfg, ws, ms, k - 1);
      MoveKeepsInv(cfg, ws[k - 1], ms[k - 1]);
    }
  }

  /** Each run that reaches daily/ is newer than every run that was there. */
  lemma PublishedInOrder(cfg: Config, ws: seq<World>, ms: seq<Move>, k: int)
    requires ValidConfig(cfg) && Behaviour(cfg, ws, ms) && 0 <= k < |ms| && ms[k] == Pull(Publish)
    ensures Daily(ws[k].bak.phase.run) in ws[k + 1].bak.fs.dirs
    ensures forall d | Daily(d) in ws[k].bak.fs.dirs :: d < ws[k].bak.phase.run
  {
    BehaviourInv(cfg, ws, ms, k);
    AboveDaily(cfg, ws[k].bak, ws[k].bak.phase.run);
  }

  /** How many publications in a row were cut off between the rename and the link switch. */
  function Cut(s: Backup): int {
    |s.pub| - 1 - s.latestAt
  }

  ghost predicate Dangling(s: Backup) {
    s.latest.Some? && Daily(s.latest.value) !in s.fs.dirs
  }

  ghost predicate NewestDaily(s: Backup, r: RunId) {
    Daily(r) in s.fs.dirs && forall d | Daily(d) in s.fs.dirs :: d <= r
  }

  /** `latest` dangles exactly when retention has removed the run it names; that takes at
      least KEEP_DAILY cut publications, and without any it names the newest daily run. */
  lemma LatestLink(cfg: Config, ws: seq<World>, ms: seq<Move>, k: int)
    requires ValidConfig(cfg) && Behaviour(cfg, ws, ms) && 0 <= k < |ws|
    ensures var s := ws[k].bak;
      && (Cut(s) < cfg.keepDaily ==> !Dangling(s))
      && (Dangling(s) <==> 0 <= s.latestAt < s.base)
      && (Cut(s) == 0 && s.latest.Some? ==> NewestDaily(s, s.latest.value))
  {
    BehaviourInv(cfg, ws, ms, k);
    LatestState(cfg, ws[k].bak);
  }

  lemma NoneNewer(cfg: Config, s: Backup, run: RunId)
    requires History(cfg, s) && IsLast(s, run)
    ensures Newer(s, Daily(run)) == {}
  {
    var kept := s.pub[s.base..];
    forall d | Daily(d) in s.fs.dirs ensures d <= run {
      assert d in kept;
      var x :| 0 <= x < |kept| && kept[x] == d;
      assert s.pub[s.base + x] == d;
    }
  }

  lemma LatestState(cfg: Config, s: Backup)
    requires cfg.keepDaily >= 1 && Inv(cfg, s)
    ensures Dangling(s) <==> 0 <= s.latestAt < s.base
    ensures Cut(s) == 0 && s.latest.Some? ==> NewestDaily(s, s.latest.value)
  {
    hide Valid, PhaseOk, AllIntact;
    if s.latest.Some? {
      StillThere(cfg, s, s.latestAt);
      if Cut(s) == 0 {
        NoneNewer(cfg, s, s.latest.value);
        forall d | Daily(d) in s.fs.dirs ensures d <= s.latest.value {
          assert Daily(d) !in Newer(s, Daily(s.latest.value));
        }
      }
    }
  }

  lemma StillThere(cfg: Config, s: Backup, i: int)
    requires History(cfg, s) && 0 <= i < |s.pub|
    ensures Daily(s.pub[i]) in s.fs.dirs <==> s.base <= i
  {
    if s.base <= i {
      assert s.pub[s.base..][i - s.base] == s.pub[i];
    } else {
      forall j | 0 <= j < |s.pub[s.base..]| ensures s.pub[s.base..][j] != s.pub[i] {
        assert s.pub[s.base..][j] == s.pub[s.base + j];
      }
    }
  }

  /** Once retention has caught up, KEEP_DAILY cut publications are also enough. */
  lemma LatestLinkExact(cfg: Config, ws: seq<World>, ms: seq<Move>, k: int)
    requires ValidConfig(cfg) && Behaviour(cfg, ws, ms) && 0 <= k < |ws|
    requires ws[k].bak.latest.Some? && forall r :: !Excess(cfg, ws[k].bak, Daily(r))
    ensures Dangling(ws[k].bak) <==> Cut(ws[k].bak) >= cfg.keepDaily
  {
    BehaviourInv(cfg, ws, ms, k);
    var s := ws[k].bak;
    LatestState(cfg, s);
    ExcessDaily(cfg, s, s.pub[s.base]);
    assert s.base >= |s.pub| - cfg.keepDaily;
  }

  /** Everything visible in ready/ that retention is not about to remove is sealed, in
      particular the newest run. */
  lemma ReadyIsSealed(cfg: Config, ws: seq<World>, ms: seq<Move>, k: int, r: RunId)
    requires ValidConfig(cfg) && Behaviour(cfg, ws, ms) && 0 <= k < |ws|
    requires r in ws[k].src.ready && |Src.NewerReady(ws[k].src, r)| < ws[k].src.keep
    ensures Src.Sealed(ws[k].src.ready[r]) && Src.Covered(ws[k].src.ready[r])
  {
    BehaviourInv(cfg, ws, ms, k);
  }

  /** Both markers and the list are there, and every listed file is, with its checksum. */
  ghost predicate AsListed(c: map<Name, Content>) {
    && Complete in c && Verified in c && Sums in c && c[Sums].Manifest? && c[Sums].sums != map[]
    && forall n | n in c[Sums].sums :: n in c && c[Sums].sums[n] == Digest(c[n])
  }

  /** Everything visible in daily/ passes its checksum list, is marked verified, and holds
      what it held when it was published; except possibly the oldest, and only while newer
      runs alone fill the quota. */
  lemma DailyIsVerified(cfg: Config, ws: seq<World>, ms: seq<Move>, k: int, r: RunId)
    requires ValidConfig(cfg) && Behaviour(cfg, ws, ms) && 0 <= k < |ws|
    requires Daily(r) in ws[k].bak.fs.dirs && !Expendable(cfg, ws[k].bak, r)
    ensures Good(Contents(ws[k].bak.fs, Daily(r)))
    ensures r in ws[k].bak.sealed && Contents(ws[k].bak.fs, Daily(r)) == ws[k].bak.sealed[r]
    ensures AsListed(Contents(ws[k].bak.fs, Daily(r)))
  {
    BehaviourInv(cfg, ws, ms, k);
    KeptIsVerified(cfg, ws[k].bak, r);
  }

  /** The oldest run of daily/, when newer ones alone fill the quota. */
  ghost predicate Expendable(cfg: Config, s: Backup, r: RunId) {
    |Newer(s, Daily(r))| >= cfg.keepDaily && forall d | Daily(d) in s.fs.dirs :: r <= d
  }

  lemma KeptIsVerified(cfg: Config, s: Backup, r: RunId)
    requires cfg.keepDaily >= 1 && Inv(cfg, s) && Daily(r) in s.fs.dirs && !Expendable(cfg, s, r)
    ensures Good(Contents(s.fs, Daily(r)))
    ensures r in s.sealed && Contents(s.fs, Daily(r)) == s.sealed[r]
  {
    hide Good, Submap, Newer, Valid, PhaseOk, LatestOk;
    var i :| 0 <= i < |s.pub[s.base..]| && s.pub[s.base..][i] == r;
    var j := s.base + i;
    assert s.pub[j] == r && Intact(cfg, s, j);
    if j == s.base {
      NewerThanOldest(cfg, s);
      OldestIsFirst(cfg, s);
    }
  }

  lemma OldestIsFirst(cfg: Config, s: Backup)
    requires History(cfg, s) && s.base < |s.pub|
    ensures forall d | Daily(d) in s.fs.dirs :: s.pub[s.base] <= d
  {
    forall d | Daily(d) in s.fs.dirs ensures s.pub[s.base] <= d {
      var x :| 0 <= x < |s.pub[s.base..]| && s.pub[s.base..][x] == d;
      assert s.pub[s.base + x] == d;
    }
  }

  lemma NewerThanOldest(cfg: Config, s: Backup)
    requires History(cfg, s) && s.base < |s.pub|
    ensures |Newer(s, Daily(s.pub[s.base]))| == |s.pub| - s.base - 1
  {
    var oldest := Daily(s.pub[s.base]);
    DailyClass(cfg, s, oldest.run);
    assert s.pub[s.base..][0] == oldest.run;
    assert oldest in Class(s, oldest);
    forall q ensures q in Newer(s, oldest) <==> q in Class(s, oldest) - {oldest} {
      if q in Class(s, oldest) - {oldest} {
        var x :| 0 <= x < |s.pub[s.base..]| && s.pub[s.base..][x] == q.run;
        assert s.pub[s.base + x] == q.run && x > 0;
      }
    }
    assert Newer(s, oldest) == Class(s, oldest) - {oldest};
  }

  ghost predicate SettledFrom(ws: seq<World>, i: int, j: int, p: Point)
    requires 0 <= i <= j < |ws|
  {
    forall k | i <= k <= j :: Settled(ws[k].bak, p)
  }

  lemma MoveKeepsBytes(cfg: Config, w: World, m: Move, p: Point)
    requires WorldInv(cfg, w) && Allowed(cfg, w, m) && Settled(w.bak, p)
    ensures Contents(Next(cfg, w, m).bak.fs, p) == Contents(w.bak.fs, p)
  {
    if m.Pull? {
      BytesKept(cfg, w.bak, m.p, p);
    }
  }

  lemma OneMove(cfg: Config, ws: seq<World>, ms: seq<Move>, k: int, p: Point)
    requires ValidConfig(cfg) && Behaviour(cfg, ws, ms) && 0 <= k < |ms| && Settled(ws[k].bak, p)
    ensures Contents(ws[k + 1].bak.fs, p) == Contents(ws[k].bak.fs, p)
  {
    BehaviourInv(cfg, ws, ms, k);
    MoveKeepsBytes(cfg, ws[k], ms[k], p);
  }

  lemma {:induction false} Constant<T>(xs: seq<T>, i: int, j: int)
    requires 0 <= i <= j < |xs| && forall k | i <= k < j :: xs[k] == xs[k + 1]
    ensures xs[i] == xs[j]
    decreases j - i
  {
    if i < j {
      Constant(xs, i + 1, j);
    }
  }

  /** Along every behaviour a settled recovery point keeps its bytes, and inodes are
      allocated exactly while some directory entry refers to them. */
  lemma BytesNeverChange(cfg: Config, ws: seq<World>, ms: seq<Move>, i: int, j: int, p: Point)
    requires ValidConfig(cfg) && Behaviour(cfg, ws, ms) && 0 <= i <= j < |ws|
    requires SettledFrom(ws, i, j, p)
    ensures Contents(ws[j].bak.fs, p) == Contents(ws[i].bak.fs, p)
  {
    var seen := seq(|ws|, k requires 0 <= k < |ws| => Contents(ws[k].bak.fs, p));
    forall k | i <= k < j ensures seen[k] == seen[k + 1] {
      OneMove(cfg, ws, ms, k, p);
    }
    Constant(seen, i, j);
  }

  lemma InodesAreReferenced(cfg: Config, ws: seq<World>, ms: seq<Move>, k: int, i: Inode)
    requires ValidConfig(cfg) && Behaviour(cfg, ws, ms) && 0 <= k < |ws|
    ensures i in ws[k].bak.fs.nodes <==> exists x :: IsLink(ws[k].bak.fs, x, i)
  {
    BehaviourInv(cfg, ws, ms, k);
    FreedIffUnreferenced(ws[k].bak.fs, i);
  }

  // ---------------------------------------------------------------- where the guarantee stops

  /** Any moves of either host, crashes included, but no publication into daily/. */
  ghost predicate Quiet(cfg: Config, w: World, ms: seq<Move>, v: World)
    decreases |ms|
  {
    if ms == [] then v == w
    else ms[0] != Pull(Publish) && Allowed(cfg, w, ms[0]) && Quiet(cfg, Next(cfg, w, ms[0]), ms[1..], v)
  }

  lemma QuietMore(cfg: Config, w: World, m: Move, rest: seq<Move>, v: World)
    requires m != Pull(Publish) && Allowed(cfg, w, m) && Quiet(cfg, Next(cfg, w, m), rest, v)
    ensures Quiet(cfg, w, [m] + rest, v)
  {
    assert ([m] + rest)[1..] == rest;
  }

  /** The run is visible in daily/ and is not what was published. */
  predicate Torn(s: Backup, r: RunId) {
    Daily(r) in s.fs.dirs && !Good(Contents(s.fs, Daily(r)))
  }

  /** Before the next publication the run can come to be seen torn. */
  ghost predicate CanTear(cfg: Config, w: World, r: RunId) {
    exists ms, v :: Quiet(cfg, w, ms, v) && Torn(v.bak, r)
  }

  lemma TearEarlier(cfg: Config, w: World, m: Move, r: RunId)
    requires m != Pull(Publish) && Allowed(cfg, w, m) && CanTear(cfg, Next(cfg, w, m), r)
    ensures CanTear(cfg, w, r)
  {
    hide Torn;
    var rest, v :| Quiet(cfg, Next(cfg, w, m), rest, v) && Torn(v.bak, r);
    QuietMore(cfg, w, m, rest, v);
  }

  lemma StepAddsNoDaily(cfg: Config, s: Backup, step: Step, d: RunId)
    requires Enabled(cfg, s, step) && !step.Publish?
    ensures Daily(d) in Apply(cfg, s, step).fs.dirs ==> Daily(d) in s.fs.dirs
  {
    hide Contents, Passes, Excess, FromRun;
  }

  lemma {:induction false} QuietKeeps(cfg: Config, w: World, ms: seq<Move>, v: World, d: RunId)
    requires ValidConfig(cfg) && WorldInv(cfg, w) && Quiet(cfg, w, ms, v)
    ensures WorldInv(cfg, v) && (Daily(d) in v.bak.fs.dirs ==> Daily(d) in w.bak.fs.dirs)
    decreases |ms|
  {
    hide WorldInv, Enabled, Apply;
    if ms != [] {
      MoveKeepsInv(cfg, w, ms[0]);
      QuietKeeps(cfg, Next(cfg, w, ms[0]), ms[1..], v, d);
      if ms[0].Pull? {
        StepAddsNoDaily(cfg, w.bak, ms[0].p, d);
      }
    }
  }

  lemma QuietKeepsVerified(cfg: Config, w: World, ms: seq<Move>, v: World, r: RunId)
    requires ValidConfig(cfg) && WorldInv(cfg, w) && Quiet(cfg, w, ms, v)
    requires |Newer(w.bak, Daily(r))| < cfg.keepDaily
    ensures !Torn(v.bak, r)
  {
    hide WorldInv, Inv, Good, Quiet;
    QuietKeeps(cfg, w, ms, v, r);
    forall q | q in Newer(v.bak, Daily(r)) ensures q in Newer(w.bak, Daily(r)) {
      QuietKeeps(cfg, w, ms, v, q.run);
    }
    SubsetSize(Newer(v.bak, Daily(r)), Newer(w.bak, Daily(r)));
    WorldIs(cfg, v);
    if Daily(r) in v.bak.fs.dirs {
      KeptIsVerified(cfg, v.bak, r);
    }
  }

  lemma ExpendableIsExcess(cfg: Config, s: Backup, r: RunId)
    requires cfg.keepDaily >= 1 && History(cfg, s) && Daily(r) in s.fs.dirs && Expendable(cfg, s, r)
    ensures Excess(cfg, s, Daily(r))
  {
    var p := Daily(r);
    var others := Newer(s, p);
    assert p !in others && others + {p} <= Class(s, p);
    SubsetSize(others + {p}, Class(s, p));
    assert |others + {p}| == |others| + 1;
  }

  lemma WithoutList(s: Backup, r: RunId)
    requires Valid(s.fs) && Linked(s.fs, Daily(r), Sums)
    ensures var g := Unlink(s.fs, Daily(r), Sums); Daily(r) in g.dirs && !Passes(Contents(g, Daily(r)))
  {
    UnlinkContents(s.fs, Daily(r), Sums, Daily(r));
  }

  lemma Unlisted(s: Backup, r: RunId)
    requires Daily(r) in s.fs.dirs && !Linked(s.fs, Daily(r), Sums)
    ensures !Passes(Contents(s.fs, Daily(r)))
  {
  }

  /** A removal that has begun: its checksum list goes, then the script is cut off. */
  lemma TearBegun(cfg: Config, w: World, r: RunId) returns (ms: seq<Move>, v: World)
    requires Valid(w.bak.fs) && w.bak.phase.Removing? && w.bak.phase.victim == Daily(r) && Daily(r) in w.bak.fs.dirs
    ensures Quiet(cfg, w, ms, v) && v.bak.phase.Idle? && Torn(v.bak, r)
  {
    hide Valid, Passes, Contents, Quiet;
    if Linked(w.bak.fs, Daily(r), Sums) {
      WithoutList(w.bak, r);
      var torn := Next(cfg, w, Pull(RemoveFile(Sums)));
      ms, v := Stopped(cfg, torn);
      QuietMore(cfg, w, Pull(RemoveFile(Sums)), ms, v);
      ms := [Pull(RemoveFile(Sums))] + ms;
    } else {
      Unlisted(w.bak, r);
      ms, v := Stopped(cfg, w);
    }
  }

  lemma Stopped(cfg: Config, w: World) returns (ms: seq<Move>, v: World)
    ensures Quiet(cfg, w, ms, v) && v == w.(bak := w.bak.(phase := Idle))
  {
    v := Next(cfg, w, Pull(Crash));
    QuietMore(cfg, w, Pull(Crash), [], v);
    ms := [Pull(Crash)] + [];
  }

  lemma RemovalBegins(cfg: Config, w: World, p: Point) returns (locked: World, begun: World)
    requires w.bak.phase.Idle? && Excess(cfg, w.bak, p)
    ensures Allowed(cfg, w, Pull(Lock)) && locked == Next(cfg, w, Pull(Lock))
    ensures Allowed(cfg, locked, Pull(BeginRemove(p))) && begun == Next(cfg, locked, Pull(BeginRemove(p)))
    ensures begun == w.(bak := w.bak.(phase := Removing(p, Locked)))
  {
    locked := Next(cfg, w, Pull(Lock));
    assert Class(locked.bak, p) == Class(w.bak, p);
    begun := Next(cfg, locked, Pull(BeginRemove(p)));
  }

  /** From an idle host the oldest run, once newer ones fill the quota, can lose its checksum list
      and stay visible: retention is cut off right after it. */
  lemma TornDailyIsVisible(cfg: Config, w: World, r: RunId) returns (ms: seq<Move>, v: World)
    requires ValidConfig(cfg) && WorldInv(cfg, w) && w.bak.phase.Idle?
    requires Daily(r) in w.bak.fs.dirs && Expendable(cfg, w.bak, r)
    ensures Quiet(cfg, w, ms, v) && v.bak.phase.Idle? && Torn(v.bak, r)
  {
    hide Quiet, Torn, Excess, Expendable, WorldInv, Inv, Valid, Allowed, Next;
    WorldIs(cfg, w);
    InvIs(cfg, w.bak);
    ExpendableIsExcess(cfg, w.bak, r);
    var locked, begun := RemovalBegins(cfg, w, Daily(r));
    ms, v := TearBegun(cfg, begun, r);
    QuietMore(cfg, locked, Pull(BeginRemove(Daily(r))), ms, v);
    QuietMore(cfg, w, Pull(Lock), [Pull(BeginRemove(Daily(r)))] + ms, v);
    ms := [Pull(Lock)] + ([Pull(BeginRemove(Daily(r)))] + ms);
  }

  /** Newer runs fill the quota of daily/ without this one. */
  predicate Replaced(cfg: Config, s: Backup, r: RunId) {
    Daily(r) in s.fs.dirs && |Newer(s, Daily(r))| >= cfg.keepDaily
  }

  ghost predicate SameDailyNames(s: Backup, t: Backup) {
    forall q: Point | q.Daily? :: q in t.fs.dirs <==> q in s.fs.dirs
  }

  lemma ReplacedStays(cfg: Config, s: Backup, t: Backup, r: RunId)
    requires Replaced(cfg, s, r) && SameDailyNames(s, t)
    ensures Replaced(cfg, t, r) && Class(t, Daily(r)) == Class(s, Daily(r))
  {
    assert Newer(t, Daily(r)) == Newer(s, Daily(r));
  }

  lemma OlderGone(cfg: Config, s: Backup, t: Backup, o: RunId, r: RunId)
    requires Replaced(cfg, s, r) && o < r && Daily(o) in s.fs.dirs
    requires forall q: Point :: q in t.fs.dirs <==> q in s.fs.dirs && q != Daily(o)
    ensures Replaced(cfg, t, r) && |Class(t, Daily(r))| < |Class(s, Daily(r))|
  {
    assert Newer(t, Daily(r)) == Newer(s, Daily(r));
    assert Class(t, Daily(r)) == Class(s, Daily(r)) - {Daily(o)};
  }

  lemma OldestOf(cfg: Config, s: Backup, r: RunId) returns (o: RunId)
    requires cfg.keepDaily >= 1 && Inv(cfg, s) && Replaced(cfg, s, r)
    ensures Daily(o) in s.fs.dirs && o <= r && Excess(cfg, s, Daily(o))
    ensures o == r ==> Expendable(cfg, s, r)
  {
    hide Valid, LatestOk, PhaseOk, AllIntact;
    o := s.pub[s.base];
    assert s.pub[s.base..][0] == o;
    OldestIsFirst(cfg, s);
    assert Newer(s, Daily(r)) <= Newer(s, Daily(o));
    SubsetSize(Newer(s, Daily(r)), Newer(s, Daily(o)));
    ExpendableIsExcess(cfg, s, o);
  }

  /** Retention removes what is older, starts on the run, and is cut off. */
  lemma {:induction false} ReplacedCanTear(cfg: Config, w: World, r: RunId)
    requires ValidConfig(cfg) && WorldInv(cfg, w) && w.bak.phase.Idle? && Replaced(cfg, w.bak, r)
    ensures CanTear(cfg, w, r)
    decreases |Class(w.bak, Daily(r))|, 1, 0
  {
    hide WorldInv, Inv, Replaced, Excess, CanTear, Expendable, Allowed, Next;
    WorldIs(cfg, w);
    var o := OldestOf(cfg, w.bak, r);
    if o == r {
      TornNow(cfg, w, r);
    } else {
      var locked, begun := RemovalBegins(cfg, w, Daily(o));
      MoveKeepsInv(cfg, w, Pull(Lock));
      MoveKeepsInv(cfg, locked, Pull(BeginRemove(Daily(o))));
      ReplacedStays(cfg, w.bak, begun.bak, r);
      OlderCanGo(cfg, begun, o, r);
      TearEarlier(cfg, locked, Pull(BeginRemove(Daily(o))), r);
      TearEarlier(cfg, w, Pull(Lock), r);
    }
  }

  lemma TornNow(cfg: Config, w: World, r: RunId)
    requires ValidConfig(cfg) && WorldInv(cfg, w) && w.bak.phase.Idle? && Replaced(cfg, w.bak, r)
    requires Expendable(cfg, w.bak, r)
    ensures CanTear(cfg, w, r)
  {
    hide WorldInv, Quiet, Torn;
    var ms, v := TornDailyIsVisible(cfg, w, r);
  }

  lemma {:induction false} OlderCanGo(cfg: Config, w: World, o: RunId, r: RunId)
    requires ValidConfig(cfg) && WorldInv(cfg, w) && Replaced(cfg, w.bak, r) && o < r
    requires w.bak.phase == Removing(Daily(o), Locked) && Daily(o) in w.bak.fs.dirs
    ensures CanTear(cfg, w, r)
    decreases |Class(w.bak, Daily(r))|, 0, |w.bak.fs.dirs[Daily(o)]|
  {
    hide WorldInv, Replaced, CanTear, Allowed, Next;
    if w.bak.fs.dirs[Daily(o)] == map[] {
      var gone := DirGoes(cfg, w, o, r);
      var idle := CutOff(cfg, gone, r);
      ReplacedCanTear(cfg, idle, r);
      TearEarlier(cfg, gone, Pull(Crash), r);
      TearEarlier(cfg, w, Pull(RemoveDir), r);
    } else {
      var n, less := FileGoes(cfg, w, o, r);
      OlderCanGo(cfg, less, o, r);
      TearEarlier(cfg, w, Pull(RemoveFile(n)), r);
    }
  }

  lemma DirGoes(cfg: Config, w: World, o: RunId, r: RunId) returns (t: World)
    requires ValidConfig(cfg) && WorldInv(cfg, w) && Replaced(cfg, w.bak, r) && o < r
    requires w.bak.phase == Removing(Daily(o), Locked) && Daily(o) in w.bak.fs.dirs
    requires w.bak.fs.dirs[Daily(o)] == map[]
    ensures Allowed(cfg, w, Pull(RemoveDir)) && t == Next(cfg, w, Pull(RemoveDir))
    ensures WorldInv(cfg, t) && Replaced(cfg, t.bak, r) && |Class(t.bak, Daily(r))| < |Class(w.bak, Daily(r))|
  {
    hide WorldInv, Replaced;
    t := Next(cfg, w, Pull(RemoveDir));
    MoveKeepsInv(cfg, w, Pull(RemoveDir));
    OlderGone(cfg, w.bak, t.bak, o, r);
  }

  lemma CutOff(cfg: Config, w: World, r: RunId) returns (t: World)
    requires ValidConfig(cfg) && WorldInv(cfg, w) && Replaced(cfg, w.bak, r)
    ensures Allowed(cfg, w, Pull(Crash)) && t == Next(cfg, w, Pull(Crash))
    ensures WorldInv(cfg, t) && t.bak.phase.Idle? && Replaced(cfg, t.bak, r)
    ensures Class(t.bak, Daily(r)) == Class(w.bak, Daily(r))
  {
    hide WorldInv, Replaced;
    t := Next(cfg, w, Pull(Crash));
    MoveKeepsInv(cfg, w, Pull(Crash));
    ReplacedStays(cfg, w.bak, t.bak, r);
  }

  lemma FileGoes(cfg: Config, w: World, o: RunId, r: RunId) returns (n: Name, t: World)
    requires ValidConfig(cfg) && WorldInv(cfg, w) && Replaced(cfg, w.bak, r)
    requires w.bak.phase == Removing(Daily(o), Locked) && Daily(o) in w.bak.fs.dirs
    requires w.bak.fs.dirs[Daily(o)] != map[]
    ensures Allowed(cfg, w, Pull(RemoveFile(n))) && t == Next(cfg, w, Pull(RemoveFile(n)))
    ensures WorldInv(cfg, t) && t.bak.phase == w.bak.phase && Daily(o) in t.bak.fs.dirs
    ensures |t.bak.fs.dirs[Daily(o)]| < |w.bak.fs.dirs[Daily(o)]|
    ensures Replaced(cfg, t.bak, r) && Class(t.bak, Daily(r)) == Class(w.bak, Daily(r))
  {
    hide WorldInv, Replaced, Inv;
    n :| n in w.bak.fs.dirs[Daily(o)];
    WorldIs(cfg, w);
    FilesAreLinked(cfg, w.bak, Daily(o), n);
    t := Next(cfg, w, Pull(RemoveFile(n)));
    MoveKeepsInv(cfg, w, Pull(RemoveFile(n)));
    ReplacedStays(cfg, w.bak, t.bak, r);
    OneLess(w.bak.fs.dirs[Daily(o)], t.bak.fs.dirs[Daily(o)], n);
  }

  lemma FilesAreLinked(cfg: Config, s: Backup, p: Point, n: Name)
    requires Inv(cfg, s) && p in s.fs.dirs && n in s.fs.dirs[p]
    ensures Linked(s.fs, p, n)
  {
    hide History, LatestOk, PhaseOk, AllIntact;
  }

  lemma OneLess<K, V>(a: map<K, V>, b: map<K, V>, k: K)
    requires k in a && b == a - {k}
    ensures |b| < |a|
  {
    assert b.Keys == a.Keys - {k};
  }

  /** At every point of every behaviour: before the next publication a run in daily/ can come to be
      seen torn if and only if at least KEEP_DAILY newer ones are there. */
  lemma DailyTornIff(cfg: Config, ws: seq<World>, ms: seq<Move>, k: int, r: RunId)
    requires ValidConfig(cfg) && Behaviour(cfg, ws, ms) && 0 <= k < |ws| && Daily(r) in ws[k].bak.fs.dirs
    ensures CanTear(cfg, ws[k], r) <==> |Newer(ws[k].bak, Daily(r))| >= cfg.keepDaily
  {
    hide Behaviour, WorldInv, Quiet, Torn, Newer;
    BehaviourInv(cfg, ws, ms, k);
    var w := ws[k];
    if |Newer(w.bak, Daily(r))| >= cfg.keepDaily {
      var idle := CutOff(cfg, w, r);
      ReplacedCanTear(cfg, idle, r);
      TearEarlier(cfg, w, Pull(Crash), r);
    } else {
      forall ns, v | Quiet(cfg, w, ns, v) ensures !Torn(v.bak, r) {
        QuietKeepsVerified(cfg, w, ns, v, r);
      }
    }
  }

  /** The same at the source, after a publication: a run in ready/ can be seen without its seal if
      and only if at least SOURCE_KEEP_READY newer ones are there. */
  lemma ReadyTornIff(cfg: Config, ws: seq<World>, ms: seq<Move>, k: int, r: RunId)
    requires ValidConfig(cfg) && Behaviour(cfg, ws, ms) && 0 <= k < |ws|
    requires ws[k].src.phase.Pruning? && r in ws[k].src.ready
    ensures Src.CanTear(ws[k].src, r) <==> |Src.NewerReady(ws[k].src, r)| >= ws[k].src.keep
  {
    BehaviourInv(cfg, ws, ms, k);
    Src.CanTearIff(ws[k].src, r);
  }

  // ---------------------------------------------------------------- promotions

  /** While `cp -al` runs, what it has made so far are links to files of the run. */
  ghost predicate CopyMirrors(s: Backup) {
    s.phase.Copying? ==> Mirrors(s.fs, Daily(s.phase.run), s.phase.to)
  }

  lemma StepKeepsMirror(cfg: Config, s: Backup, step: Step)
    requires Inv(cfg, s) && Enabled(cfg, s, step) && CopyMirrors(s)
    ensures CopyMirrors(Apply(cfg, s, step))
  {
    hide Inv, Valid, History, LatestOk, AllIntact, Contents;
    InvIs(cfg, s);
    if step.CopyFile? {
      LinkMirrors(s.fs, Daily(s.phase.run), s.phase.to, step.name);
    }
  }

  lemma {:induction false} BehaviourMirrors(cfg: Config, ws: seq<World>, ms: seq<Move>, k: int)
    requires ValidConfig(cfg) && Behaviour(cfg, ws, ms) && 0 <= k < |ws|
    ensures CopyMirrors(ws[k].bak)
  {
    hide CopyMirrors, Inv, Enabled, Apply;
    if k == 0 {
      NothingCopied(ws[0].bak);
    } else {
      BehaviourMirrors(cfg, ws, ms, k - 1);
      BehaviourInv(cfg, ws, ms, k - 1);
      if ms[k - 1].Pull? {
        StepKeepsMirror(cfg, ws[k - 1].bak, ms[k - 1].p);
      }
    }
  }

  lemma NothingCopied(s: Backup)
    requires s.phase.Idle?
    ensures CopyMirrors(s)
  {
  }

  lemma LastIsVerified(cfg: Config, s: Backup, run: RunId)
    requires cfg.keepDaily >= 1 && Inv(cfg, s) && IsLast(s, run) && Daily(run) in s.fs.dirs
    ensures run in s.sealed && Contents(s.fs, Daily(run)) == s.sealed[run]
  {
    hide Inv, History, Good, Contents, Newer;
    InvIs(cfg, s);
    NoneNewer(cfg, s, run);
    KeptIsVerified(cfg, s, run);
  }

  /** What is being copied is the run published last, and the copy has only files of that run. */
  lemma CopyOfLast(cfg: Config, s: Backup)
    requires cfg.keepDaily >= 1 && Inv(cfg, s) && CopyMirrors(s) && s.phase.Copying?
    ensures s.phase.to in s.fs.dirs && RecoveryPoint(s.phase.to)
    ensures s.phase.run in s.sealed && Submap(Contents(s.fs, s.phase.to), s.sealed[s.phase.run])
    ensures s.fs.dirs[s.phase.to].Keys == s.fs.dirs[Daily(s.phase.run)].Keys ==>
              Contents(s.fs, s.phase.to) == s.sealed[s.phase.run]
  {
    hide Inv, History, LatestOk, AllIntact;
    InvIs(cfg, s);
    LastIsVerified(cfg, s, s.phase.run);
    if s.fs.dirs[s.phase.to].Keys == s.fs.dirs[Daily(s.phase.run)].Keys {
      MirrorComplete(s.fs, Daily(s.phase.run), s.phase.to);
    }
  }

  lemma EndsAt(cfg: Config, ws: seq<World>, ms: seq<Move>, k: int)
    requires ValidConfig(cfg) && Behaviour(cfg, ws, ms) && 0 <= k < |ms| && ms[k] == Pull(EndCopy)
    ensures Inv(cfg, ws[k].bak) && ws[k].bak.phase.Copying? && ws[k + 1].bak.fs == ws[k].bak.fs
    ensures Daily(ws[k].bak.phase.run) in ws[k].bak.fs.dirs && ws[k].bak.phase.to in ws[k].bak.fs.dirs
    ensures ws[k].bak.fs.dirs[ws[k].bak.phase.to].Keys == ws[k].bak.fs.dirs[Daily(ws[k].bak.phase.run)].Keys
  {
    hide Inv;
    BehaviourInv(cfg, ws, ms, k);
  }

  /** A copy that ran to its end holds the run as it was published, and goes on doing so until
      retention takes it. */
  lemma WholePromotionHolds(cfg: Config, ws: seq<World>, ms: seq<Move>, k: int, j: int)
    requires ValidConfig(cfg) && Behaviour(cfg, ws, ms) && 0 <= k < j < |ws| == |ms| + 1 && ms[k] == Pull(EndCopy)
    requires ws[k].bak.phase.Copying? && SettledFrom(ws, k + 1, j, ws[k].bak.phase.to)
    ensures ws[k].bak.phase.run in ws[k].bak.sealed
    ensures Contents(ws[j].bak.fs, ws[k].bak.phase.to) == ws[k].bak.sealed[ws[k].bak.phase.run]
  {
    hide Behaviour, Inv, CopyMirrors, Contents, SettledFrom;
    EndsAt(cfg, ws, ms, k);
    BehaviourMirrors(cfg, ws, ms, k);
    CopyOfLast(cfg, ws[k].bak);
    BytesNeverChange(cfg, ws, ms, k + 1, j, ws[k].bak.phase.to);
  }

  /** Nobody is copying into the directory, and it holds no more than c. */
  ghost predicate Below(s: Backup, to: Point, c: map<Name, Content>) {
    to in s.fs.dirs && Submap(Contents(s.fs, to), c) && !(s.phase.Copying? && s.phase.to == to)
  }

  lemma NotCopiedNext(cfg: Config, s: Backup, step: Step, to: Point)
    requires Inv(cfg, s) && Enabled(cfg, s, step) && to in s.fs.dirs && !(s.phase.Copying? && s.phase.to == to)
    ensures var t := Apply(cfg, s, step); !(t.phase.Copying? && t.phase.to == to)
  {
    hide Inv, Contents;
    if s.phase.Removing? {
      BackIsWaiting(cfg, s);
    }
  }

  lemma VictimOnlyShrinks(cfg: Config, s: Backup, step: Step, to: Point)
    requires Inv(cfg, s) && Enabled(cfg, s, step) && s.phase.Removing? && s.phase.victim == to
    requires to in Apply(cfg, s, step).fs.dirs
    ensures Submap(Contents(Apply(cfg, s, step).fs, to), Contents(s.fs, to))
  {
    hide Inv, History, LatestOk, PhaseOk, AllIntact, Valid, Contents, Excess;
    InvIs(cfg, s);
    if step.RemoveFile? {
      UnlinkContents(s.fs, to, step.name, to);
    }
  }

  lemma StepKeepsBelow(cfg: Config, s: Backup, step: Step, to: Point, c: map<Name, Content>)
    requires Inv(cfg, s) && Enabled(cfg, s, step) && RecoveryPoint(to) && Below(s, to, c)
    requires to in Apply(cfg, s, step).fs.dirs
    ensures Below(Apply(cfg, s, step), to, c)
  {
    hide Inv, Enabled, Apply, Contents;
    NotCopiedNext(cfg, s, step, to);
    if s.phase.Removing? && s.phase.victim == to {
      VictimOnlyShrinks(cfg, s, step, to);
    } else {
      BytesKept(cfg, s, step, to);
    }
  }

  ghost predicate Stays(ws: seq<World>, i: int, j: int, to: Point)
    requires 0 <= i <= j < |ws|
  {
    forall k | i <= k <= j :: to in ws[k].bak.fs.dirs
  }

  lemma OneMoveBelow(cfg: Config, ws: seq<World>, ms: seq<Move>, k: int, to: Point, c: map<Name, Content>)
    requires ValidConfig(cfg) && Behaviour(cfg, ws, ms) && 0 <= k < |ms|
    requires RecoveryPoint(to) && Below(ws[k].bak, to, c) && to in ws[k + 1].bak.fs.dirs
    ensures Below(ws[k + 1].bak, to, c)
  {
    hide Inv, Below, Enabled, Apply;
    BehaviourInv(cfg, ws, ms, k);
    if ms[k].Pull? {
      StepKeepsBelow(cfg, ws[k].bak, ms[k].p, to, c);
    }
  }

  lemma {:induction false} Persists(xs: seq<bool>, i: int, j: int)
    requires 0 <= i <= j < |xs| && xs[i] && forall k | i <= k < j :: xs[k] ==> xs[k + 1]
    ensures xs[j]
    decreases j - i
  {
    if i < j {
      Persists(xs, i + 1, j);
    }
  }

  lemma StaysBelow(cfg: Config, ws: seq<World>, ms: seq<Move>, i: int, j: int, to: Point, c: map<Name, Content>)
    requires ValidConfig(cfg) && Behaviour(cfg, ws, ms) && 0 <= i <= j < |ws| == |ms| + 1
    requires RecoveryPoint(to) && Below(ws[i].bak, to, c) && Stays(ws, i, j, to)
    ensures Submap(Contents(ws[j].bak.fs, to), c)
  {
    hide Behaviour, Contents;
    var below := seq(|ws|, k requires 0 <= k < |ws| => Below(ws[k].bak, to, c));
    forall k | i <= k < j && below[k] ensures below[k + 1] {
      OneMoveBelow(cfg, ws, ms, k, to, c);
    }
    Persists(below, i, j);
  }

  lemma CrashAt(cfg: Config, ws: seq<World>, ms: seq<Move>, i: int)
    requires ValidConfig(cfg) && Behaviour(cfg, ws, ms) && 0 <= i < |ms| && ms[i] == Pull(Crash)
    ensures Inv(cfg, ws[i].bak) && ws[i + 1].bak == ws[i].bak.(phase := Idle)
  {
    hide Inv;
    BehaviourInv(cfg, ws, ms, i);
  }

  /** `cp -al` is not atomic and its result is only tested for existence: a promotion that was cut
      off holds a part of the run, and as long as the directory exists it gains nothing, whatever
      either host does; it is exactly that part until retention takes it. */
  lemma TornPromotionStays(cfg: Config, ws: seq<World>, ms: seq<Move>, i: int, j: int)
    requires ValidConfig(cfg) && Behaviour(cfg, ws, ms) && 0 <= i < j < |ws| == |ms| + 1 && ms[i] == Pull(Crash)
    requires ws[i].bak.phase.Copying? && Stays(ws, i, j, ws[i].bak.phase.to)
    ensures ws[i].bak.phase.run in ws[i].bak.sealed
    ensures Submap(Contents(ws[i].bak.fs, ws[i].bak.phase.to), ws[i].bak.sealed[ws[i].bak.phase.run])
    ensures Submap(Contents(ws[j].bak.fs, ws[i].bak.phase.to), Contents(ws[i].bak.fs, ws[i].bak.phase.to))
    ensures SettledFrom(ws, i + 1, j, ws[i].bak.phase.to) ==>
              Contents(ws[j].bak.fs, ws[i].bak.phase.to) == Contents(ws[i].bak.fs, ws[i].bak.phase.to)
  {
    hide Behaviour, Inv, CopyMirrors, Contents, SettledFrom;
    var s, to := ws[i].bak, ws[i].bak.phase.to;
    CrashAt(cfg, ws, ms, i);
    BehaviourMirrors(cfg, ws, ms, i);
    CopyOfLast(cfg, s);
    StaysBelow(cfg, ws, ms, i + 1, j, to, Contents(s.fs, to));
    if SettledFrom(ws, i + 1, j, to) {
      BytesNeverChange(cfg, ws, ms, i + 1, j, to);
    }
  }
}
