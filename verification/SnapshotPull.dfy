/** The pull script on the backup host as a machine whose steps are single file-system
    changes, so that a crash may fall between any two of them.  `rm -rf` and `cp -al` are
    therefore many steps; `mv` of a directory and of the `latest` link are one. */
module SnapshotPull {
  import opened Options
  import opened SnapshotFs

  // Week and month keys of a run in the retention time zone: functions of the run id.
  datatype Config = Config(keepDaily: int, keepWeekly: int, keepMonthly: int, keepFailed: int,
                           week: RunId -> int, month: RunId -> int)

  ghost predicate ValidConfig(cfg: Config) {
    && cfg.keepDaily >= 1 && cfg.keepWeekly >= 0 && cfg.keepMonthly >= 0 && cfg.keepFailed >= 0
    && (forall a, b | a <= b :: cfg.week(a) <= cfg.week(b))
    && (forall a, b | a <= b :: cfg.month(a) <= cfg.month(b))
  }

  datatype Phase =
    | Idle
    | Locked                               // lock held; the capacity check may prune
    | Chosen(run: RunId)                   // newest source run, not yet in daily/
    | Fetching(run: RunId)                 // rsync fills the partial directory
    | Checked(run: RunId)                  // `sha256sum --check` passed; filesets follow
    | Marked(run: RunId)                   // .verified written
    | Renamed(run: RunId)                  // in daily/, `latest` not switched yet
    | Switched(run: RunId)                 // `latest` switched; promotion follows
    | Copying(run: RunId, to: Point)       // `cp -al` in progress
    | Retaining
    | Removing(victim: Point, back: Phase) // `rm -rf` in progress

  /** `history` fields, from `pub` on, never influence a step:
      pub       every run ever renamed into daily/, oldest first
      base      how many of them retention has removed again
      latestAt  position in pub of the run `latest` names, -1 before the first switch
      sealed    what each run held when it was renamed into daily/
      origin    the run each weekly/monthly directory was copied from */
  datatype Backup = Backup(fs: Fs, latest: Option<RunId>, phase: Phase,
                           pub: seq<RunId>, base: int, latestAt: int,
                           sealed: map<RunId, map<Name, Content>>, origin: map<Point, RunId>)

  datatype Step =
    | Lock
    | Choose(run: RunId)
    | NoNewRun
    | MakePartial
    | FetchLink(name: Name)
    | FetchCopy(name: Name, data: Content, inode: Inode)
    | Check
    | FilesetLink(name: Name)
    | FilesetCopy(name: Name, data: Content, inode: Inode)
    | FilesetList(inode: Inode)
    | Mark(inode: Inode)
    | Publish
    | Switch
    | BeginCopy(to: Point)
    | CopyFile(name: Name)
    | EndCopy
    | Promoted
    | BeginRemove(victim: Point)
    | RemoveFile(name: Name)
    | RemoveDir
    | Done
    | Abort(tag: int)
    | Crash

  // ---------------------------------------------------------------- checksums

  /** `sha256sum --check --strict`: a non-empty list, every entry present with that digest. */
  predicate Passes(c: map<Name, Content>) {
    && Complete in c && Sums in c && c[Sums].Manifest? && c[Sums].sums != map[]
    && forall n | n in c[Sums].sums :: n in c && Digest(c[n]) == c[Sums].sums[n]
  }

  /** The test notices whatever happens to a listed file, to the list, or to the marker. */
  lemma TamperingIsFound(c: map<Name, Content>, n: Name, x: Content)
    requires Passes(c) && n in c[Sums].sums && n != Sums
    ensures !Passes(c - {n}) && (x != c[n] ==> !Passes(c[n := x]))
    ensures !Passes(c - {Complete}) && !Passes(c - {Sums}) && !Passes(c[Sums := Manifest(map[])])
  {
    var less := c - {n};
    var other := c[n := x];
    assert n !in less && (Sums in less ==> less[Sums] == c[Sums]);
    assert other[Sums] == c[Sums] && other[n] == x;
    assert Digest(c[n]) == c[Sums].sums[n];
  }

  predicate Good(c: map<Name, Content>) {
    Passes(c) && Verified in c
  }

  function FilesetManifest(c: map<Name, Content>): Content {
    Manifest(map n | n in c && n.Fileset? :: Digest(c[n]))
  }

  predicate FromRun(n: Name) {
    n.Payload? || n.Sums? || n.Complete?
  }

  // ---------------------------------------------------------------- retention

  predicate SameClass(p: Point, q: Point) {
    (p.Daily? && q.Daily?) || (p.Weekly? && q.Weekly?) || (p.Monthly? && q.Monthly?) || (p.Failed? && q.Failed?)
  }

  function Order(p: Point): int {
    match p
    case Daily(r) => r
    case Partial(r) => r
    case Failed(t) => t
    case Weekly(k) => k
    case Monthly(k) => k
  }

  function Keep(cfg: Config, p: Point): int {
    match p
    case Daily(_) => cfg.keepDaily
    case Weekly(_) => cfg.keepWeekly
    case Monthly(_) => cfg.keepMonthly
    case _ => cfg.keepFailed
  }

  /** The retention class of p: the directories that one call of prune_named_dirs lists. */
  function Class(s: Backup, p: Point): set<Point> {
    set q | q in s.fs.dirs && SameClass(p, q)
  }

  function Newer(s: Backup, p: Point): set<Point> {
    set q | q in s.fs.dirs && SameClass(p, q) && Order(p) < Order(q)
  }

  /** p is the oldest directory of its class and the class has more than it may keep. */
  predicate Excess(cfg: Config, s: Backup, p: Point) {
    && p in s.fs.dirs && SameClass(p, p)
    && (forall q | q in Class(s, p) :: Order(p) <= Order(q))
    && |Class(s, p)| > Keep(cfg, p)
  }

  // ---------------------------------------------------------------- steps

  predicate Writable(s: Backup, p: Point, n: Name, i: Inode) {
    p in s.fs.dirs && n !in s.fs.dirs[p] && i !in s.fs.nodes
  }

  /** `--link-dest` only applies when `latest` is a link to an existing directory. */
  predicate LinkSource(s: Backup, p: Point, n: Name) {
    && s.latest.Some? && Linked(s.fs, Daily(s.latest.value), n)
    && p in s.fs.dirs && n !in s.fs.dirs[p]
  }

  predicate Enabled(cfg: Config, s: Backup, step: Step) {
    match step
    case Lock => s.phase.Idle?
    case Choose(run) => s.phase.Locked? && Daily(run) !in s.fs.dirs && Partial(run) !in s.fs.dirs
    case NoNewRun => s.phase.Locked?
    case MakePartial => s.phase.Chosen?
    case FetchLink(n) => s.phase.Fetching? && FromRun(n) && LinkSource(s, Partial(s.phase.run), n)
    case FetchCopy(n, c, i) => s.phase.Fetching? && FromRun(n) && Writable(s, Partial(s.phase.run), n, i)
    case Check => s.phase.Fetching? && Passes(Contents(s.fs, Partial(s.phase.run)))
    case FilesetLink(n) => s.phase.Checked? && n.Fileset? && LinkSource(s, Partial(s.phase.run), n)
    case FilesetCopy(n, c, i) => s.phase.Checked? && n.Fileset? && Writable(s, Partial(s.phase.run), n, i)
    case FilesetList(i) => s.phase.Checked? && Writable(s, Partial(s.phase.run), FilesetSums, i)
    case Mark(i) => s.phase.Checked? && Writable(s, Partial(s.phase.run), Verified, i)
    case Publish => s.phase.Marked? && Partial(s.phase.run) in s.fs.dirs && Daily(s.phase.run) !in s.fs.dirs
    case Switch => s.phase.Renamed?
    case BeginCopy(to) =>
      && s.phase.Switched? && to !in s.fs.dirs && Daily(s.phase.run) in s.fs.dirs
      && (to == Weekly(cfg.week(s.phase.run)) ||
          (to == Monthly(cfg.month(s.phase.run)) && Weekly(cfg.week(s.phase.run)) in s.fs.dirs))
    case CopyFile(n) =>
      && s.phase.Copying? && Linked(s.fs, Daily(s.phase.run), n)
      && s.phase.to in s.fs.dirs && n !in s.fs.dirs[s.phase.to]
    case EndCopy =>
      && s.phase.Copying? && Daily(s.phase.run) in s.fs.dirs && s.phase.to in s.fs.dirs
      && s.fs.dirs[s.phase.to].Keys == s.fs.dirs[Daily(s.phase.run)].Keys
    case Promoted =>
      && s.phase.Switched?
      && Weekly(cfg.week(s.phase.run)) in s.fs.dirs && Monthly(cfg.month(s.phase.run)) in s.fs.dirs
    case BeginRemove(p) => (s.phase.Locked? || s.phase.Retaining?) && Excess(cfg, s, p)
    case RemoveFile(n) => s.phase.Removing? && Linked(s.fs, s.phase.victim, n)
    case RemoveDir =>
      s.phase.Removing? && s.phase.victim in s.fs.dirs && s.fs.dirs[s.phase.victim] == map[]
    case Done => s.phase.Retaining?
    case Abort(t) =>
      && !s.phase.Idle? && Failed(t) !in s.fs.dirs
      && (InPartial(s.phase) ==> Partial(s.phase.run) in s.fs.dirs)
    case Crash => true
  }

  predicate InPartial(ph: Phase) {
    ph.Fetching? || ph.Checked? || ph.Marked?
  }

  function Apply(cfg: Config, s: Backup, step: Step): Backup
    requires Enabled(cfg, s, step)
  {
    match step
    case Lock => s.(phase := Locked)
    case Choose(run) => s.(phase := Chosen(run))
    case NoNewRun => s.(phase := Retaining)
    case MakePartial => s.(fs := Mkdir(s.fs, Partial(s.phase.run)), phase := Fetching(s.phase.run))
    case FetchLink(n) => s.(fs := Link(s.fs, Daily(s.latest.value), Partial(s.phase.run), n))
    case FetchCopy(n, c, i) => s.(fs := Create(s.fs, Partial(s.phase.run), n, c, i))
    case Check => s.(phase := Checked(s.phase.run))
    case FilesetLink(n) => s.(fs := Link(s.fs, Daily(s.latest.value), Partial(s.phase.run), n))
    case FilesetCopy(n, c, i) => s.(fs := Create(s.fs, Partial(s.phase.run), n, c, i))
    case FilesetList(i) =>
      s.(fs := Create(s.fs, Partial(s.phase.run), FilesetSums,
                      FilesetManifest(Contents(s.fs, Partial(s.phase.run))), i))
    case Mark(i) =>
      s.(fs := Create(s.fs, Partial(s.phase.run), Verified, Blob("verified\n"), i), phase := Marked(s.phase.run))
    case Publish =>
      var run := s.phase.run;
      s.(fs := Rename(s.fs, Partial(run), Daily(run)), phase := Renamed(run),
         pub := s.pub + [run], sealed := s.sealed[run := Contents(s.fs, Partial(run))])
    case Switch => s.(latest := Some(s.phase.run), latestAt := |s.pub| - 1, phase := Switched(s.phase.run))
    case BeginCopy(to) =>
      s.(fs := Mkdir(s.fs, to), phase := Copying(s.phase.run, to), origin := s.origin[to := s.phase.run])
    case CopyFile(n) => s.(fs := Link(s.fs, Daily(s.phase.run), s.phase.to, n))
    case EndCopy => s.(phase := Switched(s.phase.run))
    case Promoted => s.(phase := Retaining)
    case BeginRemove(p) => s.(phase := Removing(p, s.phase))
    case RemoveFile(n) => s.(fs := Unlink(s.fs, s.phase.victim, n))
    case RemoveDir =>
      s.(fs := Rmdir(s.fs, s.phase.victim), phase := s.phase.back,
         base := if s.phase.victim.Daily? then s.base + 1 else s.base,
         origin := s.origin - {s.phase.victim})
    case Done => s.(phase := Idle)
    case Abort(t) =>
      s.(fs := if InPartial(s.phase) then Rename(s.fs, Partial(s.phase.run), Failed(t)) else s.fs, phase := Idle)
    case Crash => s.(phase := Idle)
  }

  // ---------------------------------------------------------------- the invariant

  ghost predicate Increasing(xs: seq<int>) {
    forall i, j | 0 <= i < j < |xs| :: xs[i] < xs[j]
  }

  /** daily/ is exactly the published history without the `base` oldest runs, and
      retention has never cut into the KEEP_DAILY newest. */
  ghost predicate History(cfg: Config, s: Backup) {
    && Increasing(s.pub)
    && 0 <= s.base <= |s.pub|
    && (s.base > 0 ==> s.base <= |s.pub| - cfg.keepDaily)
    && (forall r :: Daily(r) in s.fs.dirs <==> r in s.pub[s.base..])
  }

  ghost predicate LatestOk(s: Backup) {
    && -1 <= s.latestAt < |s.pub|
    && s.latest == if s.latestAt < 0 then None else Some(s.pub[s.latestAt])
  }

  predicate HasRun(ph: Phase) {
    ph.Chosen? || InPartial(ph)
  }

  predicate Above(s: Backup, r: RunId) {
    s.pub == [] || s.pub[|s.pub| - 1] < r
  }

  predicate IsLast(s: Backup, r: RunId) {
    s.pub != [] && s.pub[|s.pub| - 1] == r
  }

  ghost predicate PhaseOk(cfg: Config, s: Backup) {
    && (HasRun(s.phase) ==> Above(s, s.phase.run))
    && (s.phase.Chosen? ==> Partial(s.phase.run) !in s.fs.dirs)
    && (InPartial(s.phase) ==> Partial(s.phase.run) in s.fs.dirs)
    && (s.phase.Checked? ==> Passes(Contents(s.fs, Partial(s.phase.run))))
    && (s.phase.Marked? ==> Good(Contents(s.fs, Partial(s.phase.run))))
    && (s.phase.Renamed? || s.phase.Switched? || s.phase.Copying? ==> IsLast(s, s.phase.run))
    && (s.phase.Switched? || s.phase.Copying? ==> s.latestAt == |s.pub| - 1)
    && (s.phase.Copying? ==> s.phase.to.Weekly? || s.phase.to.Monthly?)
    && (s.phase.Removing? ==>
          && (s.phase.back.Locked? || s.phase.back.Retaining?)
          && s.phase.victim in s.fs.dirs && SameClass(s.phase.victim, s.phase.victim)
          && (s.phase.victim.Daily? ==>
                0 <= s.base < |s.pub| && s.base < |s.pub| - cfg.keepDaily && s.phase.victim.run == s.pub[s.base]))
  }

  ghost predicate Submap(a: map<Name, Content>, b: map<Name, Content>) {
    forall n | n in a :: n in b && b[n] == a[n]
  }

  /** Every run in daily/ still holds what was verified before it was published.  The only
      possible exception is the oldest run, once newer ones already fill the quota: an
      interrupted removal may have taken some of its files. */
  ghost predicate Intact(cfg: Config, s: Backup, j: int)
    requires 0 <= j < |s.pub|
  {
    && s.pub[j] in s.sealed && Good(s.sealed[s.pub[j]])
    && Submap(Contents(s.fs, Daily(s.pub[j])), s.sealed[s.pub[j]])
    && (j > s.base || s.base >= |s.pub| - cfg.keepDaily ==> Contents(s.fs, Daily(s.pub[j])) == s.sealed[s.pub[j]])
  }

  ghost predicate AllIntact(cfg: Config, s: Backup)
    requires 0 <= s.base
  {
    forall j | s.base <= j < |s.pub| :: Intact(cfg, s, j)
  }

  ghost predicate Inv(cfg: Config, s: Backup) {
    && Valid(s.fs) && History(cfg, s) && LatestOk(s) && PhaseOk(cfg, s) && AllIntact(cfg, s)
  }

  ghost predicate Init(s: Backup) {
    && s.fs.dirs == map[] && s.fs.nodes == map[] && s.latest.None? && s.phase.Idle?
    && s.pub == [] && s.base == 0 && s.latestAt == -1 && s.sealed == map[] && s.origin == map[]
  }

  // ---------------------------------------------------------------- every step keeps it

  /** daily/ and the history are untouched. */
  ghost predicate SameDaily(s: Backup, t: Backup) {
    && t.pub == s.pub && t.base == s.base && t.sealed == s.sealed && t.latestAt == s.latestAt && t.latest == s.latest
    && (forall r :: Daily(r) in t.fs.dirs <==> Daily(r) in s.fs.dirs)
    && (forall r :: Contents(t.fs, Daily(r)) == Contents(s.fs, Daily(r)))
  }

  lemma Frame(cfg: Config, s: Backup, t: Backup)
    requires Inv(cfg, s) && SameDaily(s, t) && Valid(t.fs) && PhaseOk(cfg, t)
    ensures Inv(cfg, t)
  {
    forall j | t.base <= j < |t.pub| ensures Intact(cfg, t, j) {
      assert Intact(cfg, s, j);
    }
  }

  lemma InvIs(cfg: Config, s: Backup)
    ensures Inv(cfg, s) <==> Valid(s.fs) && History(cfg, s) && LatestOk(s) && PhaseOk(cfg, s) && AllIntact(cfg, s)
  {
  }

  lemma {:induction false} IncreasingSize(xs: seq<int>, s: set<Point>)
    requires Increasing(xs) && s == set i | 0 <= i < |xs| :: Daily(xs[i])
    ensures |s| == |xs|
  {
    if xs == [] {
      assert s == {};
    } else {
      var n := |xs| - 1;
      var init := xs[..n];
      var rest := set i | 0 <= i < |init| :: Daily(init[i]);
      IncreasingSize(init, rest);
      assert s == rest + {Daily(xs[n])} by {
        forall p | p in s ensures p in rest + {Daily(xs[n])} {
          var i :| 0 <= i < |xs| && p == Daily(xs[i]);
          if i < n { assert init[i] == xs[i]; }
        }
      }
      assert Daily(xs[n]) !in rest;
    }
  }

  lemma DailyClass(cfg: Config, s: Backup, r: RunId)
    requires History(cfg, s)
    ensures |Class(s, Daily(r))| == |s.pub| - s.base
    ensures forall q :: q in Class(s, Daily(r)) <==> q.Daily? && q.run in s.pub[s.base..]
  {
    var xs := s.pub[s.base..];
    var all := set i | 0 <= i < |xs| :: Daily(xs[i]);
    IncreasingSize(xs, all);
    assert Class(s, Daily(r)) == all;
  }

  /** Retention picks from daily/ exactly the oldest published run that is still there. */
  lemma ExcessDaily(cfg: Config, s: Backup, r: RunId)
    requires History(cfg, s) && cfg.keepDaily >= 1
    ensures Excess(cfg, s, Daily(r)) <==> s.base < |s.pub| - cfg.keepDaily && r == s.pub[s.base]
  {
    DailyClass(cfg, s, r);
    if s.base < |s.pub| - cfg.keepDaily {
      var oldest := Daily(s.pub[s.base]);
      assert s.pub[s.base..][0] == s.pub[s.base];
      assert oldest in Class(s, Daily(r));
      forall q | q in Class(s, Daily(r)) ensures Order(oldest) <= Order(q) {
        var k :| 0 <= k < |s.pub[s.base..]| && s.pub[s.base..][k] == q.run;
      }
    }
  }

  lemma LastIsInDaily(cfg: Config, s: Backup)
    requires cfg.keepDaily >= 1 && History(cfg, s) && s.pub != []
    ensures Daily(s.pub[|s.pub| - 1]) in s.fs.dirs
  {
    assert s.pub[s.base..][|s.pub| - 1 - s.base] == s.pub[|s.pub| - 1];
  }

  lemma PubHas(pub: seq<RunId>, base: int, d: RunId)
    requires 0 <= base <= |pub| && d in pub[base..]
    ensures exists k :: base <= k < |pub| && pub[k] == d
  {
    var k :| 0 <= k < |pub[base..]| && pub[base..][k] == d;
    assert pub[base + k] == d;
  }

  /** A published run is newer than everything in daily/. */
  lemma AboveDaily(cfg: Config, s: Backup, r: RunId)
    requires History(cfg, s) && Above(s, r)
    ensures forall d | Daily(d) in s.fs.dirs :: d < r
  {
    forall d | Daily(d) in s.fs.dirs ensures d < r {
      PubHas(s.pub, s.base, d);
    }
  }

  lemma PhaseChange(cfg: Config, s: Backup, ph: Phase)
    requires Inv(cfg, s) && PhaseOk(cfg, s.(phase := ph))
    ensures Inv(cfg, s.(phase := ph))
  {
    Frame(cfg, s, s.(phase := ph));
  }

  lemma IdleStep(cfg: Config, s: Backup, step: Step)
    requires Inv(cfg, s) && Enabled(cfg, s, step)
    requires step.Lock? || step.NoNewRun? || step.Promoted? || step.Done? || step.Crash?
    ensures Inv(cfg, Apply(cfg, s, step))
  {
    PhaseChange(cfg, s, Apply(cfg, s, step).phase);
  }

  lemma RunStep(cfg: Config, s: Backup, step: Step)
    requires Inv(cfg, s) && Enabled(cfg, s, step)
    requires step.Check? || step.EndCopy? || (step.Choose? && Above(s, step.run))
    ensures Inv(cfg, Apply(cfg, s, step))
  {
    PhaseChange(cfg, s, Apply(cfg, s, step).phase);
  }

  lemma BeginRemoveStep(cfg: Config, s: Backup, p: Point)
    requires cfg.keepDaily >= 1 && Inv(cfg, s) && Enabled(cfg, s, BeginRemove(p))
    ensures Inv(cfg, Apply(cfg, s, BeginRemove(p)))
  {
    if p.Daily? {
      ExcessDaily(cfg, s, p.run);
    }
    PhaseChange(cfg, s, Removing(p, s.phase));
  }

  lemma SwitchStep(cfg: Config, s: Backup)
    requires Inv(cfg, s) && Enabled(cfg, s, Switch)
    ensures Inv(cfg, Apply(cfg, s, Switch))
  {
    var t := Apply(cfg, s, Switch);
    forall j | t.base <= j < |t.pub| ensures Intact(cfg, t, j) {
      assert Intact(cfg, s, j);
    }
  }

  lemma PassesGrows(c: map<Name, Content>, n: Name, d: Content)
    requires Passes(c) && n !in c
    ensures Passes(c[n := d])
  {
  }

  lemma MakePartialStep(cfg: Config, s: Backup)
    requires Inv(cfg, s) && Enabled(cfg, s, MakePartial)
    ensures Inv(cfg, Apply(cfg, s, MakePartial))
  {
    var t := Apply(cfg, s, MakePartial);
    MkdirKeeps(s.fs, Partial(s.phase.run));
    assert SameDaily(s, t);
    Frame(cfg, s, t);
  }

  /** Adding a file to the partial directory, whether as a link or as a new inode. */
  lemma PartialGrows(cfg: Config, s: Backup, t: Backup, n: Name, d: Content)
    requires Inv(cfg, s) && InPartial(s.phase) && !s.phase.Marked? && Valid(t.fs)
    requires t == s.(fs := t.fs, phase := t.phase)
    requires t.phase == s.phase || (s.phase.Checked? && t.phase == Marked(s.phase.run) && n == Verified)
    requires t.fs.dirs.Keys == s.fs.dirs.Keys
    requires n !in Contents(s.fs, Partial(s.phase.run))
    requires Contents(t.fs, Partial(s.phase.run)) == Contents(s.fs, Partial(s.phase.run))[n := d]
    requires forall q | q != Partial(s.phase.run) :: Contents(t.fs, q) == Contents(s.fs, q)
    ensures Inv(cfg, t)
  {
    if s.phase.Checked? {
      PassesGrows(Contents(s.fs, Partial(s.phase.run)), n, d);
    }
    assert SameDaily(s, t);
    Frame(cfg, s, t);
  }

  lemma LinkStep(cfg: Config, s: Backup, step: Step)
    requires Inv(cfg, s) && Enabled(cfg, s, step) && (step.FetchLink? || step.FilesetLink?)
    ensures Inv(cfg, Apply(cfg, s, step))
  {
    hide Inv, Valid, History, LatestOk, AllIntact;
    InvIs(cfg, s);
    var q := Daily(s.latest.value);
    LinkKeeps(s.fs, q, Partial(s.phase.run), step.name);
    PartialGrows(cfg, s, Apply(cfg, s, step), step.name, Contents(s.fs, q)[step.name]);
  }

  lemma WriteStep(cfg: Config, s: Backup, step: Step, n: Name, c: Content, i: Inode)
    requires Inv(cfg, s) && Enabled(cfg, s, step)
    requires || step == FetchCopy(n, c, i)
             || step == FilesetCopy(n, c, i)
             || (step == FilesetList(i) && n == FilesetSums
             && c == FilesetManifest(Contents(s.fs, Partial(s.phase.run))))
             || (step == Mark(i) && n == Verified && c == Blob("verified\n"))
    ensures Inv(cfg, Apply(cfg, s, step))
  {
    hide Inv, Valid, History, LatestOk, AllIntact;
    InvIs(cfg, s);
    CreateKeeps(s.fs, Partial(s.phase.run), n, c, i);
    PartialGrows(cfg, s, Apply(cfg, s, step), n, c);
  }

  lemma PublishHistory(cfg: Config, s: Backup, t: Backup, run: RunId)
    requires cfg.keepDaily >= 1 && History(cfg, s) && Above(s, run)
    requires t.pub == s.pub + [run] && t.base == s.base
    requires forall r :: Daily(r) in t.fs.dirs <==> Daily(r) in s.fs.dirs || r == run
    ensures History(cfg, t)
  {
    assert t.pub[t.base..] == s.pub[s.base..] + [run];
  }

  lemma PublishIntact(cfg: Config, s: Backup, t: Backup, run: RunId)
    requires cfg.keepDaily >= 1 && History(cfg, s) && AllIntact(cfg, s) && Above(s, run)
    requires t.pub == s.pub + [run] && t.base == s.base
    requires t.sealed == s.sealed[run := Contents(t.fs, Daily(run))] && Good(Contents(t.fs, Daily(run)))
    requires forall r | r != run :: Contents(t.fs, Daily(r)) == Contents(s.fs, Daily(r))
    ensures AllIntact(cfg, t)
  {
    forall j | t.base <= j < |t.pub| ensures Intact(cfg, t, j) {
      if j < |s.pub| {
        assert Intact(cfg, s, j);
      }
    }
  }

  lemma PublishFs(cfg: Config, s: Backup)
    requires Inv(cfg, s) && Enabled(cfg, s, Publish)
    ensures var t := Apply(cfg, s, Publish);
      && Valid(t.fs) && t.sealed == s.sealed[s.phase.run := Contents(t.fs, Daily(s.phase.run))]
      && Good(Contents(t.fs, Daily(s.phase.run)))
      && (forall r | r != s.phase.run :: Contents(t.fs, Daily(r)) == Contents(s.fs, Daily(r)))
      && (forall r :: Daily(r) in t.fs.dirs <==> Daily(r) in s.fs.dirs || r == s.phase.run)
  {
    RenameKeeps(s.fs, Partial(s.phase.run), Daily(s.phase.run));
  }

  lemma PublishPhase(cfg: Config, s: Backup)
    requires cfg.keepDaily >= 1 && Inv(cfg, s) && Enabled(cfg, s, Publish)
    requires History(cfg, Apply(cfg, s, Publish))
    ensures var t := Apply(cfg, s, Publish); LatestOk(t) && PhaseOk(cfg, t)
  {
  }

  lemma PublishStep(cfg: Config, s: Backup)
    requires cfg.keepDaily >= 1 && Inv(cfg, s) && Enabled(cfg, s, Publish)
    ensures Inv(cfg, Apply(cfg, s, Publish))
  {
    var t := Apply(cfg, s, Publish);
    PublishFs(cfg, s);
    PublishHistory(cfg, s, t, s.phase.run);
    PublishIntact(cfg, s, t, s.phase.run);
    PublishPhase(cfg, s);
  }

  /** A change inside one weekly or monthly directory. */
  lemma AwayFromDaily(cfg: Config, s: Backup, t: Backup, p: Point)
    requires Inv(cfg, s) && (p.Weekly? || p.Monthly?) && Valid(t.fs)
    requires s.phase.Switched? || s.phase.Copying?
    requires t.phase == Copying(s.phase.run, p)
    requires t == s.(fs := t.fs, phase := t.phase, origin := t.origin)
    requires t.fs.dirs.Keys == s.fs.dirs.Keys + {p}
    requires forall q | q != p :: Contents(t.fs, q) == Contents(s.fs, q)
    ensures Inv(cfg, t)
  {
    assert SameDaily(s, t);
    Frame(cfg, s, t);
  }

  lemma BeginCopyStep(cfg: Config, s: Backup, to: Point)
    requires Inv(cfg, s) && Enabled(cfg, s, BeginCopy(to))
    ensures Inv(cfg, Apply(cfg, s, BeginCopy(to)))
  {
    hide Inv, Valid, History, LatestOk, AllIntact;
    InvIs(cfg, s);
    MkdirKeeps(s.fs, to);
    AwayFromDaily(cfg, s, Apply(cfg, s, BeginCopy(to)), to);
  }

  lemma CopyFileStep(cfg: Config, s: Backup, n: Name)
    requires Inv(cfg, s) && Enabled(cfg, s, CopyFile(n))
    ensures Inv(cfg, Apply(cfg, s, CopyFile(n)))
  {
    hide Inv, Valid, History, LatestOk, AllIntact;
    InvIs(cfg, s);
    LinkKeeps(s.fs, Daily(s.phase.run), s.phase.to, n);
    AwayFromDaily(cfg, s, Apply(cfg, s, CopyFile(n)), s.phase.to);
  }

  lemma AbortFs(s: Backup, t: Backup, run: RunId, tag: int)
    requires Valid(s.fs) && Partial(run) in s.fs.dirs && Failed(tag) !in s.fs.dirs
    requires t == s.(fs := Rename(s.fs, Partial(run), Failed(tag)), phase := Idle)
    ensures Valid(t.fs) && SameDaily(s, t)
  {
    RenameValid(s.fs, Partial(run), Failed(tag));
    RenameContents(s.fs, Partial(run), Failed(tag));
  }

  lemma AbortStep(cfg: Config, s: Backup, tag: int)
    requires Inv(cfg, s) && Enabled(cfg, s, Abort(tag))
    ensures Inv(cfg, Apply(cfg, s, Abort(tag)))
  {
    hide Inv, Valid, History, LatestOk, AllIntact;
    InvIs(cfg, s);
    var t := Apply(cfg, s, Abort(tag));
    if InPartial(s.phase) {
      AbortFs(s, t, s.phase.run, tag);
    }
    Frame(cfg, s, t);
  }

  lemma HistoryFrame(cfg: Config, s: Backup, t: Backup)
    requires History(cfg, s) && t.pub == s.pub && t.base == s.base
    requires forall r :: Daily(r) in t.fs.dirs <==> Daily(r) in s.fs.dirs
    ensures History(cfg, t)
  {
  }

  lemma RemovalPhase(cfg: Config, s: Backup, t: Backup)
    requires PhaseOk(cfg, s) && s.phase.Removing? && t == s.(fs := t.fs) && s.phase.victim in t.fs.dirs
    ensures PhaseOk(cfg, t)
    ensures s.phase.victim.Daily? ==>
      0 <= s.base < |s.pub| && s.base < |s.pub| - cfg.keepDaily && s.phase.victim.run == s.pub[s.base]
  {
  }

  lemma RemoveFileStep(cfg: Config, s: Backup, n: Name)
    requires Inv(cfg, s) && Enabled(cfg, s, RemoveFile(n))
    ensures Inv(cfg, Apply(cfg, s, RemoveFile(n)))
  {
    hide Inv, Valid, History, PhaseOk, AllIntact;
    InvIs(cfg, s);
    var t := Apply(cfg, s, RemoveFile(n));
    var v := s.phase.victim;
    UnlinkKeeps(s.fs, v, n);
    RemovalPhase(cfg, s, t);
    if v.Daily? {
      HistoryFrame(cfg, s, t);
      RemoveFileIntact(cfg, s, t, v.run, n);
      InvIs(cfg, t);
    } else {
      Frame(cfg, s, t);
    }
  }

  /** Files may go missing from the oldest run while it is being removed. */
  lemma RemoveFileIntact(cfg: Config, s: Backup, t: Backup, run: RunId, n: Name)
    requires History(cfg, s) && AllIntact(cfg, s)
    requires s.base < |s.pub| && s.base < |s.pub| - cfg.keepDaily && run == s.pub[s.base]
    requires t == s.(fs := t.fs) && Contents(t.fs, Daily(run)) == Contents(s.fs, Daily(run)) - {n}
    requires forall q | q != Daily(run) :: Contents(t.fs, q) == Contents(s.fs, q)
    ensures AllIntact(cfg, t)
  {
    forall j | t.base <= j < |t.pub| ensures Intact(cfg, t, j) {
      assert Intact(cfg, s, j);
      assert j > s.base ==> s.pub[j] != run;
    }
  }

  lemma OldestGone(cfg: Config, s: Backup, t: Backup, run: RunId)
    requires cfg.keepDaily >= 1 && History(cfg, s) && s.base < |s.pub| && s.base < |s.pub| - cfg.keepDaily
    requires run == s.pub[s.base] && t.pub == s.pub && t.base == s.base + 1
    requires forall r :: Daily(r) in t.fs.dirs <==> Daily(r) in s.fs.dirs && r != run
    ensures History(cfg, t)
  {
    assert s.pub[s.base..] == [run] + t.pub[t.base..];
    forall r ensures Daily(r) in t.fs.dirs <==> r in t.pub[t.base..] {
      if r in t.pub[t.base..] {
        PubHas(t.pub, t.base, r);
      }
    }
  }

  lemma RestIntact(cfg: Config, s: Backup, t: Backup)
    requires History(cfg, s) && AllIntact(cfg, s)
    requires t.pub == s.pub && t.base == s.base + 1 <= |s.pub| && t.sealed == s.sealed
    requires forall q :: Contents(t.fs, q) == Contents(s.fs, q)
    ensures AllIntact(cfg, t)
  {
    forall j | t.base <= j < |t.pub| ensures Intact(cfg, t, j) {
      assert Intact(cfg, s, j);
    }
  }

  lemma BackIsWaiting(cfg: Config, s: Backup)
    requires Inv(cfg, s) && s.phase.Removing?
    ensures s.phase.back.Locked? || s.phase.back.Retaining?
  {
  }

  lemma RemovedPhase(cfg: Config, s: Backup, t: Backup)
    requires PhaseOk(cfg, s) && s.phase.Removing? && t.phase == s.phase.back
    ensures PhaseOk(cfg, t)
  {
  }

  lemma RemoveDirStep(cfg: Config, s: Backup)
    requires cfg.keepDaily >= 1 && Inv(cfg, s) && Enabled(cfg, s, RemoveDir)
    ensures Inv(cfg, Apply(cfg, s, RemoveDir))
  {
    hide Inv, Valid, History, PhaseOk, AllIntact;
    InvIs(cfg, s);
    var t := Apply(cfg, s, RemoveDir);
    var v := s.phase.victim;
    RmdirKeeps(s.fs, v);
    RemovalPhase(cfg, s, s);
    RemovedPhase(cfg, s, t);
    if v.Daily? {
      OldestGone(cfg, s, t, v.run);
      RestIntact(cfg, s, t);
      InvIs(cfg, t);
    } else {
      assert SameDaily(s, t);
      Frame(cfg, s, t);
    }
  }

  /** Whatever the script does next, and wherever it is cut off, the invariant survives.
      The one obligation on the world outside is that the run it chooses is newer than
      everything published so far. */
  lemma StepKeepsInv(cfg: Config, s: Backup, step: Step)
    requires ValidConfig(cfg) && Inv(cfg, s) && Enabled(cfg, s, step)
    requires step.Choose? ==> Above(s, step.run)
    ensures Inv(cfg, Apply(cfg, s, step))
  {
    hide Inv, Apply;
    match step {
      case Switch => SwitchStep(cfg, s);
      case MakePartial => MakePartialStep(cfg, s);
      case FetchLink(_) => LinkStep(cfg, s, step);
      case FilesetLink(_) => LinkStep(cfg, s, step);
      case FetchCopy(n, c, i) => WriteStep(cfg, s, step, n, c, i);
      case FilesetCopy(n, c, i) => WriteStep(cfg, s, step, n, c, i);
      case FilesetList(i) =>
        WriteStep(cfg, s, step, FilesetSums, FilesetManifest(Contents(s.fs, Partial(s.phase.run))), i);
      case Mark(i) => WriteStep(cfg, s, step, Verified, Blob("verified\n"), i);
      case Publish => PublishStep(cfg, s);
      case BeginCopy(to) => BeginCopyStep(cfg, s, to);
      case CopyFile(n) => CopyFileStep(cfg, s, n);
      case RemoveFile(n) => RemoveFileStep(cfg, s, n);
      case RemoveDir => RemoveDirStep(cfg, s);
      case Abort(t) => AbortStep(cfg, s, t);
      case Choose(_) => RunStep(cfg, s, step);
      case Check => RunStep(cfg, s, step);
      case EndCopy => RunStep(cfg, s, step);
      case BeginRemove(p) => BeginRemoveStep(cfg, s, p);
      case _ => IdleStep(cfg, s, step);
    }
  }

  // ---------------------------------------------------------------- no step rewrites a recovery point

  predicate RecoveryPoint(p: Point) {
    p.Daily? || p.Weekly? || p.Monthly?
  }

  /** p is whole: neither being removed nor still being copied. */
  predicate Settled(s: Backup, p: Point) {
    && p in s.fs.dirs && RecoveryPoint(p)
    && !(s.phase.Removing? && s.phase.victim == p)
    && !(s.phase.Copying? && s.phase.to == p)
  }

  lemma BytesKeptPartial(cfg: Config, s: Backup, step: Step, p: Point)
    requires Inv(cfg, s) && Enabled(cfg, s, step) && Settled(s, p)
    requires step.MakePartial? || step.FetchLink? || step.FetchCopy? || step.FilesetLink? || step.FilesetCopy?
          || step.FilesetList? || step.Mark?
    ensures Contents(Apply(cfg, s, step).fs, p) == Contents(s.fs, p)
  {
    hide Inv, Valid, History, LatestOk, AllIntact;
    InvIs(cfg, s);
    var q := Partial(s.phase.run);
    match step {
      case MakePartial => MkdirKeeps(s.fs, q);
      case FetchLink(n) => LinkContents(s.fs, Daily(s.latest.value), q, n);
      case FilesetLink(n) => LinkContents(s.fs, Daily(s.latest.value), q, n);
      case FetchCopy(n, c, i) => CreateContents(s.fs, q, n, c, i);
      case FilesetCopy(n, c, i) => CreateContents(s.fs, q, n, c, i);
      case FilesetList(i) => CreateContents(s.fs, q, FilesetSums, FilesetManifest(Contents(s.fs, q)), i);
      case Mark(i) => CreateContents(s.fs, q, Verified, Blob("verified\n"), i);
    }
  }

  lemma BytesKeptMoves(cfg: Config, s: Backup, step: Step, p: Point)
    requires Inv(cfg, s) && Enabled(cfg, s, step) && Settled(s, p)
    requires step.Publish? || step.Abort? || step.BeginCopy? || step.CopyFile? || step.RemoveFile? || step.RemoveDir?
    ensures Contents(Apply(cfg, s, step).fs, p) == Contents(s.fs, p)
  {
    hide Inv, Valid, History, LatestOk, PhaseOk, AllIntact, Contents, Rename, Link, Unlink;
    InvIs(cfg, s);
    match step {
      case Publish => RenameContents(s.fs, Partial(s.phase.run), Daily(s.phase.run));
      case Abort(t) =>
        if InPartial(s.phase) {
          RenameContents(s.fs, Partial(s.phase.run), Failed(t));
        }
      case BeginCopy(to) => MkdirKeeps(s.fs, to);
      case CopyFile(n) => LinkContents(s.fs, Daily(s.phase.run), s.phase.to, n);
      case RemoveFile(n) => UnlinkContents(s.fs, s.phase.victim, n, p);
      case RemoveDir => RmdirKeeps(s.fs, s.phase.victim);
    }
  }

  /** Recovery points share inodes with the run being fetched, with each other and with the
      one being removed; still no step changes a byte of one that is settled. */
  lemma BytesKept(cfg: Config, s: Backup, step: Step, p: Point)
    requires Inv(cfg, s) && Enabled(cfg, s, step) && Settled(s, p)
    ensures Contents(Apply(cfg, s, step).fs, p) == Contents(s.fs, p)
  {
    hide Inv;
    if step.MakePartial? || step.FetchLink? || step.FetchCopy? || step.FilesetLink? || step.FilesetCopy?
       || step.FilesetList? || step.Mark? {
      BytesKeptPartial(cfg, s, step, p);
    } else if step.Publish? || step.Abort? || step.BeginCopy? || step.CopyFile? || step.RemoveFile? || step.RemoveDir? {
      BytesKeptMoves(cfg, s, step, p);
    }
  }

  lemma AboveIsNew(cfg: Config, s: Backup, run: RunId)
    requires History(cfg, s) && Above(s, run)
    ensures run !in s.pub
  {
  }

  lemma MarkedIsAbove(cfg: Config, s: Backup)
    requires Inv(cfg, s) && s.phase.Marked?
    ensures Above(s, s.phase.run)
  {
  }

  /** What was recorded for a published run is never rewritten. */
  lemma SealedOnce(cfg: Config, s: Backup, step: Step)
    requires cfg.keepDaily >= 1 && Inv(cfg, s) && Enabled(cfg, s, step)
    ensures s.pub <= Apply(cfg, s, step).pub
    ensures forall r | r in s.pub ::
      r in s.sealed ==> r in Apply(cfg, s, step).sealed && Apply(cfg, s, step).sealed[r] == s.sealed[r]
  {
    hide Inv, History;
    InvIs(cfg, s);
    if step.Publish? {
      MarkedIsAbove(cfg, s);
      AboveIsNew(cfg, s, s.phase.run);
    }
  }
}
