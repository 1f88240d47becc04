/** The two scripts over many nights: exports on the source host, and after each batch of them one
    uninterrupted pull that sees what is then in ready/. */
module SnapshotRuns {
  import opened Options
  import opened SnapshotFs
  import Src = SnapshotSource
  import opened SnapshotPull
  import opened SnapshotProtocol
  import opened SnapshotRetention
  import opened SnapshotScripts

  /** What happens on the source before a pull, step by step and with crashes, and the pull. */
  datatype Night = Night(exports: seq<Src.Step>, attempt: Attempt)

  ghost predicate CanExport(s: Src.Source, steps: seq<Src.Step>)
    decreases |steps|
  {
    steps == [] || (Src.Enabled(s, steps[0]) && CanExport(Src.Apply(s, steps[0]), steps[1..]))
  }

  ghost function Exported(s: Src.Source, steps: seq<Src.Step>): Src.Source
    requires CanExport(s, steps)
    decreases |steps|
  {
    if steps == [] then s else Exported(Src.Apply(s, steps[0]), steps[1..])
  }

  /** The pull lists the newest run of ready/, or nothing. */
  ghost predicate Sees(s: Src.Source, newest: Option<RunId>) {
    if newest.Some? then Src.Newest(s, newest.value) else s.ready == map[]
  }

  ghost predicate Possible(s: Src.Source, nights: seq<Night>)
    decreases |nights|
  {
    nights == [] ||
      (CanExport(s, nights[0].exports)
       && Sees(Exported(s, nights[0].exports), nights[0].attempt.newest) && GoodNames(nights[0].attempt)
       && Possible(Exported(s, nights[0].exports), nights[1..]))
  }

  /** Exports keep the source ahead of what has been published. */
  lemma {:induction false} ExportsKeep(cfg: Config, w: World, steps: seq<Src.Step>)
    requires ValidConfig(cfg) && WorldInv(cfg, w) && CanExport(w.src, steps)
    ensures WorldInv(cfg, w.(src := Exported(w.src, steps)))
    decreases |steps|
  {
    hide WorldInv;
    if steps != [] {
      MoveKeepsInv(cfg, w, Export(steps[0]));
      ExportsKeep(cfg, w.(src := Src.Apply(w.src, steps[0])), steps[1..]);
    } else {
      assert w.(src := Exported(w.src, steps)) == w;
    }
  }

  /** A pull publishes nothing beyond the newest run of the source. */
  lemma PullKeeps(cfg: Config, src: Src.Source, a: Backup, b: Backup, newest: Option<RunId>, published: bool)
    requires WorldInv(cfg, World(src, a)) && Sees(src, newest) && Inv(cfg, b) && b.phase.Idle?
    requires published ==> newest.Some?
    requires b.pub == if published then a.pub + [newest.value] else a.pub
    ensures WorldInv(cfg, World(src, b))
  {
    hide Inv;
    hide Src.Inv;
    if published {
      assert newest.value in src.ready;
    }
    var w, v := World(src, a), World(src, b);
    if b.pub != [] {
      if published {
        assert Ahead(v, newest.value);
      } else {
        assert Ahead(w, a.pub[|a.pub| - 1]);
      }
    }
  }

  /** Any number of nights: daily/ is the KEEP_DAILY newest runs ever published, weekly/ and
      monthly/ hold the first run of each of the KEEP newest weeks and months seen. */
  method PullNights(host: PullHost, ghost src: Src.Source, nights: seq<Night>)
    requires host.Valid() && host.s.phase.Idle? && Retained(host.cfg, host.s)
    requires WorldInv(host.cfg, World(src, host.s)) && Possible(src, nights)
    modifies host
    ensures host.Valid() && old(host.trace) <= host.trace && host.s.phase.Idle? && Retained(host.cfg, host.s)
    decreases |nights|
  {
    hide Inv, WorldInv, Retained;
    if nights == [] {
      return;
    }
    ghost var cfg := host.cfg;
    ghost var before := host.s;
    ghost var now := Exported(src, nights[0].exports);
    var a := nights[0].attempt;
    ExportsKeep(cfg, World(src, before), nights[0].exports);
    if a.newest.Some? {
      NewestIsAboveOrLast(cfg, World(now, before), a.newest.value);
    }
    var tag := host.NewTag();
    var published := host.Pull(a, tag);
    PullKeeps(cfg, now, before, host.s, a.newest, published);
    PullNights(host, now, nights[1..]);
  }

  /** From two empty hosts, with exports between the pulls, every sequence of uninterrupted pulls
      ends with exactly what retention asks for, recomputed from the full history. */
  method PullFromInit(cfg: Config, disk: Backup, ghost src: Src.Source, nights: seq<Night>) returns (host: PullHost)
    requires ValidConfig(cfg) && SnapshotProtocol.Init(World(src, disk)) && Possible(src, nights)
    ensures host.Valid() && host.cfg == cfg && host.trace != [] && host.trace[0] == disk
    ensures host.s.phase.Idle? && Retained(cfg, host.s)
  {
    InitHolds(cfg, World(src, disk));
    InitRetained(cfg, disk);
    host := new PullHost(cfg, disk);
    PullNights(host, src, nights);
  }

  /** After any behaviour at all, with crashes anywhere: a pull that publishes, or finds nothing
      new, leaves daily/ with the KEEP_DAILY newest runs ever published. */
  method PullAfterCrashes(cfg: Config, ghost ws: seq<World>, ghost ms: seq<Move>, disk: Backup, a: Attempt)
    returns (host: PullHost, published: bool)
    requires ValidConfig(cfg) && Behaviour(cfg, ws, ms) && |ws| == |ms| + 1
    requires disk == ws[|ms|].bak && disk.phase.Idle?
    requires Sees(ws[|ms|].src, a.newest) && GoodNames(a)
    ensures host.Valid() && host.cfg == cfg && host.trace != [] && host.trace[0] == disk
    ensures published || (!a.full && (a.newest.Some? ==> !Above(disk, a.newest.value))) ==> DailyRetained(cfg, host.s)
  {
    hide Inv, Behaviour, DailyRetained;
    BehaviourInv(cfg, ws, ms, |ms|);
    WorldIs(cfg, ws[|ms|]);
    host := new PullHost(cfg, disk);
    if a.newest.Some? {
      NewestIsAboveOrLast(cfg, ws[|ms|], a.newest.value);
    }
    var tag := host.NewTag();
    published := host.Pull(a, tag);
  }

  /** What the exporter seals the puller accepts. */
  lemma SealedPasses(files: Src.Files)
    requires Src.Sealed(files)
    ensures Passes(files)
  {
  }

  /** When nothing fails, the newest complete run of the source is published with every file it
      has there, and `latest` names it. */
  method PullWhatIsReady(host: PullHost, ghost src: Src.Source, a: Attempt) returns (published: bool)
    requires host.Valid() && host.s.phase.Idle? && WorldInv(host.cfg, World(src, host.s))
    requires a.newest.Some? && Src.Newest(src, a.newest.value) && GoodNames(a)
    requires a.delivered == src.ready[a.newest.value] && a.sent && a.complete && !a.full
    requires Partial(a.newest.value) !in host.s.fs.dirs
    modifies host
    ensures host.Valid() && host.s.phase.Idle?
    ensures published <==> Above(old(host.s), a.newest.value)
    ensures published ==>
      host.s.latest == a.newest && Daily(a.newest.value) in host.s.fs.dirs
      && WholeRun(src.ready[a.newest.value], a.filesets, Contents(host.s.fs, Daily(a.newest.value)))
  {
    Src.NewestIsSealed(src, a.newest.value);
    SealedPasses(src.ready[a.newest.value]);
    NewestIsAboveOrLast(host.cfg, World(src, host.s), a.newest.value);
    var tag := host.NewTag();
    published := host.Pull(a, tag);
  }
}
