/** The scheduler's poll of one project, and whole runs of polls, deploys, rollbacks, starts
    and stops. */
module Scheduling {
  import opened Deployments
  import opened Options

  /** Digests the registry reports, by service; a service that is missing cannot be looked up. */
  type Registry = map<string, string>

  function PolledUpTo(p: Project, k: nat): seq<Service>
    requires k <= |p.services|
  {
    if k == 0 then []
    else if p.services[k - 1].polled then PolledUpTo(p, k - 1) + [p.services[k - 1]]
    else PolledUpTo(p, k - 1)
  }

  function Polled(p: Project): seq<Service> {
    PolledUpTo(p, |p.services|)
  }

  predicate IsPolled(p: Project, svc: Service) {
    svc in p.services && svc.polled
  }

  lemma {:induction false} PolledUpToMeans(p: Project, k: nat)
    requires k <= |p.services| && Distinct(p)
    ensures forall svc :: svc in PolledUpTo(p, k) <==> svc in p.services[..k] && svc.polled
    ensures forall i, j | 0 <= i < j < |PolledUpTo(p, k)| :: PolledUpTo(p, k)[i].name != PolledUpTo(p, k)[j].name
  {
    if k > 0 {
      PolledUpToMeans(p, k - 1);
      assert p.services[..k] == p.services[..k - 1] + [p.services[k - 1]];
      var before := PolledUpTo(p, k - 1);
      forall i | 0 <= i < |before| ensures before[i].name != p.services[k - 1].name {
        assert before[i] in p.services[..k - 1];
      }
    }
  }

  /** A missing map entry reads as the empty string. */
  function Lookup(m: Digests, n: string): string {
    if n in m then m[n] else ""
  }

  // ---------------------------------------------------------------- specification

  /** How many services are looked up before the first failure. */
  function Reached(svcs: seq<Service>, reg: Registry): (k: nat)
    ensures k <= |svcs|
    ensures forall i | 0 <= i < k :: svcs[i].name in reg
    ensures k < |svcs| ==> svcs[k].name !in reg
  {
    if svcs == [] || svcs[0].name !in reg then 0
    else
      assert svcs == [svcs[0]] + svcs[1..];
      1 + Reached(svcs[1..], reg)
  }

  function Desired(svcs: seq<Service>, reg: Registry, before: Digests, k: nat): Digests
    requires k <= |svcs| && forall i | 0 <= i < k :: svcs[i].name in reg
  {
    if k == 0 then before else Desired(svcs, reg, before, k - 1)[svcs[k - 1].name := reg[svcs[k - 1].name]]
  }

  predicate Changed(svcs: seq<Service>, reg: Registry, current: Digests, k: nat)
    requires k <= |svcs| && forall i | 0 <= i < k :: svcs[i].name in reg
  {
    exists i :: 0 <= i < k && reg[svcs[i].name] != Lookup(current, svcs[i].name)
  }

  function Observed(h: Host, p: Project, reg: Registry): Host {
    h.(state := h.state.(desired := Desired(Polled(p), reg, h.state.desired, Reached(Polled(p), reg))))
  }

  ghost predicate WantsDeploy(h: Host, p: Project, reg: Registry) {
    && Reached(Polled(p), reg) == |Polled(p)|
    && Changed(Polled(p), reg, h.state.current, |Polled(p)|)
    && h.state.status != Deploying
  }

  ghost function AfterReconcile(h: Host, p: Project, reg: Registry, w: World): Host {
    var r := Observed(h, p, reg);
    if WantsDeploy(h, p, reg) then AfterDeploy(r, p, r.state.desired, w) else r
  }

  lemma {:induction false} DesiredMeans(svcs: seq<Service>, reg: Registry, before: Digests, k: nat)
    requires k <= |svcs| && forall i | 0 <= i < k :: svcs[i].name in reg
    ensures forall i | 0 <= i < k :: Lookup(Desired(svcs, reg, before, k), svcs[i].name) == reg[svcs[i].name]
    ensures forall i | 0 <= i < k :: svcs[i].name in Desired(svcs, reg, before, k)
    ensures forall n | (forall i | 0 <= i < k :: svcs[i].name != n) ::
      Lookup(Desired(svcs, reg, before, k), n) == Lookup(before, n)
  {
    if k > 0 {
      DesiredMeans(svcs, reg, before, k - 1);
    }
  }

  // ---------------------------------------------------------------- what a poll does

  ghost predicate SomeDiffers(p: Project, reg: Registry, current: Digests) {
    exists svc :: IsPolled(p, svc) && svc.name in reg
      && reg[svc.name] != if svc.name in current then current[svc.name] else ""
  }

  lemma PolledAre(p: Project)
    requires Distinct(p)
    ensures forall svc :: IsPolled(p, svc) <==> svc in Polled(p)
  {
    PolledUpToMeans(p, |p.services|);
    assert p.services[..|p.services|] == p.services;
  }

  lemma ChangedMeans(p: Project, reg: Registry, current: Digests)
    requires Distinct(p) && Reached(Polled(p), reg) == |Polled(p)|
    ensures Changed(Polled(p), reg, current, |Polled(p)|) <==> SomeDiffers(p, reg, current)
  {
    hide Polled, IsPolled, Distinct;
    var svcs := Polled(p);
    PolledAre(p);
    if SomeDiffers(p, reg, current) {
      var svc :| IsPolled(p, svc) && svc.name in reg
                 && reg[svc.name] != if svc.name in current then current[svc.name] else "";
      var i :| 0 <= i < |svcs| && svcs[i] == svc;
      assert reg[svcs[i].name] != Lookup(current, svcs[i].name);
    }
    if Changed(svcs, reg, current, |svcs|) {
      var i :| 0 <= i < |svcs| && reg[svcs[i].name] != Lookup(current, svcs[i].name);
      assert IsPolled(p, svcs[i]);
    }
  }

  lemma AllReached(p: Project, reg: Registry)
    requires Distinct(p)
    ensures Reached(Polled(p), reg) == |Polled(p)| <==> forall svc | IsPolled(p, svc) :: svc.name in reg
  {
    hide Polled, IsPolled, Distinct;
    var svcs := Polled(p);
    var k := Reached(svcs, reg);
    PolledAre(p);
    if k < |svcs| {
      assert IsPolled(p, svcs[k]);
    } else {
      forall svc | IsPolled(p, svc) ensures svc.name in reg {
        var i :| 0 <= i < |svcs| && svcs[i] == svc;
      }
    }
  }

  lemma DeployAddsRow(h: Host, p: Project, target: Digests, w: World)
    requires w.read && w.insert
    ensures |AfterDeploy(h, p, target, w).rows| == |h.rows| + 1
  {
  }

  /** A deployment is attempted exactly when every polled service could be looked up, one of
      them differs from what is deployed, and the state read is not `deploying`. */
  lemma DeploysExactlyWhen(h: Host, p: Project, reg: Registry, w: World)
    requires Distinct(p) && w.read && w.insert
    ensures |AfterReconcile(h, p, reg, w).rows| == |h.rows| + 1 <==>
      && (forall svc | IsPolled(p, svc) :: svc.name in reg)
      && SomeDiffers(p, reg, h.state.current)
      && h.state.status != Deploying
  {
    hide AfterDeploy, Polled, IsPolled, Distinct, SomeDiffers, Changed;
    AllReached(p, reg);
    if Reached(Polled(p), reg) == |Polled(p)| {
      ChangedMeans(p, reg, h.state.current);
    }
    var r := Observed(h, p, reg);
    DeployAddsRow(r, p, r.state.desired, w);
  }

  /** What is deployed is what the registry said, for every polled service; the other entries
      are the desired digests of before. */
  lemma TargetIsRegistry(h: Host, p: Project, reg: Registry, w: World)
    requires Distinct(p) && |AfterReconcile(h, p, reg, w).rows| == |h.rows| + 1
    ensures var target := AfterReconcile(h, p, reg, w).rows[|h.rows|].to;
      && (forall svc | IsPolled(p, svc) :: svc.name in reg && svc.name in target && target[svc.name] == reg[svc.name])
      && (forall n | (forall svc | IsPolled(p, svc) :: svc.name != n) ::
            Lookup(target, n) == Lookup(h.state.desired, n))
  {
    PolledUpToMeans(p, |p.services|);
    assert p.services[..|p.services|] == p.services;
    var svcs := Polled(p);
    DesiredMeans(svcs, reg, h.state.desired, Reached(svcs, reg));
    var target := AfterReconcile(h, p, reg, w).rows[|h.rows|].to;
    forall n | (forall svc | IsPolled(p, svc) :: svc.name != n)
      ensures Lookup(target, n) == Lookup(h.state.desired, n)
    {
      forall i | 0 <= i < |svcs| ensures svcs[i].name != n {
        assert IsPolled(p, svcs[i]);
      }
    }
    forall svc | IsPolled(p, svc)
      ensures svc.name in reg && svc.name in target && target[svc.name] == reg[svc.name]
    {
      var i :| 0 <= i < |svcs| && svcs[i] == svc;
      assert Lookup(target, svcs[i].name) == reg[svcs[i].name];
    }
  }

  /** Once deployed, the same answers never deploy again, and the poll changes nothing. */
  lemma SettledAfterSuccess(h: Host, p: Project, reg: Registry, w: World, v: World)
    requires Distinct(p) && Succeeded(h, AfterReconcile(h, p, reg, w))
    ensures var t := AfterReconcile(h, p, reg, w); AfterReconcile(t, p, reg, v) == t
  {
    var t := AfterReconcile(h, p, reg, w);
    var svcs := Polled(p);
    DesiredMeans(svcs, reg, h.state.desired, |svcs|);
    assert forall i | 0 <= i < |svcs| :: Lookup(t.state.current, svcs[i].name) == reg[svcs[i].name];
    assert !Changed(svcs, reg, t.state.current, |svcs|);
    DesiredStable(svcs, reg, t.state.desired, |svcs|);
  }

  lemma {:induction false} DesiredStable(svcs: seq<Service>, reg: Registry, before: Digests, k: nat)
    requires k <= |svcs| && forall i | 0 <= i < k :: svcs[i].name in reg
    requires forall i | 0 <= i < k :: svcs[i].name in before && before[svcs[i].name] == reg[svcs[i].name]
    ensures Desired(svcs, reg, before, k) == before
  {
    if k > 0 {
      DesiredStable(svcs, reg, before, k - 1);
    }
  }

  /** A target that was rolled back is tried again by the next poll with the same answers. */
  lemma RolledBackIsRetried(h: Host, p: Project, reg: Registry, w: World, v: World)
    requires Distinct(p) && WantsDeploy(h, p, reg) && w.read && w.insert
    requires !Completes(w.deploy, true)
    ensures var t := AfterReconcile(h, p, reg, w);
      && WantsDeploy(t, p, reg)
      && (v.read && v.insert ==>
            |AfterReconcile(t, p, reg, v).rows| == |t.rows| + 1
            && AfterReconcile(t, p, reg, v).rows[|t.rows|].to == t.rows[|h.rows|].to)
  {
    var t := AfterReconcile(h, p, reg, w);
    var svcs := Polled(p);
    DesiredMeans(svcs, reg, h.state.desired, |svcs|);
    assert forall i | 0 <= i < |svcs| ::
      svcs[i].name in t.state.desired && t.state.desired[svcs[i].name] == reg[svcs[i].name];
    DesiredStable(svcs, reg, t.state.desired, |svcs|);
  }

  lemma {:induction false} PolledPrefix(p: Project, k: nat, n: nat)
    requires k <= n <= |p.services|
    ensures PolledUpTo(p, k) <= PolledUpTo(p, n)
    decreases n - k
  {
    if k < n {
      PolledPrefix(p, k, n - 1);
    }
  }

  lemma DeployDesires(h: Host, p: Project, target: Digests, w: World)
    requires h.state.desired == target
    ensures AfterDeploy(h, p, target, w).state.desired == target
  {
  }

  /** Whatever becomes of the poll, the digests of the services up to the first failed lookup are
      recorded as desired. */
  lemma PollRecords(h: Host, p: Project, reg: Registry, w: World, i: nat)
    requires Distinct(p) && i < |p.services| && p.services[i].polled
    requires forall k | 0 <= k <= i && p.services[k].polled :: p.services[k].name in reg
    ensures var desired := AfterReconcile(h, p, reg, w).state.desired; var n := p.services[i].name;
      n in desired && desired[n] == reg[n]
  {
    hide AfterDeploy;
    var svcs, front := Polled(p), PolledUpTo(p, i + 1);
    PolledPrefix(p, i + 1, |p.services|);
    PolledUpToMeans(p, i + 1);
    forall k | 0 <= k < |front| ensures front[k].name in reg {
      assert front[k] in p.services[..i + 1] && front[k].polled;
    }
    var at := |front| - 1;
    assert front[at] == p.services[i] && svcs[at] == front[at];
    var reached := Reached(svcs, reg);
    assert forall k | 0 <= k < |front| :: svcs[k] == front[k];
    DesiredMeans(svcs, reg, h.state.desired, reached);
    assert Lookup(Desired(svcs, reg, h.state.desired, reached), svcs[at].name) == reg[svcs[at].name];
    DeployDesires(Observed(h, p, reg), p, Observed(h, p, reg).state.desired, w);
  }

  /** A failed lookup deploys nothing: only desired digests found before the failure are kept. */
  lemma FailedLookupKeeps(h: Host, p: Project, reg: Registry, w: World, svc: Service)
    requires Distinct(p) && IsPolled(p, svc) && svc.name !in reg
    ensures var t := AfterReconcile(h, p, reg, w);
      && t == h.(state := h.state.(desired := t.state.desired))
      && Lookup(t.state.desired, svc.name) == Lookup(h.state.desired, svc.name)
  {
    PolledUpToMeans(p, |p.services|);
    assert p.services[..|p.services|] == p.services;
    var svcs := Polled(p);
    var i :| 0 <= i < |svcs| && svcs[i] == svc;
    DesiredMeans(svcs, reg, h.state.desired, Reached(svcs, reg));
  }

  // ---------------------------------------------------------------- whole runs

  datatype Call =
    | DeployCall(target: Digests)
    | RollbackCall
    | ReconcileCall(reg: Registry)
    | StartCall(found: bool, write: Outcome, up: Outcome)
    | StopCall(found: bool, down: Outcome)

  /** One serialised call; the project may have been edited since the one before. */
  datatype Event = Event(p: Project, call: Call, w: World)

  ghost function Next(h: Host, e: Event): Host {
    match e.call
    case DeployCall(target) => AfterDeploy(h, e.p, target, e.w)
    case RollbackCall => AfterRollback(h, e.p, e.w)
    case ReconcileCall(reg) => AfterReconcile(h, e.p, reg, e.w)
    case StartCall(found, write, up) => AfterStart(h, e.p, found, write, up)
    case StopCall(found, down) => AfterStop(h, found, down)
  }

  ghost function Run(h: Host, events: seq<Event>): Host {
    if events == [] then h else Next(Run(h, events[..|events| - 1]), events[|events| - 1])
  }

  lemma ObservedExplained(h: Host, p: Project, reg: Registry)
    requires Explained(h)
    ensures Explained(Observed(h, p, reg))
  {
  }

  /** Over every run the log explains the state: current is the `to` and previous the `from` of
      the last success row, and every row starts from the success row before it. */
  lemma {:induction false} RunExplained(h: Host, events: seq<Event>)
    requires Explained(h)
    ensures Explained(Run(h, events))
  {
    hide Explained, AfterDeploy, AfterStart, AfterStop;
    if events != [] {
      RunExplained(h, events[..|events| - 1]);
      var g, e := Run(h, events[..|events| - 1]), events[|events| - 1];
      match e.call
      case DeployCall(target) => DeployExplained(g, e.p, target, e.w);
      case RollbackCall => DeployExplained(g, e.p, g.state.previous, e.w);
      case ReconcileCall(reg) =>
        ObservedExplained(g, e.p, reg);
        DeployExplained(Observed(g, e.p, reg), e.p, Observed(g, e.p, reg).state.desired, e.w);
      case StartCall(found, write, up) => OthersExplained(g, e.p, found, write, up, Works);
      case StopCall(found, down) => OthersExplained(g, e.p, found, down, down, down);
    }
  }

  /** A project as it is created. */
  function Created(status: Status, stack: Stack): Host {
    Host(State(map[], map[], map[], status), [], stack)
  }

  /** The two callers of a deploy hand it digests: a rollback the previous ones, a poll those of a
      service that has changed. */
  predicate Real(c: Call) {
    c.DeployCall? ==> c.target != map[]
  }

  lemma ChangedIsSomething(svcs: seq<Service>, reg: Registry, current: Digests, before: Digests, k: nat)
    requires k <= |svcs| && (forall i | 0 <= i < k :: svcs[i].name in reg) && Changed(svcs, reg, current, k)
    ensures Desired(svcs, reg, before, k) != map[]
  {
    DesiredMeans(svcs, reg, before, k);
    var i :| 0 <= i < k && reg[svcs[i].name] != Lookup(current, svcs[i].name);
    assert svcs[i].name in Desired(svcs, reg, before, k);
  }

  lemma NextRecords(h: Host, e: Event)
    requires Recorded(h) && Real(e.call)
    ensures Recorded(Next(h, e)) && Successes(Next(h, e).rows) >= Successes(h.rows)
  {
    match e.call
    case DeployCall(target) => DeployRecords(h, e.p, target, e.w);
    case RollbackCall =>
      if h.state.previous != map[] {
        DeployRecords(h, e.p, h.state.previous, e.w);
      }
    case ReconcileCall(reg) =>
      var r := Observed(h, e.p, reg);
      if WantsDeploy(h, e.p, reg) {
        ChangedIsSomething(Polled(e.p), reg, h.state.current, h.state.desired, |Polled(e.p)|);
        DeployRecords(r, e.p, r.state.desired, e.w);
      }
    case StartCall(_, _, _) =>
    case StopCall(_, _) =>
  }

  lemma {:induction false} RunRecords(status: Status, stack: Stack, events: seq<Event>)
    requires forall i | 0 <= i < |events| :: Real(events[i].call)
    ensures Recorded(Run(Created(status, stack), events))
  {
    if events != [] {
      RunRecords(status, stack, events[..|events| - 1]);
      NextRecords(Run(Created(status, stack), events[..|events| - 1]), events[|events| - 1]);
    }
  }

  /** Over every run of a project from its creation, a manual rollback is refused if and only if
      fewer than two of its deployments have succeeded. */
  lemma {:induction false} RollbackRefusedIff(status: Status, stack: Stack, events: seq<Event>, p: Project)
    requires forall i | 0 <= i < |events| :: Real(events[i].call)
    ensures var h := Run(Created(status, stack), events);
      (forall w :: AfterRollback(h, p, w) == h) <==> Successes(h.rows) <= 1
  {
    RunRecords(status, stack, events);
    var h := Run(Created(status, stack), events);
    if h.state.previous != map[] {
      var s := Script(Works, true, Works, true);
      var w := World(true, true, s, s);
      assert |AfterRollback(h, p, w).rows| == |h.rows| + 1;
    }
  }

  lemma {:induction false} SuccessesGrow(h: Host, events: seq<Event>)
    requires Recorded(h) && forall i | 0 <= i < |events| :: Real(events[i].call)
    ensures Recorded(Run(h, events)) && Successes(Run(h, events).rows) >= Successes(h.rows)
  {
    if events != [] {
      SuccessesGrow(h, events[..|events| - 1]);
      NextRecords(Run(h, events[..|events| - 1]), events[|events| - 1]);
    }
  }

  /** Once a manual rollback has succeeded there is always a version to roll back to, whatever
      happens in between; and straight after it, that is the version it replaced. */
  lemma {:induction false} RollbackStaysPossible(status: Status, stack: Stack, events: seq<Event>, p: Project, v: World,
                              more: seq<Event>, q: Project, w: World)
    requires forall i | 0 <= i < |events| :: Real(events[i].call)
    requires forall i | 0 <= i < |more| :: Real(more[i].call)
    requires w.read
    requires var h := Run(Created(status, stack), events); Succeeded(h, AfterRollback(h, p, v))
    ensures var h := Run(Created(status, stack), events); var m := AfterRollback(h, p, v);
      && Run(m, more).state.previous != map[]
      && AfterRollback(m, q, w) == AfterDeploy(m, q, h.state.current, w)
  {
    RunRecords(status, stack, events);
    var h := Run(Created(status, stack), events);
    var m := AfterRollback(h, p, v);
    DeployRecords(h, p, h.state.previous, v);
    SuccessesGrow(m, more);
    RollbackGoesBack(h, p, v, q, w);
  }

  // ---------------------------------------------------------------- the code

  method PolledServices(p: Project) returns (r: seq<Service>)
    ensures r == Polled(p)
  {
    r := [];
    for i := 0 to |p.services|
      invariant r == PolledUpTo(p, i)
    {
      if p.services[i].polled {
        r := r + [p.services[i]];
      }
    }
  }

  lemma PollBegins(svcs: seq<Service>, reg: Registry, seen: State)
    ensures Desired(svcs, reg, seen.desired, 0) == seen.desired && !Changed(svcs, reg, seen.current, 0)
  {
  }

  lemma PollGoesOn(svcs: seq<Service>, reg: Registry, seen: State, i: nat)
    requires i < |svcs| && i + 1 <= Reached(svcs, reg)
    ensures Desired(svcs, reg, seen.desired, i + 1) ==
            Desired(svcs, reg, seen.desired, i)[svcs[i].name := reg[svcs[i].name]]
    ensures Changed(svcs, reg, seen.current, i + 1) <==>
            Changed(svcs, reg, seen.current, i) || reg[svcs[i].name] != Lookup(seen.current, svcs[i].name)
  {
  }

  lemma PollStops(h: Host, p: Project, reg: Registry, w: World, i: nat)
    requires i < |Polled(p)| && i <= Reached(Polled(p), reg) && Polled(p)[i].name !in reg
    ensures AfterReconcile(h, p, reg, w) == Observed(h, p, reg)
    ensures Observed(h, p, reg) == h.(state := h.state.(desired := Desired(Polled(p), reg, h.state.desired, i)))
  {
  }

  lemma PollCompletes(h: Host, p: Project, reg: Registry, w: World)
    requires Reached(Polled(p), reg) == |Polled(p)|
    ensures var desired := Desired(Polled(p), reg, h.state.desired, |Polled(p)|);
      && Observed(h, p, reg) == h.(state := h.state.(desired := desired))
      && AfterReconcile(h, p, reg, w) ==
         if Changed(Polled(p), reg, h.state.current, |Polled(p)|) && h.state.status != Deploying
         then AfterDeploy(Observed(h, p, reg), p, desired, w) else Observed(h, p, reg)
  {
  }

  class Scheduler {
    const deployer: Deployer

    constructor (d: Deployer)
      ensures deployer == d
    {
      deployer := d;
    }

    /** `seen` is the row the caller read; it is written back before anything else. */
    method ReconcileOne(p: Project, seen: State, reg: Registry, w: World)
      requires Distinct(p)
      modifies deployer, deployer.db
      ensures deployer.locked == old(deployer.locked)
      ensures var h := old(deployer.View()).(state := seen);
        deployer.View() == if old(deployer.locked) then Observed(h, p, reg) else AfterReconcile(h, p, reg, w)
    {
      hide AfterDeploy, AfterReconcile, Observed, WantsDeploy, Polled, Reached, Changed, Desired;
      ghost var h := deployer.View().(state := seen);
      var state := seen;
      deployer.db.UpdateState(state);
      var svcs := PolledServices(p);
      var changed := false;
      var i := 0;
      PollBegins(svcs, reg, seen);
      while i < |svcs|
        invariant i <= |svcs| && i <= Reached(svcs, reg)
        invariant deployer.View() == old(deployer.View()).(state := seen) && deployer.locked == old(deployer.locked)
        invariant state == seen.(desired := Desired(svcs, reg, seen.desired, i))
        invariant changed <==> Changed(svcs, reg, seen.current, i)
      {
        if svcs[i].name !in reg {
          PollStops(h, p, reg, w, i);
          deployer.db.UpdateState(state);
          return;
        }
        ReachedFurther(svcs, reg, i);
        PollGoesOn(svcs, reg, seen, i);
        var remote := reg[svcs[i].name];
        state := state.(desired := state.desired[svcs[i].name := remote]);
        if remote != Lookup(state.current, svcs[i].name) {
          changed := true;
        }
        i := i + 1;
      }
      PollCompletes(h, p, reg, w);
      deployer.db.UpdateState(state);
      if !changed || state.status == Deploying {
        return;
      }
      var _ := deployer.Deploy(p, state.desired, w);
    }

    /** `project` and `found` say whether the project and its state row can be read. */
    method TriggerManualReconcile(project: Option<Project>, found: bool, reg: Registry, w: World) returns (ok: bool)
      requires project.Some? ==> Distinct(project.value)
      modifies deployer, deployer.db
      ensures deployer.locked == old(deployer.locked) && (ok <==> project.Some? && found)
      ensures deployer.View() ==
        if !ok then old(deployer.View())
        else if old(deployer.locked) then Observed(old(deployer.View()), project.value, reg)
        else AfterReconcile(old(deployer.View()), project.value, reg, w)
    {
      if project.None? {
        return false;
      }
      var state := deployer.db.GetState(found);
      if state.None? {
        return false;
      }
      ReconcileOne(project.value, state.value, reg, w);
      ok := true;
    }
  }

  lemma ReachedFurther(svcs: seq<Service>, reg: Registry, i: nat)
    requires i < |svcs| && i <= Reached(svcs, reg) && svcs[i].name in reg
    ensures i + 1 <= Reached(svcs, reg)
  {
  }
}
