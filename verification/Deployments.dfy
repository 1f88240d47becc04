/** The deployer of one form-mode project: its state row, its deployment log and its compose
    stack.  Registry, runtime and health checks appear as outcomes handed in by the caller. */
module Deployments {
  import opened Options

  // ---------------------------------------------------------------- tables

  datatype Status = Unknown | Running | Stopped | Stopping | Starting | Deploying | Failed | RolledBack

  datatype RowStatus = InProgress | Success | RowFailed | RowRolledBack

  type Digests = map<string, string>

  datatype State = State(current: Digests, previous: Digests, desired: Digests, status: Status)

  datatype Row = Row(from: Digests, to: Digests, status: RowStatus)

  // ---------------------------------------------------------------- stack

  datatype Service = Service(name: string, image: string, tag: string, polled: bool)

  datatype Project = Project(services: seq<Service>)

  datatype Image = Tagged(repo: string, tag: string) | Pinned(repo: string, digest: string)

  /** compose.yaml, compose.override.yaml and the images the containers run. */
  datatype Stack = Stack(base: map<string, Image>, override: Option<map<string, Image>>, running: map<string, Image>)

  ghost predicate Distinct(p: Project) {
    forall i, j | 0 <= i < j < |p.services| :: p.services[i].name != p.services[j].name
  }

  /** Service i has a recorded digest. */
  predicate Has(p: Project, digests: Digests, i: int)
    requires 0 <= i < |p.services|
  {
    p.services[i].name in digests && digests[p.services[i].name] != ""
  }

  /** The pins are exactly those of the services with a digest. */
  ghost predicate PinsFor(p: Project, digests: Digests, pins: map<string, Image>) {
    && (forall i | 0 <= i < |p.services| ::
          p.services[i].name in pins <==> p.services[i].name in digests && digests[p.services[i].name] != "")
    && (forall i | 0 <= i < |p.services| && p.services[i].name in pins ::
          pins[p.services[i].name] == Pinned(p.services[i].image, digests[p.services[i].name]))
    && (forall n | n in pins :: exists i :: 0 <= i < |p.services| && p.services[i].name == n)
  }

  function PinsUpTo(p: Project, digests: Digests, k: nat): map<string, Image>
    requires k <= |p.services|
  {
    if k == 0 then map[]
    else
      var svc := p.services[k - 1];
      var pins := PinsUpTo(p, digests, k - 1);
      if Has(p, digests, k - 1) then pins[svc.name := Pinned(svc.image, digests[svc.name])] else pins
  }

  function Overrides(p: Project, digests: Digests): Option<map<string, Image>> {
    var pins := PinsUpTo(p, digests, |p.services|);
    if pins == map[] then None else Some(pins)
  }

  function BaseUpTo(p: Project, k: nat): map<string, Image>
    requires k <= |p.services|
  {
    if k == 0 then map[]
    else
      var svc := p.services[k - 1];
      BaseUpTo(p, k - 1)[svc.name := Tagged(svc.image, svc.tag)]
  }

  function Base(p: Project): map<string, Image> {
    BaseUpTo(p, |p.services|)
  }

  /** `-f compose.yaml -f compose.override.yaml`, the second only when it exists. */
  function Resolved(s: Stack): map<string, Image> {
    if s.override.Some? then s.base + s.override.value else s.base
  }

  lemma {:induction false} PinsUpToMean(p: Project, digests: Digests, k: nat)
    requires k <= |p.services|
    requires Distinct(p)
    ensures var pins := PinsUpTo(p, digests, k);
      && (forall i | 0 <= i < k :: p.services[i].name in pins <==> Has(p, digests, i))
      && (forall i | 0 <= i < k && Has(p, digests, i) ::
            pins[p.services[i].name] == Pinned(p.services[i].image, digests[p.services[i].name]))
      && (forall n | n in pins :: exists i :: 0 <= i < k && p.services[i].name == n)
  {
    if k > 0 {
      PinsUpToMean(p, digests, k - 1);
      assert p.services[k - 1].name !in PinsUpTo(p, digests, k - 1);
    }
  }

  lemma {:induction false} BaseUpToMean(p: Project, k: nat)
    requires k <= |p.services|
    requires Distinct(p)
    ensures forall i | 0 <= i < k ::
      (p.services[i].name in BaseUpTo(p, k)
       && BaseUpTo(p, k)[p.services[i].name] == Tagged(p.services[i].image, p.services[i].tag))
    ensures forall n | n in BaseUpTo(p, k) :: exists i :: 0 <= i < k && p.services[i].name == n
  {
    if k > 0 {
      BaseUpToMean(p, k - 1);
    }
  }

  /** What is brought up after the files were written for these digests: a pin for every
      service with a digest, the tag for every other one, and nothing else. */
  lemma WrittenResolves(p: Project, digests: Digests, s: Stack)
    requires Distinct(p) && s.base == Base(p) && s.override == Overrides(p, digests)
    ensures RunsExactly(p, digests, Resolved(s))
  {
    PinsUpToMean(p, digests, |p.services|);
    BaseUpToMean(p, |p.services|);
    var pins := PinsUpTo(p, digests, |p.services|);
    assert Resolved(s) == Base(p) + pins;
  }

  ghost predicate RunsExactly(p: Project, digests: Digests, running: map<string, Image>) {
    && (forall i | 0 <= i < |p.services| :: p.services[i].name in running
          && running[p.services[i].name] ==
             if p.services[i].name in digests && digests[p.services[i].name] != ""
             then Pinned(p.services[i].image, digests[p.services[i].name])
             else Tagged(p.services[i].image, p.services[i].tag))
    && (forall n | n in running :: exists i :: 0 <= i < |p.services| && p.services[i].name == n)
  }

  // ---------------------------------------------------------------- outcomes of the outside world

  /** A failing step leaves whatever it managed to do. */
  datatype Outcome = Works | Fails(left: Stack)

  datatype Script = Script(write: Outcome, pull: bool, up: Outcome, health: bool)

  datatype World = World(read: bool, insert: bool, deploy: Script, rollback: Script)

  predicate Completes(s: Script, pulls: bool) {
    s.write.Works? && (pulls ==> s.pull) && s.up.Works? && s.health
  }

  // ---------------------------------------------------------------- specification

  function Written(s: Stack, p: Project, pins: Option<map<string, Image>>, o: Outcome): Stack {
    if o.Works? then s.(base := Base(p), override := pins)
    else s.(base := o.left.base, override := o.left.override)
  }

  function BroughtUp(s: Stack, o: Outcome): Stack {
    if o.Works? then s.(running := Resolved(s)) else s.(running := o.left.running)
  }

  /** Write, pull (a deploy only), up; the first failure ends it. */
  function Executed(s: Stack, p: Project, digests: Digests, o: Script, pulls: bool): Stack {
    var w := Written(s, p, Overrides(p, digests), o.write);
    if o.write.Works? && (pulls ==> o.pull) then BroughtUp(w, o.up) else w
  }

  /** One project on one host. */
  datatype Host = Host(state: State, rows: seq<Row>, stack: Stack)

  function RollbackWorks(h: Host, w: World): bool {
    h.state.current != map[] && Completes(w.rollback, false)
  }

  function Verdict(h: Host, w: World): RowStatus {
    if Completes(w.deploy, true) then Success
    else if RollbackWorks(h, w) then RowRolledBack
    else RowFailed
  }

  function AfterDeploy(h: Host, p: Project, target: Digests, w: World): Host {
    if !w.read || !w.insert then h
    else
      var row := Row(h.state.current, target, Verdict(h, w));
      var tried := Executed(h.stack, p, target, w.deploy, true);
      var stack :=
        if Completes(w.deploy, true) || h.state.current == map[] then tried
        else Executed(tried, p, h.state.current, w.rollback, false);
      var state :=
        match Verdict(h, w)
        case Success => State(target, h.state.current, target, Running)
        case RowRolledBack => h.state.(desired := target, status := RolledBack)
        case _ => h.state.(desired := target, status := Failed);
      Host(state, h.rows + [row], stack)
  }

  function AfterRollback(h: Host, p: Project, w: World): Host {
    if !w.read || h.state.previous == map[] then h else AfterDeploy(h, p, h.state.previous, w)
  }

  /** The status is written only when the state row could be read. */
  function WithStatus(h: Host, found: bool, status: Status): Host {
    if found then h.(state := h.state.(status := status)) else h
  }

  /** `down` stops the containers of the files' services; containers of others stay. */
  function AfterStop(h: Host, found: bool, down: Outcome): Host {
    if down.Works? then
      WithStatus(h, found, Stopped).(stack := h.stack.(running := h.stack.running - Resolved(h.stack).Keys))
    else
      WithStatus(h, found, Failed).(stack := h.stack.(running := down.left.running))
  }

  /** `up -d` without --remove-orphans: other containers of the stack stay. */
  function AfterStart(h: Host, p: Project, found: bool, write: Outcome, up: Outcome): Host {
    var w := Written(h.stack, p, None, write);
    if write.Works? && up.Works? then
      WithStatus(h, found, Running).(stack := w.(running := w.running + Resolved(w)))
    else if write.Works? then
      WithStatus(h, found, Failed).(stack := w.(running := up.left.running))
    else
      WithStatus(h, found, Failed).(stack := w)
  }

  // ---------------------------------------------------------------- what a deploy means

  /** One row is added, from the recorded digests to the target, with the verdict the state shows. */
  predicate Logged(h: Host, t: Host, target: Digests) {
    && |t.rows| == |h.rows| + 1 && t.rows[..|h.rows|] == h.rows
    && t.rows[|h.rows|].from == h.state.current && t.rows[|h.rows|].to == target
    && t.rows[|h.rows|].status != InProgress
    && (t.rows[|h.rows|].status == Success <==> t.state.status == Running)
    && (t.rows[|h.rows|].status == RowRolledBack <==> t.state.status == RolledBack)
    && (t.state.status != Running ==> t.state.current == h.state.current && t.state.previous == h.state.previous)
    && t.state.desired == target
  }

  /** All or nothing at stack level: after success every service with a target digest runs it;
      after a rollback every service with a recorded digest runs that one, and no service is
      pinned to anything else.  Whatever override file was there before does not matter. */
  lemma DeployIsAtomic(h: Host, p: Project, target: Digests, w: World)
    requires Distinct(p) && w.read && w.insert
    ensures var t := AfterDeploy(h, p, target, w);
      && (t.state.status == Running ==> RunsExactly(p, target, t.stack.running))
      && (t.state.status == RolledBack ==> RunsExactly(p, h.state.current, t.stack.running))
      && (t.state.status == Running <==>
            w.deploy.write.Works? && w.deploy.pull && w.deploy.up.Works? && w.deploy.health)
      && (t.state.status == RolledBack <==>
            && !(w.deploy.write.Works? && w.deploy.pull && w.deploy.up.Works? && w.deploy.health)
            && h.state.current != map[] && w.rollback.write.Works? && w.rollback.up.Works? && w.rollback.health)
      && (t.state.status in {Running, RolledBack, Failed})
      && Logged(h, t, target)
  {
    var tried := Executed(h.stack, p, target, w.deploy, true);
    var t := AfterDeploy(h, p, target, w);
    if t.state.status == Running {
      WrittenResolves(p, target, tried);
    } else if t.state.status == RolledBack {
      WrittenResolves(p, h.state.current, t.stack);
    }
  }

  /** A deploy whose state row cannot be read or whose log row cannot be added changes nothing. */
  lemma DeployNeedsDatabase(h: Host, p: Project, target: Digests, w: World)
    requires !w.read || !w.insert
    ensures AfterDeploy(h, p, target, w) == h
  {
  }

  /** What the first failing stage leaves: before `up` nothing that runs has changed, and before a
      complete write neither file is more than what the failing write left. */
  ghost predicate StoppedAtFirst(s: Stack, t: Stack, p: Project, digests: Digests, o: Script, pulls: bool) {
    if o.write.Fails? then t == Stack(o.write.left.base, o.write.left.override, s.running)
    else
      && RunsExactly(p, digests, if t.override.Some? then t.base + t.override.value else t.base)
      && (pulls && !o.pull ==> t.running == s.running)
      && (!pulls || o.pull ==>
            if o.up.Fails? then t.running == o.up.left.running else RunsExactly(p, digests, t.running))
  }

  lemma ExecutedStops(s: Stack, p: Project, digests: Digests, o: Script, pulls: bool)
    requires Distinct(p)
    ensures StoppedAtFirst(s, Executed(s, p, digests, o, pulls), p, digests, o, pulls)
  {
    if o.write.Works? {
      WrittenResolves(p, digests, Executed(s, p, digests, o, pulls));
    }
  }

  /** The whole stack after a deploy, for every outcome: the deploy ran up to its first failure, and
      if it failed and something was recorded, the rollback ran after it up to its own. */
  lemma DeployLeaves(h: Host, p: Project, target: Digests, w: World) returns (tried: Stack)
    requires Distinct(p) && w.read && w.insert
    ensures StoppedAtFirst(h.stack, tried, p, target, w.deploy, true)
    ensures var t := AfterDeploy(h, p, target, w).stack;
      if (w.deploy.write.Works? && w.deploy.pull && w.deploy.up.Works? && w.deploy.health) || h.state.current == map[]
      then t == tried else StoppedAtFirst(tried, t, p, h.state.current, w.rollback, false)
  {
    tried := Executed(h.stack, p, target, w.deploy, true);
    ExecutedStops(h.stack, p, target, w.deploy, true);
    ExecutedStops(tried, p, h.state.current, w.rollback, false);
  }

  /** After a rollback no service is left on a target pin, unless it is also its recorded one. */
  lemma NoTargetPinSurvives(h: Host, p: Project, target: Digests, w: World, n: string)
    requires Distinct(p) && w.read && w.insert
    requires AfterDeploy(h, p, target, w).state.status == RolledBack
    requires n in AfterDeploy(h, p, target, w).stack.running
    ensures var image := AfterDeploy(h, p, target, w).stack.running[n];
      image.Pinned? ==> n in h.state.current && h.state.current[n] == image.digest
  {
    DeployIsAtomic(h, p, target, w);
    var t := AfterDeploy(h, p, target, w);
    var i :| 0 <= i < |p.services| && p.services[i].name == n;
    assert p.services[i].name in t.stack.running;
  }

  /** Starting a project drops the digest pins: every service of the project runs its tag. */
  lemma StartDropsPins(h: Host, p: Project, found: bool, write: Outcome, up: Outcome)
    requires Distinct(p) && write.Works? && up.Works?
    ensures var t := AfterStart(h, p, found, write, up);
      && (found ==> t.state.status == Running)
      && t.stack.override == None
      && forall i | 0 <= i < |p.services| :: p.services[i].name in t.stack.running
           && t.stack.running[p.services[i].name] == Tagged(p.services[i].image, p.services[i].tag)
  {
    BaseUpToMean(p, |p.services|);
  }

  /** Neither a start nor a stop touches the log or the digests. */
  predicate OnlyStatus(h: Host, t: Host, found: bool, status: Status) {
    && t.rows == h.rows
    && t.state == if found then h.state.(status := status) else h.state
  }

  /** The whole outcome of a start. */
  lemma StartMeans(h: Host, p: Project, found: bool, write: Outcome, up: Outcome)
    requires Distinct(p)
    ensures var t := AfterStart(h, p, found, write, up);
      && OnlyStatus(h, t, found, if write.Works? && up.Works? then Running else Failed)
      && (write.Fails? ==> t.stack == Stack(write.left.base, write.left.override, h.stack.running))
      && (write.Works? ==> t.stack.override == None && RunsExactly(p, map[], t.stack.base))
      && (write.Works? && up.Fails? ==> t.stack.running == up.left.running)
      && (write.Works? && up.Works? ==>
            && (forall n | n in t.stack.base :: n in t.stack.running && t.stack.running[n] == t.stack.base[n])
            && (forall n | n !in t.stack.base :: n in t.stack.running <==> n in h.stack.running)
            && (forall n | n !in t.stack.base && n in h.stack.running :: t.stack.running[n] == h.stack.running[n]))
  {
    BaseUpToMean(p, |p.services|);
  }

  /** The whole outcome of a stop: when it works, no service named in the files runs any longer. */
  lemma StopMeans(h: Host, found: bool, down: Outcome)
    ensures var t := AfterStop(h, found, down);
      && OnlyStatus(h, t, found, if down.Works? then Stopped else Failed)
      && t.stack.base == h.stack.base && t.stack.override == h.stack.override
      && (down.Fails? ==> t.stack.running == down.left.running)
      && (down.Works? ==> forall n ::
            (n in t.stack.running <==>
               n in h.stack.running && n !in h.stack.base
               && !(h.stack.override.Some? && n in h.stack.override.value))
            && (n in t.stack.running ==> t.stack.running[n] == h.stack.running[n]))
  {
  }

  /** In particular, a working stop of a project whose files are in place stops all its services. */
  lemma StopStopsServices(h: Host, p: Project, found: bool, i: nat)
    requires Distinct(p) && h.stack.base == Base(p) && i < |p.services|
    ensures p.services[i].name !in AfterStop(h, found, Works).stack.running
  {
    BaseUpToMean(p, |p.services|);
  }

  // ---------------------------------------------------------------- the log explains the state

  /** The digests of the newest success row. */
  function LastTo(rows: seq<Row>): Digests {
    if rows == [] then map[]
    else if rows[|rows| - 1].status == Success then rows[|rows| - 1].to
    else LastTo(rows[..|rows| - 1])
  }

  function LastFrom(rows: seq<Row>): Digests {
    if rows == [] then map[]
    else if rows[|rows| - 1].status == Success then rows[|rows| - 1].from
    else LastFrom(rows[..|rows| - 1])
  }

  ghost predicate Explained(h: Host) {
    && h.state.current == LastTo(h.rows)
    && h.state.previous == LastFrom(h.rows)
    && (forall i | 0 <= i < |h.rows| :: h.rows[i].from == LastTo(h.rows[..i]))
    && (forall i | 0 <= i < |h.rows| :: h.rows[i].status != InProgress)
  }

  lemma DeployExplained(h: Host, p: Project, target: Digests, w: World)
    requires Explained(h)
    ensures Explained(AfterDeploy(h, p, target, w))
  {
    var t := AfterDeploy(h, p, target, w);
    if w.read && w.insert {
      assert t.rows[..|h.rows|] == h.rows;
      forall i | 0 <= i < |t.rows| ensures t.rows[i].from == LastTo(t.rows[..i]) {
        assert t.rows[..i] == h.rows[..i];
      }
    }
  }

  lemma OthersExplained(h: Host, p: Project, found: bool, write: Outcome, up: Outcome, down: Outcome)
    requires Explained(h)
    ensures Explained(AfterStart(h, p, found, write, up)) && Explained(AfterStop(h, found, down))
  {
  }

  predicate Succeeded(h: Host, t: Host) {
    |t.rows| == |h.rows| + 1 && t.rows[|h.rows|].status == Success
  }

  /** Two successful manual rollbacks in a row undo each other; they can only both succeed when a
      current version was recorded. */
  lemma RollbackTwice(h: Host, p: Project, v: World, q: Project, w: World)
    requires Succeeded(h, AfterRollback(h, p, v))
    requires Succeeded(AfterRollback(h, p, v), AfterRollback(AfterRollback(h, p, v), q, w))
    ensures var t := AfterRollback(AfterRollback(h, p, v), q, w);
      t.state.current == h.state.current != map[] && t.state.previous == h.state.previous != map[]
  {
    var m := AfterRollback(h, p, v);
    assert m.state.current == h.state.previous && m.state.previous == h.state.current;
  }

  /** How many deployments of the log succeeded. */
  function Successes(rows: seq<Row>): nat {
    if rows == [] then 0
    else Successes(rows[..|rows| - 1]) + if rows[|rows| - 1].status == Success then 1 else 0
  }

  /** The recorded digests are there as soon as the log has the deployments they come from. */
  predicate Recorded(h: Host) {
    && (h.state.current == map[] <==> Successes(h.rows) == 0)
    && (h.state.previous == map[] <==> Successes(h.rows) <= 1)
  }

  lemma DeployRecords(h: Host, p: Project, target: Digests, w: World)
    requires Recorded(h) && target != map[]
    ensures Recorded(AfterDeploy(h, p, target, w))
    ensures Successes(AfterDeploy(h, p, target, w).rows) >= Successes(h.rows)
  {
    hide Executed;
    if w.read && w.insert {
      var t := AfterDeploy(h, p, target, w);
      assert t.rows[..|h.rows|] == h.rows && |t.rows| == |h.rows| + 1;
    }
  }

  /** A successful rollback can be undone: the next one deploys what ran before. */
  lemma RollbackGoesBack(h: Host, p: Project, v: World, q: Project, w: World)
    requires Recorded(h) && Succeeded(h, AfterRollback(h, p, v)) && w.read
    ensures h.state.current != map[]
    ensures var m := AfterRollback(h, p, v);
      AfterRollback(m, q, w) == AfterDeploy(m, q, h.state.current, w)
  {
    var m := AfterRollback(h, p, v);
    DeployRecords(h, p, h.state.previous, v);
    assert m.state.previous == h.state.current;
  }

  // ---------------------------------------------------------------- the code

  /** The rows of one project in the database. */
  class Database {
    var state: State
    var rows: seq<Row>

    constructor (initial: State)
      ensures state == initial && rows == []
    {
      state, rows := initial, [];
    }

    method GetState(works: bool) returns (s: Option<State>)
      ensures s == if works then Some(state) else None
    {
      s := if works then Some(state) else None;
    }

    method UpdateState(s: State)
      modifies this`state
      ensures state == s
    {
      state := s;
    }

    method InsertDeployment(row: Row, works: bool) returns (id: Option<nat>)
      modifies this`rows
      ensures if works then id == Some(|old(rows)|) && rows == old(rows) + [row] else id == None && rows == old(rows)
    {
      if !works {
        return None;
      }
      id := Some(|rows|);
      rows := rows + [row];
    }

    method FinishDeployment(id: nat, status: RowStatus)
      requires id < |rows|
      modifies this`rows
      ensures rows == old(rows)[id := old(rows)[id].(status := status)]
    {
      rows := rows[id := rows[id].(status := status)];
    }
  }

  method CopyDigestMap(m: Digests) returns (c: Digests)
    ensures c == m
  {
    c := map[];
    var left := m.Items;
    while left != {}
      invariant left <= m.Items
      invariant forall k | k in m :: (k, m[k]) in left || (k in c && c[k] == m[k])
      invariant forall k | k in c :: k in m && c[k] == m[k]
    {
      var item :| item in left;
      c := c[item.0 := item.1];
      left := left - {item};
    }
  }

  method BuildImageOverrides(p: Project, digests: Digests) returns (o: Option<map<string, Image>>)
    requires Distinct(p)
    ensures o == Overrides(p, digests)
    ensures o.Some? ==> PinsFor(p, digests, o.value)
    ensures o.None? <==> forall i | 0 <= i < |p.services| :: !Has(p, digests, i)
  {
    PinsUpToMean(p, digests, |p.services|);
    if digests == map[] {
      assert forall i | 0 <= i < |p.services| :: !Has(p, digests, i);
      NoPins(p, digests, |p.services|);
      return None;
    }
    var overrides: map<string, Image> := map[];
    for i := 0 to |p.services|
      invariant overrides == PinsUpTo(p, digests, i)
    {
      var svc := p.services[i];
      if svc.name in digests && digests[svc.name] != "" {
        overrides := overrides[svc.name := Pinned(svc.image, digests[svc.name])];
      }
    }
    if overrides == map[] {
      return None;
    }
    o := Some(overrides);
    assert exists n :: n in overrides;
  }

  lemma {:induction false} NoPins(p: Project, digests: Digests, k: nat)
    requires k <= |p.services| && forall i | 0 <= i < |p.services| :: !Has(p, digests, i)
    ensures PinsUpTo(p, digests, k) == map[]
  {
    if k > 0 {
      NoPins(p, digests, k - 1);
    }
  }

  class Deployer {
    const db: Database
    var locked: bool
    var stack: Stack

    constructor (d: Database, s: Stack)
      ensures db == d && stack == s && !locked
    {
      db, stack, locked := d, s, false;
    }

    function View(): Host
      reads this, db
    {
      Host(db.state, db.rows, stack)
    }

    method WriteComposeFiles(p: Project, overrides: Option<map<string, Image>>, o: Outcome) returns (ok: bool)
      requires overrides.Some? ==> overrides.value != map[]
      modifies this`stack
      ensures ok == o.Works? && stack == Written(old(stack), p, overrides, o)
    {
      if o.Fails? {
        stack := stack.(base := o.left.base, override := o.left.override);
        return false;
      }
      var base: map<string, Image> := map[];
      for i := 0 to |p.services|
        invariant base == BaseUpTo(p, i)
        invariant stack == old(stack)
      {
        var svc := p.services[i];
        base := base[svc.name := Tagged(svc.image, svc.tag)];
      }
      stack := stack.(base := base);
      if overrides.Some? {
        stack := stack.(override := overrides);
      } else {
        stack := stack.(override := None);
      }
      ok := true;
    }

    method Up(o: Outcome) returns (ok: bool)
      modifies this`stack
      ensures ok == o.Works? && stack == BroughtUp(old(stack), o)
    {
      stack := stack.(running := if o.Works? then Resolved(stack) else o.left.running);
      ok := o.Works?;
    }

    method ExecuteDeploy(p: Project, digests: Digests, o: Script) returns (ok: bool)
      requires Distinct(p)
      modifies this`stack
      ensures stack == Executed(old(stack), p, digests, o, true)
      ensures ok == (o.write.Works? && o.pull && o.up.Works?)
    {
      var overrides := BuildImageOverrides(p, digests);
      ok := WriteComposeFiles(p, overrides, o.write);
      if !ok || !o.pull {
        return false;
      }
      ok := Up(o.up);
    }

    method ExecuteRollback(p: Project, digests: Digests, o: Script) returns (ok: bool)
      requires Distinct(p)
      modifies this`stack
      ensures stack == if digests == map[] then old(stack) else Executed(old(stack), p, digests, o, false)
      ensures ok == (digests != map[] && Completes(o, false))
    {
      if digests == map[] {
        return false;
      }
      var overrides := BuildImageOverrides(p, digests);
      ok := WriteComposeFiles(p, overrides, o.write);
      if !ok {
        return;
      }
      ok := Up(o.up);
      if !ok {
        return;
      }
      ok := o.health;
    }

    method Deploy(p: Project, target: Digests, w: World) returns (ok: bool)
      requires Distinct(p)
      modifies this, db
      ensures locked == old(locked)
      ensures old(locked) ==> !ok && View() == old(View())
      ensures !old(locked) ==> View() == AfterDeploy(old(View()), p, target, w)
      ensures !old(locked) ==> ok == (w.read && w.insert && w.deploy.write.Works? && w.deploy.pull
                                      && w.deploy.up.Works? && w.deploy.health)
    {
      if locked {
        return false;
      }
      locked := true;
      ok := DeployLocked(p, target, w);
      locked := false;
    }

    method DeployLocked(p: Project, target: Digests, w: World) returns (ok: bool)
      requires Distinct(p) && locked
      modifies this`stack, db
      ensures View() == AfterDeploy(old(View()), p, target, w)
      ensures ok == (w.read && w.insert && Completes(w.deploy, true))
    {
      var found := db.GetState(w.read);
      if found.None? {
        return false;
      }
      var state := found.value;
      var from := CopyDigestMap(state.current);
      var to := CopyDigestMap(target);
      var id := db.InsertDeployment(Row(from, to, InProgress), w.insert);
      if id.None? {
        return false;
      }
      state := state.(status := Deploying, desired := to);
      db.UpdateState(state);
      ok := ExecuteDeploy(p, target, w.deploy);
      if ok {
        ok := w.deploy.health;
      }
      if !ok {
        Restore(id.value, state, p, w.rollback);
      } else {
        Commit(id.value, state, target);
      }
    }

    method Restore(id: nat, found: State, p: Project, o: Script)
      requires Distinct(p) && id < |db.rows|
      modifies this`stack, db
      ensures var works := found.current != map[] && Completes(o, false);
        && db.rows == old(db.rows)[id := old(db.rows)[id].(status := if works then RowRolledBack else RowFailed)]
        && db.state == found.(status := if works then RolledBack else Failed)
      ensures stack == if found.current == map[] then old(stack) else Executed(old(stack), p, found.current, o, false)
    {
      var state := found;
      db.FinishDeployment(id, RowFailed);
      var restored := ExecuteRollback(p, state.current, o);
      if !restored {
        state := state.(status := Failed);
      } else {
        state := state.(status := RolledBack);
        db.FinishDeployment(id, RowRolledBack);
      }
      db.UpdateState(state);
    }

    method Commit(id: nat, found: State, target: Digests)
      requires id < |db.rows|
      modifies db
      ensures db.rows == old(db.rows)[id := old(db.rows)[id].(status := Success)]
      ensures db.state == State(target, found.current, found.desired, Running)
    {
      db.FinishDeployment(id, Success);
      var previous := CopyDigestMap(found.current);
      var current := CopyDigestMap(target);
      db.UpdateState(found.(previous := previous, current := current, status := Running));
    }

    method ManualRollback(p: Project, w: World) returns (ok: bool)
      requires Distinct(p)
      modifies this, db
      ensures locked == old(locked)
      ensures old(locked) ==> !ok && View() == old(View())
      ensures !old(locked) ==> View() == AfterRollback(old(View()), p, w)
      ensures ok ==> Succeeded(old(View()), View())
      ensures ok == (!old(locked) && w.read && old(db.state.previous) != map[] && w.insert && w.deploy.write.Works?
                     && w.deploy.pull && w.deploy.up.Works? && w.deploy.health)
    {
      var state := db.GetState(w.read);
      if state.None? || state.value.previous == map[] {
        return false;
      }
      ok := Deploy(p, state.value.previous, w);
    }

    /** Writes the status into the row read before, if there was one. */
    method SetStatus(row: Option<State>, status: Status)
      modifies db`state
      ensures db.state == if row.Some? then row.value.(status := status) else old(db.state)
    {
      if row.Some? {
        db.UpdateState(row.value.(status := status));
      }
    }

    method Stop(found: bool, down: Outcome) returns (ok: bool)
      modifies this`stack, db`state
      ensures ok == down.Works? && View() == AfterStop(old(View()), found, down)
    {
      var row := db.GetState(found);
      SetStatus(row, Stopping);
      if down.Fails? {
        stack := stack.(running := down.left.running);
        SetStatus(row, Failed);
        return false;
      }
      stack := stack.(running := stack.running - Resolved(stack).Keys);
      SetStatus(row, Stopped);
      ok := true;
    }

    method Start(p: Project, found: bool, write: Outcome, up: Outcome) returns (ok: bool)
      modifies this`stack, db`state
      ensures ok == (write.Works? && up.Works?) && View() == AfterStart(old(View()), p, found, write, up)
    {
      var row := db.GetState(found);
      SetStatus(row, Starting);
      ok := WriteComposeFiles(p, None, write);
      if !ok {
        SetStatus(row, Failed);
        return;
      }
      if up.Fails? {
        stack := stack.(running := up.left.running);
        SetStatus(row, Failed);
        return false;
      }
      stack := stack.(running := stack.running + Resolved(stack));
      SetStatus(row, Running);
    }
  }
}
