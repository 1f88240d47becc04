/** The same project under concurrent callers, a crash at any moment and the startup reset.
    Deploys hold the project's lock; polls, starts and stops write the whole state row they
    read earlier without it. */
module DeployRaces {
  import opened Options
  import opened Deployments

  /** Where a goroutine stands, named after the last statement it completed. */
  datatype Pc =
    | Locked
    | Loaded(seen: State)
    | Logged(id: nat, seen: State)
    | Working(id: nat, seen: State)
    | RollingBack(id: nat, seen: State)
    | Restored(id: nat, seen: State)
    | Won(id: nat, seen: State)
    | Persisted(id: nat, verdict: Status)
    | Holding(seen: State)

  datatype Mode = Down | StatesReset | Serving

  /** `returned` remembers what each deploy that came back had persisted; it is never read. */
  datatype Sys = Sys(mode: Mode, state: State, rows: seq<Row>, lock: Option<int>, threads: map<int, Pc>,
                     returned: map<int, Status>)

  datatype Step =
    | TryLock(t: int)
    | Load(t: int)
    | Abandon(t: int)
    | Insert(t: int, target: Digests)
    | MarkDeploying(t: int)
    | FinishFailed(t: int)
    | FinishRolledBack(t: int)
    | FinishSuccess(t: int)
    | PersistFailed(t: int)
    | PersistRolledBack(t: int)
    | PersistSuccess(t: int)
    | Unlock(t: int)
    | Read(t: int)
    | Write(t: int, desired: Digests, status: Status)
    | Leave(t: int)
    | Crash
    | ResetStates
    | ResetRows

  predicate At(s: Sys, t: int) {
    s.mode == Serving && t in s.threads
  }

  predicate Enabled(s: Sys, e: Step) {
    match e
    case TryLock(t) => s.mode == Serving && t !in s.threads && s.lock == None
    case Load(t) => At(s, t) && s.threads[t].Locked?
    case Abandon(t) => At(s, t) && (s.threads[t].Locked? || s.threads[t].Loaded?)
    case Insert(t, _) => At(s, t) && s.threads[t].Loaded?
    case MarkDeploying(t) => At(s, t) && s.threads[t].Logged?
    case FinishFailed(t) => At(s, t) && s.threads[t].Working?
    case FinishRolledBack(t) => At(s, t) && s.threads[t].RollingBack?
    case FinishSuccess(t) => At(s, t) && s.threads[t].Working?
    case PersistFailed(t) => At(s, t) && s.threads[t].RollingBack?
    case PersistRolledBack(t) => At(s, t) && s.threads[t].Restored?
    case PersistSuccess(t) => At(s, t) && s.threads[t].Won?
    case Unlock(t) => At(s, t) && s.threads[t].Persisted?
    case Read(t) => s.mode == Serving && t !in s.threads
    case Write(t, _, status) => At(s, t) && s.threads[t].Holding?
      && (status == s.threads[t].seen.status || status in {Starting, Running, Stopping, Stopped, Failed})
    case Leave(t) => At(s, t) && s.threads[t].Holding?
    case Crash => true
    case ResetStates => s.mode == Down
    case ResetRows => s.mode == StatesReset
  }

  function Finish(rows: seq<Row>, id: nat, status: RowStatus): seq<Row> {
    if id < |rows| then rows[id := rows[id].(status := status)] else rows
  }

  function Reset(rows: seq<Row>): seq<Row> {
    seq(|rows|, i requires 0 <= i < |rows| =>
      if rows[i].status == InProgress then rows[i].(status := RowFailed) else rows[i])
  }

  function Goto(s: Sys, t: int, pc: Pc): Sys {
    s.(threads := s.threads[t := pc])
  }

  function Apply(s: Sys, e: Step): Sys
    requires Enabled(s, e)
  {
    match e
    case TryLock(t) => Goto(s, t, Locked).(lock := Some(t))
    case Load(t) => Goto(s, t, Loaded(s.state))
    case Abandon(t) => s.(threads := s.threads - {t}, lock := None)
    case Insert(t, target) =>
      var seen := s.threads[t].seen;
      Goto(s, t, Logged(|s.rows|, seen.(desired := target))).(rows := s.rows + [Row(seen.current, target, InProgress)])
    case MarkDeploying(t) =>
      var pc := s.threads[t];
      Goto(s, t, Working(pc.id, pc.seen)).(state := pc.seen.(status := Deploying))
    case FinishFailed(t) =>
      var pc := s.threads[t];
      Goto(s, t, RollingBack(pc.id, pc.seen)).(rows := Finish(s.rows, pc.id, RowFailed))
    case FinishRolledBack(t) =>
      var pc := s.threads[t];
      Goto(s, t, Restored(pc.id, pc.seen)).(rows := Finish(s.rows, pc.id, RowRolledBack))
    case FinishSuccess(t) =>
      var pc := s.threads[t];
      Goto(s, t, Won(pc.id, pc.seen)).(rows := Finish(s.rows, pc.id, Success))
    case PersistFailed(t) =>
      var pc := s.threads[t];
      Goto(s, t, Persisted(pc.id, Failed)).(state := pc.seen.(status := Failed))
    case PersistRolledBack(t) =>
      var pc := s.threads[t];
      Goto(s, t, Persisted(pc.id, RolledBack)).(state := pc.seen.(status := RolledBack))
    case PersistSuccess(t) =>
      var pc := s.threads[t];
      Goto(s, t, Persisted(pc.id, Running))
        .(state := State(pc.seen.desired, pc.seen.current, pc.seen.desired, Running))
    case Unlock(t) =>
      var pc := s.threads[t];
      s.(threads := s.threads - {t}, lock := None, returned := s.returned[pc.id := pc.verdict])
    case Read(t) => Goto(s, t, Holding(s.state))
    case Write(t, desired, status) =>
      var seen := s.threads[t].seen.(desired := desired, status := status);
      Goto(s, t, Holding(seen)).(state := seen)
    case Leave(t) => s.(threads := s.threads - {t})
    case Crash => s.(mode := Down, lock := None, threads := map[])
    case ResetStates =>
      s.(mode := StatesReset, state := if s.state.status == Deploying then s.state.(status := Failed) else s.state)
    case ResetRows => s.(mode := Serving, rows := Reset(s.rows))
  }

  // ---------------------------------------------------------------- invariant

  predicate Matches(row: RowStatus, verdict: Status) {
    || (row == Success && verdict == Running)
    || (row == RowFailed && verdict == Failed)
    || (row == RowRolledBack && verdict == RolledBack)
  }

  predicate HasRow(pc: Pc) {
    pc.Logged? || pc.Working? || pc.RollingBack? || pc.Restored? || pc.Won? || pc.Persisted?
  }

  /** The row a deploy owns stands as its program counter says. */
  predicate RowFits(pc: Pc, rows: seq<Row>) {
    HasRow(pc) ==>
      && pc.id < |rows|
      && match pc
         case Persisted(id, verdict) => Matches(rows[id].status, verdict)
         case RollingBack(id, _) => rows[id].status == RowFailed
         case Restored(id, _) => rows[id].status == RowRolledBack
         case Won(id, _) => rows[id].status == Success
         case _ => rows[pc.id].status == InProgress
  }

  predicate OwnsOpenRow(s: Sys, i: int) {
    s.lock.Some? && s.lock.value in s.threads
    && var pc := s.threads[s.lock.value]; (pc.Logged? || pc.Working?) && pc.id == i
  }

  ghost predicate LockInv(s: Sys) {
    && (forall t | t in s.threads && !s.threads[t].Holding? :: s.lock == Some(t))
    && (s.lock.Some? ==> s.lock.value in s.threads && !s.threads[s.lock.value].Holding?)
    && (s.mode != Serving ==> s.threads == map[] && s.lock == None)
  }

  ghost predicate RowInv(s: Sys) {
    && (forall i, j | 0 <= i < |s.rows| && 0 <= j < |s.rows| && s.rows[i].status == InProgress
          && s.rows[j].status == InProgress :: i == j)
    && (s.mode == Serving ==> forall i | 0 <= i < |s.rows| && s.rows[i].status == InProgress :: OwnsOpenRow(s, i))
    && (forall t | t in s.threads :: RowFits(s.threads[t], s.rows))
  }

  ghost predicate ReturnInv(s: Sys) {
    && (forall i | i in s.returned :: 0 <= i < |s.rows| && Matches(s.rows[i].status, s.returned[i]))
    && (forall t | t in s.threads && HasRow(s.threads[t]) :: s.threads[t].id !in s.returned)
  }

  ghost predicate Inv(s: Sys) {
    LockInv(s) && RowInv(s) && ReturnInv(s) && (s.mode == StatesReset ==> s.state.status != Deploying)
  }

  function Initial(state: State): Sys {
    Sys(Down, state, [], None, map[], map[])
  }

  lemma StepKeepsLock(s: Sys, e: Step)
    requires LockInv(s) && Enabled(s, e)
    ensures LockInv(Apply(s, e))
  {
  }

  /** The deploy that holds the lock finishes its row, once or, after a failure, twice. */
  lemma FinishKeepsRows(s: Sys, e: Step)
    requires LockInv(s) && RowInv(s) && Enabled(s, e) && (e.FinishFailed? || e.FinishRolledBack? || e.FinishSuccess?)
    ensures RowInv(Apply(s, e))
  {
    assert s.lock == Some(e.t);
    assert RowFits(s.threads[e.t], s.rows);
  }

  lemma InsertKeepsRows(s: Sys, e: Step)
    requires LockInv(s) && RowInv(s) && Enabled(s, e) && e.Insert?
    ensures RowInv(Apply(s, e))
  {
    assert s.lock == Some(e.t);
    assert forall i | 0 <= i < |s.rows| :: s.rows[i].status != InProgress;
  }

  lemma PersistKeepsRows(s: Sys, e: Step)
    requires LockInv(s) && RowInv(s) && Enabled(s, e)
    requires e.MarkDeploying? || e.PersistFailed? || e.PersistRolledBack? || e.PersistSuccess?
    ensures RowInv(Apply(s, e))
  {
    assert RowFits(s.threads[e.t], s.rows);
  }

  lemma StepKeepsRows(s: Sys, e: Step)
    requires LockInv(s) && RowInv(s) && Enabled(s, e)
    ensures RowInv(Apply(s, e))
  {
    if e.FinishFailed? || e.FinishRolledBack? || e.FinishSuccess? {
      FinishKeepsRows(s, e);
    } else if e.Insert? {
      InsertKeepsRows(s, e);
    } else if e.MarkDeploying? || e.PersistFailed? || e.PersistRolledBack? || e.PersistSuccess? {
      PersistKeepsRows(s, e);
    }
  }

  lemma FinishKeepsReturned(s: Sys, e: Step)
    requires LockInv(s) && RowInv(s) && ReturnInv(s) && Enabled(s, e)
    requires e.FinishFailed? || e.FinishRolledBack? || e.FinishSuccess? || e.Insert? || e.ResetRows?
    ensures ReturnInv(Apply(s, e))
  {
  }

  lemma StepKeepsReturned(s: Sys, e: Step)
    requires LockInv(s) && RowInv(s) && ReturnInv(s) && Enabled(s, e)
    ensures ReturnInv(Apply(s, e))
  {
    if e.FinishFailed? || e.FinishRolledBack? || e.FinishSuccess? || e.Insert? || e.ResetRows? {
      FinishKeepsReturned(s, e);
    }
  }

  lemma StepKeepsInv(s: Sys, e: Step)
    requires Inv(s) && Enabled(s, e)
    ensures Inv(Apply(s, e))
  {
    StepKeepsLock(s, e);
    StepKeepsRows(s, e);
    StepKeepsReturned(s, e);
  }

  /** What a deploy persists at its end is what it returns, and the digests move on only when it
      won. */
  lemma PersistsVerdict(s: Sys, e: Step)
    requires Enabled(s, e) && (e.PersistFailed? || e.PersistRolledBack? || e.PersistSuccess?)
    ensures var t, was := Apply(s, e), s.threads[e.t].seen;
      && e.t in t.threads && t.threads[e.t].Persisted? && t.state.status == t.threads[e.t].verdict
      && t.state.desired == was.desired && t.rows == s.rows
      && (if e.PersistSuccess? then t.state.current == was.desired && t.state.previous == was.current
          else t.state.current == was.current && t.state.previous == was.previous)
  {
  }

  /** While a deploy works the project reads as deploying. */
  lemma MarksDeploying(s: Sys, t: int)
    requires Enabled(s, MarkDeploying(t))
    ensures Apply(s, MarkDeploying(t)).state == s.threads[t].seen.(status := Deploying)
  {
  }

  // ---------------------------------------------------------------- runs

  ghost predicate Path(b: seq<Sys>, steps: seq<Step>) {
    && |b| == |steps| + 1
    && (forall i | 0 <= i < |steps| :: Enabled(b[i], steps[i]) && b[i + 1] == Apply(b[i], steps[i]))
  }

  /** A run of the server and its successors, from a database without deployments. */
  ghost predicate Behaviour(b: seq<Sys>, steps: seq<Step>) {
    Path(b, steps) && b[0] == Initial(b[0].state)
  }

  lemma {:induction false} BehaviourInv(b: seq<Sys>, steps: seq<Step>, i: nat)
    requires Behaviour(b, steps) && i < |b|
    ensures Inv(b[i])
  {
    if i > 0 {
      BehaviourInv(b, steps, i - 1);
      StepKeepsInv(b[i - 1], steps[i - 1]);
    }
  }

  /** At most one deployment of the project is ever in progress, and while the server is up it
      is the one the lock holder is working on. */
  lemma OneInProgress(b: seq<Sys>, steps: seq<Step>, i: nat, j: nat, k: nat)
    requires Behaviour(b, steps) && i < |b|
    requires j < |b[i].rows| && k < |b[i].rows|
    requires b[i].rows[j].status == InProgress && b[i].rows[k].status == InProgress
    ensures j == k && (b[i].mode == Serving ==> OwnsOpenRow(b[i], j))
  {
    BehaviourInv(b, steps, i);
  }

  /** The moves one step may make on one row. */
  predicate RowMove(before: Row, after: Row) {
    && before.from == after.from && before.to == after.to
    && (after.status == before.status
        || (before.status == InProgress && after.status in {Success, RowFailed})
        || (before.status == RowFailed && after.status == RowRolledBack))
  }

  lemma StepMovesRows(s: Sys, e: Step)
    requires Inv(s) && Enabled(s, e)
    ensures |s.rows| <= |Apply(s, e).rows| <= |s.rows| + 1
    ensures forall i | 0 <= i < |s.rows| :: RowMove(s.rows[i], Apply(s, e).rows[i])
    ensures |Apply(s, e).rows| > |s.rows| ==> Apply(s, e).rows[|s.rows|].status == InProgress
  {
  }

  /** What may become of a row in the long run: success and rolled_back are final, failed may
      only become rolled_back. */
  predicate RowFate(before: Row, after: Row) {
    && before.from == after.from && before.to == after.to
    && (after.status == before.status
        || before.status == InProgress
        || (before.status == RowFailed && after.status == RowRolledBack))
  }

  lemma {:induction false} RowsOnlyMoveForward(b: seq<Sys>, steps: seq<Step>, i: nat, j: nat, k: nat)
    requires Behaviour(b, steps) && i <= j < |b| && k < |b[i].rows|
    ensures k < |b[j].rows| && RowFate(b[i].rows[k], b[j].rows[k])
    decreases j
  {
    if i < j {
      RowsOnlyMoveForward(b, steps, i, j - 1, k);
      BehaviourInv(b, steps, j - 1);
      StepMovesRow(b[j - 1], steps[j - 1], b[i].rows[k], k);
    }
  }

  lemma StepMovesRow(s: Sys, e: Step, before: Row, k: nat)
    requires Inv(s) && Enabled(s, e) && k < |s.rows| && RowFate(before, s.rows[k])
    ensures k < |Apply(s, e).rows| && RowFate(before, Apply(s, e).rows[k])
  {
    StepMovesRows(s, e);
    assert RowMove(s.rows[k], Apply(s, e).rows[k]);
  }

  /** A deploy that came back left its row finished, with the status it had persisted, and no
      later call, crash or restart changes that. */
  lemma ReturnedStaysFinished(b: seq<Sys>, steps: seq<Step>, i: nat, j: nat, id: int)
    requires Behaviour(b, steps) && i <= j < |b| && id in b[i].returned
    ensures 0 <= id < |b[i].rows| <= |b[j].rows|
    ensures Matches(b[i].rows[id].status, b[i].returned[id]) && b[j].rows[id] == b[i].rows[id]
  {
    BehaviourInv(b, steps, i);
    BehaviourInv(b, steps, j);
    ReturnedGrows(b, steps, i, j, id);
    if |b[i].rows| > 0 {
      RowsOnlyMoveForward(b, steps, i, j, |b[i].rows| - 1);
    }
    RowsOnlyMoveForward(b, steps, i, j, id);
  }

  lemma {:induction false} ReturnedGrows(b: seq<Sys>, steps: seq<Step>, i: nat, j: nat, id: int)
    requires Behaviour(b, steps) && i <= j < |b| && id in b[i].returned
    ensures id in b[j].returned && b[j].returned[id] == b[i].returned[id]
    decreases j
  {
    hide Inv;
    if i < j {
      ReturnedGrows(b, steps, i, j - 1, id);
      BehaviourInv(b, steps, j - 1);
      StepKeepsVerdict(b[j - 1], steps[j - 1], id);
    }
  }

  lemma StepKeepsVerdict(s: Sys, e: Step, id: int)
    requires Inv(s) && Enabled(s, e) && id in s.returned
    ensures id in Apply(s, e).returned && Apply(s, e).returned[id] == s.returned[id]
  {
  }

  /** The end of a deploy: what it persisted is what its row says. */
  lemma ReturnMatches(s: Sys, t: int)
    requires Inv(s) && Enabled(s, Unlock(t))
    ensures var u := Apply(s, Unlock(t));
      && s.threads[t].id in u.returned
      && Matches(u.rows[s.threads[t].id].status, u.returned[s.threads[t].id])
      && u.lock == None && t !in u.threads
  {
    StepKeepsInv(s, Unlock(t));
  }

  /** After the startup reset nothing is in progress and the project is not deploying; finished
      rows and every other status, `starting` and `stopping` included, are left as they were. */
  lemma StartupIsClean(s: Sys)
    requires Enabled(s, ResetStates)
    ensures var u := Apply(Apply(s, ResetStates), ResetRows);
      && u.mode == Serving && |u.rows| == |s.rows|
      && (forall i | 0 <= i < |s.rows| ::
            u.rows[i] == if s.rows[i].status == InProgress then s.rows[i].(status := RowFailed) else s.rows[i])
      && u.state == (if s.state.status == Deploying then s.state.(status := Failed) else s.state)
      && u.state.status != Deploying
      && forall i | 0 <= i < |u.rows| :: u.rows[i].status != InProgress
  {
  }

  // ---------------------------------------------------------------- the digest history under concurrency

  /** The write puts back the digests that are there. */
  predicate Fresh(s: Sys, e: Step) {
    e.Write? && At(s, e.t) && s.threads[e.t].Holding? ==>
      s.threads[e.t].seen.current == s.state.current && s.threads[e.t].seen.previous == s.state.previous
  }

  predicate Holder(s: Sys) {
    s.lock.Some? && s.lock.value in s.threads
  }

  /** The digests the log calls for; between the finished row and the state row they lag. */
  ghost predicate History(s: Sys) {
    && (forall i | 0 <= i < |s.rows| :: s.rows[i].from == LastTo(s.rows[..i]))
    && (if Holder(s) && s.threads[s.lock.value].Won? then
          && s.threads[s.lock.value].id == |s.rows| - 1
          && s.threads[s.lock.value].seen.desired == s.rows[|s.rows| - 1].to
          && s.state.current == LastTo(s.rows[..|s.rows| - 1])
          && s.state.previous == LastFrom(s.rows[..|s.rows| - 1])
        else
          s.state.current == LastTo(s.rows) && s.state.previous == LastFrom(s.rows))
    && (Holder(s) && HasRow(s.threads[s.lock.value]) ==> s.threads[s.lock.value].id == |s.rows| - 1)
    && (Holder(s) && HasRow(s.threads[s.lock.value]) && !s.threads[s.lock.value].Persisted? ==>
          s.threads[s.lock.value].seen.desired == s.rows[|s.rows| - 1].to)
    && (Holder(s) && !s.threads[s.lock.value].Locked?
        && !s.threads[s.lock.value].Persisted? && !s.threads[s.lock.value].Holding? ==>
          s.threads[s.lock.value].seen.current == s.state.current
          && s.threads[s.lock.value].seen.previous == s.state.previous)
  }

  predicate Serves(e: Step) {
    !e.Crash? && !e.ResetStates? && !e.ResetRows?
  }

  lemma LastOfFinished(rows: seq<Row>, status: RowStatus)
    requires rows != [] && rows[|rows| - 1].status != Success
    ensures var t := Finish(rows, |rows| - 1, status);
      && t[..|rows| - 1] == rows[..|rows| - 1]
      && LastTo(rows) == LastTo(rows[..|rows| - 1]) && LastFrom(rows) == LastFrom(rows[..|rows| - 1])
      && (status != Success ==> LastTo(t) == LastTo(rows) && LastFrom(t) == LastFrom(rows))
      && (forall i | 0 <= i < |rows| :: t[..i] == rows[..i])
  {
    var t := Finish(rows, |rows| - 1, status);
    assert t[..|rows| - 1] == rows[..|rows| - 1];
  }

  /** A deploy that has begun holds the lock and its row stands as it should. */
  predicate Underway(s: Sys, t: int) {
    At(s, t) && s.lock == Some(t) && RowFits(s.threads[t], s.rows)
  }

  lemma InvHolds(s: Sys, t: int)
    requires Inv(s) && At(s, t) && !s.threads[t].Holding?
    ensures Underway(s, t)
  {
  }

  lemma FinishKeepsHistory(s: Sys, t: int, e: Step)
    requires Underway(s, t) && History(s) && Enabled(s, e)
    requires e in {FinishFailed(t), FinishRolledBack(t), FinishSuccess(t)}
    ensures History(Apply(s, e))
  {
    hide LastTo, LastFrom;
    var status := if e.FinishFailed? then RowFailed else if e.FinishRolledBack? then RowRolledBack else Success;
    assert s.threads[t].id == |s.rows| - 1;
    LastOfFinished(s.rows, status);
  }

  lemma InsertKeepsHistory(s: Sys, t: int, target: Digests)
    requires Underway(s, t) && History(s) && Enabled(s, Insert(t, target))
    ensures History(Apply(s, Insert(t, target)))
  {
    var u := Apply(s, Insert(t, target));
    assert u.rows[..|s.rows|] == s.rows;
    forall i | 0 <= i < |u.rows| ensures u.rows[i].from == LastTo(u.rows[..i]) {
      assert u.rows[..i] == s.rows[..i];
    }
  }

  lemma PersistKeepsHistory(s: Sys, t: int, e: Step)
    requires Underway(s, t) && History(s) && Enabled(s, e)
    requires e in {MarkDeploying(t), PersistFailed(t), PersistRolledBack(t)}
    ensures History(Apply(s, e))
  {
    hide LastTo, LastFrom;
  }

  lemma CommitKeepsHistory(s: Sys, t: int)
    requires Underway(s, t) && History(s) && Enabled(s, PersistSuccess(t))
    ensures History(Apply(s, PersistSuccess(t)))
  {
  }

  lemma LockKeepsHistory(s: Sys, t: int, e: Step)
    requires LockInv(s) && History(s) && Enabled(s, e)
    requires e in {TryLock(t), Load(t), Abandon(t), Unlock(t)}
    ensures History(Apply(s, e))
  {
  }

  lemma OutsiderKeepsHistory(s: Sys, t: int, e: Step)
    requires LockInv(s) && History(s) && Enabled(s, e) && Fresh(s, e)
    requires e == Read(t) || e == Leave(t) || (e.Write? && e.t == t)
    ensures History(Apply(s, e))
  {
    assert e != Read(t) ==> s.lock != Some(t);
  }

  /** Concurrent callers keep the digest history as long as no writer without the lock puts
      back digests a deploy has replaced since it read them. */
  lemma StepKeepsHistory(s: Sys, e: Step)
    requires Inv(s) && History(s) && Enabled(s, e) && Serves(e) && Fresh(s, e)
    ensures History(Apply(s, e))
  {
    hide History, Underway;
    if e.Insert? {
      InvHolds(s, e.t);
      InsertKeepsHistory(s, e.t, e.target);
    } else if e.FinishFailed? || e.FinishRolledBack? || e.FinishSuccess? {
      InvHolds(s, e.t);
      FinishKeepsHistory(s, e.t, e);
    } else if e.MarkDeploying? || e.PersistFailed? || e.PersistRolledBack? {
      InvHolds(s, e.t);
      PersistKeepsHistory(s, e.t, e);
    } else if e.PersistSuccess? {
      InvHolds(s, e.t);
      CommitKeepsHistory(s, e.t);
    } else if e.Read? || e.Write? || e.Leave? {
      OutsiderKeepsHistory(s, e.t, e);
    } else {
      LockKeepsHistory(s, e.t, e);
    }
  }

  // ---------------------------------------------------------------- crashes and restarts

  /** The row says success and the state row does not know yet. */
  predicate Committing(s: Sys) {
    Holder(s) && s.threads[s.lock.value].Won?
  }

  lemma CrashKeepsHistory(s: Sys)
    requires History(s) && !Committing(s)
    ensures History(Apply(s, Crash))
  {
  }

  lemma ResetFront(rows: seq<Row>, i: nat)
    requires i <= |rows|
    ensures Reset(rows)[..i] == Reset(rows[..i])
  {
  }

  lemma {:induction false} ResetKeepsLast(rows: seq<Row>)
    ensures LastTo(Reset(rows)) == LastTo(rows) && LastFrom(Reset(rows)) == LastFrom(rows)
  {
    if rows != [] {
      ResetKeepsLast(rows[..|rows| - 1]);
      ResetFront(rows, |rows| - 1);
    }
  }

  lemma ResetKeepsHistory(s: Sys, e: Step)
    requires LockInv(s) && History(s) && Enabled(s, e) && (e.ResetStates? || e.ResetRows?)
    ensures History(Apply(s, e))
  {
    if e.ResetRows? {
      var rows := Reset(s.rows);
      ResetKeepsLast(s.rows);
      forall i | 0 <= i < |rows| ensures rows[i].from == LastTo(rows[..i]) {
        ResetFront(s.rows, i);
        ResetKeepsLast(s.rows[..i]);
      }
    }
  }

  // ---------------------------------------------------------------- schedules

  /** The hold that thread t has before step j began with the read at step i. */
  ghost predicate HeldSince(steps: seq<Step>, i: nat, j: nat, t: int) {
    && i < j <= |steps| && steps[i] == Read(t)
    && forall k | i < k < j :: steps[k] != Leave(t) && steps[k] != Crash
  }

  ghost predicate NoCommit(steps: seq<Step>, i: nat, j: nat)
    requires j <= |steps|
  {
    forall k | i < k < j :: !steps[k].PersistSuccess?
  }

  /** No deploy records its digests between a read and a write that rests on it. */
  ghost predicate NoOverlap(steps: seq<Step>) {
    forall i, j | 0 <= i < j < |steps| && steps[j].Write? && HeldSince(steps, i, j, steps[j].t) ::
      NoCommit(steps, i, j)
  }

  /** No crash falls between a deploy's last two statements. */
  ghost predicate NoCutCommit(b: seq<Sys>, steps: seq<Step>)
    requires |b| == |steps| + 1
  {
    forall k | 0 <= k < |steps| && steps[k].Crash? :: !Committing(b[k])
  }

  predicate SameDigests(a: State, b: State) {
    a.current == b.current && a.previous == b.previous
  }

  /** Every held row was read at some step, and is still right unless a deploy committed since. */
  ghost predicate HeldRight(s: Sys, steps: seq<Step>, n: nat, t: int)
    requires n <= |steps|
  {
    t in s.threads && s.threads[t].Holding? ==>
      exists i :: 0 <= i < n && HeldSince(steps, i, n, t)
        && (NoCommit(steps, i, n) ==> SameDigests(s.threads[t].seen, s.state))
  }

  ghost predicate AllHeldRight(s: Sys, steps: seq<Step>, n: nat)
    requires n <= |steps|
  {
    forall t | t in s.threads :: HeldRight(s, steps, n, t)
  }

  lemma DigestsStay(s: Sys, e: Step)
    requires Inv(s) && History(s) && Enabled(s, e) && Fresh(s, e) && !e.PersistSuccess?
    ensures SameDigests(Apply(s, e).state, s.state)
  {
    if e.MarkDeploying? || e.PersistFailed? || e.PersistRolledBack? {
      InvHolds(s, e.t);
    }
  }

  lemma HoldStays(s: Sys, e: Step, t: int)
    requires Enabled(s, e) && t in Apply(s, e).threads && Apply(s, e).threads[t].Holding? && e != Read(t)
    ensures t in s.threads && s.threads[t].Holding? && e != Leave(t) && e != Crash
    ensures SameDigests(Apply(s, e).threads[t].seen, s.threads[t].seen)
  {
  }

  lemma HeldRightLonger(s: Sys, u: Sys, steps: seq<Step>, n: nat, t: int)
    requires n < |steps| && HeldRight(s, steps, n, t) && t in s.threads && s.threads[t].Holding?
    requires steps[n] != Leave(t) && steps[n] != Crash
    requires !steps[n].PersistSuccess? ==> SameDigests(u.state, s.state)
    requires t in u.threads && u.threads[t].Holding? && SameDigests(u.threads[t].seen, s.threads[t].seen)
    ensures HeldRight(u, steps, n + 1, t)
  {
    var i :| 0 <= i < n && HeldSince(steps, i, n, t)
             && (NoCommit(steps, i, n) ==> SameDigests(s.threads[t].seen, s.state));
    assert HeldSince(steps, i, n + 1, t);
    if NoCommit(steps, i, n + 1) {
      assert !steps[n].PersistSuccess?;
      assert NoCommit(steps, i, n);
    }
  }

  lemma HeldRightNext(s: Sys, steps: seq<Step>, n: nat, t: int)
    requires n < |steps| && Inv(s) && History(s) && Enabled(s, steps[n]) && Fresh(s, steps[n])
    requires HeldRight(s, steps, n, t)
    ensures HeldRight(Apply(s, steps[n]), steps, n + 1, t)
  {
    hide Inv, History, Fresh;
    var e := steps[n];
    var u := Apply(s, e);
    if t in u.threads && u.threads[t].Holding? {
      if e == Read(t) {
        assert HeldSince(steps, n, n + 1, t);
      } else {
        HoldStays(s, e, t);
        if !e.PersistSuccess? {
          DigestsStay(s, e);
        }
        HeldRightLonger(s, u, steps, n, t);
      }
    }
  }

  lemma WriteIsFresh(s: Sys, steps: seq<Step>, n: nat)
    requires n < |steps| && NoOverlap(steps) && AllHeldRight(s, steps, n)
    ensures Fresh(s, steps[n])
  {
    var e := steps[n];
    if e.Write? && At(s, e.t) && s.threads[e.t].Holding? {
      assert HeldRight(s, steps, n, e.t);
      var i :| 0 <= i < n && HeldSince(steps, i, n, e.t)
               && (NoCommit(steps, i, n) ==> SameDigests(s.threads[e.t].seen, s.state));
      assert NoCommit(steps, i, n);
    }
  }

  lemma AnyStepKeepsHistory(s: Sys, e: Step)
    requires Inv(s) && History(s) && Enabled(s, e) && Fresh(s, e) && (e.Crash? ==> !Committing(s))
    ensures History(Apply(s, e))
  {
    hide Inv, History;
    if e.Crash? {
      CrashKeepsHistory(s);
    } else if e.ResetStates? || e.ResetRows? {
      InvHasLock(s);
      ResetKeepsHistory(s, e);
    } else {
      StepKeepsHistory(s, e);
    }
  }

  /** The same from any state: as long as every write puts back the digests that are there. */
  lemma {:induction false} HistoryUnderFreshWrites(b: seq<Sys>, steps: seq<Step>, n: nat)
    requires Path(b, steps) && NoCutCommit(b, steps) && n < |b| && Inv(b[0]) && History(b[0])
    requires forall k | 0 <= k < |steps| :: Fresh(b[k], steps[k])
    ensures Inv(b[n]) && History(b[n])
  {
    hide Inv, History, Fresh;
    if n > 0 {
      HistoryUnderFreshWrites(b, steps, n - 1);
      assert steps[n - 1].Crash? ==> !Committing(b[n - 1]);
      AnyStepKeepsHistory(b[n - 1], steps[n - 1]);
      StepKeepsInv(b[n - 1], steps[n - 1]);
    }
  }

  lemma InvHasLock(s: Sys)
    requires Inv(s)
    ensures LockInv(s)
  {
  }

  lemma StepAt(b: seq<Sys>, steps: seq<Step>, k: nat)
    requires Behaviour(b, steps) && NoCutCommit(b, steps) && k < |steps|
    ensures Inv(b[k]) && Enabled(b[k], steps[k]) && b[k + 1] == Apply(b[k], steps[k])
    ensures steps[k].Crash? ==> !Committing(b[k])
  {
    BehaviourInv(b, steps, k);
  }

  lemma {:induction false} HistoryAndHolds(b: seq<Sys>, steps: seq<Step>, n: nat)
    requires Behaviour(b, steps) && n < |b| == |steps| + 1
    requires b[0].state.current == map[] && b[0].state.previous == map[]
    requires NoOverlap(steps) && NoCutCommit(b, steps)
    ensures History(b[n]) && AllHeldRight(b[n], steps, n)
  {
    hide Path, NoOverlap, NoCutCommit, Inv, History, AllHeldRight, Fresh;
    if n == 0 {
      InitialHistory(b[0], steps);
    } else {
      HistoryAndHolds(b, steps, n - 1);
      StepAt(b, steps, n - 1);
      WriteIsFresh(b[n - 1], steps, n - 1);
      OneMoreStep(b[n - 1], steps, n - 1);
    }
  }

  lemma InitialHistory(s: Sys, steps: seq<Step>)
    requires s == Initial(s.state) && s.state.current == map[] && s.state.previous == map[]
    ensures History(s) && AllHeldRight(s, steps, 0)
  {
  }

  lemma NotThere(s: Sys, steps: seq<Step>, n: nat, t: int)
    requires n <= |steps| && t !in s.threads
    ensures HeldRight(s, steps, n, t)
  {
  }

  lemma OneMoreStep(s: Sys, steps: seq<Step>, n: nat)
    requires n < |steps| && Inv(s) && History(s) && Enabled(s, steps[n]) && Fresh(s, steps[n])
    requires (steps[n].Crash? ==> !Committing(s)) && AllHeldRight(s, steps, n)
    ensures var u := Apply(s, steps[n]); History(u) && AllHeldRight(u, steps, n + 1)
  {
    hide Inv, History, HeldRight;
    AnyStepKeepsHistory(s, steps[n]);
    var u := Apply(s, steps[n]);
    forall t | t in u.threads ensures HeldRight(u, steps, n + 1, t) {
      if t !in s.threads {
        NotThere(s, steps, n, t);
      }
      HeldRightNext(s, steps, n, t);
    }
  }

  /** From an empty database, over every interleaving, crash and restart: the log explains the
      recorded digests at every moment, as long as no deploy records its digests between a poll's,
      start's or stop's read and write, and no crash falls between a deploy's last two statements. */
  lemma HistoryUnlessOverlap(b: seq<Sys>, steps: seq<Step>, n: nat)
    requires Behaviour(b, steps) && n < |b| && b[0].state.current == map[] && b[0].state.previous == map[]
    requires NoOverlap(steps) && NoCutCommit(b, steps)
    ensures History(b[n])
  {
    HistoryAndHolds(b, steps, n);
  }

  /** The second condition cannot be dropped: a crash there leaves a success row whose digests the
      state row does not have, unless it had them before. */
  lemma CutCommitLosesDigests(s: Sys, t: int)
    requires Inv(s) && History(s) && At(s, t) && s.threads[t].Won?
    ensures History(Apply(s, Crash)) <==>
      s.rows[|s.rows| - 1].to == s.state.current && s.rows[|s.rows| - 1].from == s.state.previous
  {
    hide Inv;
    InvHolds(s, t);
  }

  // ---------------------------------------------------------------- a race the code allows

  function Opening(t: int, target: Digests): seq<Step> {
    [TryLock(t), Load(t), Insert(t, target), MarkDeploying(t)]
  }

  function Closing(t: int): seq<Step> {
    [FinishSuccess(t), PersistSuccess(t), Unlock(t)]
  }

  lemma OpeningRuns(s: Sys, t: int, target: Digests) returns (b: seq<Sys>)
    requires s.mode == Serving && s.lock == None && t !in s.threads
    ensures Path(b, Opening(t, target)) && b[0] == s
    ensures b[4] == s.(state := b[4].state, rows := b[4].rows, lock := Some(t),
                       threads := s.threads[t := Working(|s.rows|, s.state.(desired := target))])
    ensures b[4].rows == s.rows + [Row(s.state.current, target, InProgress)]
  {
    var steps := Opening(t, target);
    var s1 := Apply(s, steps[0]);
    var s2 := Apply(s1, steps[1]);
    var s3 := Apply(s2, steps[2]);
    b := [s, s1, s2, s3, Apply(s3, steps[3])];
  }

  lemma ClosingRuns(s: Sys, t: int) returns (b: seq<Sys>)
    requires At(s, t) && s.threads[t].Working?
    ensures Path(b, Closing(t)) && b[0] == s
    ensures var seen := s.threads[t].seen; b[3].state == State(seen.desired, seen.current, seen.desired, Running)
    ensures b[3].mode == Serving && b[3].lock == None && b[3].threads == s.threads - {t}
    ensures b[3].rows == Finish(s.rows, s.threads[t].id, Success)
  {
    var steps := Closing(t);
    var s1 := Apply(s, steps[0]);
    var s2 := Apply(s1, steps[1]);
    b := [s, s1, s2, Apply(s2, steps[2])];
  }

  /** A whole successful deploy by t. */
  function DeployBy(t: int, target: Digests): seq<Step> {
    Opening(t, target) + Closing(t)
  }

  lemma DeployRuns(s: Sys, t: int, target: Digests) returns (b: seq<Sys>)
    requires s.mode == Serving && s.lock == None && t !in s.threads
    ensures Path(b, DeployBy(t, target)) && b[0] == s
    ensures b[7].state == State(target, s.state.current, target, Running)
    ensures b[7].mode == Serving && b[7].lock == None && b[7].threads == s.threads && LastTo(b[7].rows) == target
  {
    var x := OpeningRuns(s, t, target);
    var y := ClosingRuns(x[4], t);
    b := x + y[1..];
    var steps := DeployBy(t, target);
    forall i | 0 <= i < |steps| ensures Enabled(b[i], steps[i]) && b[i + 1] == Apply(b[i], steps[i]) {
      if i < 4 {
        assert b[i] == x[i] && steps[i] == Opening(t, target)[i] && b[i + 1] == x[i + 1];
      } else {
        assert b[i] == y[i - 4] && steps[i] == Closing(t)[i - 4] && b[i + 1] == y[i - 3];
      }
    }
    assert b[7] == y[3];
  }

  /** A poll that read the row before a deploy and writes it afterwards puts the old digests and
      the old status back, whatever they were, even `deploying`. */
  lemma StaleWriteUndoesDeploy(s: Sys, t: int, poll: int, target: Digests) returns (b: seq<Sys>, steps: seq<Step>)
    requires s.mode == Serving && s.lock == None && t !in s.threads
    requires poll in s.threads && s.threads[poll].Holding?
    ensures Path(b, steps) && b[0] == s && |steps| == 8
    ensures b[7].state.current == target && b[7].state.status == Running
    ensures b[8].state == s.threads[poll].seen && b[8].lock == None
    ensures LastTo(b[8].rows) == target
    ensures s.threads[poll].seen.current != target ==> !History(b[8])
  {
    var run := DeployRuns(s, t, target);
    var seen := s.threads[poll].seen;
    var e := Write(poll, seen.desired, seen.status);
    steps := DeployBy(t, target) + [e];
    b := run + [Apply(run[7], e)];
    forall i | 0 <= i < |steps| ensures Enabled(b[i], steps[i]) && b[i + 1] == Apply(b[i], steps[i]) {
      if i < 7 {
        assert b[i] == run[i] && steps[i] == DeployBy(t, target)[i] && b[i + 1] == run[i + 1];
      }
    }
  }

  // ---------------------------------------------------------------- one deploy alone

  /** The steps of a deploy that nobody interferes with, for each way it can end. */
  function Alone(t: int, target: Digests, verdict: RowStatus): seq<Step> {
    match verdict
    case Success => Opening(t, target) + [FinishSuccess(t), PersistSuccess(t), Unlock(t)]
    case RowRolledBack => Opening(t, target) + [FinishFailed(t), FinishRolledBack(t), PersistRolledBack(t), Unlock(t)]
    case _ => Opening(t, target) + [FinishFailed(t), PersistFailed(t), Unlock(t)]
  }

  ghost function After(s: Sys, steps: seq<Step>): Option<Sys>
    decreases |steps|
  {
    if steps == [] then Some(s)
    else if Enabled(s, steps[0]) then After(Apply(s, steps[0]), steps[1..]) else None
  }

  lemma AfterOne(s: Sys, e: Step, rest: seq<Step>)
    requires Enabled(s, e)
    ensures After(s, [e] + rest) == After(Apply(s, e), rest)
  {
    assert ([e] + rest)[1..] == rest;
  }

  lemma AfterOpening(s: Sys, t: int, target: Digests, rest: seq<Step>) returns (w: Sys)
    requires s.mode == Serving && s.lock == None && t !in s.threads
    ensures After(s, Opening(t, target) + rest) == After(w, rest)
    ensures w == s.(state := s.state.(desired := target, status := Deploying),
                    rows := s.rows + [Row(s.state.current, target, InProgress)], lock := Some(t),
                    threads := s.threads[t := Working(|s.rows|, s.state.(desired := target))])
  {
    var b := OpeningRuns(s, t, target);
    var steps := Opening(t, target);
    w := b[4];
    assert b[4] == Apply(b[3], MarkDeploying(t));
    AfterOne(b[3], steps[3], rest);
    AfterOne(b[2], steps[2], [steps[3]] + rest);
    AfterOne(b[1], steps[1], [steps[2]] + ([steps[3]] + rest));
    AfterOne(b[0], steps[0], [steps[1]] + ([steps[2]] + ([steps[3]] + rest)));
    assert [steps[0]] + ([steps[1]] + ([steps[2]] + ([steps[3]] + rest))) == steps + rest;
    assert w.threads[t] == Working(|s.rows|, s.state.(desired := target));
  }

  /** Alone, the steps do to the state row and the log what the serial deploy does, for each way it
      can end, and free the lock. */
  lemma AloneIsDeploy(s: Sys, t: int, p: Project, target: Digests, w: World, stack: Stack)
    requires s.mode == Serving && s.lock == None && t !in s.threads && w.read && w.insert
    ensures var h := Host(s.state, s.rows, stack); var g := AfterDeploy(h, p, target, w);
      var u := After(s, Alone(t, target, Verdict(h, w)));
      u.Some? && u.value.state == g.state && u.value.rows == g.rows && u.value.lock == None && t !in u.value.threads
  {
    hide After, AfterDeploy, Verdict, Apply, Enabled;
    var h := Host(s.state, s.rows, stack);
    DeployRow(h, p, target, w);
    var seen := s.state.(desired := target);
    if Verdict(h, w) == Success {
      var working := AfterOpening(s, t, target, [FinishSuccess(t), PersistSuccess(t), Unlock(t)]);
      AloneWins(working, t, |s.rows|, seen);
    } else if Verdict(h, w) == RowRolledBack {
      var rest := [FinishFailed(t), FinishRolledBack(t), PersistRolledBack(t), Unlock(t)];
      var working := AfterOpening(s, t, target, rest);
      AloneRollsBack(working, t, |s.rows|, seen);
    } else {
      var working := AfterOpening(s, t, target, [FinishFailed(t), PersistFailed(t), Unlock(t)]);
      AloneFails(working, t, |s.rows|, seen);
    }
  }

  /** The thread is through, with its row and the state row as they are to be. */
  ghost predicate Ended(u: Option<Sys>, t: int, state: State, rows: seq<Row>) {
    u.Some? && u.value.state == state && u.value.rows == rows && u.value.lock == None && t !in u.value.threads
  }

  predicate AtWork(s: Sys, t: int, id: nat, seen: State) {
    At(s, t) && s.threads[t] == Pc.Working(id, seen) && id < |s.rows|
  }

  lemma AloneWins(s: Sys, t: int, id: nat, seen: State)
    requires AtWork(s, t, id, seen)
    ensures Ended(After(s, [FinishSuccess(t), PersistSuccess(t), Unlock(t)]), t,
                  State(seen.desired, seen.current, seen.desired, Running),
                  s.rows[id := s.rows[id].(status := Success)])
  {
    hide After;
    AfterThree(s, FinishSuccess(t), PersistSuccess(t), Unlock(t));
  }

  lemma AloneFails(s: Sys, t: int, id: nat, seen: State)
    requires AtWork(s, t, id, seen)
    ensures Ended(After(s, [FinishFailed(t), PersistFailed(t), Unlock(t)]), t,
                  seen.(status := Failed), s.rows[id := s.rows[id].(status := RowFailed)])
  {
    hide After;
    AfterThree(s, FinishFailed(t), PersistFailed(t), Unlock(t));
  }

  lemma AloneRollsBack(s: Sys, t: int, id: nat, seen: State)
    requires AtWork(s, t, id, seen)
    ensures Ended(After(s, [FinishFailed(t), FinishRolledBack(t), PersistRolledBack(t), Unlock(t)]), t,
                  seen.(status := RolledBack), s.rows[id := s.rows[id].(status := RowRolledBack)])
  {
    hide After;
    var rest := [FinishRolledBack(t), PersistRolledBack(t), Unlock(t)];
    AfterOne(s, FinishFailed(t), rest);
    assert [FinishFailed(t)] + rest == [FinishFailed(t), FinishRolledBack(t), PersistRolledBack(t), Unlock(t)];
    AfterThree(Apply(s, FinishFailed(t)), FinishRolledBack(t), PersistRolledBack(t), Unlock(t));
  }

  lemma AfterThree(s: Sys, a: Step, b: Step, c: Step)
    requires Enabled(s, a) && Enabled(Apply(s, a), b) && Enabled(Apply(Apply(s, a), b), c)
    ensures After(s, [a, b, c]) == Some(Apply(Apply(Apply(s, a), b), c))
  {
    var u := Apply(Apply(s, a), b);
    AfterOne(u, c, []);
    AfterOne(Apply(s, a), b, [c]);
    AfterOne(s, a, [b, c]);
    assert [a] + [b, c] == [a, b, c] && [b] + [c] == [b, c] && [c] + [] == [c];
  }

  lemma DeployRow(h: Host, p: Project, target: Digests, w: World)
    requires w.read && w.insert
    ensures var g := AfterDeploy(h, p, target, w);
      && g.rows == h.rows + [Row(h.state.current, target, Verdict(h, w))]
      && Verdict(h, w) != InProgress
      && g.state == (match Verdict(h, w)
                     case Success => State(target, h.state.current, target, Running)
                     case RowRolledBack => h.state.(desired := target, status := RolledBack)
                     case _ => h.state.(desired := target, status := Failed))
  {
  }
}
