/** The export script on the source host, step by step: fill a staging directory, list its
    checksums, mark it complete, rename it into ready/, prune ready/. */
module SnapshotSource {
  import opened SnapshotFs

  type Files = map<Name, Content>

  datatype Phase =
    | Idle
    | Filling(run: RunId)
    | Summed(run: RunId)
    | Completed(run: RunId)
    | Pruning
    | Removing(victim: RunId)

  datatype Source = Source(keep: int, ready: map<RunId, Files>, staging: map<RunId, Files>,
                           failed: map<RunId, Files>, phase: Phase)

  datatype Step =
    | Begin(run: RunId)
    | Put(path: string, data: Content)   // backups, configuration, hooks: any change to the payload
    | Drop(path: string)
    | Sum
    | Complete
    | Publish
    | BeginRemove(victim: RunId)
    | RemoveFile(name: Name)
    | RemoveDir
    | Done
    | Abort
    | Crash

  /** What `find ... | xargs sha256sum` lists: every file but the list and the marker. */
  function ManifestOf(f: Files): map<Name, Digest> {
    map n | n in f && n != Name.Sums && n != Name.Complete :: Digest(f[n])
  }

  /** Marked complete, with a checksum list covering exactly its other files as they are now. */
  predicate Sealed(f: Files) {
    && Name.Complete in f && f[Name.Complete] == Blob("complete\n") && Name.Sums in f
    && f[Name.Sums] == Manifest(ManifestOf(f)) && ManifestOf(f) != map[]
  }

  /** The marker is there, and the list names exactly the other files, with their checksums. */
  ghost predicate Covered(f: Files) {
    && Name.Complete in f && f[Name.Complete] == Blob("complete\n")
    && Name.Sums in f && f[Name.Sums].Manifest? && f[Name.Sums].sums != map[]
    && forall n :: (n in f[Name.Sums].sums <==> n in f && n != Name.Sums && n != Name.Complete)
                   && (n in f[Name.Sums].sums ==> f[Name.Sums].sums[n] == Digest(f[n]))
  }

  function NewerReady(s: Source, r: RunId): set<RunId> {
    set q | q in s.ready && r < q
  }

  predicate Excess(s: Source, v: RunId) {
    v in s.ready && (forall q | q in s.ready :: v <= q) && |s.ready| > s.keep
  }

  predicate Enabled(s: Source, step: Step) {
    match step
    case Begin(run) => s.phase.Idle? && run !in s.staging && run !in s.ready && run !in s.failed
    case Put(_, _) => s.phase.Filling? && s.phase.run in s.staging
    case Drop(_) => s.phase.Filling? && s.phase.run in s.staging
    case Sum => s.phase.Filling? && s.phase.run in s.staging && ManifestOf(s.staging[s.phase.run]) != map[]
    case Complete => s.phase.Summed? && s.phase.run in s.staging
    case Publish => s.phase.Completed? && s.phase.run in s.staging && s.phase.run !in s.ready
    case BeginRemove(v) => s.phase.Pruning? && Excess(s, v)
    case RemoveFile(n) => s.phase.Removing? && s.phase.victim in s.ready && n in s.ready[s.phase.victim]
    case RemoveDir => s.phase.Removing? && s.phase.victim in s.ready && s.ready[s.phase.victim] == map[]
    case Done => s.phase.Pruning?
    case Abort => InStaging(s.phase) && s.phase.run in s.staging
    case Crash => true
  }

  predicate InStaging(ph: Phase) {
    ph.Filling? || ph.Summed? || ph.Completed?
  }

  function Apply(s: Source, step: Step): Source
    requires Enabled(s, step)
  {
    match step
    case Begin(run) => s.(staging := s.staging[run := map[]], phase := Filling(run))
    case Put(p, c) => s.(staging := s.staging[s.phase.run := s.staging[s.phase.run][Payload(p) := c]])
    case Drop(p) => s.(staging := s.staging[s.phase.run := s.staging[s.phase.run] - {Payload(p)}])
    case Sum =>
      var f := s.staging[s.phase.run];
      s.(staging := s.staging[s.phase.run := f[Name.Sums := Manifest(ManifestOf(f))]], phase := Summed(s.phase.run))
    case Complete =>
      var f := s.staging[s.phase.run];
      s.(staging := s.staging[s.phase.run := f[Name.Complete := Blob("complete\n")]], phase := Completed(s.phase.run))
    case Publish =>
      s.(ready := s.ready[s.phase.run := s.staging[s.phase.run]],
         staging := s.staging - {s.phase.run}, phase := Pruning)
    case BeginRemove(v) => s.(phase := Removing(v))
    case RemoveFile(n) => s.(ready := s.ready[s.phase.victim := s.ready[s.phase.victim] - {n}])
    case RemoveDir => s.(ready := s.ready - {s.phase.victim}, phase := Pruning)
    case Done => s.(phase := Idle)
    case Abort =>
      s.(staging := s.staging - {s.phase.run}, failed := s.failed[s.phase.run := s.staging[s.phase.run]], phase := Idle)
    case Crash => s.(phase := Idle)
  }

  predicate SummedOk(f: Files) {
    Name.Sums in f && f[Name.Sums] == Manifest(ManifestOf(f)) && ManifestOf(f) != map[]
  }

  /** A visible run is sealed unless retention has begun to remove it; and it begins only
      with runs that at least `keep` newer ones outlive. */
  ghost predicate Inv(s: Source) {
    && s.keep >= 1
    && (forall r | r in s.ready && |NewerReady(s, r)| < s.keep :: Sealed(s.ready[r]))
    && (s.phase.Summed? && s.phase.run in s.staging ==> SummedOk(s.staging[s.phase.run]))
    && (s.phase.Completed? && s.phase.run in s.staging ==> Sealed(s.staging[s.phase.run]))
    && (s.phase.Removing? ==> s.phase.victim in s.ready && |NewerReady(s, s.phase.victim)| >= s.keep
                              && forall q | q in s.ready :: s.phase.victim <= q)
  }

  lemma NewerMonotone(a: Source, b: Source, r: RunId)
    requires NewerReady(a, r) <= NewerReady(b, r)
    ensures |NewerReady(a, r)| <= |NewerReady(b, r)|
  {
    SubsetSize(NewerReady(a, r), NewerReady(b, r));
  }

  lemma ExcessNewer(s: Source, v: RunId)
    requires Excess(s, v)
    ensures |NewerReady(s, v)| >= s.keep
  {
    assert NewerReady(s, v) == s.ready.Keys - {v};
    assert |s.ready.Keys| == |s.ready|;
  }

  lemma StagingStep(s: Source, step: Step)
    requires Inv(s) && Enabled(s, step)
    requires step.Begin? || step.Put? || step.Drop? || step.Sum?
          || step.Complete? || step.Abort? || step.Done? || step.Crash?
    ensures Inv(Apply(s, step))
  {
    var t := Apply(s, step);
    forall r | r in t.ready ensures NewerReady(t, r) == NewerReady(s, r) {
    }
    if step.Sum? {
      var f := s.staging[s.phase.run];
      assert ManifestOf(f[Name.Sums := Manifest(ManifestOf(f))]) == ManifestOf(f);
    }
    if step.Complete? {
      var f := s.staging[s.phase.run];
      assert ManifestOf(f[Name.Complete := Blob("complete\n")]) == ManifestOf(f);
    }
  }

  lemma ReadyStep(s: Source, step: Step)
    requires Inv(s) && Enabled(s, step) && (step.Publish? || step.RemoveFile? || step.RemoveDir? || step.BeginRemove?)
    ensures Inv(Apply(s, step))
  {
    var t := Apply(s, step);
    match step {
      case Publish =>
        forall r | r in s.ready ensures |NewerReady(s, r)| <= |NewerReady(t, r)| {
          NewerMonotone(s, t, r);
        }
      case BeginRemove(v) =>
        ExcessNewer(s, v);
        forall r ensures NewerReady(t, r) == NewerReady(s, r) {
        }
      case RemoveFile(_) =>
        forall r ensures NewerReady(t, r) == NewerReady(s, r) {
        }
      case RemoveDir =>
        forall r | r in t.ready ensures NewerReady(t, r) == NewerReady(s, r) {
        }
    }
  }

  lemma StepKeepsInv(s: Source, step: Step)
    requires Inv(s) && Enabled(s, step)
    ensures Inv(Apply(s, step))
  {
    match step {
      case Publish => ReadyStep(s, step);
      case BeginRemove(_) => ReadyStep(s, step);
      case RemoveFile(_) => ReadyStep(s, step);
      case RemoveDir => ReadyStep(s, step);
      case _ => StagingStep(s, step);
    }
  }

  predicate Newest(s: Source, r: RunId) {
    r in s.ready && forall q | q in s.ready :: q <= r
  }

  /** Nothing exported is lost before it is published: what leaves staging is in ready/, or, when
      the export gives up, in failed/, as it was; and nothing else comes into either. */
  lemma NothingStagedIsLost(s: Source, step: Step, r: RunId)
    requires Enabled(s, step)
    ensures var t := Apply(s, step);
      && (r in s.staging && r !in t.staging ==>
            (r in t.ready && t.ready[r] == s.staging[r]) || (r in t.failed && t.failed[r] == s.staging[r]))
      && (r in t.ready && r !in s.ready ==> r in s.staging && r !in t.staging && t.failed == s.failed)
      && (r in t.failed && r !in s.failed ==> r in s.staging && r !in t.staging && t.ready == s.ready)
  {
  }

  /** Pruning keeps at least one run, so the newest run id never goes down. */
  lemma NewestMonotone(s: Source, step: Step, r: RunId)
    requires Inv(s) && Enabled(s, step) && r in s.ready
    ensures exists q :: q in Apply(s, step).ready && r <= q
  {
    var t := Apply(s, step);
    if r in t.ready {
    } else {
      assert step.RemoveDir? && r == s.phase.victim;
      assert NewerReady(s, r) != {};
      var q :| q in NewerReady(s, r);
      assert q in t.ready;
    }
  }

  /** The run a puller picks is complete and covered by its list at that moment. */
  lemma NewestIsSealed(s: Source, r: RunId)
    requires Inv(s) && Newest(s, r)
    ensures Sealed(s.ready[r]) && Covered(s.ready[r])
  {
    assert NewerReady(s, r) == {};
  }

  // ---------------------------------------------------------------- where the guarantee stops

  /** What one export still does after publishing, cut off anywhere. */
  predicate PruneStep(step: Step) {
    step.BeginRemove? || step.RemoveFile? || step.RemoveDir? || step.Done? || step.Crash?
  }

  ghost predicate Prunes(s: Source, steps: seq<Step>, t: Source)
    decreases |steps|
  {
    if steps == [] then t == s
    else PruneStep(steps[0]) && Enabled(s, steps[0]) && Prunes(Apply(s, steps[0]), steps[1..], t)
  }

  lemma {:induction false} PrunesOn(s: Source, first: seq<Step>, t: Source, second: seq<Step>, u: Source)
    requires Prunes(s, first, t) && Prunes(t, second, u)
    ensures Prunes(s, first + second, u)
    decreases |first|
  {
    if first == [] {
      assert first + second == second;
    } else {
      PrunesOn(Apply(s, first[0]), first[1..], t, second, u);
      assert (first + second)[1..] == first[1..] + second;
    }
  }

  lemma PruneOne(s: Source, step: Step)
    requires PruneStep(step) && Enabled(s, step)
    ensures Prunes(s, [step], Apply(s, step))
  {
    assert [step][1..] == [];
    assert Prunes(Apply(s, step), [], Apply(s, step));
  }

  /** Pruning can leave the run visible and not sealed. */
  ghost predicate CanTear(s: Source, r: RunId) {
    exists steps, t :: Prunes(s, steps, t) && r in t.ready && !Sealed(t.ready[r])
  }

  lemma PruneKeepsNewer(s: Source, step: Step, r: RunId)
    requires Inv(s) && PruneStep(step) && Enabled(s, step) && r in s.ready && |NewerReady(s, r)| < s.keep
    ensures r in Apply(s, step).ready && NewerReady(Apply(s, step), r) == NewerReady(s, r)
    ensures Apply(s, step).keep == s.keep
  {
  }

  lemma {:induction false} PrunesKeepsSealed(s: Source, steps: seq<Step>, t: Source, r: RunId)
    requires Inv(s) && Prunes(s, steps, t) && r in s.ready && |NewerReady(s, r)| < s.keep
    ensures r in t.ready && Sealed(t.ready[r])
    decreases |steps|
  {
    if steps != [] {
      PruneKeepsNewer(s, steps[0], r);
      StepKeepsInv(s, steps[0]);
      PrunesKeepsSealed(Apply(s, steps[0]), steps[1..], t, r);
    }
  }

  lemma {:induction false} LowestOf(ready: map<RunId, Files>) returns (v: RunId)
    requires ready != map[]
    ensures v in ready && forall q | q in ready :: v <= q
  {
    assert ready.Items != {} by {
      assert forall r | r in ready :: (r, ready[r]) in ready.Items;
    }
    var x :| x in ready.Items;
    var rest := ready - {x.0};
    if rest == map[] {
      v := x.0;
      assert forall q | q in ready :: q == x.0 || q in rest;
    } else {
      var w := LowestOf(rest);
      v := if w < x.0 then w else x.0;
      assert forall q | q in ready :: q == x.0 || q in rest;
    }
  }

  /** Emptying the victim and removing it. */
  lemma {:induction false} RemoveWhole(s: Source) returns (steps: seq<Step>)
    requires s.phase.Removing? && s.phase.victim in s.ready
    ensures Prunes(s, steps, s.(ready := s.ready - {s.phase.victim}, phase := Pruning))
    decreases |s.ready[s.phase.victim]|
  {
    var v := s.phase.victim;
    var files := s.ready[v];
    if files == map[] {
      PruneOne(s, RemoveDir);
      steps := [RemoveDir];
    } else {
      var n :| n in files;
      var t := Apply(s, RemoveFile(n));
      assert files.Keys == (files - {n}).Keys + {n};
      assert t.ready - {v} == s.ready - {v};
      var rest := RemoveWhole(t);
      PruneOne(s, RemoveFile(n));
      PrunesOn(s, [RemoveFile(n)], t, rest, s.(ready := s.ready - {v}, phase := Pruning));
      steps := [RemoveFile(n)] + rest;
    }
  }

  lemma LowestIsExcess(s: Source, v: RunId)
    requires v in s.ready && (forall q | q in s.ready :: v <= q) && |NewerReady(s, v)| >= s.keep
    ensures Excess(s, v)
  {
    assert NewerReady(s, v) == s.ready.Keys - {v};
    assert |s.ready.Keys| == |s.ready|;
  }

  /** The lowest run loses its marker. */
  lemma TearLowest(s: Source, v: RunId) returns (steps: seq<Step>, t: Source)
    requires s.phase.Pruning? && Excess(s, v)
    ensures Prunes(s, steps, t) && t.phase.Idle? && v in t.ready && !Sealed(t.ready[v])
  {
    var begun := Apply(s, BeginRemove(v));
    PruneOne(s, BeginRemove(v));
    if Name.Complete in s.ready[v] {
      var torn := Apply(begun, RemoveFile(Name.Complete));
      PruneOne(begun, RemoveFile(Name.Complete));
      PruneOne(torn, Crash);
      t := Apply(torn, Crash);
      PrunesOn(s, [BeginRemove(v)], begun, [RemoveFile(Name.Complete)], torn);
      PrunesOn(s, [BeginRemove(v)] + [RemoveFile(Name.Complete)], torn, [Crash], t);
      steps := [BeginRemove(v)] + [RemoveFile(Name.Complete)] + [Crash];
    } else {
      PruneOne(begun, Crash);
      t := Apply(begun, Crash);
      PrunesOn(s, [BeginRemove(v)], begun, [Crash], t);
      steps := [BeginRemove(v)] + [Crash];
    }
  }

  lemma {:induction false} Tear(s: Source, r: RunId) returns (steps: seq<Step>, t: Source)
    requires s.phase.Pruning? && r in s.ready && |NewerReady(s, r)| >= s.keep
    ensures Prunes(s, steps, t) && t.phase.Idle? && r in t.ready && !Sealed(t.ready[r])
    decreases |s.ready|
  {
    var v := LowestOf(s.ready);
    NewerMonotoneIn(s, v, r);
    LowestIsExcess(s, v);
    if v == r {
      steps, t := TearLowest(s, r);
    } else {
      var begun := Apply(s, BeginRemove(v));
      PruneOne(s, BeginRemove(v));
      var whole := RemoveWhole(begun);
      var u := begun.(ready := begun.ready - {v}, phase := Pruning);
      assert NewerReady(u, r) == NewerReady(s, r);
      assert s.ready.Keys == u.ready.Keys + {v};
      assert |u.ready.Keys| == |u.ready| && |s.ready.Keys| == |s.ready|;
      var rest;
      rest, t := Tear(u, r);
      PrunesOn(s, [BeginRemove(v)], begun, whole, u);
      PrunesOn(s, [BeginRemove(v)] + whole, u, rest, t);
      steps := [BeginRemove(v)] + whole + rest;
    }
  }

  lemma NewerMonotoneIn(s: Source, v: RunId, r: RunId)
    requires v <= r
    ensures |NewerReady(s, r)| <= |NewerReady(s, v)|
  {
    SubsetSize(NewerReady(s, r), NewerReady(s, v));
  }

  /** Until the next publication a run in ready/ can be seen without its seal if and only if at
      least `keep` newer runs are there. */
  lemma CanTearIff(s: Source, r: RunId)
    requires Inv(s) && s.phase.Pruning? && r in s.ready
    ensures CanTear(s, r) <==> |NewerReady(s, r)| >= s.keep
  {
    if |NewerReady(s, r)| >= s.keep {
      var steps, t := Tear(s, r);
    } else {
      forall steps, t | Prunes(s, steps, t) ensures r in t.ready && Sealed(t.ready[r]) {
        PrunesKeepsSealed(s, steps, t, r);
      }
    }
  }

  ghost predicate Init(s: Source) {
    s.keep >= 1 && s.ready == map[] && s.staging == map[] && s.failed == map[] && s.phase.Idle?
  }
}
