/** The V8 migration: seal every secret still stored in the clear, then scrub what is left of it
    in free pages and the write-ahead log.  It may be cut short at any statement. */
module Migration {
  import opened Options
  import opened Secrets

  datatype Tunnel = Tunnel(secret: Stored, token: Stored)

  /** The row of secret_migration_cleanup; `Absent` covers a missing table or row. */
  datatype Pending = Absent | Flag(n: int)

  /** `pages` and `wal` are the secrets in the clear that can be found in the database file and in
      the log besides, or left over from, the rows themselves. */
  datatype Disk = Disk(projects: map<string, Stored>, tunnels: map<string, Tunnel>, pending: Pending,
                       pages: set<string>, wal: set<string>)

  /** The last startup statement that completed. */
  datatype Phase = Off | Flagged | Migrated | Checkpointed | Vacuumed | Scrubbed | Ready

  datatype Sys = Sys(disk: Disk, phase: Phase)

  // ---------------------------------------------------------------- one transaction

  function Normal(text: string): string {
    if text == "" || text == "null" then "{}" else text
  }

  predicate BadProject(id: string, env: Stored, json: string -> bool) {
    IsEncrypted(env) && (Decrypt(ProjectAad(id), env).Err? || !json(Decrypt(ProjectAad(id), env).value))
  }

  predicate BadField(id: string, field: string, v: Stored) {
    IsEncrypted(v) && Decrypt(TunnelAad(id, field), v).Err?
  }

  predicate BadTunnel(id: string, t: Tunnel) {
    BadField(id, SECRET, t.secret) || BadField(id, TOKEN, t.token)
  }

  predicate PlainField(v: Stored) {
    v.Plain? && v.text != ""
  }

  predicate PlainTunnel(t: Tunnel) {
    PlainField(t.secret) || PlainField(t.token)
  }

  ghost predicate Bad(d: Disk, json: string -> bool) {
    || (exists id :: id in d.projects && BadProject(id, d.projects[id], json))
    || (exists id :: id in d.tunnels && BadTunnel(id, d.tunnels[id]))
  }

  ghost predicate HasPlain(d: Disk) {
    || (exists id :: id in d.projects && d.projects[id].Plain?)
    || (exists id :: id in d.tunnels && PlainTunnel(d.tunnels[id]))
  }

  /** The random nonce each column happens to get. */
  type Nonces = string -> nat

  function SealProject(id: string, env: Stored, rand: Nonces): Stored {
    if env.Plain? then Encrypt(ProjectAad(id), rand(ProjectAad(id)), Normal(env.text)) else env
  }

  function SealField(id: string, field: string, v: Stored, rand: Nonces): Stored {
    if PlainField(v) then Encrypt(TunnelAad(id, field), rand(TunnelAad(id, field)), v.text) else v
  }

  function SealTunnel(id: string, t: Tunnel, rand: Nonces): Tunnel {
    Tunnel(SealField(id, SECRET, t.secret, rand), SealField(id, TOKEN, t.token, rand))
  }

  function PlainTexts(d: Disk): set<string> {
    (set id | id in d.projects && d.projects[id].Plain? :: d.projects[id].text)
    + (set id | id in d.tunnels && PlainField(d.tunnels[id].secret) :: d.tunnels[id].secret.text)
    + (set id | id in d.tunnels && PlainField(d.tunnels[id].token) :: d.tunnels[id].token.text)
  }

  /** The committed transaction.  What was in the clear stays behind in pages and log. */
  function AfterSeal(d: Disk, rand: Nonces): Disk {
    Disk(map id | id in d.projects :: SealProject(id, d.projects[id], rand),
         map id | id in d.tunnels :: SealTunnel(id, d.tunnels[id], rand),
         Flag(1), d.pages + PlainTexts(d), d.wal + PlainTexts(d))
  }

  ghost function V8(d: Disk, json: string -> bool, rand: Nonces): Result<Disk> {
    if Bad(d, json) then Err
    else if !HasPlain(d) then Ok(d)
    else Ok(AfterSeal(d, rand))
  }

  // ---------------------------------------------------------------- the whole startup as a machine

  datatype Step =
    | InsertFlag
    | RunV8(rand: Nonces)
    | AbortV8
    | SkipScrub
    | Checkpoint
    | CheckpointBusy
    | Vacuum
    | ClearFlag
    | Crash
    | StoreEnv(id: string, nonce: nat, text: string)

  ghost predicate Enabled(s: Sys, e: Step, json: string -> bool) {
    match e
    case InsertFlag => s.phase == Off
    case RunV8(_) => s.phase == Flagged && !Bad(s.disk, json)
    case AbortV8 => s.phase == Flagged
    case SkipScrub => s.phase == Migrated && s.disk.pending == Flag(0)
    case Checkpoint => (s.phase == Migrated && s.disk.pending != Flag(0)) || s.phase == Vacuumed
    case CheckpointBusy => s.phase == Migrated || s.phase == Vacuumed
    case Vacuum => s.phase == Checkpointed
    case ClearFlag => s.phase == Scrubbed
    case Crash => true
    case StoreEnv(_, _, text) => s.phase == Ready && json(text)
  }

  ghost function Apply(s: Sys, e: Step, json: string -> bool): Sys
    requires Enabled(s, e, json)
  {
    var d := s.disk;
    match e
    case InsertFlag => Sys(if d.pending == Absent then d.(pending := Flag(1)) else d, Flagged)
    case RunV8(rand) => Sys(V8(d, json, rand).value, Migrated)
    // a validation error, or a transaction that did not commit: its log frames may be there
    case AbortV8 => Sys(d.(wal := d.wal + PlainTexts(d)), Off)
    case SkipScrub => Sys(d, Ready)
    case Checkpoint =>
      // after VACUUM the log holds a complete image of the rows, which replaces the file
      if s.phase == Vacuumed then Sys(d.(pages := PlainTexts(d), wal := {}), Scrubbed)
      else Sys(d.(pages := d.pages + d.wal, wal := {}), Checkpointed)
    case CheckpointBusy => Sys(d.(pages := d.pages + d.wal), Off)
    case Vacuum => Sys(d.(wal := d.wal + PlainTexts(d)), Vacuumed)
    case ClearFlag => Sys(d.(pending := Flag(0)), Ready)
    case Crash => Sys(d, Off)
    case StoreEnv(id, nonce, text) =>
      Sys(d.(projects := d.projects[id := Encrypt(ProjectAad(id), nonce, text)]), Ready)
  }

  /** Remnants in the clear mean that the scrub is still pending or that a row is in the clear. */
  ghost predicate RemnantsCovered(d: Disk) {
    d.pages + d.wal != {} ==> d.pending != Flag(0) || HasPlain(d)
  }

  ghost predicate Inv(s: Sys) {
    && RemnantsCovered(s.disk)
    && (s.phase != Off && s.phase != Flagged ==> !HasPlain(s.disk))
    && (s.phase != Off ==> s.disk.pending.Flag?)
    && (s.phase == Scrubbed ==> s.disk.pages == {} && s.disk.wal == {})
    && (s.phase == Ready ==> s.disk.pending == Flag(0))
  }

  lemma NoPlainTexts(d: Disk)
    ensures !HasPlain(d) ==> PlainTexts(d) == {}
  {
  }

  lemma SealLeavesNoPlain(d: Disk, rand: Nonces)
    ensures !HasPlain(AfterSeal(d, rand))
  {
  }

  lemma StepKeepsInv(s: Sys, e: Step, json: string -> bool)
    requires Inv(s) && Enabled(s, e, json)
    ensures Inv(Apply(s, e, json))
  {
    NoPlainTexts(s.disk);
    match e
    case RunV8(rand) => SealLeavesNoPlain(s.disk, rand);
    case AbortV8 => AbortCovered(s.disk);
    case StoreEnv(id, nonce, text) => StoreKeepsSealed(s.disk, id, nonce, text);
    case _ =>
  }

  lemma AbortCovered(d: Disk)
    requires RemnantsCovered(d)
    ensures RemnantsCovered(d.(wal := d.wal + PlainTexts(d)))
  {
    NoPlainTexts(d);
  }

  lemma StoreKeepsSealed(d: Disk, id: string, nonce: nat, text: string)
    requires !HasPlain(d)
    ensures !HasPlain(d.(projects := d.projects[id := Encrypt(ProjectAad(id), nonce, text)]))
  {
  }

  ghost predicate Behaviour(b: seq<Sys>, steps: seq<Step>, json: string -> bool) {
    && |b| == |steps| + 1
    && (forall i | 0 <= i < |steps| :: Enabled(b[i], steps[i], json) && b[i + 1] == Apply(b[i], steps[i], json))
  }

  lemma {:induction false} BehaviourInv(b: seq<Sys>, steps: seq<Step>, json: string -> bool, i: nat)
    requires Behaviour(b, steps, json) && Inv(b[0]) && i < |b|
    ensures Inv(b[i])
  {
    if i > 0 {
      BehaviourInv(b, steps, json, i - 1);
      StepKeepsInv(b[i - 1], steps[i - 1], json);
    }
  }

  // ---------------------------------------------------------------- what the secrets say

  /** What a project's environment column stands for, in the clear or sealed. */
  function EnvMeaning(id: string, env: Stored): Result<string> {
    if env.Plain? then Ok(Normal(env.text)) else Decrypt(ProjectAad(id), env)
  }

  /** An empty or null environment stands for an empty object, any other for itself. */
  lemma PlainMeaning(id: string, text: string)
    ensures EnvMeaning(id, Plain("")) == Ok("{}") && EnvMeaning(id, Plain("null")) == Ok("{}")
    ensures text != "" && text != "null" ==> EnvMeaning(id, Plain(text)) == Ok(text)
  {
  }

  function FieldMeaning(id: string, field: string, v: Stored): Result<string> {
    if v.Plain? then Ok(v.text) else Decrypt(TunnelAad(id, field), v)
  }

  ghost predicate SameMeaning(a: Disk, b: Disk) {
    && a.projects.Keys == b.projects.Keys && a.tunnels.Keys == b.tunnels.Keys
    && (forall id | id in a.projects :: EnvMeaning(id, a.projects[id]) == EnvMeaning(id, b.projects[id]))
    && (forall id | id in a.tunnels ::
          FieldMeaning(id, SECRET, a.tunnels[id].secret) == FieldMeaning(id, SECRET, b.tunnels[id].secret)
          && FieldMeaning(id, TOKEN, a.tunnels[id].token) == FieldMeaning(id, TOKEN, b.tunnels[id].token))
  }

  lemma StepKeepsMeaning(s: Sys, e: Step, json: string -> bool)
    requires Enabled(s, e, json) && !e.StoreEnv?
    ensures SameMeaning(s.disk, Apply(s, e, json).disk)
  {
    if e.RunV8? {
      SealKeepsMeaning(s.disk, e.rand);
    }
  }

  lemma SealKeepsMeaning(d: Disk, rand: Nonces)
    ensures SameMeaning(d, AfterSeal(d, rand))
  {
  }

  /** However often startup is cut short and begun again, no secret changes its meaning. */
  lemma {:induction false} MeaningSurvives(b: seq<Sys>, steps: seq<Step>, json: string -> bool, i: nat)
    requires Behaviour(b, steps, json) && i < |b| && forall k | 0 <= k < |steps| :: !steps[k].StoreEnv?
    ensures SameMeaning(b[0].disk, b[i].disk)
  {
    if i > 0 {
      MeaningSurvives(b, steps, json, i - 1);
      StepKeepsMeaning(b[i - 1], steps[i - 1], json);
    }
  }

  /** When startup completes, after any number of crashes on the way: nothing is in the clear, in
      rows, pages or log, the flag is cleared, and every secret opens under its own row to what
      it was at the beginning. */
  lemma CompletedIsClean(b: seq<Sys>, steps: seq<Step>, json: string -> bool, i: nat)
    requires Behaviour(b, steps, json) && Inv(b[0]) && i < |b| && b[i].phase == Ready
    requires forall k | 0 <= k < |steps| :: !steps[k].StoreEnv?
    ensures var d, t := b[0].disk, b[i].disk;
      && t.pages == {} && t.wal == {} && t.pending == Flag(0)
      && (forall id | id in t.projects :: IsEncrypted(t.projects[id]) && id in d.projects
            && Decrypt(ProjectAad(id), t.projects[id]) == EnvMeaning(id, d.projects[id]))
      && (forall id | id in t.tunnels :: !PlainTunnel(t.tunnels[id]) && id in d.tunnels
            && FieldMeaning(id, SECRET, t.tunnels[id].secret) == FieldMeaning(id, SECRET, d.tunnels[id].secret)
            && FieldMeaning(id, TOKEN, t.tunnels[id].token) == FieldMeaning(id, TOKEN, d.tunnels[id].token))
    ensures Opens(b[0].disk, b[i].disk)
  {
    BehaviourInv(b, steps, json, i);
    MeaningSurvives(b, steps, json, i);
    var t := b[i].disk;
    assert t.pages + t.wal == {};
    assert t.pages <= t.pages + t.wal && t.wal <= t.pages + t.wal;
    SameMeaningOpens(b[0].disk, t);
  }

  /** What every secret of d reads as in t, told from its text. */
  ghost predicate Opens(d: Disk, t: Disk) {
    && t.projects.Keys == d.projects.Keys && t.tunnels.Keys == d.tunnels.Keys
    && (forall id | id in d.projects && d.projects[id].Plain? ::
          Decrypt(ProjectAad(id), t.projects[id]) ==
            Ok(if d.projects[id].text == "" || d.projects[id].text == "null" then "{}" else d.projects[id].text))
    && (forall id | id in d.projects && !d.projects[id].Plain? ::
          Decrypt(ProjectAad(id), t.projects[id]) == Decrypt(ProjectAad(id), d.projects[id]))
    && (forall id | id in d.tunnels ::
          && FieldOpens(id, SECRET, d.tunnels[id].secret, t.tunnels[id].secret)
          && FieldOpens(id, TOKEN, d.tunnels[id].token, t.tunnels[id].token))
  }

  /** An empty field stays empty, text is sealed under its own column, and what was sealed opens as
      it did. */
  ghost predicate FieldOpens(id: string, field: string, v: Stored, w: Stored) {
    match v
    case Plain(text) => if text == "" then w == Plain("") || Decrypt(TunnelAad(id, field), w) == Ok("")
                        else IsEncrypted(w) && Decrypt(TunnelAad(id, field), w) == Ok(text)
    case _ => || Decrypt(TunnelAad(id, field), w) == Decrypt(TunnelAad(id, field), v)
              || (w == Plain("") && Decrypt(TunnelAad(id, field), v) == Ok(""))
  }

  lemma SameMeaningOpens(d: Disk, t: Disk)
    requires SameMeaning(d, t) && !HasPlain(t)
    ensures Opens(d, t)
  {
    forall id | id in d.projects
      ensures !t.projects[id].Plain? && Decrypt(ProjectAad(id), t.projects[id]) == EnvMeaning(id, d.projects[id])
    {
    }
    forall id | id in d.tunnels
      ensures FieldOpens(id, SECRET, d.tunnels[id].secret, t.tunnels[id].secret)
      ensures FieldOpens(id, TOKEN, d.tunnels[id].token, t.tunnels[id].token)
    {
      assert !PlainTunnel(t.tunnels[id]);
    }
  }

  // ---------------------------------------------------------------- a second run

  /** An uninterrupted startup. */
  ghost function Startup(d: Disk, json: string -> bool, rand: Nonces): Result<Disk> {
    var flagged := if d.pending == Absent then d.(pending := Flag(1)) else d;
    match V8(flagged, json, rand)
    case Err => Err
    case Ok(m) =>
      if m.pending == Flag(0) then Ok(m)
      else Ok(m.(pending := Flag(0), pages := PlainTexts(m), wal := {}))
  }

  /** An environment in the clear that is neither empty, null nor JSON; where an empty object is not
      JSON either, an empty or null one too. */
  ghost predicate NotJson(env: Stored, json: string -> bool) {
    env.Plain? && if env.text == "" || env.text == "null" then !json("{}") else !json(env.text)
  }

  /** Running it again changes nothing; it is refused exactly when the first run sealed an
      environment that was not valid JSON, which the first run does not look at. */
  lemma SecondStartup(d: Disk, json: string -> bool, rand: Nonces, again: Nonces)
    requires RemnantsCovered(d) && Startup(d, json, rand).Ok?
    ensures var t := Startup(d, json, rand).value;
      && (Startup(t, json, again).Err? <==>
            (exists id :: id in d.projects && NotJson(d.projects[id], json)))
      && (Startup(t, json, again).Ok? ==> Startup(t, json, again).value == t)
  {
    var t := Startup(d, json, rand).value;
    StartupSeals(d, json, rand);
    SealedRowsAreGood(d, json, rand);
    forall id | id in d.projects
      ensures NotJson(d.projects[id], json) <==> d.projects[id].Plain? && !json(Normal(d.projects[id].text))
    {
    }
    if exists id :: id in d.projects && NotJson(d.projects[id], json) {
      var id :| id in d.projects && NotJson(d.projects[id], json);
      assert BadProject(id, t.projects[id], json);
    }
  }

  /** What the next stage, which classifies the variables of the projects that have no
      classification yet, does with a row. */
  predicate Undecodable(id: string, env: Stored, json: string -> bool) {
    Decrypt(ProjectAad(id), env).Err? || !json(Decrypt(ProjectAad(id), env).value)
  }

  ghost predicate Unclassifiable(d: Disk, unclassified: set<string>, json: string -> bool) {
    exists id :: id in unclassified && id in d.projects && Undecodable(id, d.projects[id], json)
  }

  /** The first startup itself is refused, by that stage and with everything sealed, exactly when
      such an environment belongs to a project without a classification. */
  lemma ClassificationRefusesIff(d: Disk, unclassified: set<string>, json: string -> bool, rand: Nonces)
    requires RemnantsCovered(d) && Startup(d, json, rand).Ok?
    ensures Unclassifiable(Startup(d, json, rand).value, unclassified, json) <==>
      exists id :: id in unclassified && id in d.projects && NotJson(d.projects[id], json)
  {
    hide Startup;
    var t := Startup(d, json, rand).value;
    StartupSeals(d, json, rand);
    StartupAccepts(d, json, rand);
    SealedRowsAreGood(d, json, rand);
    forall id | id in d.projects
      ensures Undecodable(id, t.projects[id], json) <==> NotJson(d.projects[id], json)
    {
      assert t.projects[id] == SealProject(id, d.projects[id], rand);
      assert !t.projects[id].Plain?;
    }
  }

  lemma StartupAccepts(d: Disk, json: string -> bool, rand: Nonces)
    requires Startup(d, json, rand).Ok?
    ensures !Bad(d, json)
  {
  }

  lemma StartupSeals(d: Disk, json: string -> bool, rand: Nonces)
    requires RemnantsCovered(d) && Startup(d, json, rand).Ok?
    ensures var t := Startup(d, json, rand).value;
      && !HasPlain(t) && t.pending == Flag(0) && t.pages == {} && t.wal == {}
      && t.projects == (map id | id in d.projects :: SealProject(id, d.projects[id], rand))
      && t.tunnels == (map id | id in d.tunnels :: SealTunnel(id, d.tunnels[id], rand))
  {
    var flagged := if d.pending == Absent then d.(pending := Flag(1)) else d;
    var m := V8(flagged, json, rand).value;
    SealLeavesNoPlain(flagged, rand);
    NoPlainTexts(m);
    assert HasPlain(flagged) <==> HasPlain(d);
    assert d.pages <= d.pages + d.wal && d.wal <= d.pages + d.wal;
  }

  lemma SealedRowsAreGood(d: Disk, json: string -> bool, rand: Nonces)
    requires !Bad(d, json)
    ensures forall id | id in d.projects ::
      BadProject(id, SealProject(id, d.projects[id], rand), json) <==>
        d.projects[id].Plain? && !json(Normal(d.projects[id].text))
    ensures forall id | id in d.tunnels :: !BadTunnel(id, SealTunnel(id, d.tunnels[id], rand))
  {
    forall id | id in d.tunnels ensures !BadTunnel(id, SealTunnel(id, d.tunnels[id], rand)) {
      assert !BadTunnel(id, d.tunnels[id]);
    }
    forall id | id in d.projects ensures !BadProject(id, d.projects[id], json) {
    }
  }

  /** The uninterrupted startup is one of the machine's runs. */
  lemma StartupRuns(d: Disk, json: string -> bool, rand: Nonces) returns (b: seq<Sys>, steps: seq<Step>)
    requires RemnantsCovered(d) && Startup(d, json, rand).Ok?
    ensures Behaviour(b, steps, json) && b[0] == Sys(d, Off)
    ensures b[|steps|] == Sys(Startup(d, json, rand).value, Ready)
  {
    var s0 := Sys(d, Off);
    var s1 := Apply(s0, InsertFlag, json);
    var s2 := Apply(s1, RunV8(rand), json);
    if s2.disk.pending == Flag(0) {
      b, steps := [s0, s1, s2, Apply(s2, SkipScrub, json)], [InsertFlag, RunV8(rand), SkipScrub];
    } else {
      var s3 := Apply(s2, Checkpoint, json);
      var s4 := Apply(s3, Vacuum, json);
      var s5 := Apply(s4, Checkpoint, json);
      b := [s0, s1, s2, s3, s4, s5, Apply(s5, ClearFlag, json)];
      steps := [InsertFlag, RunV8(rand), Checkpoint, Vacuum, Checkpoint, ClearFlag];
    }
  }

  /** No environment is in the clear. */
  ghost predicate AllSealed(d: Disk) {
    forall id | id in d.projects :: IsEncrypted(d.projects[id])
  }

  /** What was sealed already is not touched. */
  ghost predicate SealedStays(d: Disk, t: Disk) {
    forall id | id in d.projects && IsEncrypted(d.projects[id]) :: id in t.projects && t.projects[id] == d.projects[id]
  }

  lemma RefusedBy(d: Disk, json: string -> bool, rand: Nonces)
    requires (exists id :: id in d.projects && BadProject(id, d.projects[id], json))
          || (exists id :: id in d.tunnels && BadTunnel(id, d.tunnels[id]))
    ensures V8(d, json, rand).Err?
  {
  }

  lemma AcceptedBy(d: Disk, json: string -> bool, rand: Nonces)
    requires forall id | id in d.projects :: !BadProject(id, d.projects[id], json)
    requires forall id | id in d.tunnels :: !BadTunnel(id, d.tunnels[id])
    ensures V8(d, json, rand) == Ok(if HasPlain(d) then AfterSeal(d, rand) else d)
  {
  }

  lemma V8Opens(d: Disk, json: string -> bool, rand: Nonces)
    ensures SealedStays(d, d)
    ensures V8(d, json, rand).Ok? ==>
      var t := V8(d, json, rand).value; Opens(d, t) && AllSealed(t) && SealedStays(d, t)
  {
    hide Opens;
    if V8(d, json, rand).Ok? {
      SealKeepsMeaning(d, rand);
      SealLeavesNoPlain(d, rand);
      SameMeaningOpens(d, V8(d, json, rand).value);
    }
  }

  // ---------------------------------------------------------------- the code

  class Database {
    var projects: map<string, Stored>
    var tunnels: map<string, Tunnel>
    var pending: Pending
    ghost var pages: set<string>
    ghost var wal: set<string>

    constructor (d: Disk)
      ensures View() == d
    {
      projects, tunnels, pending, pages, wal := d.projects, d.tunnels, d.pending, d.pages, d.wal;
    }

    ghost function View(): Disk
      reads this
    {
      Disk(projects, tunnels, pending, pages, wal)
    }

    /** Collects the environments in the clear and validates the others. */
    method ScanProjects(json: string -> bool) returns (ok: bool, todo: map<string, string>)
      ensures ok <==> forall id | id in projects && IsEncrypted(projects[id]) ::
        Decrypt(ProjectAad(id), projects[id]).Ok? && json(Decrypt(ProjectAad(id), projects[id]).value)
      ensures ok <==> forall id | id in projects :: !BadProject(id, projects[id], json)
      ensures ok ==> forall id :: id in todo <==> id in projects && projects[id].Plain?
      ensures ok ==> forall id | id in todo ::
        todo[id] == if projects[id].text == "" || projects[id].text == "null" then "{}" else projects[id].text
      ensures ok ==> todo == map id | id in projects && projects[id].Plain? :: Normal(projects[id].text)
    {
      todo := map[];
      var left := projects.Items;
      while left != {}
        invariant left <= projects.Items
        invariant forall id | id in projects && (id, projects[id]) !in left ::
          !BadProject(id, projects[id], json) && (projects[id].Plain? ==> id in todo)
        invariant forall id | id in todo ::
          id in projects && projects[id].Plain? && todo[id] == Normal(projects[id].text)
      {
        var item :| item in left;
        if !IsEncrypted(item.1) {
          var env := item.1.text;
          if env == "" || env == "null" {
            env := "{}";
          }
          todo := todo[item.0 := env];
        } else {
          var plain := Decrypt(ProjectAad(item.0), item.1);
          if plain.Err? || !json(plain.value) {
            assert BadProject(item.0, projects[item.0], json);
            return false, map[];
          }
        }
        left := left - {item};
      }
      ok := true;
    }

    method ScanTunnels() returns (ok: bool, todo: map<string, Tunnel>)
      ensures ok <==> forall id | id in tunnels ::
        && (IsEncrypted(tunnels[id].secret) ==> Decrypt(TunnelAad(id, SECRET), tunnels[id].secret).Ok?)
        && (IsEncrypted(tunnels[id].token) ==> Decrypt(TunnelAad(id, TOKEN), tunnels[id].token).Ok?)
      ensures ok <==> forall id | id in tunnels :: !BadTunnel(id, tunnels[id])
      ensures ok ==> todo == map id | id in tunnels && PlainTunnel(tunnels[id]) :: tunnels[id]
    {
      todo := map[];
      var left := tunnels.Items;
      while left != {}
        invariant left <= tunnels.Items
        invariant forall id | id in tunnels && (id, tunnels[id]) !in left ::
          !BadTunnel(id, tunnels[id]) && (PlainTunnel(tunnels[id]) ==> id in todo)
        invariant forall id | id in todo :: id in tunnels && PlainTunnel(tunnels[id]) && todo[id] == tunnels[id]
      {
        var item :| item in left;
        var needsMigration := false;
        if item.1.secret != Plain("") {
          if IsEncrypted(item.1.secret) {
            if Decrypt(TunnelAad(item.0, SECRET), item.1.secret).Err? {
              assert BadTunnel(item.0, tunnels[item.0]);
              return false, map[];
            }
          } else {
            needsMigration := true;
          }
        }
        if item.1.token != Plain("") {
          if IsEncrypted(item.1.token) {
            if Decrypt(TunnelAad(item.0, TOKEN), item.1.token).Err? {
              assert BadTunnel(item.0, tunnels[item.0]);
              return false, map[];
            }
          } else {
            needsMigration := true;
          }
        }
        if needsMigration {
          todo := todo[item.0 := item.1];
        }
        left := left - {item};
      }
      ok := true;
    }

    method SealProjects(todo: map<string, string>, rand: Nonces) returns (rows: map<string, Stored>)
      requires todo == map id | id in projects && projects[id].Plain? :: Normal(projects[id].text)
      ensures rows == map id | id in projects :: SealProject(id, projects[id], rand)
    {
      rows := projects;
      var left := todo.Items;
      while left != {}
        invariant left <= todo.Items && rows.Keys == projects.Keys
        invariant forall id | id in projects ::
          rows[id] ==
              if id in todo && (id, todo[id]) !in left then SealProject(id, projects[id], rand) else projects[id]
      {
        var item :| item in left;
        rows := rows[item.0 := Encrypt(ProjectAad(item.0), rand(ProjectAad(item.0)), item.1)];
        left := left - {item};
      }
    }

    method SealTunnels(todo: map<string, Tunnel>, rand: Nonces) returns (rows: map<string, Tunnel>)
      requires todo == map id | id in tunnels && PlainTunnel(tunnels[id]) :: tunnels[id]
      ensures rows == map id | id in tunnels :: SealTunnel(id, tunnels[id], rand)
    {
      rows := tunnels;
      var left := todo.Items;
      while left != {}
        invariant left <= todo.Items && rows.Keys == tunnels.Keys
        invariant forall id | id in tunnels ::
          rows[id] == if id in todo && (id, todo[id]) !in left then SealTunnel(id, tunnels[id], rand) else tunnels[id]
      {
        var item :| item in left;
        var secret, token := item.1.secret, item.1.token;
        if secret != Plain("") && !IsEncrypted(secret) {
          secret := Encrypt(TunnelAad(item.0, SECRET), rand(TunnelAad(item.0, SECRET)), secret.text);
        }
        if token != Plain("") && !IsEncrypted(token) {
          token := Encrypt(TunnelAad(item.0, TOKEN), rand(TunnelAad(item.0, TOKEN)), token.text);
        }
        rows := rows[item.0 := Tunnel(secret, token)];
        left := left - {item};
      }
    }

    /** The last assignment is the commit; before it nothing has changed. */
    method MigrateV8Secrets(json: string -> bool, rand: Nonces) returns (ok: bool)
      modifies this
      ensures ok <==> V8(old(View()), json, rand).Ok?
      ensures View() == if ok then V8(old(View()), json, rand).value else old(View())
      ensures ok ==> Opens(old(View()), View()) && AllSealed(View())
      ensures SealedStays(old(View()), View())
    {
      hide Opens, AllSealed, SealedStays, V8, HasPlain, BadProject, BadTunnel;
      ghost var was := View();
      var envs: map<string, string>;
      ok, envs := ScanProjects(json);
      V8Opens(was, json, rand);
      if !ok {
        RefusedBy(was, json, rand);
        return;
      }
      var secrets: map<string, Tunnel>;
      ok, secrets := ScanTunnels();
      if !ok {
        RefusedBy(was, json, rand);
        return;
      }
      AcceptedBy(was, json, rand);
      NothingToDo(View(), envs, secrets);
      if envs == map[] && secrets == map[] {
        return;
      }
      var newProjects := SealProjects(envs, rand);
      var newTunnels := SealTunnels(secrets, rand);
      ghost var left := PlainTexts(View());
      projects, tunnels, pending, pages, wal := newProjects, newTunnels, Flag(1), pages + left, wal + left;
    }
  }

  lemma NothingToDo(d: Disk, envs: map<string, string>, secrets: map<string, Tunnel>)
    requires envs == map id | id in d.projects && d.projects[id].Plain? :: Normal(d.projects[id].text)
    requires secrets == map id | id in d.tunnels && PlainTunnel(d.tunnels[id]) :: d.tunnels[id]
    ensures envs == map[] && secrets == map[] <==> !HasPlain(d)
  {
    if HasPlain(d) {
      if exists id :: id in d.projects && d.projects[id].Plain? {
        var id :| id in d.projects && d.projects[id].Plain?;
        assert id in envs;
      } else {
        var id :| id in d.tunnels && PlainTunnel(d.tunnels[id]);
        assert id in secrets;
      }
    }
  }
}
