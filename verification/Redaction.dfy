/** Masking a project's secret environment values and resolving the masks again. */
module Redaction {
  import opened Options
  import opened Strings

  const MASK := "********"


  type Env = map<string, string>

  /** A project as far as its environment goes.  `None` is a field that was not supplied. */
  datatype Project = Project(env: Option<Env>, keys: Option<seq<string>>)

  function Items(keys: seq<string>): set<string> {
    set k | k in keys
  }

  /** The set of keys a list classifies; a missing list classifies none. */
  function SecretSet(p: Project): set<string> {
    if p.keys.Some? then Items(p.keys.value) else {}
  }

  function EnvOf(p: Project): Env {
    if p.env.Some? then p.env.value else map[]
  }

  function Masked(env: Env, secrets: set<string>): Env {
    map k | k in env :: if k in secrets then MASK else env[k]
  }

  function Redacted(p: Project): Project {
    Project(if p.env.Some? then Some(Masked(p.env.value, SecretSet(p))) else None, p.keys)
  }

  // ---------------------------------------------------------------- resolving, key by key

  function Supplied(p: Project, existing: Option<Project>): Env {
    if p.env.Some? then p.env.value else if existing.Some? then EnvOf(existing.value) else map[]
  }

  function OldSecrets(existing: Option<Project>): set<string> {
    if existing.Some? then SecretSet(existing.value) else {}
  }

  predicate Known(existing: Option<Project>, k: string) {
    existing.Some? && k in EnvOf(existing.value)
  }

  function Classified(p: Project, existing: Option<Project>): set<string> {
    if p.keys.Some? then Items(p.keys.value)
    else set k | k in Supplied(p, existing) && (!Known(existing, k) || k in OldSecrets(existing))
  }

  /** What becomes of one variable. */
  function Resolved(value: string, secret: bool, wasSecret: bool, known: bool, before: string): Result<string> {
    if value != MASK then Ok(value)
    else if !secret && !wasSecret then Ok(value)
    else if wasSecret && known then Ok(before)
    else Err
  }

  function OldValue(existing: Option<Project>, k: string): string {
    if Known(existing, k) then EnvOf(existing.value)[k] else ""
  }

  function ResolvedKey(p: Project, existing: Option<Project>, k: string): Result<string>
    requires k in Supplied(p, existing)
  {
    Resolved(Supplied(p, existing)[k], k in Classified(p, existing), k in OldSecrets(existing),
             Known(existing, k), OldValue(existing, k))
  }

  ghost predicate Resolvable(p: Project, existing: Option<Project>) {
    && Classified(p, existing) <= Supplied(p, existing).Keys
    && forall k | k in Supplied(p, existing) :: ResolvedKey(p, existing, k).Ok?
  }

  ghost function Resolve(p: Project, existing: Option<Project>): Result<Project> {
    if !Resolvable(p, existing) then Err
    else Ok(Project(Some(map k | k in Supplied(p, existing) :: ResolvedKey(p, existing, k).value),
                    Some(Sorted(Classified(p, existing)))))
  }

  // ---------------------------------------------------------------- what an update means

  /** The variables of an accepted project: those of the request, or the stored ones when it leaves
      them out.  A mask stands for the stored value of a variable that was secret, also when it is
      secret no longer; anything else stands for itself. */
  ghost predicate ValuesMean(p: Project, e: Project, r: Project) {
    && r.env.Some?
    && (forall k :: k in EnvOf(r) <==> if p.env.Some? then k in p.env.value else k in EnvOf(e))
    && (p.env.None? ==> forall k | k in EnvOf(r) :: EnvOf(r)[k] == EnvOf(e)[k])
    && (p.env.Some? ==> forall k | k in p.env.value ::
          EnvOf(r)[k] == if p.env.value[k] == "********" && k in SecretSet(e) && k in EnvOf(e) then EnvOf(e)[k]
                         else p.env.value[k])
  }

  /** Its secrets: those of the list that was sent; without a list the variables that are new and
      those that were secret. */
  ghost predicate SecretsMean(p: Project, e: Project, r: Project) {
    && r.keys.Some? && Ascending(r.keys.value)
    && (p.keys.Some? ==> forall k :: k in SecretSet(r) <==> k in p.keys.value)
    && (p.keys.None? ==> forall k :: k in SecretSet(r) <==> k in EnvOf(r) && (k !in EnvOf(e) || k in SecretSet(e)))
  }

  /** The variable is secret after the update. */
  ghost predicate BecomesSecret(p: Project, e: Project, k: string) {
    if p.keys.Some? then k in p.keys.value else k !in EnvOf(e) || k in SecretSet(e)
  }

  /** A mask that stands for nothing: of a variable that is or was secret, without a stored secret
      value. */
  ghost predicate EmptyMask(p: Project, e: Project, k: string) {
    var env := if p.env.Some? then p.env.value else EnvOf(e);
    && k in env && env[k] == "********" && (BecomesSecret(p, e, k) || k in SecretSet(e))
    && !(k in SecretSet(e) && k in EnvOf(e))
  }

  /** An update is refused exactly when it lists a variable that it does not have or masks one
      that has no stored secret. */
  lemma UpdateMeans(p: Project, e: Project)
    ensures Resolve(p, Some(e)).Err? <==>
      || (p.keys.Some? && exists k :: k in p.keys.value && k !in (if p.env.Some? then p.env.value else EnvOf(e)))
      || (exists k :: EmptyMask(p, e, k))
    ensures Resolve(p, Some(e)).Ok? ==>
      ValuesMean(p, e, Resolve(p, Some(e)).value) && SecretsMean(p, e, Resolve(p, Some(e)).value)
  {
    var existing := Some(e);
    var env := if p.env.Some? then p.env.value else EnvOf(e);
    forall k | k in env
      ensures k in Classified(p, existing) <==> BecomesSecret(p, e, k)
      ensures ResolvedKey(p, existing, k).Err? <==> EmptyMask(p, e, k)
    {
    }
    if Resolve(p, existing).Ok? {
      var r := Resolve(p, existing).value;
      assert forall k :: k in Sorted(Classified(p, existing)) <==> k in Classified(p, existing);
    }
  }

  /** A new project keeps its values; its secrets are those it lists, or all of its variables. */
  lemma CreateMeans(p: Project)
    requires Resolve(p, None).Ok?
    ensures var r := Resolve(p, None).value;
      && r.env == Some(EnvOf(p)) && r.keys.Some? && Ascending(r.keys.value)
      && SecretSet(r) == if p.keys.Some? then Items(p.keys.value) else EnvOf(p).Keys
  {
    var r := Resolve(p, None).value;
    assert forall k :: k in Sorted(Classified(p, None)) <==> k in Classified(p, None);
    assert forall k | k in EnvOf(p) :: ResolvedKey(p, None, k) == Ok(EnvOf(p)[k]);
    assert r.env.value == EnvOf(p);
  }

  // ---------------------------------------------------------------- the pair undoes itself

  /** What the database may hold: only variables that exist are secret, and no secret value is
      the mask. */
  ghost predicate Sound(p: Project) {
    && p.env.Some?
    && SecretSet(p) <= EnvOf(p).Keys
    && forall k | k in SecretSet(p) :: EnvOf(p)[k] != MASK
  }

  /** Ways a redacted project comes back unedited: the environment may have been omitted, the
      classification omitted or, when empty, dropped on the way. */
  ghost predicate ComesBackAs(sent: Project, back: Project) {
    && (back.env == sent.env || back.env == None)
    && (back.keys == None || (back.keys.Some? && SecretSet(back) == SecretSet(sent)))
  }

  lemma RoundTrip(stored: Project, back: Project)
    requires Sound(stored) && ComesBackAs(Redacted(stored), back)
    ensures Resolve(back, Some(stored)).Ok?
    ensures var r := Resolve(back, Some(stored)).value;
      EnvOf(r) == EnvOf(stored) && SecretSet(r) == SecretSet(stored)
  {
    var existing := Some(stored);
    assert Supplied(back, existing).Keys == EnvOf(stored).Keys;
    assert Classified(back, existing) == SecretSet(stored);
    forall k | k in Supplied(back, existing)
      ensures ResolvedKey(back, existing, k) == Ok(EnvOf(stored)[k])
    {
      assert k in EnvOf(stored);
    }
    var r := Resolve(back, existing).value;
    assert forall k :: k in Sorted(SecretSet(stored)) <==> k in SecretSet(stored);
    assert SecretSet(r) == SecretSet(stored);
  }

  /** A new project is accepted exactly when it classifies only variables it has and gives every
      secret a value. */
  lemma CreateAcceptsIff(p: Project)
    ensures Resolve(p, None).Ok? <==>
      SecretSet(p) <= EnvOf(p).Keys
      && forall k | k in EnvOf(p) && (p.keys.None? || k in SecretSet(p)) :: EnvOf(p)[k] != MASK
  {
    assert Supplied(p, None) == EnvOf(p);
    assert forall k | k in EnvOf(p) ::
      ResolvedKey(p, None, k).Ok? <==> EnvOf(p)[k] != MASK || k !in Classified(p, None);
  }

  // ---------------------------------------------------------------- storing

  /** The row that is written and read back: a missing environment reads as empty, a missing
      classification means every key, and an empty one reads back as missing. */
  ghost function Persisted(p: Project): Project {
    var keys := if p.keys.Some? then p.keys.value else Sorted(EnvOf(p).Keys);
    Project(Some(EnvOf(p)), if keys == [] then None else Some(Sorted(Items(keys))))
  }

  lemma PersistedKeeps(p: Project)
    requires p.keys.Some?
    ensures EnvOf(Persisted(p)) == EnvOf(p) && SecretSet(Persisted(p)) == SecretSet(p)
    ensures Persisted(p).keys.None? <==> p.keys.value == []
  {
    var keys := p.keys.value;
    assert forall k :: k in Sorted(Items(keys)) <==> k in Items(keys);
    assert keys == [] ==> Items(keys) == {};
    assert SecretSet(Persisted(p)) == SecretSet(p);
  }

  /** A project stored without a classification reads back with every variable secret. */
  lemma UnclassifiedIsSecret(p: Project)
    requires p.keys.None?
    ensures EnvOf(Persisted(p)) == EnvOf(p) && SecretSet(Persisted(p)) == EnvOf(p).Keys
  {
    var keys := Sorted(EnvOf(p).Keys);
    assert forall k :: k in keys <==> k in EnvOf(p).Keys;
    assert Items(keys) == EnvOf(p).Keys;
    assert forall k :: k in Sorted(Items(keys)) <==> k in Items(keys);
  }

  lemma ResolvedIsSound(p: Project, existing: Option<Project>)
    requires existing.Some? ==> Sound(existing.value)
    requires Resolve(p, existing).Ok?
    ensures Sound(Persisted(Resolve(p, existing).value))
  {
    var r := Resolve(p, existing).value;
    PersistedKeeps(r);
    assert SecretSet(r) == Classified(p, existing) by {
      assert forall k :: k in Sorted(Classified(p, existing)) <==> k in Classified(p, existing);
    }
    forall k | k in SecretSet(r) ensures k in EnvOf(r) && EnvOf(r)[k] != MASK {
      assert ResolvedKey(p, existing, k).Ok?;
    }
  }

  /** The projects table under create (refused for an existing id), update (refused for a missing
      one) and import, which is either. */
  datatype Request = Create(id: string, p: Project) | Update(id: string, p: Project) | Import(id: string, p: Project)

  type Table = map<string, Project>

  function Existing(t: Table, id: string): Option<Project> {
    if id in t then Some(t[id]) else None
  }

  ghost function Upsert(t: Table, id: string, p: Project, existing: Option<Project>): Table {
    match Resolve(p, existing)
    case Err => t
    case Ok(r) => t[id := Persisted(r)]
  }

  ghost function Handle(t: Table, q: Request): Table {
    match q
    case Create(id, p) => if id in t then t else Upsert(t, id, p, None)
    case Update(id, p) => if id !in t then t else Upsert(t, id, p, Existing(t, id))
    case Import(id, p) => Upsert(t, id, p, Existing(t, id))
  }

  ghost function HandleAll(t: Table, qs: seq<Request>): Table {
    if qs == [] then t else Handle(HandleAll(t, qs[..|qs| - 1]), qs[|qs| - 1])
  }

  /** One request: a create only adds, an update only changes what is there, an import does either,
      what is refused changes nothing, and no other row is touched. */
  lemma HandleMeans(t: Table, q: Request)
    ensures var u := Handle(t, q);
      && (forall id | id in t && id != q.id :: id in u && u[id] == t[id])
      && (forall id | id in u :: id in t || id == q.id)
      && ((q.Create? && q.id in t) || (q.Update? && q.id !in t) ==> u == t)
      && (q.id !in t ==> (q.id in u <==> !q.Update? && Resolve(q.p, None).Ok?))
      && (q.id in t && !q.Create? && Resolve(q.p, Some(t[q.id])).Ok? ==>
            EnvOf(u[q.id]) == EnvOf(Resolve(q.p, Some(t[q.id])).value)
            && SecretSet(u[q.id]) == SecretSet(Resolve(q.p, Some(t[q.id])).value))
      && (q.id in t && !q.Create? && Resolve(q.p, Some(t[q.id])).Err? ==> u == t)
      && (q.id in u && u != t ==> u[q.id].env.Some? && u[q.id].keys != Some([]))
  {
    var existing := if q.Create? then None else Existing(t, q.id);
    if Resolve(q.p, existing).Ok? {
      PersistedKeeps(Resolve(q.p, existing).value);
    }
  }

  ghost predicate SoundTable(t: Table) {
    forall id | id in t :: Sound(t[id])
  }

  lemma HandleIsSound(t: Table, q: Request)
    requires SoundTable(t)
    ensures SoundTable(Handle(t, q))
  {
    var existing := if q.Create? then None else Existing(t, q.id);
    if Resolve(q.p, existing).Ok? {
      ResolvedIsSound(q.p, existing);
    }
  }

  /** Over every sequence of creates, updates and imports, secrets stay among the variables and
      no stored secret is the mask. */
  lemma {:induction false} TableStaysSound(t: Table, qs: seq<Request>)
    requires SoundTable(t)
    ensures SoundTable(HandleAll(t, qs))
  {
    if qs != [] {
      TableStaysSound(t, qs[..|qs| - 1]);
      HandleIsSound(HandleAll(t, qs[..|qs| - 1]), qs[|qs| - 1]);
    }
  }

  /** Reading a project and sending it back unedited changes nothing in the table. */
  lemma EditWithoutChange(t: Table, id: string, back: Project)
    requires SoundTable(t) && id in t && ComesBackAs(Redacted(t[id]), back)
    ensures var u := Handle(t, Update(id, back));
      && u.Keys == t.Keys
      && (forall other | other in t && other != id :: u[other] == t[other])
      && EnvOf(u[id]) == EnvOf(t[id]) && SecretSet(u[id]) == SecretSet(t[id])
  {
    RoundTrip(t[id], back);
    PersistedKeeps(Resolve(back, Some(t[id])).value);
  }

  // ---------------------------------------------------------------- declassification

  ghost function Declassified(existing: Project, updated: Project): seq<string> {
    Sorted(set k | k in SecretSet(existing) && k in EnvOf(updated) && k !in SecretSet(updated))
  }

  /** A value that used to be masked is readable after an update only if its key is reported. */
  lemma NothingRevealedSilently(existing: Project, p: Project, k: string)
    requires Sound(existing) && k in SecretSet(existing) && Resolve(p, Some(existing)).Ok?
    ensures var r := Resolve(p, Some(existing)).value;
      k in EnvOf(r) && EnvOf(Redacted(r))[k] == EnvOf(existing)[k] ==> k in Declassified(existing, r)
  {
    var r := Resolve(p, Some(existing)).value;
    var freed := set k | k in SecretSet(existing) && k in EnvOf(r) && k !in SecretSet(r);
    assert k in Sorted(freed) <==> k in freed;
  }

  // ---------------------------------------------------------------- the code

  /** A project in memory. */
  class Record {
    var envVars: Option<Env>
    var secretEnvKeys: Option<seq<string>>

    constructor (p: Project)
      ensures View() == p
    {
      envVars, secretEnvKeys := p.env, p.keys;
    }

    function View(): Project
      reads this
    {
      Project(envVars, secretEnvKeys)
    }
  }

  function ViewOf(r: Record?): Option<Project>
    reads r
  {
    if r == null then None else Some(r.View())
  }

  method SecretEnvKeySet(keys: Option<seq<string>>) returns (s: set<string>)
    ensures s == if keys.Some? then Items(keys.value) else {}
  {
    s := {};
    if keys.Some? {
      for i := 0 to |keys.value|
        invariant s == Items(keys.value[..i])
      {
        assert keys.value[..i + 1] == keys.value[..i] + [keys.value[i]];
        s := s + {keys.value[i]};
      }
      assert keys.value[..|keys.value|] == keys.value;
    }
  }

  method RedactedEnvVars(p: Project) returns (masked: Option<Env>)
    ensures masked == Redacted(p).env
    ensures masked.None? <==> p.env.None?
    ensures masked.Some? ==> masked.value.Keys == p.env.value.Keys
    ensures masked.Some? ==> forall k | k in masked.value ::
      masked.value[k] == if k in SecretSet(p) then "********" else p.env.value[k]
  {
    if p.env.None? {
      return None;
    }
    var env := p.env.value;
    var secrets := SecretEnvKeySet(p.keys);
    var m: Env := map[];
    var left := env.Items;
    while left != {}
      invariant left <= env.Items
      invariant forall k | k in env :: (k, env[k]) in left || k in m
      invariant forall k | k in m :: k in env && m[k] == if k in secrets then MASK else env[k]
    {
      var item :| item in left;
      var value := item.1;
      if item.0 in secrets {
        value := MASK;
      }
      m := m[item.0 := value];
      left := left - {item};
    }
    assert m == Masked(env, SecretSet(p));
    masked := Some(m);
  }

  ghost predicate AllListedExist(p: Project) {
    p.keys.None? || forall k | k in p.keys.value :: k in EnvOf(p)
  }

  /** The listed variables, or those that are new or were secret. */
  ghost predicate Chosen(p: Project, existing: Option<Project>, secrets: set<string>) {
    forall k :: k in secrets <==>
      if p.keys.Some? then k in p.keys.value
      else k in EnvOf(p) && (existing.None? || k !in EnvOf(existing.value) || k in SecretSet(existing.value))
  }

  /** Fills in what the request leaves out: the environment, then the classification. */
  method Classify(p: Record, existing: Record?) returns (ok: bool, secrets: set<string>)
    requires p != existing && p.envVars.Some?
    ensures ok <==> Classified(p.View(), ViewOf(existing)) <= p.envVars.value.Keys
    ensures ok ==> secrets == Classified(p.View(), ViewOf(existing))
    ensures ok <==> AllListedExist(p.View())
    ensures ok ==> Chosen(p.View(), ViewOf(existing), secrets)
  {
    secrets := {};
    if p.secretEnvKeys.None? {
      var oldSecrets: set<string> := {};
      if existing != null {
        oldSecrets := SecretEnvKeySet(existing.secretEnvKeys);
      }
      var left := p.envVars.value.Keys;
      while left != {}
        invariant left <= p.envVars.value.Keys
        invariant secrets == set k | k in Classified(p.View(), ViewOf(existing)) && k !in left
      {
        var k :| k in left;
        if !Known(ViewOf(existing), k) || k in oldSecrets {
          secrets := secrets + {k};
        }
        left := left - {k};
      }
      return true, secrets;
    }
    var keys := p.secretEnvKeys.value;
    for i := 0 to |keys|
      invariant secrets == Items(keys[..i]) && secrets <= p.envVars.value.Keys
    {
      assert keys[..i + 1] == keys[..i] + [keys[i]];
      if keys[i] !in p.envVars.value {
        assert keys[i] in Items(keys);
        return false, {};
      }
      secrets := secrets + {keys[i]};
    }
    assert keys[..|keys|] == keys;
    ok := true;
  }

  lemma Unclassifiable(p: Project, existing: Option<Project>)
    requires !(Classified(p, existing) <= Supplied(p, existing).Keys)
    ensures Resolve(p, existing).Err?
  {
  }

  lemma Unresolvable(p: Project, existing: Option<Project>, k: string)
    requires k in Supplied(p, existing) && ResolvedKey(p, existing, k).Err?
    ensures Resolve(p, existing).Err?
  {
  }

  lemma KeyOutcome(p: Project, existing: Option<Project>, k: string)
    requires k in Supplied(p, existing)
    ensures ResolvedKey(p, existing, k) == Resolved(Supplied(p, existing)[k], k in Classified(p, existing),
                                                    k in OldSecrets(existing),
                                                    Known(existing, k), OldValue(existing, k))
  {
  }

  lemma AllResolved(p: Project, existing: Option<Project>, env: Env)
    requires Classified(p, existing) <= Supplied(p, existing).Keys && env.Keys == Supplied(p, existing).Keys
    requires forall k | k in env :: ResolvedKey(p, existing, k) == Ok(env[k])
    ensures Resolve(p, existing) == Ok(Project(Some(env), Some(Sorted(Classified(p, existing)))))
  {
    assert env == map k | k in Supplied(p, existing) :: ResolvedKey(p, existing, k).value;
  }

  method ResolveProjectSecrets(p: Record, existing: Record?) returns (ok: bool)
    requires p != existing
    modifies p
    ensures ok <==> Resolve(old(p.View()), old(ViewOf(existing))).Ok?
    ensures ok ==> p.View() == Resolve(old(p.View()), old(ViewOf(existing))).value
  {
    hide Resolve, ResolvedKey, Chosen, AllListedExist;
    ghost var was, e := p.View(), ViewOf(existing);
    if p.envVars.None? {
      p.envVars := Some(if existing != null then EnvOf(existing.View()) else map[]);
    }
    var env := p.envVars.value;
    var desired: set<string>;
    ok, desired := Classify(p, existing);
    if !ok {
      Unclassifiable(was, e);
      return;
    }
    var oldSecrets: set<string> := {};
    if existing != null {
      oldSecrets := SecretEnvKeySet(existing.secretEnvKeys);
    }
    assert env == Supplied(was, e) && desired == Classified(was, e) && oldSecrets == OldSecrets(e);
    hide Supplied, Classified, OldSecrets;
    var left := env.Keys;
    while left != {}
      invariant left <= env.Keys && ViewOf(existing) == e
      invariant p.envVars.Some? && p.envVars.value.Keys == env.Keys
      invariant forall k | k in env && k in left :: p.envVars.value[k] == env[k]
      invariant forall k | k in env && k !in left :: ResolvedKey(was, e, k) == Ok(p.envVars.value[k])
    {
      var k :| k in left;
      left := left - {k};
      KeyOutcome(was, e, k);
      if p.envVars.value[k] == MASK {
        if k !in desired {
          if existing != null && k in oldSecrets {
            if k !in EnvOf(existing.View()) {
              Unresolvable(was, e, k);
              return false;
            }
            p.envVars := Some(p.envVars.value[k := EnvOf(existing.View())[k]]);
          }
        } else {
          if existing == null || k !in oldSecrets || k !in EnvOf(existing.View()) {
            Unresolvable(was, e, k);
            return false;
          }
          p.envVars := Some(p.envVars.value[k := EnvOf(existing.View())[k]]);
        }
      }
    }
    AllResolved(was, e, p.envVars.value);
    var keys := Sort(desired);
    p.secretEnvKeys := Some(keys);
  }

  method DeclassifiedSecretEnvKeys(existing: Project, updated: Project) returns (keys: seq<string>)
    ensures keys == Declassified(existing, updated) && Ascending(keys)
    ensures forall k :: k in keys <==> k in SecretSet(existing) && k in EnvOf(updated) && k !in SecretSet(updated)
  {
    var oldSecrets := SecretEnvKeySet(existing.keys);
    var newSecrets := SecretEnvKeySet(updated.keys);
    var freed: set<string> := {};
    var left := oldSecrets;
    while left != {}
      invariant left <= oldSecrets
      invariant freed == set k | k in oldSecrets && k !in left && k in EnvOf(updated) && k !in newSecrets
    {
      var k :| k in left;
      if k in EnvOf(updated) && k !in newSecrets {
        freed := freed + {k};
      }
      left := left - {k};
    }
    assert freed == set k | k in SecretSet(existing) && k in EnvOf(updated) && k !in SecretSet(updated);
    keys := Sort(freed);
  }
}
