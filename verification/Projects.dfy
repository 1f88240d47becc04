/** Validation and defaulting of a project, which an import runs twice. */
module Projects {
  import opened Options
  import opened Paths
  import Strings

  datatype Volume = Volume(host: string, container: string, readOnly: bool)

  /** `rest` stands for the fields defaulting does not look at: ports, platform, extra options. */
  datatype Service = Service(name: string, image: string, tag: string, polled: bool, pullPolicy: string,
                             volumes: seq<Volume>, rest: string)

  datatype Backup = Backup(service: string, command: string, output: string)

  type Env = map<string, string>

  /** A parsed custom_compose document. */
  datatype Custom = Custom(image: string, tag: string, pullPolicy: string, volumes: seq<Volume>, rest: string,
                           services: seq<Service>, env: Env)

  type Parser = string -> Option<Custom>

  datatype Mode = Form | CustomMode | OtherMode

  /** `image`, `tag`, `volumes` and `rest` are the legacy single-service fields. */
  datatype Project = Project(id: string, tag: string, poll: int, stack: string, services: seq<Service>,
                             image: string, volumes: seq<Volume>, rest: string,
                             mode: Mode, compose: string, env: Option<Env>, backup: Option<Backup>)

  // ---------------------------------------------------------------- specification, stage by stage

  function Or(s: string, fallback: string): string {
    if s == "" then fallback else s
  }

  function Filled(p: Project, root: string): Project {
    p.(tag := Or(p.tag, "latest"), poll := if p.poll <= 0 then 300 else p.poll, stack := Or(p.stack, root + "/" + p.id))
  }

  function FromLegacy(p: Project): Project {
    if p.services == [] && p.image != "" then
      p.(services := [Service(p.id, p.image, p.tag, true, "", p.volumes, p.rest)])
    else p
  }

  function CustomServices(p: Project, c: Custom): seq<Service> {
    if c.services != [] then c.services
    else if c.image != "" then [Service(p.id, c.image, Or(c.tag, "latest"), true, c.pullPolicy, c.volumes, c.rest)]
    else p.services
  }

  function WithEnv(env: Option<Env>, extra: Env): Option<Env> {
    if extra == map[] then env else if env.None? then Some(extra) else Some(env.value + extra)
  }

  function FromCustom(p: Project, parse: Parser): Project {
    if p.mode != CustomMode || p.compose == "" || p.services != [] then p
    else
      var q :=
        match parse(p.compose)
        case None => p
        case Some(c) => p.(services := CustomServices(p, c), env := WithEnv(p.env, c.env));
      q.(mode := Form, compose := "")
  }

  function DefaultVolume(v: Volume, stack: string): Volume {
    v.(host := NormaliseVolumeHostPath(v.host, stack))
  }

  function DefaultVolumes(vs: seq<Volume>, stack: string): seq<Volume> {
    seq(|vs|, i requires 0 <= i < |vs| => DefaultVolume(vs[i], stack))
  }

  function DefaultService(s: Service, stack: string): Service {
    s.(tag := Or(s.tag, "latest"), pullPolicy := Or(s.pullPolicy, "always"),
      volumes := DefaultVolumes(s.volumes, stack))
  }

  function DefaultServices(ss: seq<Service>, stack: string): seq<Service> {
    seq(|ss|, i requires 0 <= i < |ss| => DefaultService(ss[i], stack))
  }

  predicate AllNamed(ss: seq<Service>) {
    forall i | 0 <= i < |ss| :: ss[i].name != ""
  }

  /** The first service of that name. */
  function Target(ss: seq<Service>, name: string): (k: nat)
    ensures k <= |ss|
    ensures k < |ss| ==> ss[k].name == name
    ensures forall i | 0 <= i < k :: ss[i].name != name
  {
    if ss == [] || ss[0].name == name then 0
    else
      assert ss == [ss[0]] + ss[1..];
      1 + Target(ss[1..], name)
  }

  predicate Mounted(vs: seq<Volume>, output: string) {
    exists i :: 0 <= i < |vs| && Clean(vs[i].container) == Clean(output)
  }

  predicate GoodBackup(b: Backup, ss: seq<Service>) {
    b.service != "" && b.command != "" && b.output != "" && Rooted(b.output) && Target(ss, b.service) < |ss|
  }

  function Injected(p: Project): Result<Project> {
    if p.backup.None? then Ok(p)
    else
      var b := p.backup.value;
      if !GoodBackup(b, p.services) then Err
      else
        var k := Target(p.services, b.service);
        var s := p.services[k];
        if Mounted(s.volumes, b.output) then Ok(p)
        else Ok(p.(services := p.services[k := s.(volumes := s.volumes + [Volume("backups", b.output, false)])]))
  }

  function Converted(p: Project, root: string, parse: Parser): Project {
    FromCustom(FromLegacy(Filled(p, root)), parse)
  }

  function Defaulted(p: Project, isNew: bool, root: string, parse: Parser): Result<Project> {
    if isNew && (p.id == "" || !Strings.ValidId(p.id)) then Err
    else
      var q := Converted(p, root, parse);
      if !AllNamed(q.services) then Err
      else Injected(q.(services := DefaultServices(q.services, q.stack)))
  }

  // ---------------------------------------------------------------- what each stage does

  /** Missing values of the project itself are filled in; nothing else of it changes but what a
      conversion consumes. */
  lemma FieldsFilled(p: Project, root: string, parse: Parser)
    ensures var c := Converted(p, root, parse);
      && c.id == p.id && c.image == p.image && c.volumes == p.volumes && c.rest == p.rest && c.backup == p.backup
      && c.tag == (if p.tag == "" then "latest" else p.tag)
      && c.poll == (if p.poll <= 0 then 300 else p.poll)
      && c.stack == (if p.stack == "" then root + "/" + p.id else p.stack)
  {
  }

  /** The one service that stands for single-service fields. */
  predicate Single(ss: seq<Service>, name: string, image: string, tag: string, pullPolicy: string,
                   volumes: seq<Volume>, rest: string) {
    && |ss| == 1 && ss[0].name == name && ss[0].image == image && ss[0].tag == tag && ss[0].polled
    && ss[0].pullPolicy == pullPolicy && ss[0].volumes == volumes && ss[0].rest == rest
  }

  /** Services given as such are kept; otherwise those of the legacy fields, and otherwise those of
      the custom document, as a list or as one service. */
  lemma ServicesConverted(p: Project, root: string, parse: Parser)
    ensures var ss := Converted(p, root, parse).services;
      var custom := p.mode == CustomMode && p.compose != "" && parse(p.compose).Some?;
      if p.services != [] then ss == p.services
      else if p.image != "" then
        Single(ss, p.id, p.image, if p.tag == "" then "latest" else p.tag, "", p.volumes, p.rest)
      else if custom && parse(p.compose).value.services != [] then ss == parse(p.compose).value.services
      else if custom && parse(p.compose).value.image != "" then
        var c := parse(p.compose).value;
        Single(ss, p.id, c.image, if c.tag == "" then "latest" else c.tag, c.pullPolicy, c.volumes, c.rest)
      else ss == []
  {
  }

  /** A custom project without services of its own becomes a form project, with the variables of its
      document over its own; any other keeps mode, document and variables. */
  lemma CustomConverted(p: Project, root: string, parse: Parser)
    ensures var c := Converted(p, root, parse);
      if p.mode == CustomMode && p.compose != "" && p.services == [] && p.image == "" then
        && c.mode == Form && c.compose == ""
        && (parse(p.compose).None? ==> c.env == p.env)
        && (parse(p.compose).Some? ==>
              var extra := parse(p.compose).value.env; var own := if p.env.Some? then p.env.value else map[];
              && (c.env.None? <==> p.env.None? && extra == map[])
              && (c.env.Some? ==> forall k ::
                    (k in c.env.value <==> k in own || k in extra)
                    && (k in c.env.value ==> c.env.value[k] == if k in extra then extra[k] else own[k])))
      else c.mode == p.mode && c.compose == p.compose && c.env == p.env
  {
  }

  /** What becomes of one service: tag and pull policy default, host paths are normalised, and the
      rest is as it was, up to volumes added behind. */
  predicate ServiceKept(before: Service, after: Service, stack: string) {
    && after.name == before.name && after.image == before.image && after.polled == before.polled
    && after.rest == before.rest
    && after.tag == (if before.tag == "" then "latest" else before.tag)
    && after.pullPolicy == (if before.pullPolicy == "" then "always" else before.pullPolicy)
    && |after.volumes| >= |before.volumes|
    && forall j | 0 <= j < |before.volumes| ::
         after.volumes[j] == before.volumes[j].(host := NormaliseVolumeHostPath(before.volumes[j].host, stack))
  }

  /** Some volume of the service is mounted at the output directory already. */
  predicate WiredUp(s: Service, output: string) {
    exists j :: 0 <= j < |s.volumes| && Clean(s.volumes[j].container) == Clean(output)
  }

  /** The service is the first of that name. */
  predicate FirstNamed(ss: seq<Service>, k: nat, name: string) {
    k < |ss| && ss[k].name == name && forall i | 0 <= i < k :: ss[i].name != name
  }

  lemma InjectedAt(p: Project, i: nat)
    requires Injected(p).Ok? && i < |p.services|
    ensures var q := Injected(p).value; var s := p.services[i];
      && q == p.(services := q.services) && |q.services| == |p.services|
      && q.services[i] ==
           if p.backup.Some? && FirstNamed(p.services, i, p.backup.value.service) && !WiredUp(s, p.backup.value.output)
           then s.(volumes := s.volumes + [Volume("backups", p.backup.value.output, false)]) else s
  {
    hide Clean;
    if p.backup.Some? {
      TargetIsFirst(p.services, i, p.backup.value.service);
      MountedIs(p.services[i], p.backup.value.output);
    }
  }

  lemma TargetIsFirst(ss: seq<Service>, i: nat, name: string)
    requires i < |ss|
    ensures Target(ss, name) == i <==> FirstNamed(ss, i, name)
  {
  }

  lemma MountedIs(s: Service, output: string)
    ensures Mounted(s.volumes, output) <==> WiredUp(s, output)
  {
    if Mounted(s.volumes, output) {
      var j :| 0 <= j < |s.volumes| && Clean(s.volumes[j].container) == Clean(output);
    }
  }

  lemma DefaultedAlike(ss: seq<Service>, stack: string, i: nat, name: string, output: string)
    requires i < |ss|
    ensures var ds := DefaultServices(ss, stack);
      && |ds| == |ss| && ServiceKept(ss[i], ds[i], stack) && |ds[i].volumes| == |ss[i].volumes|
      && (FirstNamed(ds, i, name) <==> FirstNamed(ss, i, name)) && (WiredUp(ds[i], output) <==> WiredUp(ss[i], output))
  {
    hide Clean, NormaliseVolumeHostPath;
    var ds := DefaultServices(ss, stack);
    forall k | 0 <= k < |ss| ensures ds[k].name == ss[k].name {
    }
    forall j | 0 <= j < |ss[i].volumes| ensures ds[i].volumes[j].container == ss[i].volumes[j].container {
    }
  }

  /** Only the service that is backed up gains a volume, and only when nothing is mounted there. */
  lemma ServicesDefaulted(p: Project, isNew: bool, root: string, parse: Parser, i: nat)
    requires Defaulted(p, isNew, root, parse).Ok? && i < |Converted(p, root, parse).services|
    ensures var q, c := Defaulted(p, isNew, root, parse).value, Converted(p, root, parse);
      && q == c.(services := q.services) && |q.services| == |c.services|
      && ServiceKept(c.services[i], q.services[i], c.stack)
      && (if p.backup.Some? && FirstNamed(c.services, i, p.backup.value.service)
             && !WiredUp(c.services[i], p.backup.value.output)
          then |q.services[i].volumes| == |c.services[i].volumes| + 1
               && q.services[i].volumes[|c.services[i].volumes|] == Volume("backups", p.backup.value.output, false)
          else |q.services[i].volumes| == |c.services[i].volumes|)
  {
    hide NormaliseVolumeHostPath, Converted, Clean, Injected, DefaultServices, FirstNamed, WiredUp;
    FieldsFilled(p, root, parse);
    var c := Converted(p, root, parse);
    var name, output := if p.backup.Some? then p.backup.value.service else "",
                        if p.backup.Some? then p.backup.value.output else "";
    DefaultedAlike(c.services, c.stack, i, name, output);
    InjectedAt(c.(services := DefaultServices(c.services, c.stack)), i);
  }

  /** When a project is accepted: a new one needs an id of lower-case letters, digits and inner
      hyphens, every service a name, and a backup its three fields, an absolute output directory and
      a service of that name. */
  lemma AcceptedIff(p: Project, isNew: bool, root: string, parse: Parser)
    ensures var c := Converted(p, root, parse);
      Defaulted(p, isNew, root, parse).Ok? <==>
        && (isNew ==>
              && p.id != "" && p.id[0] != '-' && p.id[|p.id| - 1] != '-'
              && forall i | 0 <= i < |p.id| :: 'a' <= p.id[i] <= 'z' || '0' <= p.id[i] <= '9' || p.id[i] == '-')
        && (forall i | 0 <= i < |c.services| :: c.services[i].name != "")
        && (p.backup.Some? ==>
              var b := p.backup.value;
              && b.service != "" && b.command != "" && b.output != "" && b.output[0] == '/'
              && exists i :: 0 <= i < |c.services| && c.services[i].name == b.service)
  {
    hide NormaliseVolumeHostPath, Converted;
    FieldsFilled(p, root, parse);
    var c := Converted(p, root, parse);
    var d := c.(services := DefaultServices(c.services, c.stack));
    if p.backup.Some? {
      var k := Target(d.services, p.backup.value.service);
      assert k < |d.services| ==> c.services[k].name == p.backup.value.service;
      forall i | 0 <= i < |c.services| ensures d.services[i].name == c.services[i].name {
      }
    }
  }

  // ---------------------------------------------------------------- running it twice

  lemma DefaultServiceTwice(s: Service, stack: string)
    ensures DefaultService(DefaultService(s, stack), stack) == DefaultService(s, stack)
  {
    var once := DefaultService(s, stack);
    forall i | 0 <= i < |s.volumes|
      ensures DefaultVolume(once.volumes[i], stack) == once.volumes[i]
    {
      NormaliseIdempotent(s.volumes[i].host, stack);
    }
    assert DefaultVolumes(once.volumes, stack) == once.volumes;
  }

  lemma PlainNameClean(c: string)
    requires Name(c) && c != ".."
    ensures Clean(c) == c && !Rooted(c)
  {
    assert c[0] in c;
    CompsOfName(c, "");
    assert "" + c == c;
    FoldPlain(false, [], [c]);
    assert [] + [c] == [c];
  }

  lemma BackupsIsNormal(stack: string)
    ensures NormaliseVolumeHostPath("backups", stack) == "backups"
  {
    hide Clean;
    PlainNameClean("backups");
  }

  /** What the stages establish and later ones keep. */
  ghost predicate Settled(p: Project, root: string) {
    && p == Filled(p, root) && p == FromLegacy(p)
    && (p.mode == CustomMode && p.compose != "" ==> p.services != [])
    && AllNamed(p.services)
    && (forall i | 0 <= i < |p.services| :: DefaultService(p.services[i], p.stack) == p.services[i])
  }

  lemma DefaultedSettles(p: Project, root: string, parse: Parser)
    requires AllNamed(Converted(p, root, parse).services)
    ensures var q := Converted(p, root, parse);
      Settled(q.(services := DefaultServices(q.services, q.stack)), root)
  {
    var q := Converted(p, root, parse);
    var r := DefaultServices(q.services, q.stack);
    forall i | 0 <= i < |r| ensures DefaultService(r[i], q.stack) == r[i] && r[i].name != "" {
      DefaultServiceTwice(q.services[i], q.stack);
    }
    assert q.services == [] <==> r == [];
  }

  lemma InjectedSettles(p: Project, root: string)
    requires Settled(p, root) && Injected(p).Ok?
    ensures var q := Injected(p).value; Settled(q, root) && Injected(q) == Ok(q)
  {
    hide NormaliseVolumeHostPath;
    if p.backup.Some? {
      var b := p.backup.value;
      var k := Target(p.services, b.service);
      var s := p.services[k];
      if !Mounted(s.volumes, b.output) {
        var q := Injected(p).value;
        var extra := Volume("backups", b.output, false);
        assert q.services[k].volumes[|s.volumes|] == extra;
        assert Mounted(q.services[k].volumes, b.output);
        assert Target(q.services, b.service) == k by {
          var j := Target(q.services, b.service);
          assert forall i | 0 <= i < k :: q.services[i].name != b.service;
        }
        BackupsIsNormal(p.stack);
        assert DefaultVolumes(q.services[k].volumes, p.stack) == q.services[k].volumes by {
          assert DefaultVolumes(s.volumes, p.stack) == s.volumes;
        }
        assert DefaultService(q.services[k], p.stack) == q.services[k];
      }
    }
  }

  lemma SettledStays(p: Project, isNew: bool, root: string, parse: Parser)
    requires Settled(p, root) && Injected(p) == Ok(p) && (isNew ==> Strings.ValidId(p.id))
    ensures Defaulted(p, isNew, root, parse) == Ok(p)
  {
    assert Converted(p, root, parse) == p;
    assert DefaultServices(p.services, p.stack) == p.services;
  }

  /** A second pass over an accepted project accepts it and changes nothing. */
  lemma DefaultingIdempotent(p: Project, isNew: bool, root: string, parse: Parser)
    requires Defaulted(p, isNew, root, parse).Ok?
    ensures var q := Defaulted(p, isNew, root, parse).value; Defaulted(q, isNew, root, parse) == Ok(q)
  {
    DefaultedSettles(p, root, parse);
    var q := Converted(p, root, parse);
    InjectedSettles(q.(services := DefaultServices(q.services, q.stack)), root);
    SettledStays(Defaulted(p, isNew, root, parse).value, isNew, root, parse);
  }

  /** The volumes the project came with stay where they were, service by service and in order;
      at most the backup mount is added behind them. */
  lemma VolumesStay(p: Project, isNew: bool, root: string, parse: Parser, i: nat, j: nat)
    requires Defaulted(p, isNew, root, parse).Ok?
    requires i < |Converted(p, root, parse).services| && j < |Converted(p, root, parse).services[i].volumes|
    ensures var q, c := Defaulted(p, isNew, root, parse).value, Converted(p, root, parse);
      && |q.services| == |c.services| && q.stack == c.stack != ""
      && |c.services[i].volumes| <= |q.services[i].volumes| <= |c.services[i].volumes| + 1
      && Resolve(q.services[i].volumes[j].host, q.stack) == Clean(Resolve(c.services[i].volumes[j].host, q.stack))
      && q.services[i].volumes[j].container == c.services[i].volumes[j].container
  {
    var c := Converted(p, root, parse);
    assert |root + "/" + p.id| > 0;
    var d := c.(services := DefaultServices(c.services, c.stack));
    InjectedShape(d, i);
    assert d.services[i].volumes[j] == DefaultVolume(c.services[i].volumes[j], c.stack);
    NormaliseKeepsMeaning(c.services[i].volumes[j].host, c.stack);
  }

  lemma InjectedShape(p: Project, i: nat)
    requires Injected(p).Ok? && i < |p.services|
    ensures var q := Injected(p).value;
      && |q.services| == |p.services| && q.stack == p.stack
      && p.services[i].volumes <= q.services[i].volumes
      && |q.services[i].volumes| <= |p.services[i].volumes| + 1
  {
  }

  /** An accepted backup has its output directory mounted in the service it names. */
  lemma BackupIsMounted(p: Project, isNew: bool, root: string, parse: Parser)
    requires Defaulted(p, isNew, root, parse).Ok? && p.backup.Some?
    ensures var q := Defaulted(p, isNew, root, parse).value; var b := p.backup.value;
      && q.backup == p.backup
      && exists i :: (0 <= i < |q.services| && q.services[i].name == b.service
           && Mounted(q.services[i].volumes, b.output))
  {
    var c := Converted(p, root, parse);
    InjectedMounts(c.(services := DefaultServices(c.services, c.stack)));
  }

  lemma InjectedMounts(p: Project)
    requires Injected(p).Ok? && p.backup.Some?
    ensures var q := Injected(p).value; var b := p.backup.value; var k := Target(p.services, b.service);
      && k < |q.services| && q.services[k].name == b.service && Mounted(q.services[k].volumes, b.output)
  {
    var q, b := Injected(p).value, p.backup.value;
    var k := Target(p.services, b.service);
    var vs := p.services[k].volumes;
    if !Mounted(vs, b.output) {
      assert q.services[k].volumes[|vs|].container == b.output;
    }
  }

  // ---------------------------------------------------------------- the code

  /** A project being edited in place. */
  class Draft {
    var p: Project

    constructor (initial: Project)
      ensures p == initial
    {
      p := initial;
    }

    method FillDefaults(root: string)
      modifies this
      ensures p == Filled(old(p), root)
    {
      if p.tag == "" {
        p := p.(tag := "latest");
      }
      if p.poll <= 0 {
        p := p.(poll := 300);
      }
      if p.stack == "" {
        p := p.(stack := root + "/" + p.id);
      }
    }

    method ConvertLegacy()
      modifies this
      ensures p == FromLegacy(old(p))
    {
      if |p.services| == 0 && p.image != "" {
        p := p.(services := [Service(p.id, p.image, p.tag, true, "", p.volumes, p.rest)]);
      }
    }

    method MergeEnv(extra: Env)
      modifies this
      ensures p == old(p).(env := WithEnv(old(p).env, extra))
    {
      if extra == map[] {
        return;
      }
      var env := if p.env.Some? then p.env.value else map[];
      var start := env;
      var left := extra.Items;
      while left != {}
        invariant left <= extra.Items && p == old(p)
        invariant env.Keys == start.Keys + set k | k in extra && (k, extra[k]) !in left
        invariant forall k | k in env ::
          env[k] == if k in extra && (k, extra[k]) !in left then extra[k] else if k in start then start[k] else ""
      {
        var item :| item in left;
        env := env[item.0 := item.1];
        left := left - {item};
      }
      assert env == start + extra;
      assert start == map[] ==> env == extra;
      p := p.(env := Some(env));
    }

    method ConvertCustom(parse: Parser)
      modifies this
      ensures p == FromCustom(old(p), parse)
    {
      if p.mode == CustomMode && p.compose != "" && |p.services| == 0 {
        var parsed := parse(p.compose);
        if parsed.Some? {
          var c := parsed.value;
          if |c.services| > 0 {
            p := p.(services := c.services);
          } else if c.image != "" {
            var tag := c.tag;
            if tag == "" {
              tag := "latest";
            }
            p := p.(services := [Service(p.id, c.image, tag, true, c.pullPolicy, c.volumes, c.rest)]);
          }
          MergeEnv(c.env);
        }
        p := p.(mode := Form, compose := "");
      }
    }

    method DefaultOneService(i: nat)
      requires i < |p.services|
      modifies this
      ensures p == old(p).(services := old(p).services[i := DefaultService(old(p).services[i], old(p).stack)])
    {
      var s := p.services[i];
      if s.tag == "" {
        s := s.(tag := "latest");
      }
      if s.pullPolicy == "" {
        s := s.(pullPolicy := "always");
      }
      var vs := s.volumes;
      for j := 0 to |vs|
        invariant |vs| == |s.volumes| && p == old(p)
        invariant forall k | 0 <= k < |vs| ::
          vs[k] == if k < j then DefaultVolume(s.volumes[k], p.stack) else s.volumes[k]
      {
        vs := vs[j := vs[j].(host := NormaliseVolumeHostPath(vs[j].host, p.stack))];
      }
      assert vs == DefaultVolumes(s.volumes, p.stack);
      p := p.(services := p.services[i := s.(volumes := vs)]);
    }

    method ValidateServices() returns (ok: bool)
      modifies this
      ensures ok <==> AllNamed(old(p).services)
      ensures ok ==> p == old(p).(services := DefaultServices(old(p).services, old(p).stack))
    {
      ghost var ss, stack := p.services, p.stack;
      for i := 0 to |p.services|
        invariant p == old(p).(services := p.services) && |p.services| == |ss|
        invariant forall k | 0 <= k < i :: ss[k].name != "" && p.services[k] == DefaultService(ss[k], stack)
        invariant forall k | i <= k < |ss| :: p.services[k] == ss[k]
      {
        if p.services[i].name == "" {
          return false;
        }
        DefaultOneService(i);
      }
      assert p.services == DefaultServices(ss, stack);
      ok := true;
    }

    method ValidateAndInjectBackup() returns (ok: bool)
      modifies this
      ensures ok <==> Injected(old(p)).Ok?
      ensures ok ==> p == Injected(old(p)).value
    {
      if p.backup.None? {
        return true;
      }
      var b := p.backup.value;
      if b.service == "" || b.command == "" || b.output == "" || !Rooted(b.output) {
        return false;
      }
      var k := 0;
      while k < |p.services| && p.services[k].name != b.service
        invariant k <= Target(p.services, b.service)
      {
        k := k + 1;
      }
      if k == |p.services| {
        return false;
      }
      var vs := p.services[k].volumes;
      for i := 0 to |vs|
        invariant forall j | 0 <= j < i :: Clean(vs[j].container) != Clean(b.output)
        invariant p == old(p)
      {
        if Clean(vs[i].container) == Clean(b.output) {
          assert Mounted(vs, b.output);
          return true;
        }
      }
      p := p.(services := p.services[k := p.services[k].(volumes := vs + [Volume("backups", b.output, false)])]);
      ok := true;
    }

    method ValidateAndDefault(isNew: bool, root: string, parse: Parser) returns (ok: bool)
      modifies this
      ensures ok <==> Defaulted(old(p), isNew, root, parse).Ok?
      ensures ok ==> p == Defaulted(old(p), isNew, root, parse).value
    {
      if isNew && p.id == "" {
        return false;
      }
      if isNew && !Strings.ValidId(p.id) {
        return false;
      }
      FillDefaults(root);
      ConvertLegacy();
      ConvertCustom(parse);
      ok := ValidateServices();
      if !ok {
        return;
      }
      ok := ValidateAndInjectBackup();
    }
  }
}
