/** The ingress rules of a tunnel: collected from the projects, put in a stable order and printed
    as cloudflared's config.yml, whose text then stands for the rules. */
module Ingress {
  import opened Strings

  datatype Hostname = Hostname(tunnel: string, hostname: string, port: int)

  datatype Service = Service(name: string, hostnames: seq<Hostname>)

  datatype Project = Project(id: string, enabled: bool, system: bool, services: seq<Service>)

  datatype Entry = Entry(hostname: string, port: nat, project: string, service: string)

  // ---------------------------------------------------------------- collecting

  predicate Counts(h: Hostname, tunnel: string) {
    h.tunnel == tunnel && h.hostname != "" && h.port > 0
  }

  function FromHostnames(p: string, s: string, hs: seq<Hostname>, tunnel: string): seq<Entry> {
    if hs == [] then []
    else
      var n := |hs| - 1;
      FromHostnames(p, s, hs[..n], tunnel)
        + if Counts(hs[n], tunnel) then [Entry(hs[n].hostname, hs[n].port, p, s)] else []
  }

  function FromServices(p: string, ss: seq<Service>, tunnel: string): seq<Entry> {
    if ss == [] then []
    else
      var n := |ss| - 1;
      FromServices(p, ss[..n], tunnel) + FromHostnames(p, ss[n].name, ss[n].hostnames, tunnel)
  }

  function FromProject(p: Project, tunnel: string): seq<Entry> {
    if p.enabled && !p.system then FromServices(p.id, p.services, tunnel) else []
  }

  /** The routes to the tunnel of all enabled projects that are not the system's, as listed. */
  function Matching(ps: seq<Project>, tunnel: string): seq<Entry> {
    if ps == [] then []
    else
      var n := |ps| - 1;
      Matching(ps[..n], tunnel) + FromProject(ps[n], tunnel)
  }

  predicate IsEntry(p: Project, s: Service, h: Hostname, tunnel: string, e: Entry) {
    && h.tunnel == tunnel && h.hostname != "" && h.port > 0
    && e.hostname == h.hostname && e.port == h.port && e.project == p.id && e.service == s.name
  }

  ghost predicate ServiceHas(p: Project, s: Service, tunnel: string, e: Entry) {
    exists k :: 0 <= k < |s.hostnames| && IsEntry(p, s, s.hostnames[k], tunnel, e)
  }

  ghost predicate ProjectHas(p: Project, tunnel: string, e: Entry) {
    p.enabled && !p.system && exists j :: 0 <= j < |p.services| && ServiceHas(p, p.services[j], tunnel, e)
  }

  lemma {:induction false} FromHostnamesHas(p: Project, s: Service, hs: seq<Hostname>, tunnel: string, e: Entry)
    ensures e in FromHostnames(p.id, s.name, hs, tunnel) <==>
      exists k :: 0 <= k < |hs| && IsEntry(p, s, hs[k], tunnel, e)
  {
    if hs != [] {
      var n := |hs| - 1;
      FromHostnamesHas(p, s, hs[..n], tunnel, e);
      if k :| 0 <= k < |hs| && IsEntry(p, s, hs[k], tunnel, e) {
        assert k < n ==> hs[..n][k] == hs[k];
      }
    }
  }

  lemma {:induction false} FromServicesHas(p: Project, ss: seq<Service>, tunnel: string, e: Entry)
    ensures e in FromServices(p.id, ss, tunnel) <==> exists j :: 0 <= j < |ss| && ServiceHas(p, ss[j], tunnel, e)
  {
    if ss != [] {
      var n := |ss| - 1;
      FromServicesHas(p, ss[..n], tunnel, e);
      FromHostnamesHas(p, ss[n], ss[n].hostnames, tunnel, e);
      assert e in FromHostnames(p.id, ss[n].name, ss[n].hostnames, tunnel) <==> ServiceHas(p, ss[n], tunnel, e);
      if j :| 0 <= j < |ss| && ServiceHas(p, ss[j], tunnel, e) {
        assert j < n ==> ss[..n][j] == ss[j];
      }
    }
  }

  lemma FromProjectHas(p: Project, tunnel: string, e: Entry)
    ensures e in FromProject(p, tunnel) <==> ProjectHas(p, tunnel, e)
  {
    FromServicesHas(p, p.services, tunnel, e);
  }

  ghost predicate AnyHas(ps: seq<Project>, tunnel: string, e: Entry) {
    exists i :: 0 <= i < |ps| && ProjectHas(ps[i], tunnel, e)
  }

  lemma AnyHasSnoc(ps: seq<Project>, tunnel: string, e: Entry)
    requires ps != []
    ensures AnyHas(ps, tunnel, e) <==> AnyHas(ps[..|ps| - 1], tunnel, e) || ProjectHas(ps[|ps| - 1], tunnel, e)
  {
    hide ProjectHas;
    var front := ps[..|ps| - 1];
    if AnyHas(ps, tunnel, e) {
      var i :| 0 <= i < |ps| && ProjectHas(ps[i], tunnel, e);
      assert i < |front| ==> front[i] == ps[i];
    }
    if AnyHas(front, tunnel, e) {
      var i :| 0 <= i < |front| && ProjectHas(front[i], tunnel, e);
      assert ps[i] == front[i];
    }
  }

  /** One entry for each such hostname of each such service, and no other. */
  lemma {:induction false} MatchingHas(ps: seq<Project>, tunnel: string, e: Entry)
    ensures e in Matching(ps, tunnel) <==> AnyHas(ps, tunnel, e)
  {
    if ps == [] {
    } else {
      hide FromProject, AnyHas;
      MatchingHas(ps[..|ps| - 1], tunnel, e);
      FromProjectHas(ps[|ps| - 1], tunnel, e);
      AnyHasSnoc(ps, tunnel, e);
    }
  }

  // ---------------------------------------------------------------- stable order

  ghost predicate ByHostname(es: seq<Entry>) {
    forall i, j | 0 <= i < j < |es| :: Leq(es[i].hostname, es[j].hostname)
  }

  /** The entries of one hostname, in order. */
  function Of(es: seq<Entry>, h: string): seq<Entry> {
    if es == [] then []
    else (if es[0].hostname == h then [es[0]] else []) + Of(es[1..], h)
  }

  /** The same entries, those of one hostname still in the order they came in. */
  ghost predicate StablePermutation(es: seq<Entry>, sorted: seq<Entry>) {
    multiset(sorted) == multiset(es) && forall h :: Of(sorted, h) == Of(es, h)
  }

  /** In front of everything that is not smaller. */
  function InsertEntry(e: Entry, es: seq<Entry>): seq<Entry> {
    if es == [] || Leq(e.hostname, es[0].hostname) then [e] + es
    else [es[0]] + InsertEntry(e, es[1..])
  }

  function StableSort(es: seq<Entry>): seq<Entry> {
    if es == [] then [] else InsertEntry(es[0], StableSort(es[1..]))
  }

  lemma {:induction false} InsertEntrySorted(e: Entry, es: seq<Entry>)
    requires ByHostname(es)
    ensures ByHostname(InsertEntry(e, es))
    ensures multiset(InsertEntry(e, es)) == multiset(es) + multiset{e}
    ensures forall x | x in InsertEntry(e, es) :: x == e || x in es
  {
    if es == [] {
    } else if Leq(e.hostname, es[0].hostname) {
      forall i | 0 < i < |es| ensures Leq(e.hostname, es[i].hostname) {
        LeqTransitive(e.hostname, es[0].hostname, es[i].hostname);
      }
    } else {
      InsertEntrySorted(e, es[1..]);
      LeqTotal(e.hostname, es[0].hostname);
      assert es == [es[0]] + es[1..];
      var rest := InsertEntry(e, es[1..]);
      forall i | 0 <= i < |rest| ensures Leq(es[0].hostname, rest[i].hostname) {
        assert rest[i] in rest;
        if rest[i] != e {
          var k :| 0 <= k < |es[1..]| && es[1..][k] == rest[i];
          assert es[k + 1] == rest[i];
        }
      }
    }
  }

  lemma {:induction false} InsertEntryStable(e: Entry, es: seq<Entry>, h: string)
    ensures Of(InsertEntry(e, es), h) == (if e.hostname == h then [e] else []) + Of(es, h)
  {
    if es == [] || Leq(e.hostname, es[0].hostname) {
      assert ([e] + es)[1..] == es;
    } else {
      InsertEntryStable(e, es[1..], h);
      assert ([es[0]] + InsertEntry(e, es[1..]))[1..] == InsertEntry(e, es[1..]);
      LeqTotal(e.hostname, e.hostname);
    }
  }

  lemma {:induction false} StableSortIsStable(es: seq<Entry>)
    ensures ByHostname(StableSort(es)) && StablePermutation(es, StableSort(es))
  {
    if es != [] {
      StableSortIsStable(es[1..]);
      InsertEntrySorted(es[0], StableSort(es[1..]));
      assert es == [es[0]] + es[1..];
      forall h ensures Of(StableSort(es), h) == Of(es, h) {
        InsertEntryStable(es[0], StableSort(es[1..]), h);
      }
    }
  }

  lemma {:induction false} OfHas(es: seq<Entry>, h: string)
    ensures forall i | 0 <= i < |es| && es[i].hostname == h :: Of(es, h) != []
    ensures Of(es, h) != [] ==> exists i :: 0 <= i < |es| && es[i].hostname == h
  {
    if es != [] {
      OfHas(es[1..], h);
      assert es == [es[0]] + es[1..];
      if Of(es[1..], h) != [] {
        var i :| 0 <= i < |es[1..]| && es[1..][i].hostname == h;
        assert es[i + 1].hostname == h;
      }
      forall i | 0 <= i < |es| && es[i].hostname == h ensures Of(es, h) != [] {
        assert i > 0 ==> es[1..][i - 1] == es[i];
      }
    }
  }

  lemma LeastFirst(a: seq<Entry>, b: seq<Entry>)
    requires a != [] && b != [] && ByHostname(b) && Of(a, a[0].hostname) == Of(b, a[0].hostname)
    ensures Leq(b[0].hostname, a[0].hostname)
  {
    OfHas(b, a[0].hostname);
    var i :| 0 <= i < |b| && b[i].hostname == a[0].hostname;
    LeqTotal(b[0].hostname, b[0].hostname);
  }

  /** There is only one stable order, whatever algorithm finds it. */
  lemma {:induction false} StableOrderUnique(a: seq<Entry>, b: seq<Entry>)
    requires ByHostname(a) && ByHostname(b) && forall h :: Of(a, h) == Of(b, h)
    ensures a == b
  {
    if a == [] || b == [] {
      if a != [] {
        OfHas(a, a[0].hostname);
      }
      if b != [] {
        OfHas(b, b[0].hostname);
      }
    } else {
      LeastFirst(a, b);
      LeastFirst(b, a);
      LeqAntisymmetric(a[0].hostname, b[0].hostname);
      var h := a[0].hostname;
      assert Of(a, h)[0] == a[0] && Of(b, h)[0] == b[0];
      forall g ensures Of(a[1..], g) == Of(b[1..], g) {
        if g == h {
          assert Of(a[1..], g) == Of(a, g)[1..] && Of(b[1..], g) == Of(b, g)[1..];
        } else {
          assert Of(a[1..], g) == Of(a, g) && Of(b[1..], g) == Of(b, g);
        }
      }
      StableOrderUnique(a[1..], b[1..]);
      assert a == [a[0]] + a[1..] && b == [b[0]] + b[1..];
    }
  }

  method SliceStable(es: seq<Entry>) returns (sorted: seq<Entry>)
    ensures ByHostname(sorted) && StablePermutation(es, sorted)
  {
    sorted := [];
    for i := |es| downto 0
      invariant sorted == StableSort(es[i..])
    {
      assert es[i..][1..] == es[i + 1..];
      sorted := InsertEntry(es[i], sorted);
    }
    assert es[0..] == es;
    StableSortIsStable(es);
  }

  method CollectIngressFor(ps: seq<Project>, tunnel: string) returns (entries: seq<Entry>)
    ensures ByHostname(entries) && StablePermutation(Matching(ps, tunnel), entries)
  {
    entries := [];
    for i := 0 to |ps|
      invariant entries == Matching(ps[..i], tunnel)
    {
      assert ps[..i + 1][..i] == ps[..i];
      var p := ps[i];
      if p.enabled && !p.system {
        var own := CollectServices(p, tunnel);
        entries := entries + own;
      }
    }
    assert ps[..|ps|] == ps;
    entries := SliceStable(entries);
  }

  method CollectServices(p: Project, tunnel: string) returns (entries: seq<Entry>)
    ensures entries == FromServices(p.id, p.services, tunnel)
  {
    entries := [];
    for j := 0 to |p.services|
      invariant entries == FromServices(p.id, p.services[..j], tunnel)
    {
      assert p.services[..j + 1][..j] == p.services[..j];
      var svc := p.services[j];
      ghost var before := entries;
      for k := 0 to |svc.hostnames|
        invariant entries == before + FromHostnames(p.id, svc.name, svc.hostnames[..k], tunnel)
      {
        assert svc.hostnames[..k + 1][..k] == svc.hostnames[..k];
        var h := svc.hostnames[k];
        if h.tunnel == tunnel && h.hostname != "" && h.port > 0 {
          entries := entries + [Entry(h.hostname, h.port, p.id, svc.name)];
        }
      }
      assert svc.hostnames[..|svc.hostnames|] == svc.hostnames;
    }
    assert p.services[..|p.services|] == p.services;
  }

  // ---------------------------------------------------------------- printing

  const HEADER := "# Auto-generated by bbsit. " + "Do not edit manually."
  const TUNNEL := "tunnel: "
  const CREDENTIALS := "credentials-file: " + "/etc/cloudflared/" + "credentials.json"
  const INGRESS := "ingress:"
  const HOSTNAME := "  - hostname: "
  const LOCAL := "    service: http://localhost:"
  const CATCH_ALL := "  - service: http_status:404"

  function EntryLines(es: seq<Entry>): seq<string> {
    if es == [] then []
    else [HOSTNAME + es[0].hostname, LOCAL + Decimal(es[0].port)] + EntryLines(es[1..])
  }

  function ConfigLines(tunnel: string, es: seq<Entry>): seq<string> {
    [HEADER, TUNNEL + tunnel, CREDENTIALS, INGRESS] + EntryLines(es) + [CATCH_ALL]
  }

  function ConfigText(tunnel: string, es: seq<Entry>): string {
    Lines(ConfigLines(tunnel, es), '\n')
  }

  /** The file line by line. */
  lemma {:induction false} EntryLinesAre(es: seq<Entry>)
    ensures |EntryLines(es)| == 2 * |es|
    ensures forall i | 0 <= i < |es| :: EntryLines(es)[2 * i] == "  - hostname: " + es[i].hostname
    ensures forall i | 0 <= i < |es| ::
      EntryLines(es)[2 * i + 1] == "    service: http://localhost:" + Decimal(es[i].port)
  {
    if es != [] {
      EntryLinesAre(es[1..]);
      var ls, rest := EntryLines(es), EntryLines(es[1..]);
      forall i | 0 < i < |es|
        ensures ls[2 * i] == "  - hostname: " + es[i].hostname
        ensures ls[2 * i + 1] == "    service: http://localhost:" + Decimal(es[i].port)
      {
        assert ls[2 * i] == rest[2 * (i - 1)] && ls[2 * i + 1] == rest[2 * (i - 1) + 1];
        assert es[1..][i - 1] == es[i];
      }
    }
  }

  lemma ConfigLinesAre(tunnel: string, es: seq<Entry>)
    ensures var ls := ConfigLines(tunnel, es);
      && |ls| == 2 * |es| + 5
      && ls[0] == "# Auto-generated by bbsit. Do not edit manually." && ls[1] == "tunnel: " + tunnel
      && ls[2] == "credentials-file: /etc/cloudflared/credentials.json" && ls[3] == "ingress:"
      && (forall i | 0 <= i < |es| ::
            ls[4 + 2 * i] == "  - hostname: " + es[i].hostname
            && ls[5 + 2 * i] == "    service: http://localhost:" + Decimal(es[i].port))
      && ls[|ls| - 1] == "  - service: http_status:404"
      && ConfigText(tunnel, es) == Lines(ls, '\n')
  {
    EntryLinesAre(es);
    HeaderLine();
    CredentialsLine();
    var ls := ConfigLines(tunnel, es);
    forall i | 0 <= i < |es|
      ensures ls[4 + 2 * i] == EntryLines(es)[2 * i] && ls[5 + 2 * i] == EntryLines(es)[2 * i + 1]
    {
    }
  }

  lemma HeaderLine()
    ensures HEADER == "# Auto-generated by bbsit. Do not edit manually."
  {
  }

  lemma CredentialsLine()
    ensures CREDENTIALS == "credentials-file: /etc/cloudflared/credentials.json"
  {
  }

  /** What the text says about an entry. */
  function Printed(es: seq<Entry>): seq<(string, nat)> {
    seq(|es|, i requires 0 <= i < |es| => (es[i].hostname, es[i].port))
  }

  ghost predicate OneLine(tunnel: string, es: seq<Entry>) {
    Free(tunnel, '\n') && forall i | 0 <= i < |es| :: Free(es[i].hostname, '\n')
  }

  lemma {:induction false} EntryLinesFree(es: seq<Entry>)
    requires forall i | 0 <= i < |es| :: Free(es[i].hostname, '\n')
    ensures AllFree(EntryLines(es), '\n') && |EntryLines(es)| == 2 * |es|
  {
    if es != [] {
      EntryLinesFree(es[1..]);
      DecimalFree(es[0].port, '\n');
    }
  }

  lemma ConfigLinesFree(tunnel: string, es: seq<Entry>)
    requires OneLine(tunnel, es)
    ensures AllFree(ConfigLines(tunnel, es), '\n')
  {
    EntryLinesFree(es);
    FixedLinesFree();
    FreeAppend(TUNNEL, tunnel);
    assert AllFree([HEADER, TUNNEL + tunnel, CREDENTIALS, INGRESS], '\n');
  }

  lemma HeaderFree()
    ensures Free(HEADER, '\n')
  {
    FreeAppend("# Auto-generated by bbsit. ", "Do not edit manually.");
  }

  lemma FixedLinesFree()
    ensures Free(HEADER, '\n') && Free(TUNNEL, '\n') && Free(CREDENTIALS, '\n') && Free(INGRESS, '\n')
    ensures Free(CATCH_ALL, '\n')
  {
    HeaderFree();
    FreeAppend("credentials-file: ", "/etc/cloudflared/");
    FreeAppend("credentials-file: " + "/etc/cloudflared/", "credentials.json");
  }

  lemma FreeAppend(a: string, b: string)
    requires Free(a, '\n') && Free(b, '\n')
    ensures Free(a + b, '\n')
  {
  }

  lemma PrefixInjective(front: string, a: string, b: string)
    requires front + a == front + b
    ensures a == b
  {
    assert (front + a)[|front|..] == a && (front + b)[|front|..] == b;
  }

  lemma {:induction false} EntryLinesInjective(a: seq<Entry>, b: seq<Entry>)
    requires EntryLines(a) == EntryLines(b)
    ensures Printed(a) == Printed(b)
  {
    if a != [] && b != [] {
      var x, y := EntryLines(a), EntryLines(b);
      assert x[0] == HOSTNAME + a[0].hostname && y[0] == HOSTNAME + b[0].hostname;
      PrefixInjective(HOSTNAME, a[0].hostname, b[0].hostname);
      assert x[1] == LOCAL + Decimal(a[0].port) && y[1] == LOCAL + Decimal(b[0].port);
      PrefixInjective(LOCAL, Decimal(a[0].port), Decimal(b[0].port));
      DecimalInjective(a[0].port, b[0].port);
      assert x[2..] == EntryLines(a[1..]) && y[2..] == EntryLines(b[1..]);
      EntryLinesInjective(a[1..], b[1..]);
      assert Printed(a) == [(a[0].hostname, a[0].port)] + Printed(a[1..]);
      assert Printed(b) == [(b[0].hostname, b[0].port)] + Printed(b[1..]);
    }
  }

  lemma {:induction false} EntryLinesPrinted(a: seq<Entry>, b: seq<Entry>)
    requires Printed(a) == Printed(b)
    ensures EntryLines(a) == EntryLines(b)
  {
    assert |Printed(a)| == |a| && |Printed(b)| == |b|;
    if a != [] {
      assert Printed(a)[0] == Printed(b)[0];
      assert Printed(a[1..]) == Printed(a)[1..] && Printed(b[1..]) == Printed(b)[1..];
      EntryLinesPrinted(a[1..], b[1..]);
    }
  }

  /** For strings without newlines the text stands for the tunnel and the ordered routes. */
  lemma ConfigInjective(tunnel: string, es: seq<Entry>, other: string, fs: seq<Entry>)
    requires OneLine(tunnel, es) && OneLine(other, fs)
    ensures ConfigText(tunnel, es) == ConfigText(other, fs) <==> tunnel == other && Printed(es) == Printed(fs)
  {
    if ConfigText(tunnel, es) == ConfigText(other, fs) {
      ConfigLinesFree(tunnel, es);
      ConfigLinesFree(other, fs);
      var x, y := ConfigLines(tunnel, es), ConfigLines(other, fs);
      LinesInjective(x, y, '\n');
      assert x[1] == TUNNEL + tunnel && y[1] == TUNNEL + other;
      PrefixInjective(TUNNEL, tunnel, other);
      assert x[4..|x| - 1] == EntryLines(es) && y[4..|y| - 1] == EntryLines(fs);
      EntryLinesInjective(es, fs);
    }
    if tunnel == other && Printed(es) == Printed(fs) {
      EntryLinesPrinted(es, fs);
    }
  }

  function EntryText(e: Entry): string {
    HOSTNAME + e.hostname + "\n" + LOCAL + Decimal(e.port) + "\n"
  }

  lemma EntryLinesText(e: Entry, es: seq<Entry>)
    ensures Lines(EntryLines([e] + es), '\n') == EntryText(e) + Lines(EntryLines(es), '\n')
  {
    var first, second := HOSTNAME + e.hostname, LOCAL + Decimal(e.port);
    assert ([e] + es)[1..] == es;
    LinesAppend([first, second], EntryLines(es));
    LinesOfTwo(first, second);
    assert first + "\n" + second + "\n" == EntryText(e);
  }

  /** A hostname with a newline prints like two routes: the condition on newlines cannot be
      dropped. */
  lemma NewlineCollides(g: string, m: nat, h: string, n: nat)
    ensures var joined := g + "\n" + LOCAL + Decimal(m) + "\n" + HOSTNAME + h;
      Lines(EntryLines([Entry(joined, n, "", "")]), '\n')
      == Lines(EntryLines([Entry(g, m, "", ""), Entry(h, n, "", "")]), '\n')
  {
    hide EntryLines, Lines, Decimal;
    var joined := g + "\n" + LOCAL + Decimal(m) + "\n" + HOSTNAME + h;
    var one, first, second := Entry(joined, n, "", ""), Entry(g, m, "", ""), Entry(h, n, "", "");
    EntryLinesText(one, []);
    EntryLinesText(first, [second]);
    EntryLinesText(second, []);
    assert [one] + [] == [one] && [second] + [] == [second] && [first] + [second] == [first, second];
    Flatten(HOSTNAME, g, "\n", LOCAL, Decimal(m), "\n");
    Regroup(HOSTNAME, g + "\n" + LOCAL + Decimal(m) + "\n", HOSTNAME, h);
    Flatten(EntryText(first), HOSTNAME + h, "\n", LOCAL, Decimal(n), "\n");
    Regroup(EntryText(first), HOSTNAME, h, "");
    assert EntryText(first) + (HOSTNAME + h) == EntryText(first) + HOSTNAME + h;
  }

  lemma Flatten(a: string, b: string, c: string, d: string, e: string, f: string)
    ensures a + (b + c + d + e + f) == a + b + c + d + e + f
  {
    assert a + (b + c) == a + b + c;
    assert a + (b + c + d) == a + (b + c) + d;
    assert a + (b + c + d + e) == a + (b + c + d) + e;
    assert a + (b + c + d + e + f) == a + (b + c + d + e) + f;
  }

  lemma Regroup(a: string, b: string, c: string, d: string)
    ensures a + (b + c + d) == a + b + c + d
  {
    assert a + (b + c) == a + b + c;
    assert a + (b + c + d) == a + (b + c) + d;
  }

  lemma LinesOfTwo(a: string, b: string)
    ensures Lines([a, b], '\n') == a + "\n" + b + "\n"
  {
    assert [a, b][1..] == [b] && [b][1..] == [];
    assert Lines([b], '\n') == b + "\n" + "";
    assert a + "\n" + (b + "\n" + "") == a + "\n" + b + "\n";
  }

  lemma {:induction false} LinesAppend(xs: seq<string>, ys: seq<string>)
    ensures Lines(xs + ys, '\n') == Lines(xs, '\n') + Lines(ys, '\n')
  {
    if xs == [] {
      assert xs + ys == ys;
    } else {
      LinesAppend(xs[1..], ys);
      assert (xs + ys)[1..] == xs[1..] + ys;
    }
  }

  predicate Written(s: string, letters: set<char>) {
    forall i | 0 <= i < |s| :: s[i] in letters
  }

  ghost predicate AllWritten(tunnel: string, es: seq<Entry>, letters: set<char>) {
    Written(tunnel, letters) && forall i | 0 <= i < |es| :: Written(es[i].hostname, letters)
  }

  /** The text tells tunnels and routes written with these characters apart. */
  ghost predicate TellsApart(letters: set<char>) {
    forall tunnel, es, other, fs |
      AllWritten(tunnel, es, letters) && AllWritten(other, fs, letters)
      && ConfigText(tunnel, es) == ConfigText(other, fs)
      :: tunnel == other && Printed(es) == Printed(fs)
  }

  lemma WrittenOneLine(tunnel: string, es: seq<Entry>, letters: set<char>)
    requires AllWritten(tunnel, es, letters) && '\n' !in letters
    ensures OneLine(tunnel, es)
  {
    forall i | 0 <= i < |es| ensures Free(es[i].hostname, '\n') {
      assert Written(es[i].hostname, letters);
    }
  }

  /** Equal entry lines make equal files. */
  lemma SameLinesSameText(tunnel: string, es: seq<Entry>, fs: seq<Entry>)
    requires Lines(EntryLines(es), '\n') == Lines(EntryLines(fs), '\n')
    ensures ConfigText(tunnel, es) == ConfigText(tunnel, fs)
  {
    var head := [HEADER, TUNNEL + tunnel, CREDENTIALS, INGRESS];
    LinesAppend(head + EntryLines(es), [CATCH_ALL]);
    LinesAppend(head + EntryLines(fs), [CATCH_ALL]);
    LinesAppend(head, EntryLines(es));
    LinesAppend(head, EntryLines(fs));
  }

  /** Among strings that may use the characters of a printed route, the text determines the tunnel
      and the ordered routes if and only if they may not use a newline. */
  lemma ConfigExactIff(letters: set<char>)
    requires Written(HOSTNAME, letters) && Written(LOCAL, letters) && exists d | 0 <= d < 10 :: Digit(d) in letters
    ensures TellsApart(letters) <==> '\n' !in letters
  {
    if '\n' !in letters {
      forall tunnel, es, other, fs |
        AllWritten(tunnel, es, letters) && AllWritten(other, fs, letters)
        && ConfigText(tunnel, es) == ConfigText(other, fs)
        ensures tunnel == other && Printed(es) == Printed(fs)
      {
        WrittenOneLine(tunnel, es, letters);
        WrittenOneLine(other, fs, letters);
        ConfigInjective(tunnel, es, other, fs);
      }
    } else {
      var d :| 0 <= d < 10 && Digit(d) in letters;
      NewlineRun(letters, d);
    }
  }

  lemma NewlineRun(letters: set<char>, d: nat)
    requires Written(HOSTNAME, letters) && Written(LOCAL, letters) && '\n' in letters
    requires d < 10 && Digit(d) in letters
    ensures !TellsApart(letters)
  {
    hide ConfigText, EntryLines, Lines;
    var port := Decimal(d);
    var joined := port + "\n" + LOCAL + port + "\n" + HOSTNAME + port;
    var es, fs := [Entry(joined, d, "", "")], [Entry(port, d, "", ""), Entry(port, d, "", "")];
    assert port == [Digit(d)];
    WrittenJoin(port, "\n", letters);
    WrittenJoin(port + "\n", LOCAL, letters);
    WrittenJoin(port + "\n" + LOCAL, port, letters);
    WrittenJoin(port + "\n" + LOCAL + port, "\n", letters);
    WrittenJoin(port + "\n" + LOCAL + port + "\n", HOSTNAME, letters);
    WrittenJoin(port + "\n" + LOCAL + port + "\n" + HOSTNAME, port, letters);
    assert AllWritten("", es, letters) && AllWritten("", fs, letters);
    NewlineCollides(port, d, port, d);
    SameLinesSameText("", es, fs);
    assert |Printed(es)| != |Printed(fs)|;
  }

  lemma WrittenJoin(a: string, b: string, letters: set<char>)
    requires Written(a, letters) && Written(b, letters)
    ensures Written(a + b, letters)
  {
  }

  /** config.yml in a stack directory; a missing file reads as empty. */
  class ConfigFile {
    var content: string

    constructor ()
      ensures content == ""
    {
      content := "";
    }

    method WriteConfigYml(tunnel: string, entries: seq<Entry>) returns (changed: bool)
      modifies this
      ensures content == ConfigText(tunnel, entries)
      ensures changed <==> old(content) != ConfigText(tunnel, entries)
    {
      var b := HEADER + "\n";
      b := b + TUNNEL + tunnel + "\n";
      b := b + CREDENTIALS + "\n";
      b := b + INGRESS + "\n";
      ghost var head := [HEADER, TUNNEL + tunnel, CREDENTIALS, INGRESS];
      LinesOfFour(HEADER, TUNNEL, tunnel, CREDENTIALS, INGRESS);
      assert head + EntryLines(entries[..0]) == head;
      for i := 0 to |entries|
        invariant b == Lines(head + EntryLines(entries[..i]), '\n') && content == old(content)
      {
        PrintedNext(head, entries, i);
        b := b + HOSTNAME + entries[i].hostname + "\n" + LOCAL + Decimal(entries[i].port) + "\n";
      }
      assert entries[..|entries|] == entries;
      LinesEnd(head + EntryLines(entries), CATCH_ALL);
      b := b + CATCH_ALL + "\n";
      if content == b {
        return false;
      }
      content := b;
      changed := true;
    }
  }

  lemma LinesEnd(xs: seq<string>, last: string)
    ensures Lines(xs + [last], '\n') == Lines(xs, '\n') + last + "\n"
  {
    LinesAppend(xs, [last]);
    assert [last][1..] == [];
    assert Lines([last], '\n') == last + "\n" + "";
    assert last + "\n" + "" == last + "\n";
    assert Lines(xs, '\n') + (last + "\n") == Lines(xs, '\n') + last + "\n";
  }

  lemma LinesOfFour(a: string, b: string, tunnel: string, c: string, d: string)
    ensures Lines([a, b + tunnel, c, d], '\n') == a + "\n" + b + tunnel + "\n" + c + "\n" + d + "\n"
  {
    LinesOfTwo(a, b + tunnel);
    LinesEnd([a, b + tunnel], c);
    LinesEnd([a, b + tunnel, c], d);
    assert [a, b + tunnel] + [c] == [a, b + tunnel, c] && [a, b + tunnel, c] + [d] == [a, b + tunnel, c, d];
  }

  lemma PrintedNext(head: seq<string>, es: seq<Entry>, i: nat)
    requires i < |es|
    ensures Lines(head + EntryLines(es[..i + 1]), '\n') ==
            Lines(head + EntryLines(es[..i]), '\n') + HOSTNAME + es[i].hostname + "\n"
              + LOCAL + Decimal(es[i].port) + "\n"
  {
    EntryLinesNext(es, i);
    var xs := head + EntryLines(es[..i]);
    var first, second := HOSTNAME + es[i].hostname, LOCAL + Decimal(es[i].port);
    LinesEnd(xs, first);
    LinesEnd(xs + [first], second);
    assert xs + [first] + [second] == head + EntryLines(es[..i + 1]);
  }

  lemma {:induction false} EntryLinesNext(es: seq<Entry>, i: nat)
    requires i < |es|
    ensures EntryLines(es[..i + 1]) ==
            EntryLines(es[..i]) + [HOSTNAME + es[i].hostname, LOCAL + Decimal(es[i].port)]
  {
    if i > 0 {
      EntryLinesNext(es[1..], i - 1);
      assert es[..i + 1][1..] == es[1..][..i] && es[..i][1..] == es[1..][..i - 1];
    }
  }

  /** Against a file it wrote itself, the writer reports a change exactly when the tunnel or the
      ordered list of routes differs. */
  method RewriteAfter(file: ConfigFile, tunnel: string, before: seq<Entry>, after: seq<Entry>) returns (changed: bool)
    requires OneLine(tunnel, before) && OneLine(tunnel, after)
    modifies file
    ensures changed <==> Printed(before) != Printed(after)
  {
    var _ := file.WriteConfigYml(tunnel, before);
    changed := file.WriteConfigYml(tunnel, after);
    ConfigInjective(tunnel, before, tunnel, after);
  }
}
