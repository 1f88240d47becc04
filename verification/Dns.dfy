/** Keeping the public DNS records of a tunnel's hostnames right, and telling whether they are. */
module Dns {
  import opened Options
  import opened Strings

  // ---------------------------------------------------------------- zones

  datatype Zone = Zone(id: string, name: string)

  function LowerChar(c: char): char {
    if 'A' <= c <= 'Z' then c + ('a' - 'A') else c
  }

  function Lower(s: string): string {
    seq(|s|, i requires 0 <= i < |s| => LowerChar(s[i]))
  }

  predicate HasSuffix(s: string, suffix: string) {
    |suffix| <= |s| && s[|s| - |suffix|..] == suffix
  }

  /** A fully qualified name may end in a dot. */
  function Trimmed(host: string): string {
    if HasSuffix(host, ".") then host[..|host| - 1] else host
  }

  predicate Covers(zone: string, host: string) {
    host == zone || HasSuffix(host, "." + zone)
  }

  predicate LabelSuffix(zone: string, host: string) {
    var z, h := Split(zone, '.'), Split(host, '.');
    |z| <= |h| && h[|h| - |z|..] == z
  }

  /** The suffix test is a test on whole labels. */
  lemma CoversIsLabelSuffix(zone: string, host: string)
    ensures Covers(zone, host) <==> LabelSuffix(zone, host)
  {
    var z, h := Split(zone, '.'), Split(host, '.');
    JoinSplit(zone, '.');
    JoinSplit(host, '.');
    if HasSuffix(host, "." + zone) {
      var front := host[..|host| - |zone| - 1];
      assert host == front + "." + zone;
      SplitFromJoined(front, zone, '.', "");
      assert h == Split(front, '.') + z;
    }
    if LabelSuffix(zone, host) {
      var front := h[..|h| - |z|];
      assert h == front + z;
      if front == [] {
        assert h == z;
      } else {
        JoinAppend(front, z, '.');
        assert host == Join(front, '.') + "." + zone;
        assert host[|host| - |zone| - 1..] == "." + zone;
      }
    }
  }

  predicate Serves(z: Zone, host: string) {
    Covers(Lower(z.name), Lower(Trimmed(host)))
  }

  /** The longest zone that serves the host, the first of them. */
  ghost predicate BestZone(zones: seq<Zone>, host: string, best: Option<Zone>) {
    match best
    case None => forall i | 0 <= i < |zones| :: !Serves(zones[i], host)
    case Some(z) =>
      exists k :: 0 <= k < |zones| && zones[k] == z && Serves(z, host)
        && (forall i | 0 <= i < |zones| && Serves(zones[i], host) :: |zones[i].name| <= |z.name|)
        && (forall i | 0 <= i < k && Serves(zones[i], host) :: |zones[i].name| < |z.name|)
  }

  /** Neither case nor a final dot of the host name matters. */
  lemma CaseAndDotIgnored(z: Zone, host: string)
    requires !HasSuffix(host, ".")
    ensures Serves(z, host + ".") == Serves(z, host) && Serves(z, Lower(host)) == Serves(z, host)
    ensures Serves(z.(name := Lower(z.name)), host) == Serves(z, host)
    ensures Lower("AZaz09-.") == "azaz09-."
  {
    assert (host + ".")[..|host|] == host && (host + ".")[|host|..] == ".";
    LowerTwice(host);
    LowerTwice(z.name);
    LowerNoDot(host);
  }

  lemma LowerTwice(s: string)
    ensures Lower(Lower(s)) == Lower(s)
  {
  }

  lemma LowerNoDot(s: string)
    requires !HasSuffix(s, ".")
    ensures !HasSuffix(Lower(s), ".")
  {
    if s != "" {
      assert s[|s| - 1..] == [s[|s| - 1]];
      assert Lower(s)[|s| - 1..] == [LowerChar(s[|s| - 1])];
    }
  }

  function FindZoneUpTo(zones: seq<Zone>, host: string, k: nat): Option<Zone>
    requires k <= |zones|
  {
    if k == 0 then None
    else
      var best := FindZoneUpTo(zones, host, k - 1);
      var z := zones[k - 1];
      if Serves(z, host) && (best.None? || |z.name| > |best.value.name|) then Some(z) else best
  }

  function FindZone(zones: seq<Zone>, host: string): Option<Zone> {
    FindZoneUpTo(zones, host, |zones|)
  }

  lemma {:induction false} FindZoneUpToIsBest(zones: seq<Zone>, host: string, k: nat)
    requires k <= |zones|
    ensures BestZone(zones[..k], host, FindZoneUpTo(zones, host, k))
  {
    if k > 0 {
      FindZoneUpToIsBest(zones, host, k - 1);
      var front, all := zones[..k - 1], zones[..k];
      assert forall i | 0 <= i < k - 1 :: all[i] == front[i];
      assert all[k - 1] == zones[k - 1];
    }
  }

  lemma FindZoneIsBest(zones: seq<Zone>, host: string)
    ensures BestZone(zones, host, FindZone(zones, host))
  {
    FindZoneUpToIsBest(zones, host, |zones|);
    assert zones[..|zones|] == zones;
  }

  method FindZoneForHostname(zones: seq<Zone>, host: string) returns (best: Option<Zone>)
    ensures best == FindZone(zones, host) && BestZone(zones, host, best)
  {
    var h := Lower(Trimmed(host));
    best := None;
    for i := 0 to |zones|
      invariant best == FindZoneUpTo(zones, host, i)
    {
      var zn := Lower(zones[i].name);
      if h == zn || HasSuffix(h, "." + zn) {
        if best.None? || |zones[i].name| > |best.value.name| {
          best := Some(zones[i]);
        }
      }
    }
    FindZoneIsBest(zones, host);
  }

  const PER_PAGE := 50
  const MAX_PAGES := 50

  function Page(zones: seq<Zone>, page: int): seq<Zone>
    requires page >= 1
  {
    var from := (page - 1) * PER_PAGE;
    if from >= |zones| then [] else if from + PER_PAGE <= |zones| then zones[from..from + PER_PAGE] else zones[from..]
  }

  /** How many pages are asked for: up to the first that is not full, fifty at most. */
  function Pages(zones: seq<Zone>): (n: int)
    ensures 1 <= n <= MAX_PAGES
  {
    if |zones| / PER_PAGE < MAX_PAGES then |zones| / PER_PAGE + 1 else MAX_PAGES
  }

  /** Every zone is listed, unless there are more than fit on fifty pages; nothing is returned
      exactly when one of the pages asked for cannot be had. */
  method ListZones(zones: seq<Zone>, answers: int -> bool) returns (r: Option<seq<Zone>>)
    ensures r.Some? <==> forall page | 1 <= page <= Pages(zones) :: answers(page)
    ensures r.Some? && |zones| <= 2500 ==> r.value == zones
    ensures r.Some? && |zones| > 2500 ==> r.value == zones[..2500]
  {
    var all := [];
    var page := 1;
    while true
      invariant 1 <= page <= Pages(zones) && (page - 1) * PER_PAGE <= |zones|
      invariant all == zones[..(page - 1) * PER_PAGE] && forall k | 1 <= k < page :: answers(k)
      decreases MAX_PAGES - page
    {
      if !answers(page) {
        return None;
      }
      var batch := Page(zones, page);
      all := all + batch;
      if |batch| < PER_PAGE {
        assert all == zones;
        break;
      }
      page := page + 1;
      if page > MAX_PAGES {
        break;
      }
    }
    r := Some(all);
  }

  // ---------------------------------------------------------------- records at one name

  datatype Kind = CNAME | A | AAAA | Sibling(kind: string)

  datatype Record = Record(id: string, kind: Kind, name: string, content: string, ttl: int, proxied: bool)

  predicate Routing(r: Record) {
    r.kind == CNAME || r.kind == A || r.kind == AAAA
  }

  predicate Right(r: Record, target: string) {
    r.kind == CNAME && r.content == target && r.proxied
  }

  function FirstRouting(recs: seq<Record>): (k: nat)
    ensures k <= |recs| && (k < |recs| ==> Routing(recs[k]))
    ensures forall i | 0 <= i < k :: !Routing(recs[i])
  {
    if recs == [] || Routing(recs[0]) then 0
    else
      assert recs == [recs[0]] + recs[1..];
      1 + FirstRouting(recs[1..])
  }

  function FirstCname(recs: seq<Record>): (k: nat)
    ensures k <= |recs| && (k < |recs| ==> recs[k].kind == CNAME)
    ensures forall i | 0 <= i < k :: recs[i].kind != CNAME
  {
    if recs == [] || recs[0].kind == CNAME then 0
    else
      assert recs == [recs[0]] + recs[1..];
      1 + FirstCname(recs[1..])
  }

  function Wanted(id: string, name: string, target: string): Record {
    Record(id, CNAME, name, target, 1, true)
  }

  /** The records after a successful repair; an updated record keeps its place. */
  function Ensured(recs: seq<Record>, name: string, target: string, freshId: string): seq<Record> {
    var k := FirstRouting(recs);
    if k == |recs| then recs + [Wanted(freshId, name, target)]
    else if Right(recs[k], target) then recs
    else recs[k := Wanted(recs[k].id, name, target)]
  }

  datatype Status = Good | WrongTarget(actual: Record) | NotProxied(actual: Record) | WrongType(actual: Record)
                  | Missing | NoZone | NoToken | Unreadable

  function Classify(target: string, recs: seq<Record>): Status {
    var c, r := FirstCname(recs), FirstRouting(recs);
    if r == |recs| then Missing
    else if c == |recs| then WrongType(recs[r])
    else if recs[c].content != target then WrongTarget(recs[c])
    else if !recs[c].proxied then NotProxied(recs[c])
    else Good
  }

  predicate Address(r: Record) {
    r.kind == A || r.kind == AAAA
  }

  /** The first k records are neither CNAMEs nor addresses, and the next, if there is one, is. */
  ghost predicate FirstMatch(recs: seq<Record>, k: nat) {
    && k <= |recs| && (forall i | 0 <= i < k :: recs[i].kind != CNAME && !Address(recs[i]))
    && (k < |recs| ==> recs[k].kind == CNAME || Address(recs[k]))
  }

  /** What the repair writes: nothing when the first CNAME or address record is the right CNAME;
      otherwise that record, under its own id, or a new one when there is none. */
  lemma EnsuredMeans(recs: seq<Record>, name: string, target: string, freshId: string, k: nat)
    requires FirstMatch(recs, k)
    ensures var t := Ensured(recs, name, target, freshId);
      if k == |recs| then t == recs + [Record(freshId, CNAME, name, target, 1, true)]
      else
        && |t| == |recs| && (forall i | 0 <= i < |recs| && i != k :: t[i] == recs[i])
        && t[k] == if recs[k].kind == CNAME && recs[k].content == target && recs[k].proxied then recs[k]
                   else Record(recs[k].id, CNAME, name, target, 1, true)
  {
    if k < |recs| {
      FirstRoutingIs(recs, k);
    }
  }

  /** What the status says: it judges the first CNAME; without one it shows the first address. */
  lemma ClassifyMeans(target: string, recs: seq<Record>, k: nat)
    requires k <= |recs| && (forall i | 0 <= i < k :: recs[i].kind != CNAME)
    requires k < |recs| ==> recs[k].kind == CNAME
    ensures k < |recs| ==>
      Classify(target, recs) == if recs[k].content != target then WrongTarget(recs[k])
                                else if !recs[k].proxied then NotProxied(recs[k]) else Good
    ensures k == |recs| ==>
      forall j | 0 <= j < |recs| && FirstMatch(recs, j) :: Classify(target, recs) == WrongType(recs[j])
    ensures k == |recs| && (forall i | 0 <= i < |recs| :: !Address(recs[i])) ==> Classify(target, recs) == Missing
  {
    if k < |recs| {
      FirstCnameIs(recs, k);
    } else {
      forall j | 0 <= j < |recs| && FirstMatch(recs, j) ensures FirstRouting(recs) == j {
        FirstRoutingIs(recs, j);
      }
    }
  }

  lemma FirstRoutingIs(recs: seq<Record>, k: nat)
    requires k < |recs| && Routing(recs[k]) && forall i | 0 <= i < k :: !Routing(recs[i])
    ensures FirstRouting(recs) == k
  {
  }

  lemma FirstCnameIs(recs: seq<Record>, k: nat)
    requires k < |recs| && recs[k].kind == CNAME && forall i | 0 <= i < k :: recs[i].kind != CNAME
    ensures FirstCname(recs) == k
  {
  }

  function Siblings(recs: seq<Record>): seq<Record> {
    if recs == [] then []
    else
      var n := |recs| - 1;
      if Routing(recs[n]) then Siblings(recs[..n]) else Siblings(recs[..n]) + [recs[n]]
  }

  /** After a repair the status is good, a second repair has nothing to do, and the records that
      do not route are the same ones in the same order. */
  lemma EnsuredConverges(recs: seq<Record>, name: string, target: string, freshId: string)
    ensures var t := Ensured(recs, name, target, freshId);
      && Classify(target, t) == Good
      && (forall other :: Ensured(t, name, target, other) == t)
      && Siblings(t) == Siblings(recs)
  {
    var k := FirstRouting(recs);
    var t := Ensured(recs, name, target, freshId);
    FirstRoutingIs(t, k);
    FirstCnameIs(t, k);
    if k == |recs| {
      assert t[..|t| - 1] == recs;
    } else {
      SiblingsUpdate(recs, k, t[k]);
      assert t == recs[k := t[k]];
    }
  }

  lemma {:induction false} SiblingsUpdate(recs: seq<Record>, k: nat, r: Record)
    requires k < |recs| && Routing(recs[k]) && Routing(r)
    ensures Siblings(recs[k := r]) == Siblings(recs)
  {
    var n := |recs| - 1;
    if k < n {
      SiblingsUpdate(recs[..n], k, r);
      assert recs[k := r][..n] == recs[..n][k := r];
    } else {
      assert recs[k := r][..n] == recs[..n];
    }
  }

  /** Where repair and status differ: the status looks at the first CNAME, the repair at the
      first record of any routing type.  Records with a good status are left alone exactly when no A or AAAA record
       comes first. */
  lemma GoodIsLeftAloneIff(recs: seq<Record>, name: string, target: string, freshId: string)
    requires Classify(target, recs) == Good
    ensures Ensured(recs, name, target, freshId) == recs <==> FirstRouting(recs) == FirstCname(recs)
  {
  }

  /** Everything the repair leaves alone has a good status. */
  lemma LeftAloneIsGood(recs: seq<Record>, name: string, target: string, freshId: string)
    requires Ensured(recs, name, target, freshId) == recs
    ensures Classify(target, recs) == Good
  {
    EnsuredConverges(recs, name, target, freshId);
  }

  method ClassifyDns(target: string, recs: seq<Record>) returns (s: Status)
    ensures s == Classify(target, recs)
  {
    if |recs| == 0 {
      return Missing;
    }
    var pick: nat := |recs|;
    var i := 0;
    while i < |recs| && pick == |recs|
      invariant i <= |recs| && pick <= |recs|
      invariant pick == |recs| ==> forall j | 0 <= j < i :: recs[j].kind != CNAME
      invariant pick < |recs| ==> recs[pick].kind == CNAME && forall j | 0 <= j < pick :: recs[j].kind != CNAME
    {
      if recs[i].kind == CNAME {
        pick := i;
      }
      i := i + 1;
    }
    if pick < |recs| {
      FirstCnameIs(recs, pick);
    }
    if pick == |recs| {
      i := 0;
      while i < |recs| && pick == |recs|
        invariant i <= |recs| && pick <= |recs|
        invariant pick == |recs| ==> forall j | 0 <= j < i :: !Routing(recs[j])
        invariant pick < |recs| ==> Routing(recs[pick]) && forall j | 0 <= j < pick :: !Routing(recs[j])
      {
        if recs[i].kind == A || recs[i].kind == AAAA {
          pick := i;
        }
        i := i + 1;
      }
    }
    if pick == |recs| {
      return Missing;
    }
    if recs[pick].kind != CNAME {
      FirstRoutingIs(recs, pick);
      return WrongType(recs[pick]);
    }
    if recs[pick].content != target {
      return WrongTarget(recs[pick]);
    }
    if !recs[pick].proxied {
      return NotProxied(recs[pick]);
    }
    s := Good;
  }

  // ---------------------------------------------------------------- all routes of a tunnel

  datatype Place = Place(zone: string, name: string)

  datatype Call = Works | ListFails | WriteFails

  type Remote = map<Place, seq<Record>>

  function RecordsAt(remote: Remote, at: Place): seq<Record> {
    if at in remote then remote[at] else []
  }

  function RouteStatus(remote: Remote, zones: seq<Zone>, target: string, host: string): Status {
    var zone := FindZone(zones, host);
    if zone.None? then NoZone else Classify(target, RecordsAt(remote, Place(zone.value.id, host)))
  }

  class Cloudflare {
    var remote: Remote
    var writes: nat

    constructor (r: Remote)
      ensures remote == r && writes == 0
    {
      remote, writes := r, 0;
    }

    /** Other places are untouched, a failed call changes nothing, and nothing is written when the
        first routing record is right. */
    method EnsureCname(zone: string, name: string, target: string, freshId: string, call: Call) returns (ok: bool)
      modifies this
      ensures var at := Place(zone, name); var before := old(RecordsAt(remote, at));
        var after := Ensured(before, name, target, freshId);
        && ok == (call == Works || (call == WriteFails && after == before))
        && RecordsAt(remote, at) == (if ok then after else before)
        && (forall p | p != at :: RecordsAt(remote, p) == old(RecordsAt(remote, p)))
        && writes == old(writes) + if ok && after != before then 1 else 0
    {
      if call == ListFails {
        return false;
      }
      var at := Place(zone, name);
      var recs := RecordsAt(remote, at);
      for i := 0 to |recs|
        invariant forall j | 0 <= j < i :: !Routing(recs[j])
        invariant remote == old(remote) && writes == old(writes)
      {
        if recs[i].kind == CNAME || recs[i].kind == A || recs[i].kind == AAAA {
          FirstRoutingIs(recs, i);
          if recs[i].kind == CNAME && recs[i].content == target && recs[i].proxied {
            return true;
          }
          var fixed := recs[i := Wanted(recs[i].id, name, target)];
          assert fixed[i] != recs[i];
          if call == WriteFails {
            return false;
          }
          remote := remote[at := fixed];
          writes := writes + 1;
          return true;
        }
      }
      var added := recs + [Wanted(freshId, name, target)];
      assert |added| != |recs|;
      if call == WriteFails {
        return false;
      }
      remote := remote[at := added];
      writes := writes + 1;
      ok := true;
    }

    /** One hostname: afterwards it reads good if its calls worked, and a place that read good
        before still does. */
    method SyncOne(zones: seq<Zone>, host: string, target: string, freshId: string, call: Call)
      modifies this
      ensures call == Works ==> Settled(remote, zones, target, host)
      ensures OnlyRepairs(old(remote), remote, target) && SameElsewhere(old(remote), remote, host)
    {
      var zone := FindZoneForHostname(zones, host);
      if zone.None? {
        return;
      }
      var at := Place(zone.value.id, host);
      EnsuredConverges(RecordsAt(remote, at), host, target, freshId);
      var _ := EnsureCname(zone.value.id, host, target, freshId, call);
    }

    /** Every hostname whose own calls worked reads good afterwards, or `no zone` when no zone is a
        label suffix of it; records that do not route, and names that are not routed, are
        untouched. */
    method SyncDns(zones: seq<Zone>, hosts: seq<string>, target: string, freshId: string, calls: seq<Call>)
      requires |calls| == |hosts|
      modifies this
      ensures forall i | 0 <= i < |hosts| && calls[i] == Works ::
        RouteStatus(remote, zones, target, hosts[i]) == if FindZone(zones, hosts[i]).None? then NoZone else Good
      ensures OnlyRepairs(old(remote), remote, target)
      ensures SameBeyond(old(remote), remote, hosts)
    {
      for i := 0 to |hosts|
        invariant AllSettled(remote, zones, target, hosts, calls, i)
        invariant OnlyRepairs(old(remote), remote, target)
        invariant SameBeyond(old(remote), remote, hosts)
      {
        ghost var was := remote;
        SyncOne(zones, hosts[i], target, freshId, calls[i]);
        OnlyRepairsTrans(old(remote), was, remote, target);
        SameBeyondStep(old(remote), was, remote, hosts, i);
        AllSettledStep(was, remote, zones, target, hosts, calls, i);
      }
      AllSettledReads(remote, zones, target, hosts, calls);
    }
  }

  ghost predicate AllSettled(remote: Remote, zones: seq<Zone>, target: string, hosts: seq<string>,
        calls: seq<Call>, n: nat)
    requires n <= |hosts| == |calls|
  {
    forall j | 0 <= j < n && calls[j] == Works :: Settled(remote, zones, target, hosts[j])
  }

  lemma AllSettledStep(was: Remote, now: Remote, zones: seq<Zone>, target: string, hosts: seq<string>,
        calls: seq<Call>, i: nat)
    requires i < |hosts| == |calls| && AllSettled(was, zones, target, hosts, calls, i)
    requires OnlyRepairs(was, now, target) && (calls[i] == Works ==> Settled(now, zones, target, hosts[i]))
    ensures AllSettled(now, zones, target, hosts, calls, i + 1)
  {
    forall j | 0 <= j < i && calls[j] == Works ensures Settled(now, zones, target, hosts[j]) {
      SettledStays(was, now, zones, target, hosts[j]);
    }
  }

  lemma AllSettledReads(remote: Remote, zones: seq<Zone>, target: string, hosts: seq<string>, calls: seq<Call>)
    requires |hosts| == |calls| && AllSettled(remote, zones, target, hosts, calls, |hosts|)
    ensures forall i | 0 <= i < |hosts| && calls[i] == Works ::
      RouteStatus(remote, zones, target, hosts[i]) == if FindZone(zones, hosts[i]).None? then NoZone else Good
  {
    forall i | 0 <= i < |hosts| && calls[i] == Works
      ensures RouteStatus(remote, zones, target, hosts[i]) == if FindZone(zones, hosts[i]).None? then NoZone else Good
    {
      assert Settled(remote, zones, target, hosts[i]);
    }
  }

  ghost predicate SameBeyond(before: Remote, after: Remote, hosts: seq<string>) {
    forall h | h !in hosts :: SameAt(before, after, h)
  }

  lemma SameBeyondStep(a: Remote, b: Remote, c: Remote, hosts: seq<string>, i: nat)
    requires i < |hosts| && SameBeyond(a, b, hosts) && SameElsewhere(b, c, hosts[i])
    ensures SameBeyond(a, c, hosts)
  {
    forall h | h !in hosts ensures SameAt(a, c, h) {
      assert hosts[i] in hosts;
      assert SameAt(a, b, h) && SameAt(b, c, h);
    }
  }

  /** No record that does not route changes, and what reads good keeps reading good. */
  ghost predicate OnlyRepairs(before: Remote, after: Remote, target: string) {
    && (forall p :: Siblings(RecordsAt(after, p)) == Siblings(RecordsAt(before, p)))
    && (forall p :: Classify(target, RecordsAt(before, p)) == Good ==> Classify(target, RecordsAt(after, p)) == Good)
  }

  lemma OnlyRepairsTrans(a: Remote, b: Remote, c: Remote, target: string)
    requires OnlyRepairs(a, b, target) && OnlyRepairs(b, c, target)
    ensures OnlyRepairs(a, c, target)
  {
  }

  ghost predicate SameAt(before: Remote, after: Remote, host: string) {
    forall zone :: RecordsAt(after, Place(zone, host)) == RecordsAt(before, Place(zone, host))
  }

  ghost predicate SameElsewhere(before: Remote, after: Remote, host: string) {
    forall h | h != host :: SameAt(before, after, h)
  }

  lemma SettledStays(before: Remote, after: Remote, zones: seq<Zone>, target: string, host: string)
    requires Settled(before, zones, target, host) && OnlyRepairs(before, after, target)
    ensures Settled(after, zones, target, host)
  {
  }

  predicate Settled(remote: Remote, zones: seq<Zone>, target: string, host: string) {
    var zone := FindZone(zones, host);
    zone.None? || Classify(target, RecordsAt(remote, Place(zone.value.id, host))) == Good
  }

  /** `no zone` is reported exactly when no zone's labels end the hostname's. */
  lemma NoZoneIff(remote: Remote, zones: seq<Zone>, target: string, host: string)
    ensures RouteStatus(remote, zones, target, host) == NoZone <==>
      forall i | 0 <= i < |zones| :: !LabelSuffix(Lower(zones[i].name), Lower(Trimmed(host)))
  {
    hide LabelSuffix, Covers, Lower, Trimmed, FindZone;
    FindZoneIsBest(zones, host);
    forall i | 0 <= i < |zones|
      ensures Serves(zones[i], host) <==> LabelSuffix(Lower(zones[i].name), Lower(Trimmed(host)))
    {
      CoversIsLabelSuffix(Lower(zones[i].name), Lower(Trimmed(host)));
    }
  }

  /** The status of one route: without a token nothing is checked, without the zone listing nothing
      can be, and then it depends on the zone and on whether its records could be read. */
  function ReportedStatus(remote: Remote, token: bool, zones: Option<seq<Zone>>, target: string, host: string,
                          readable: bool): Status {
    if !token then NoToken
    else if zones.None? then Unreadable
    else if FindZone(zones.value, host).Some? && !readable then Unreadable
    else RouteStatus(remote, zones.value, target, host)
  }

  /** The status of every route; `zones` is missing when they could not be listed, and `readable`
      says which record listings could be read. */
  method RoutesFor(remote: Remote, token: bool, zones: Option<seq<Zone>>, hosts: seq<string>, target: string,
                   readable: seq<bool>)
    returns (statuses: seq<Status>)
    requires |readable| == |hosts|
    ensures |statuses| == |hosts|
    ensures forall i | 0 <= i < |hosts| ::
      statuses[i] == ReportedStatus(remote, token, zones, target, hosts[i], readable[i])
    ensures !token ==> forall i | 0 <= i < |hosts| :: statuses[i] == NoToken
    ensures token && zones.None? ==> forall i | 0 <= i < |hosts| :: statuses[i] == Unreadable
    ensures token && zones.Some? ==> forall i | 0 <= i < |hosts| ::
      var zone := FindZone(zones.value, hosts[i]);
      statuses[i] == if zone.None? then NoZone else if !readable[i] then Unreadable
                     else Classify(target, RecordsAt(remote, Place(zone.value.id, hosts[i])))
  {
    statuses := seq(|hosts|, _ => NoToken);
    if !token || |hosts| == 0 {
      return;
    }
    if zones.None? {
      for i := 0 to |hosts|
        invariant |statuses| == |hosts|
        invariant forall j | 0 <= j < i :: statuses[j] == Unreadable
      {
        statuses := statuses[i := Unreadable];
      }
      return;
    }
    for i := 0 to |hosts|
      invariant |statuses| == |hosts|
      invariant forall j | 0 <= j < i ::
        statuses[j] == ReportedStatus(remote, token, zones, target, hosts[j], readable[j])
    {
      var zone := FindZoneForHostname(zones.value, hosts[i]);
      if zone.None? {
        statuses := statuses[i := NoZone];
      } else if !readable[i] {
        statuses := statuses[i := Unreadable];
      } else {
        var s := ClassifyDns(target, RecordsAt(remote, Place(zone.value.id, hosts[i])));
        statuses := statuses[i := s];
      }
    }
  }
}
