/** The WebSocket hub: one goroutine owning the client map, bounded channels, readers that go
    away, slow writers, and subscriptions that change in the middle of a broadcast. */
module HubMachine {

  const EVENT_CAPACITY := 256
  const SEND_CAPACITY := 64

  datatype Event = Event(project: string, data: string)

  /** A connection.  `buffer` and `closed` are its send channel, `written` what its writer took
      out of it, `waiting` the goroutines blocked on handing it to `unregister`.  The last six
      fields only record what happened. */
  datatype Client = Client(
    member: bool, due: bool, buffer: seq<Event>, closed: bool, written: seq<Event>,
    subscribed: set<string>, reading: bool, waiting: nat,
    joined: nat, seen: seq<Event>, verdicts: seq<bool>, matched: seq<Event>, sent: seq<Event>, cut: int)

  datatype Loop = Idle | Broadcasting(event: Event) | Stopped

  /** `accepted` and `processed` record the events taken from callers and by the loop. */
  datatype Sys = Sys(clients: map<int, Client>, queue: seq<Event>, loop: Loop, stopping: bool, panicked: bool,
                     accepted: seq<Event>, processed: seq<Event>)

  datatype Step =
    | Register(c: int)
    | Replace(c: int, ids: set<string>)
    | Remove(c: int, ids: set<string>)
    | Clear(c: int)
    | ReaderExit(c: int)
    | WriterTake(c: int)
    | Arrive(e: Event)
    | TakeEvent
    | Visit(c: int)
    | EndEvent
    | Unregister(c: int)
    | RequestStop
    | StopLoop

  predicate Enabled(s: Sys, e: Step) {
    match e
    case Register(c) => s.loop == Idle && c !in s.clients
    case Replace(c, _) => c in s.clients && s.clients[c].reading
    case Remove(c, _) => c in s.clients && s.clients[c].reading
    case Clear(c) => c in s.clients && s.clients[c].reading
    case ReaderExit(c) => c in s.clients && s.clients[c].reading
    case WriterTake(c) => c in s.clients && s.clients[c].buffer != []
    case Arrive(_) => true
    case TakeEvent => s.loop == Idle && s.queue != []
    case Visit(c) => s.loop.Broadcasting? && c in s.clients && s.clients[c].due
    case EndEvent => s.loop.Broadcasting? && forall c | c in s.clients :: !s.clients[c].due
    case Unregister(c) => s.loop == Idle && c in s.clients && s.clients[c].waiting > 0
    case RequestStop => true
    case StopLoop => s.loop == Idle && s.stopping
  }

  function NewClient(processed: seq<Event>): Client {
    Client(true, false, [], false, [], {}, true, 0, |processed|, [], [], [], [], -1)
  }

  function Put(s: Sys, c: int, k: Client): Sys {
    s.(clients := s.clients[c := k])
  }

  /** The select on a client's channel. */
  function Offer(k: Client, e: Event): Client {
    if e.project !in k.subscribed then
      k.(due := false, seen := k.seen + [e], verdicts := k.verdicts + [false])
    else if |k.buffer| < SEND_CAPACITY then
      k.(due := false, seen := k.seen + [e], verdicts := k.verdicts + [true], matched := k.matched + [e],
         buffer := k.buffer + [e], sent := k.sent + [e])
    else
      k.(due := false, seen := k.seen + [e], verdicts := k.verdicts + [true], matched := k.matched + [e],
         waiting := k.waiting + 1, cut := if k.cut < 0 then |k.sent| else k.cut)
  }

  function Apply(s: Sys, e: Step): Sys
    requires Enabled(s, e)
  {
    match e
    case Register(c) => Put(s, c, NewClient(s.processed))
    case Replace(c, ids) => Put(s, c, s.clients[c].(subscribed := ids))
    case Remove(c, ids) => Put(s, c, s.clients[c].(subscribed := s.clients[c].subscribed - ids))
    case Clear(c) => Put(s, c, s.clients[c].(subscribed := {}))
    case ReaderExit(c) => Put(s, c, s.clients[c].(reading := false, waiting := s.clients[c].waiting + 1))
    case WriterTake(c) =>
      var k := s.clients[c];
      Put(s, c, k.(buffer := k.buffer[1..], written := k.written + [k.buffer[0]]))
    case Arrive(event) =>
      if |s.queue| < EVENT_CAPACITY then s.(queue := s.queue + [event], accepted := s.accepted + [event]) else s
    case TakeEvent =>
      s.(queue := s.queue[1..], loop := Broadcasting(s.queue[0]), processed := s.processed + [s.queue[0]],
         clients := Due(s.clients))
    case Visit(c) =>
      Put(s, c, Offer(s.clients[c], s.loop.event))
        .(panicked := s.panicked || (s.clients[c].closed && s.loop.event.project in s.clients[c].subscribed))
    case EndEvent => s.(loop := Idle)
    case Unregister(c) =>
      var k := s.clients[c].(waiting := s.clients[c].waiting - 1);
      if k.member then Put(s, c, k.(member := false, closed := true)).(panicked := s.panicked || k.closed)
      else Put(s, c, k)
    case RequestStop => s.(stopping := true)
    case StopLoop =>
      s.(loop := Stopped,
         panicked := s.panicked || exists c :: c in s.clients && s.clients[c].member && s.clients[c].closed,
         clients := Closed(s.clients))
  }

  // ---------------------------------------------------------------- meaning of the records

  /** In order, with gaps. */
  predicate Subseq<T(==)>(a: seq<T>, b: seq<T>)
    decreases |b|
  {
    a == [] || (b != [] &&
      ((a[|a| - 1] == b[|b| - 1] && Subseq(a[..|a| - 1], b[..|b| - 1])) || Subseq(a, b[..|b| - 1])))
  }

  lemma SubseqGrow<T>(a: seq<T>, b: seq<T>, x: T)
    requires Subseq(a, b)
    ensures Subseq(a, b + [x]) && Subseq(a + [x], b + [x])
  {
    assert (b + [x])[..|b|] == b && (a + [x])[..|a|] == a;
  }

  /** The events with verdict true. */
  function Select(events: seq<Event>, verdicts: seq<bool>): seq<Event>
    requires |events| == |verdicts|
  {
    if events == [] then []
    else
      var n := |events| - 1;
      Select(events[..n], verdicts[..n]) + if verdicts[n] then [events[n]] else []
  }

  lemma {:induction false} SelectSubseq(events: seq<Event>, verdicts: seq<bool>)
    requires |events| == |verdicts|
    ensures Subseq(Select(events, verdicts), events)
  {
    if events != [] {
      var n := |events| - 1;
      var before := Select(events[..n], verdicts[..n]);
      SelectSubseq(events[..n], verdicts[..n]);
      SubseqGrow(before, events[..n], events[n]);
      assert events == events[..n] + [events[n]];
      assert Select(events, verdicts) == if verdicts[n] then before + [events[n]] else before;
    }
  }

  lemma SelectGrow(events: seq<Event>, verdicts: seq<bool>, e: Event, v: bool)
    requires |events| == |verdicts|
    ensures Select(events + [e], verdicts + [v]) == Select(events, verdicts) + if v then [e] else []
  {
    assert (events + [e])[..|events|] == events && (verdicts + [v])[..|events|] == verdicts;
  }

  // ---------------------------------------------------------------- invariant

  /** The channel: closed only after the client left the map, and never more than it holds. */
  predicate ChannelInv(k: Client) {
    && (k.member ==> !k.closed)
    && (!k.member ==> k.closed && !k.due)
    && |k.buffer| <= SEND_CAPACITY
    && k.sent == k.written + k.buffer
  }

  /** What was sent against what matched: everything, until the first overflow. */
  predicate PrefixInv(k: Client) {
    && (k.cut < 0 ==> k.sent == k.matched)
    && (k.cut >= 0 ==> k.cut <= |k.sent| && k.cut < |k.matched| && k.sent[..k.cut] == k.matched[..k.cut])
  }

  predicate OrderInv(k: Client) {
    Subseq(k.sent, k.matched)
  }

  predicate WaitingInv(k: Client) {
    k.member && (k.cut >= 0 || !k.reading) ==> k.waiting > 0
  }

  /** One verdict for every event seen, and what matched are those with verdict true. */
  predicate VerdictInv(k: Client) {
    |k.seen| == |k.verdicts| && k.matched == Select(k.seen, k.verdicts)
  }

  /** What was seen is what was processed while the client was in the map. */
  predicate WindowInv(k: Client, processed: seq<Event>) {
    && k.joined + |k.seen| <= |processed|
    && k.seen == processed[k.joined..k.joined + |k.seen|]
    && (k.member ==> k.joined + |k.seen| == |processed| - if k.due then 1 else 0)
  }

  predicate ClientInv(k: Client, processed: seq<Event>, loop: Loop) {
    && ChannelInv(k) && PrefixInv(k) && OrderInv(k) && WaitingInv(k) && VerdictInv(k) && WindowInv(k, processed)
    && (k.due ==> loop.Broadcasting?)
    && (k.member ==> loop != Stopped)
  }

  ghost predicate QueueInv(s: Sys) {
    && !s.panicked
    && s.accepted == s.processed + s.queue
    && |s.queue| <= EVENT_CAPACITY
    && (s.loop.Broadcasting? ==> s.processed != [] && s.processed[|s.processed| - 1] == s.loop.event)
  }

  ghost predicate Inv(s: Sys) {
    QueueInv(s) && forall c | c in s.clients :: ClientInv(s.clients[c], s.processed, s.loop)
  }

  function Initial(): Sys {
    Sys(map[], [], Idle, false, false, [], [])
  }

  lemma OfferPrefix(k: Client, e: Event)
    requires PrefixInv(k)
    ensures PrefixInv(Offer(k, e))
  {
    if e.project in k.subscribed {
      if k.cut >= 0 {
        assert (k.sent + [e])[..k.cut] == k.sent[..k.cut] && (k.matched + [e])[..k.cut] == k.matched[..k.cut];
      } else if |k.buffer| >= SEND_CAPACITY {
        assert (k.matched + [e])[..|k.sent|] == k.sent[..|k.sent|];
      }
    }
  }

  lemma OfferOrder(k: Client, e: Event)
    requires OrderInv(k)
    ensures OrderInv(Offer(k, e))
  {
    hide Subseq;
    var t := Offer(k, e);
    if e.project !in k.subscribed {
      assert t.sent == k.sent && t.matched == k.matched;
    } else {
      SubseqGrow(k.sent, k.matched, e);
      assert t.matched == k.matched + [e] && (t.sent == k.sent || t.sent == k.sent + [e]);
    }
  }

  lemma OfferVerdict(k: Client, e: Event)
    requires VerdictInv(k)
    ensures VerdictInv(Offer(k, e))
  {
    SelectGrow(k.seen, k.verdicts, e, e.project in k.subscribed);
  }

  lemma OfferWindow(k: Client, processed: seq<Event>)
    requires processed != [] && k.member && k.due && WindowInv(k, processed)
    ensures WindowInv(Offer(k, processed[|processed| - 1]), processed)
  {
    var n := k.joined + |k.seen|;
    assert n == |processed| - 1;
    assert processed[k.joined..n + 1] == processed[k.joined..n] + [processed[n]];
  }

  lemma OfferChannel(k: Client, e: Event)
    requires ChannelInv(k) && WaitingInv(k) && k.member
    ensures ChannelInv(Offer(k, e)) && WaitingInv(Offer(k, e))
  {
  }

  lemma OfferKeeps(k: Client, processed: seq<Event>, loop: Loop)
    requires loop.Broadcasting? && processed != [] && processed[|processed| - 1] == loop.event
    requires ClientInv(k, processed, loop) && k.due
    ensures ClientInv(Offer(k, loop.event), processed, loop) && !k.closed
  {
    OfferChannel(k, loop.event);
    OfferPrefix(k, loop.event);
    OfferOrder(k, loop.event);
    OfferVerdict(k, loop.event);
    OfferWindow(k, processed);
  }

  lemma TakeKeeps(k: Client, processed: seq<Event>, e: Event)
    requires ClientInv(k, processed, Idle)
    ensures ClientInv(k.(due := k.member), processed + [e], Broadcasting(e))
  {
    assert (processed + [e])[k.joined..k.joined + |k.seen|] == processed[k.joined..k.joined + |k.seen|];
  }

  lemma PutKeeps(s: Sys, c: int, k: Client)
    requires Inv(s) && ClientInv(k, s.processed, s.loop)
    ensures Inv(Put(s, c, k))
  {
  }

  lemma SubscriptionKeeps(k: Client, processed: seq<Event>, loop: Loop, ids: set<string>)
    requires ClientInv(k, processed, loop)
    ensures ClientInv(k.(subscribed := ids), processed, loop)
  {
  }

  lemma WaitingKeeps(k: Client, processed: seq<Event>, loop: Loop, waiting: nat, reading: bool)
    requires ClientInv(k, processed, loop) && (k.member ==> waiting > 0)
    ensures ClientInv(k.(reading := reading, waiting := waiting), processed, loop)
  {
  }

  lemma WriterKeeps(k: Client, processed: seq<Event>, loop: Loop)
    requires ClientInv(k, processed, loop) && k.buffer != []
    ensures ClientInv(k.(buffer := k.buffer[1..], written := k.written + [k.buffer[0]]), processed, loop)
  {
    assert k.buffer == [k.buffer[0]] + k.buffer[1..];
  }

  lemma CloseKeeps(k: Client, processed: seq<Event>, loop: Loop, waiting: nat)
    requires ClientInv(k, processed, loop) && !k.due
    ensures ClientInv(k.(waiting := waiting, member := false, closed := true), processed, loop)
  {
  }

  /** A step of one client, or the loop serving one client. */
  lemma OneClientKeeps(s: Sys, c: int, e: Step)
    requires Inv(s) && Enabled(s, e) && c in s.clients
    requires e.Replace? || e.Remove? || e.Clear? || e.ReaderExit? || e.WriterTake?
    requires e.c == c
    ensures Inv(Apply(s, e))
  {
    var k := s.clients[c];
    assert ClientInv(k, s.processed, s.loop);
    var after := Apply(s, e).clients[c];
    if e.WriterTake? {
      WriterKeeps(k, s.processed, s.loop);
    } else if e.ReaderExit? {
      WaitingKeeps(k, s.processed, s.loop, k.waiting + 1, false);
    } else {
      SubscriptionKeeps(k, s.processed, s.loop, after.subscribed);
    }
    PutKeeps(s, c, after);
  }

  lemma UnregisterKeeps(s: Sys, c: int)
    requires Inv(s) && Enabled(s, Unregister(c))
    ensures Inv(Apply(s, Unregister(c)))
  {
    var k := s.clients[c];
    assert ClientInv(k, s.processed, s.loop);
    if k.member {
      CloseKeeps(k, s.processed, s.loop, k.waiting - 1);
    } else {
      WaitingKeeps(k, s.processed, s.loop, k.waiting - 1, k.reading);
    }
    PutKeeps(s, c, Apply(s, Unregister(c)).clients[c]);
  }

  lemma EveryClientKeeps(s: Sys, e: Step)
    requires Inv(s) && Enabled(s, e) && (e.TakeEvent? || e.EndEvent? || e.StopLoop?)
    ensures Inv(Apply(s, e))
  {
    var t := Apply(s, e);
    if e.TakeEvent? {
      assert s.queue == [s.queue[0]] + s.queue[1..];
    }
    forall c | c in t.clients ensures ClientInv(t.clients[c], t.processed, t.loop) {
      assert ClientInv(s.clients[c], s.processed, s.loop);
      if e.TakeEvent? {
        TakeKeeps(s.clients[c], s.processed, s.queue[0]);
      }
    }
  }

  lemma StepKeepsInv(s: Sys, e: Step)
    requires Inv(s) && Enabled(s, e)
    ensures Inv(Apply(s, e))
  {
    match e
    case Register(c) => PutKeeps(s, c, NewClient(s.processed));
    case Visit(c) =>
      OfferKeeps(s.clients[c], s.processed, s.loop);
      PutKeeps(s, c, Offer(s.clients[c], s.loop.event));
    case Arrive(event) => assert s.processed + (s.queue + [event]) == s.accepted + [event];
    case RequestStop =>
    case TakeEvent => EveryClientKeeps(s, e);
    case EndEvent => EveryClientKeeps(s, e);
    case StopLoop => EveryClientKeeps(s, e);
    case Unregister(c) => UnregisterKeeps(s, c);
    case _ => OneClientKeeps(s, e.c, e);
  }

  // ---------------------------------------------------------------- what one step does to a client

  /** The client's turn with an event: k before, t after.  An event of a project it is subscribed
      to goes into its channel while fewer than 64 wait there, otherwise it is dropped and the client
      is to be unregistered; any other event leaves the channel alone. */
  ghost predicate Served(k: Client, t: Client, e: Event) {
    && t.subscribed == k.subscribed && t.member == k.member && t.closed == k.closed && t.reading == k.reading
    && t.written == k.written && t.joined == k.joined && t.seen == k.seen + [e]
    && (if e.project in k.subscribed then
          && t.verdicts == k.verdicts + [true] && t.matched == k.matched + [e]
          && (|k.buffer| < 64 ==>
                t.buffer == k.buffer + [e] && t.sent == k.sent + [e] && t.waiting == k.waiting && t.cut == k.cut)
          && (|k.buffer| >= 64 ==>
                t.buffer == k.buffer && t.sent == k.sent && t.waiting == k.waiting + 1
                && t.cut == if k.cut >= 0 then k.cut else |k.sent|)
        else
          && t.verdicts == k.verdicts + [false] && t.matched == k.matched
          && t.buffer == k.buffer && t.sent == k.sent && t.waiting == k.waiting && t.cut == k.cut)
  }

  lemma OfferServes(k: Client, e: Event)
    ensures Served(k, Offer(k, e), e) && !Offer(k, e).due
  {
  }

  lemma VisitServes(s: Sys, c: int)
    requires Enabled(s, Visit(c))
    ensures var t := Apply(s, Visit(c));
      && Served(s.clients[c], t.clients[c], s.loop.event) && !t.clients[c].due
      && t.queue == s.queue && t.loop == s.loop && t.processed == s.processed && t.accepted == s.accepted
      && t.clients == s.clients[c := t.clients[c]]
  {
    hide Offer, Served;
    OfferServes(s.clients[c], s.loop.event);
  }

  /** What a client has asked for after one more step. */
  function Asked(e: Step, c: int, before: set<string>): set<string> {
    match e
    case Register(d) => if d == c then {} else before
    case Replace(d, ids) => if d == c then ids else before
    case Remove(d, ids) => if d == c then before - ids else before
    case Clear(d) => if d == c then {} else before
    case _ => before
  }

  /** Nothing but its own messages touches a client's subscription. */
  lemma OnlyMessagesSubscribe(s: Sys, e: Step, c: int)
    requires Enabled(s, e) && c in s.clients
    ensures c in Apply(s, e).clients && Apply(s, e).clients[c].subscribed == Asked(e, c, s.clients[c].subscribed)
  {
    hide Offer;
    if e == Visit(c) {
      OfferServes(s.clients[c], s.loop.event);
    }
  }

  /** Only a visit shows a client an event. */
  lemma OnlyVisitsShow(s: Sys, e: Step, c: int)
    requires Enabled(s, e) && c in s.clients && e != Visit(c)
    ensures c in Apply(s, e).clients
    ensures var k, t := s.clients[c], Apply(s, e).clients[c];
      && t.seen == k.seen && t.verdicts == k.verdicts && t.matched == k.matched && t.sent == k.sent && t.cut == k.cut
  {
    hide Offer;
  }

  /** An event is taken from a caller while fewer than 256 wait. */
  lemma ArriveTakes(s: Sys, e: Event)
    ensures var t := Apply(s, Arrive(e));
      && (|s.queue| < 256 ==> t == s.(queue := s.queue + [e], accepted := s.accepted + [e]))
      && (|s.queue| >= 256 ==> t == s)
  {
  }

  // ---------------------------------------------------------------- runs

  ghost predicate Behaviour(b: seq<Sys>, steps: seq<Step>) {
    && |b| == |steps| + 1 && b[0] == Initial()
    && (forall i | 0 <= i < |steps| :: Enabled(b[i], steps[i]) && b[i + 1] == Apply(b[i], steps[i]))
  }

  lemma {:induction false} BehaviourInv(b: seq<Sys>, steps: seq<Step>, i: nat)
    requires Behaviour(b, steps) && i < |b|
    ensures Inv(b[i])
  {
    if i > 0 {
      BehaviourInv(b, steps, i - 1);
      StepKeepsInv(b[i - 1], steps[i - 1]);
    }
  }

  /** No channel is closed twice or sent on after it was closed. */
  lemma NeverPanics(b: seq<Sys>, steps: seq<Step>, i: nat)
    requires Behaviour(b, steps) && i < |b|
    ensures !b[i].panicked
    ensures forall c | c in b[i].clients && b[i].clients[c].closed :: !b[i].clients[c].member
  {
    BehaviourInv(b, steps, i);
  }

  lemma ClosedStays(s: Sys, e: Step, c: int)
    requires Inv(s) && Enabled(s, e) && c in s.clients && s.clients[c].closed
    ensures var t := Apply(s, e); c in t.clients && t.clients[c].closed && t.clients[c].sent == s.clients[c].sent
  {
    assert ClientInv(s.clients[c], s.processed, s.loop);
  }

  /** Once closed, a channel takes nothing more. */
  lemma {:induction false} ClosedIsFinal(b: seq<Sys>, steps: seq<Step>, i: nat, j: nat, c: int)
    requires Behaviour(b, steps) && i <= j < |b| && c in b[i].clients && b[i].clients[c].closed
    ensures c in b[j].clients && b[j].clients[c].closed && b[j].clients[c].sent == b[i].clients[c].sent
    decreases j
  {
    if i < j {
      ClosedIsFinal(b, steps, i, j - 1, c);
      BehaviourInv(b, steps, j - 1);
      ClosedStays(b[j - 1], steps[j - 1], c);
    }
  }

  /** What a client is sent: the events accepted from callers, in their order, restricted to those
      that came up while it was in the map and subscribed at its turn - all of them up to its
      first overflow, a subsequence after it.  What its writer took is a prefix of that. */
  lemma SentIsMatched(b: seq<Sys>, steps: seq<Step>, i: nat, c: int)
    requires Behaviour(b, steps) && i < |b| && c in b[i].clients
    ensures var s := b[i]; var k := s.clients[c];
      && k.joined + |k.seen| <= |s.processed| && s.processed <= s.accepted && |k.verdicts| == |k.seen|
      && k.seen == s.accepted[k.joined..k.joined + |k.seen|]
      && (k.member && s.loop == Idle ==> k.joined + |k.seen| == |s.processed|)
      && k.matched == Select(k.seen, k.verdicts)
      && (k.cut < 0 ==> k.sent == k.matched)
      && (k.cut >= 0 ==> k.cut <= |k.sent| && k.cut < |k.matched| && k.sent[..k.cut] == k.matched[..k.cut])
      && Subseq(k.sent, k.matched)
      && Subseq(k.matched, k.seen)
      && k.written <= k.sent
  {
    BehaviourInv(b, steps, i);
    var s := b[i];
    var k := s.clients[c];
    var n := k.joined + |k.seen|;
    assert ClientInv(k, s.processed, s.loop);
    assert s.accepted[k.joined..n] == s.processed[k.joined..n];
    SelectSubseq(k.seen, k.verdicts);
  }

  /** What client c is subscribed to after the first n steps, told from the steps alone. */
  ghost function SubscriptionAfter(steps: seq<Step>, n: nat, c: int): set<string>
    requires n <= |steps|
  {
    if n == 0 then {} else Asked(steps[n - 1], c, SubscriptionAfter(steps, n - 1, c))
  }

  /** The steps that were the client's turns. */
  ghost function Turns(steps: seq<Step>, n: nat, c: int): (turns: seq<nat>)
    requires n <= |steps|
    ensures forall i | 0 <= i < |turns| :: turns[i] < n && steps[turns[i]] == Visit(c)
  {
    if n == 0 then []
    else if steps[n - 1] == Visit(c) then Turns(steps, n - 1, c) + [n - 1]
    else Turns(steps, n - 1, c)
  }

  /** Each verdict is about one turn of the client: whether the event that came up was of a project
      the client had asked for by then. */
  ghost predicate VerdictsFit(k: Client, steps: seq<Step>, n: nat, c: int)
    requires n <= |steps|
  {
    && k.subscribed == SubscriptionAfter(steps, n, c)
    && |k.seen| == |k.verdicts| == |Turns(steps, n, c)|
    && forall i | 0 <= i < |k.seen| ::
         k.verdicts[i] <==> k.seen[i].project in SubscriptionAfter(steps, Turns(steps, n, c)[i], c)
  }

  lemma {:induction false} NoTurnsYet(b: seq<Sys>, steps: seq<Step>, n: nat, c: int)
    requires Behaviour(b, steps) && n < |b| && c !in b[n].clients
    ensures Turns(steps, n, c) == [] && SubscriptionAfter(steps, n, c) == {}
  {
    hide Apply, Enabled;
    if n > 0 {
      ClientsStay(b[n - 1], steps[n - 1], c);
      NoTurnsYet(b, steps, n - 1, c);
    }
  }

  lemma ClientsStay(s: Sys, e: Step, c: int)
    requires Enabled(s, e)
    ensures c in s.clients ==> c in Apply(s, e).clients
    ensures c !in Apply(s, e).clients ==>
      e != Visit(c) && e != Register(c) && e != Clear(c) && !(e.Replace? && e.c == c) && !(e.Remove? && e.c == c)
    ensures c !in s.clients && c in Apply(s, e).clients ==> e == Register(c)
  {
  }

  lemma NewcomerFits(s: Sys, c: int, steps: seq<Step>, n: nat)
    requires Enabled(s, Register(c)) && n < |steps| && steps[n] == Register(c)
    requires Turns(steps, n, c) == []
    ensures VerdictsFit(Apply(s, Register(c)).clients[c], steps, n + 1, c)
  {
  }

  lemma FitsLonger(s: Sys, c: int, steps: seq<Step>, n: nat)
    requires n < |steps| && Enabled(s, steps[n]) && c in s.clients && VerdictsFit(s.clients[c], steps, n, c)
    ensures VerdictsFit(Apply(s, steps[n]).clients[c], steps, n + 1, c)
  {
    hide Apply, Enabled;
    OnlyMessagesSubscribe(s, steps[n], c);
    EnabledRegister(s, steps[n], c);
    if steps[n] == Visit(c) {
      VisitServes(s, c);
    } else {
      OnlyVisitsShow(s, steps[n], c);
    }
  }

  lemma EnabledRegister(s: Sys, e: Step, c: int)
    requires Enabled(s, e) && c in s.clients
    ensures e != Register(c) && (e == Visit(c) ==> s.loop.Broadcasting?)
  {
  }

  /** Over every run: a client is subscribed to what its own messages asked for, and an event is
      matched exactly if, at the client's turn, it is of a project among those. */
  lemma {:induction false} VerdictsAreSubscriptions(b: seq<Sys>, steps: seq<Step>, n: nat, c: int)
    requires Behaviour(b, steps) && n < |b| && c in b[n].clients
    ensures VerdictsFit(b[n].clients[c], steps, n, c)
  {
    hide Apply, Enabled, VerdictsFit;
    if n > 0 {
      var s, e := b[n - 1], steps[n - 1];
      if c in s.clients {
        VerdictsAreSubscriptions(b, steps, n - 1, c);
        FitsLonger(s, c, steps, n - 1);
      } else {
        ClientsStay(s, e, c);
        NoTurnsYet(b, steps, n - 1, c);
        NewcomerFits(s, c, steps, n - 1);
      }
    }
  }

  /** A client that overflowed, or whose reader has gone, and that is still in the map has an
      unregister waiting; serving one removes and closes it, and any further one does nothing. */
  lemma OverflowIsUnregistered(b: seq<Sys>, steps: seq<Step>, i: nat, c: int)
    requires Behaviour(b, steps) && i < |b| && c in b[i].clients
    requires b[i].clients[c].member && (b[i].clients[c].cut >= 0 || !b[i].clients[c].reading)
    ensures b[i].clients[c].waiting > 0
    ensures b[i].loop == Idle ==> Enabled(b[i], Unregister(c))
    ensures b[i].loop == Idle ==>
      var t := Apply(b[i], Unregister(c));
      && !t.clients[c].member && t.clients[c].closed
      && (t.clients[c].waiting > 0 ==>
            Apply(t, Unregister(c)).clients[c] == t.clients[c].(waiting := t.clients[c].waiting - 1))
  {
    BehaviourInv(b, steps, i);
    assert ClientInv(b[i].clients[c], b[i].processed, b[i].loop);
  }

  /** After the loop stopped every connection that ever registered has a closed channel. */
  lemma StopClosesAll(b: seq<Sys>, steps: seq<Step>, i: nat, c: int)
    requires Behaviour(b, steps) && i < |b| && b[i].loop == Stopped && c in b[i].clients
    ensures b[i].clients[c].closed
  {
    BehaviourInv(b, steps, i);
    assert ClientInv(b[i].clients[c], b[i].processed, b[i].loop);
  }

  // ---------------------------------------------------------------- the loop itself

  /** The clients in the order the map happens to be walked. */
  ghost predicate Walks(order: seq<int>, clients: map<int, Client>) {
    && (forall i, j | 0 <= i < j < |order| :: order[i] != order[j])
    && (forall i | 0 <= i < |order| :: order[i] in clients && clients[order[i]].member)
    && (forall c | c in clients && clients[c].member :: exists i :: 0 <= i < |order| && order[i] == c)
  }

  /** The first i of the walk have been dealt with, the others have not. */
  ghost predicate Partway(order: seq<int>, i: nat, was: map<int, Client>, done: map<int, Client>, now: map<int, Client>)
    requires i <= |order|
  {
    && now.Keys == was.Keys == done.Keys
    && (forall j | 0 <= j < i :: order[j] in now && now[order[j]] == done[order[j]])
    && (forall c | c in now && (forall j | 0 <= j < i :: order[j] != c) :: now[c] == was[c])
  }

  lemma PartwayStep(order: seq<int>, i: nat, was: map<int, Client>, done: map<int, Client>, now: map<int, Client>)
    requires i < |order| && order[i] in now && Partway(order, i, was, done, now)
    requires forall k, j | 0 <= k < j < |order| :: order[k] != order[j]
    ensures now[order[i]] == was[order[i]]
    ensures Partway(order, i + 1, was, done, now[order[i] := done[order[i]]])
  {
  }

  lemma PartwayDone(order: seq<int>, members: map<int, Client>, was: map<int, Client>, done: map<int, Client>,
        now: map<int, Client>)
    requires Partway(order, |order|, was, done, now) && members.Keys == was.Keys && Walks(order, members)
    requires forall c | c in was && !members[c].member :: was[c] == done[c]
    ensures now == done
  {
    forall c | c in now ensures now[c] == done[c] {
      if members[c].member {
        var j :| 0 <= j < |order| && order[j] == c;
        assert order[j] in now;
      } else {
        assert forall j | 0 <= j < |order| :: order[j] != c;
      }
    }
  }

  function Offered(clients: map<int, Client>, e: Event): map<int, Client> {
    map c | c in clients :: if clients[c].member then Offer(clients[c], e) else clients[c].(due := false)
  }

  function Closed(clients: map<int, Client>): map<int, Client> {
    map c | c in clients :: if clients[c].member then clients[c].(member := false, closed := true) else clients[c]
  }

  function Due(clients: map<int, Client>): map<int, Client> {
    map c | c in clients :: clients[c].(due := clients[c].member)
  }

  /** A broadcast nobody interferes with. */
  function Broadcast(s: Sys): Sys
    requires s.queue != []
  {
    s.(queue := s.queue[1..], processed := s.processed + [s.queue[0]], clients := Offered(s.clients, s.queue[0]))
  }

  lemma VisitIs(s: Sys, c: int)
    requires Inv(s) && Enabled(s, Visit(c))
    ensures Inv(Apply(s, Visit(c)))
    ensures Apply(s, Visit(c)) == s.(clients := s.clients[c := Offer(s.clients[c], s.loop.event)])
  {
    OfferKeeps(s.clients[c], s.processed, s.loop);
    StepKeepsInv(s, Visit(c));
  }

  ghost predicate Path(b: seq<Sys>, steps: seq<Step>) {
    && |b| == |steps| + 1
    && forall i | 0 <= i < |steps| :: Enabled(b[i], steps[i]) && b[i + 1] == Apply(b[i], steps[i])
  }

  lemma Extend(b: seq<Sys>, steps: seq<Step>, e: Step)
    requires Path(b, steps) && Enabled(b[|steps|], e)
    ensures Path(b + [Apply(b[|steps|], e)], steps + [e])
  {
  }

  lemma {:induction false} VisitsRun(order: seq<int>, i: nat, first: Sys, done: map<int, Client>)
    returns (b: seq<Sys>, steps: seq<Step>)
    requires i <= |order| && Inv(first) && first.loop.Broadcasting?
    requires forall k, j | 0 <= k < j < |order| :: order[k] != order[j]
    requires done.Keys == first.clients.Keys
    requires forall j | 0 <= j < |order| ::
      (order[j] in first.clients && first.clients[order[j]].due
       && done[order[j]] == Offer(first.clients[order[j]], first.loop.event))
    ensures Path(b, steps) && b[0] == first && Inv(b[|steps|])
    ensures b[|steps|] == first.(clients := b[|steps|].clients)
    ensures Partway(order, i, first.clients, done, b[|steps|].clients)
  {
    if i == 0 {
      b, steps := [first], [];
    } else {
      b, steps := VisitsRun(order, i - 1, first, done);
      var at := b[|steps|];
      PartwayStep(order, i - 1, first.clients, done, at.clients);
      VisitIs(at, order[i - 1]);
      Extend(b, steps, Visit(order[i - 1]));
      b, steps := b + [Apply(at, Visit(order[i - 1]))], steps + [Visit(order[i - 1])];
    }
  }

  lemma DueOffers(s: Sys, order: seq<int>)
    requires Inv(s) && Enabled(s, TakeEvent) && Walks(order, s.clients)
    ensures var first, done := Apply(s, TakeEvent), Offered(s.clients, s.queue[0]);
      forall j | 0 <= j < |order| ::
        (order[j] in first.clients && first.clients[order[j]].due
         && done[order[j]] == Offer(first.clients[order[j]], first.loop.event))
  {
    forall j | 0 <= j < |order|
      ensures var k := s.clients[order[j]]; Offer(k.(due := true), s.queue[0]) == Offer(k, s.queue[0])
    {
      OfferIgnoresDue(s.clients[order[j]], s.queue[0]);
    }
  }

  lemma AllVisited(s: Sys, order: seq<int>) returns (b: seq<Sys>, steps: seq<Step>)
    requires Inv(s) && Enabled(s, TakeEvent) && Walks(order, s.clients)
    ensures var first := Apply(s, TakeEvent);
      && Path(b, steps) && b[0] == first
      && b[|steps|] == first.(clients := Offered(s.clients, s.queue[0]))
  {
    var first := Apply(s, TakeEvent);
    var done := Offered(s.clients, s.queue[0]);
    EveryClientKeeps(s, TakeEvent);
    DueOffers(s, order);
    b, steps := VisitsRun(order, |order|, first, done);
    PartwayDone(order, s.clients, first.clients, done, b[|steps|].clients);
  }

  /** One order of visits is as good as another: taking the event, visiting every member in any
      order and ending is a path of steps to the same state. */
  lemma BroadcastRuns(s: Sys, order: seq<int>) returns (b: seq<Sys>, steps: seq<Step>)
    requires Inv(s) && Enabled(s, TakeEvent) && Walks(order, s.clients)
    ensures Path(b, steps) && b[0] == s && b[|steps|] == Broadcast(s)
  {
    var visits, walk := AllVisited(s, order);
    var at := visits[|walk|];
    assert Enabled(at, EndEvent);
    Extend(visits, walk, EndEvent);
    var rest := visits + [Apply(at, EndEvent)];
    Prepend(s, TakeEvent, rest, walk + [EndEvent]);
    b, steps := [s] + rest, [TakeEvent] + (walk + [EndEvent]);
  }

  /** A broadcast serves every member the event, and nobody else. */
  lemma BroadcastServes(s: Sys)
    requires Inv(s) && Enabled(s, TakeEvent)
    ensures var t := Broadcast(s);
      && t.clients.Keys == s.clients.Keys && t.queue == s.queue[1..] && t.processed == s.processed + [s.queue[0]]
      && forall c | c in s.clients ::
           if s.clients[c].member then Served(s.clients[c], t.clients[c], s.queue[0]) else t.clients[c] == s.clients[c]
  {
    hide Offer, Served, Inv;
    NoneDue(s);
    forall c | c in s.clients ensures Served(s.clients[c], Offer(s.clients[c], s.queue[0]), s.queue[0]) {
      OfferServes(s.clients[c], s.queue[0]);
    }
  }

  lemma OfferIgnoresDue(k: Client, e: Event)
    ensures Offer(k.(due := true), e) == Offer(k, e)
  {
  }

  lemma Prepend(s: Sys, e: Step, b: seq<Sys>, steps: seq<Step>)
    requires Enabled(s, e) && Path(b, steps) && b[0] == Apply(s, e)
    ensures Path([s] + b, [e] + steps)
  {
  }

  lemma NoneDue(s: Sys)
    requires Inv(s) && !s.loop.Broadcasting?
    ensures forall c | c in s.clients :: !s.clients[c].due && s.clients[c] == s.clients[c].(due := false)
  {
    forall c | c in s.clients ensures !s.clients[c].due {
      assert ClientInv(s.clients[c], s.processed, s.loop);
    }
  }

  datatype Message = Message(action: string, ids: seq<string>)

  function Items(ids: seq<string>): set<string> {
    set id | id in ids
  }

  /** The subscriptions after a message; an unknown action is ignored. */
  function Handle(m: Message, subscribed: set<string>): set<string> {
    match m.action
    case "subscribe" => Items(m.ids)
    case "unsubscribe" => subscribed - Items(m.ids)
    case "unsubscribe_all" => {}
    case _ => subscribed
  }

  class Hub {
    var clients: map<int, Client>
    var queue: seq<Event>
    var loop: Loop
    var stopping: bool
    var accepted: seq<Event>
    var processed: seq<Event>

    constructor ()
      ensures View() == Initial()
    {
      clients, queue, loop, stopping, accepted, processed := map[], [], Idle, false, [], [];
    }

    function View(): Sys
      reads this
    {
      Sys(clients, queue, loop, stopping, false, accepted, processed)
    }

    method OnEvent(e: Event)
      modifies this
      ensures View() == Apply(old(View()), Arrive(e))
      ensures queue == if |old(queue)| < 256 then old(queue) + [e] else old(queue)
      ensures clients == old(clients)
    {
      if |queue| < EVENT_CAPACITY {
        queue := queue + [e];
        accepted := accepted + [e];
      }
    }

    method ServeRegister(c: int)
      requires Enabled(View(), Register(c))
      modifies this
      ensures View() == Apply(old(View()), Register(c))
      ensures c in clients && clients[c].member && !clients[c].closed && clients[c].reading
      ensures clients[c].buffer == [] && clients[c].sent == [] && clients[c].subscribed == {}
      ensures clients - {c} == old(clients) && queue == old(queue)
    {
      clients := clients[c := NewClient(processed)];
    }

    method ServeUnregister(c: int)
      requires Inv(View()) && Enabled(View(), Unregister(c))
      modifies this
      ensures View() == Apply(old(View()), Unregister(c))
      ensures c in clients && !clients[c].member && clients[c].closed
      ensures clients - {c} == old(clients) - {c} && queue == old(queue)
    {
      hide Offer;
      assert ClientInv(View().clients[c], processed, loop);
      clients := clients[c := clients[c].(waiting := clients[c].waiting - 1)];
      if clients[c].member {
        Close(c);
      }
    }

    method Close(c: int)
      requires c in clients
      modifies this`clients
      ensures clients == old(clients)[c := old(clients)[c].(member := false, closed := true)]
    {
      clients := clients[c := clients[c].(closed := true)];
      clients := clients[c := clients[c].(member := false)];
    }

    method ServeStop(order: seq<int>)
      requires Inv(View()) && Enabled(View(), StopLoop) && Walks(order, clients)
      modifies this
      ensures View() == Apply(old(View()), StopLoop)
      ensures loop == Stopped && clients.Keys == old(clients).Keys
      ensures forall c | c in clients ::
        !clients[c].member && clients[c].closed && clients[c].sent == old(clients)[c].sent
    {
      ghost var done := Closed(clients);
      forall c | c in clients ensures !(clients[c].member && clients[c].closed) {
        assert ClientInv(View().clients[c], processed, loop);
      }
      for i := 0 to |order|
        invariant Partway(order, i, old(clients), done, clients)
        invariant View() == old(View()).(clients := clients)
      {
        PartwayStep(order, i, old(clients), done, clients);
        Close(order[i]);
      }
      PartwayDone(order, old(clients), old(clients), done, clients);
      loop := Stopped;
    }

    method Deliver(c: int, e: Event)
      requires c in clients
      modifies this`clients
      ensures clients == old(clients)[c := Offer(old(clients)[c], e)]
      ensures Served(old(clients)[c], clients[c], e)
    {
      var k := clients[c].(due := false);
      if e.project in k.subscribed {
        if |k.buffer| < SEND_CAPACITY {
          k := k.(buffer := k.buffer + [e], sent := k.sent + [e]);
        } else {
          k := k.(waiting := k.waiting + 1, cut := if k.cut < 0 then |k.sent| else k.cut);
        }
        k := k.(seen := k.seen + [e], verdicts := k.verdicts + [true], matched := k.matched + [e]);
      } else {
        k := k.(seen := k.seen + [e], verdicts := k.verdicts + [false]);
      }
      clients := clients[c := k];
    }

    method FanOut(order: seq<int>)
      requires Inv(View()) && Enabled(View(), TakeEvent) && Walks(order, clients)
      modifies this
      ensures View() == Broadcast(old(View()))
    {
      var e := queue[0];
      ghost var done := Offered(clients, e);
      NoneDue(View());
      queue := queue[1..];
      processed := processed + [e];
      for i := 0 to |order|
        invariant Partway(order, i, old(clients), done, clients)
        invariant View() == old(View()).(clients := clients, queue := queue, processed := processed)
        invariant queue == old(queue)[1..] && processed == old(processed) + [e]
      {
        PartwayStep(order, i, old(clients), done, clients);
        Deliver(order[i], e);
      }
      PartwayDone(order, old(clients), old(clients), done, clients);
    }

    /** One event for every member of the client map, in the order the map is walked. */
    method ServeEvent(order: seq<int>)
      requires Inv(View()) && Enabled(View(), TakeEvent) && Walks(order, clients)
      modifies this
      ensures View() == Broadcast(old(View())) && clients.Keys == old(clients).Keys
      ensures queue == old(queue)[1..]
      ensures forall c | c in clients ::
        if old(clients)[c].member then Served(old(clients)[c], clients[c], old(queue)[0])
        else clients[c] == old(clients)[c]
    {
      hide Inv, Served, Offered, Walks, Broadcast;
      BroadcastServes(View());
      FanOut(order);
    }

    /** A message from the browser. */
    method Receive(c: int, m: Message)
      requires c in clients && clients[c].reading
      modifies this
      ensures View() == if m.action == "subscribe" then Apply(old(View()), Replace(c, Items(m.ids)))
                        else if m.action == "unsubscribe" then Apply(old(View()), Remove(c, Items(m.ids)))
                        else if m.action == "unsubscribe_all" then Apply(old(View()), Clear(c))
                        else old(View())
      ensures c in clients && clients[c].subscribed == Handle(m, old(clients)[c].subscribed)
      ensures forall id :: id in clients[c].subscribed <==>
        match m.action
        case "subscribe" => id in m.ids
        case "unsubscribe" => id in old(clients)[c].subscribed && id !in m.ids
        case "unsubscribe_all" => false
        case _ => id in old(clients)[c].subscribed
    {
      if m.action == "subscribe" {
        var wanted: set<string> := {};
        for i := 0 to |m.ids|
          invariant wanted == Items(m.ids[..i])
        {
          wanted := wanted + {m.ids[i]};
          assert m.ids[..i + 1] == m.ids[..i] + [m.ids[i]];
        }
        assert m.ids[..|m.ids|] == m.ids;
        clients := clients[c := clients[c].(subscribed := wanted)];
      } else if m.action == "unsubscribe" {
        assert old(clients)[c].subscribed - Items(m.ids[..0]) == old(clients)[c].subscribed;
        for i := 0 to |m.ids|
          invariant c in clients
          invariant View() == old(View()).(clients :=
            old(clients)[c := old(clients)[c].(subscribed := old(clients)[c].subscribed - Items(m.ids[..i]))])
        {
          clients := clients[c := clients[c].(subscribed := clients[c].subscribed - {m.ids[i]})];
          assert m.ids[..i + 1] == m.ids[..i] + [m.ids[i]];
          assert old(clients)[c].subscribed - Items(m.ids[..i]) - {m.ids[i]}
              == old(clients)[c].subscribed - Items(m.ids[..i + 1]);
        }
        assert m.ids[..|m.ids|] == m.ids;
      } else if m.action == "unsubscribe_all" {
        clients := clients[c := clients[c].(subscribed := {})];
      }
    }
  }
}
