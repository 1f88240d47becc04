/** The browser's shared socket: what it last sent, what is still on its way and what the
    server holds. */
module Subscriptions {
  import opened Options
  import opened Strings
  import HubMachine

  type Message = HubMachine.Message

  /** `inflight` are the messages sent on the live socket that the server has not read yet. */
  datatype Socket = Socket(open: bool, subscribers: map<nat, seq<string>>, nextId: nat, lastSent: string,
                           inflight: seq<Message>, server: set<string>)

  // ---------------------------------------------------------------- keys

  ghost function Key(ids: set<string>): string {
    Join(Sorted(ids), ',')
  }

  lemma {:induction false} SizeGrows(a: set<string>, b: set<string>)
    requires a <= b && a != b
    ensures Size(Sorted(a)) < Size(Sorted(b))
    decreases |b - a|
  {
    assert b == a + (b - a);
    var x :| x in b - a;
    var c := a + {x};
    OneMore(a, x);
    if c != b {
      assert b - c == b - a - {x};
      SizeGrows(c, b);
    }
  }

  lemma OneMore(a: set<string>, x: string)
    requires x !in a
    ensures Size(Sorted(a + {x})) == Size(Sorted(a)) + |x| + 1
  {
    var xs := Sorted(a);
    InsertAscending(x, xs);
    InsertSize(x, xs);
    forall y ensures y in Insert(x, xs) <==> y in a + {x} {
      InsertHas(x, xs, y);
    }
    ListsUnique(Insert(x, xs), a + {x});
  }

  /** Only no ids at all and the empty id alone have the empty key. */
  lemma EmptyKey(ids: set<string>)
    ensures Key(ids) == "" <==> ids <= {""}
  {
    JoinLength(Sorted(ids), ',');
    assert ids == {} <==> Sorted(ids) == [] by {
      if ids == {} {
        ListsUnique([], ids);
      }
    }
    if ids != {} {
      var x :| x in ids;
      ListsUnique([], {});
      OneMore({}, x);
      assert {} + {x} == {x};
      if ids != {x} {
        SizeGrows({x}, ids);
      }
    }
  }

  /** Of two sets, one inside the other, the key tells which is which; except that it does not
      tell no ids at all from the empty id alone. */
  lemma KeyOfNested(a: set<string>, b: set<string>)
    requires a <= b && Key(a) == Key(b)
    ensures a == b || (a <= {""} && b <= {""})
  {
    if a != b {
      SizeGrows(a, b);
      JoinLength(Sorted(a), ',');
      JoinLength(Sorted(b), ',');
      EmptyKey(a);
      EmptyKey(b);
    }
  }

  // ---------------------------------------------------------------- specification

  /** What the server will hold once it has read everything under way. */
  function Eventually(inflight: seq<Message>, server: set<string>): set<string> {
    if inflight == [] then server else Eventually(inflight[1..], HubMachine.Handle(inflight[0], server))
  }

  lemma {:induction false} EventuallySnoc(inflight: seq<Message>, server: set<string>, m: Message)
    ensures Eventually(inflight + [m], server) == HubMachine.Handle(m, Eventually(inflight, server))
  {
    if inflight == [] {
      assert [m][1..] == [];
    } else {
      EventuallySnoc(inflight[1..], HubMachine.Handle(inflight[0], server), m);
      assert (inflight + [m])[1..] == inflight[1..] + [m];
    }
  }

  ghost predicate Wants(subscribers: map<nat, seq<string>>, id: string) {
    exists i :: i in subscribers && id in subscribers[i]
  }

  function Wanted(subscribers: map<nat, seq<string>>): set<string> {
    set i, id | i in subscribers && id in subscribers[i] :: id
  }

  function Request(sorted: seq<string>): Message {
    if |sorted| > 0 then HubMachine.Message("subscribe", sorted) else HubMachine.Message("unsubscribe_all", [])
  }

  ghost function Sync(s: Socket): Socket {
    var sorted := Sorted(Wanted(s.subscribers));
    if !s.open || Join(sorted, ',') == s.lastSent then s
    else s.(lastSent := Join(sorted, ','), inflight := s.inflight + [Request(sorted)])
  }

  /** A sync sends at most one message, only on an open socket, and only when the sorted list of what
      is wanted does not join to what was sent last; and that message asks for exactly that list. */
  lemma SyncSends(s: Socket)
    ensures var t := Sync(s); var wanted := Sorted(Wanted(s.subscribers));
      && t == s.(lastSent := t.lastSent, inflight := t.inflight)
      && (s.open && Join(wanted, ',') != s.lastSent ==>
            && t.lastSent == Join(wanted, ',')
            && |t.inflight| == |s.inflight| + 1 && t.inflight[..|s.inflight|] == s.inflight
            && (wanted != [] ==> t.inflight[|s.inflight|] == HubMachine.Message("subscribe", wanted))
            && (wanted == [] ==> t.inflight[|s.inflight|].action == "unsubscribe_all"))
      && (!s.open || Join(wanted, ',') == s.lastSent ==> t == s)
  {
  }

  datatype Call =
    | Subscribe(ids: seq<string>)
    | Unsubscribe(id: nat)
    | Open
    | Close
    | ServerReads

  predicate Allowed(s: Socket, c: Call) {
    match c
    case Open => !s.open
    case ServerReads => s.open && s.inflight != []
    case _ => true
  }

  ghost function Next(s: Socket, c: Call): Socket {
    match c
    case Subscribe(ids) => Sync(s.(subscribers := s.subscribers[s.nextId := ids], nextId := s.nextId + 1))
    case Unsubscribe(id) => Sync(s.(subscribers := s.subscribers - {id}))
    case Open => Sync(s.(open := true, lastSent := "", inflight := [], server := {}))
    case Close => s.(open := false)
    case ServerReads =>
      if s.inflight == [] then s
      else s.(inflight := s.inflight[1..], server := HubMachine.Handle(s.inflight[0], s.server))
  }

  // ---------------------------------------------------------------- agreement

  ghost function Coming(s: Socket): set<string> {
    Eventually(s.inflight, s.server)
  }

  /** The server is going to hold what is wanted, and `lastSent` is its key. */
  ghost predicate Agrees(s: Socket) {
    s.open ==> s.lastSent == Key(Coming(s)) && Coming(s) == Wanted(s.subscribers)
  }

  /** The same, but for telling no ids at all from the empty id alone. */
  ghost predicate Close(a: set<string>, b: set<string>) {
    a == b || (a <= {""} && b <= {""})
  }

  ghost predicate Tidy(s: Socket) {
    && (forall i | i in s.subscribers :: i < s.nextId)
    && (s.open ==> s.lastSent == Key(Coming(s)) && Close(Coming(s), Wanted(s.subscribers)))
  }

  lemma RequestAsks(sorted: seq<string>, wanted: set<string>, before: set<string>)
    requires Lists(sorted, wanted)
    ensures HubMachine.Handle(Request(sorted), before) == wanted
  {
    if sorted == [] {
      assert forall x :: x in wanted ==> x in sorted;
    } else {
      assert HubMachine.Items(sorted) == wanted;
    }
  }

  /** What a sync leaves coming: what is wanted, unless its key was the one sent last. */
  lemma SyncComing(s: Socket)
    requires s.open && s.lastSent == Key(Coming(s))
    ensures var t, wanted := Sync(s), Wanted(s.subscribers);
      && t.lastSent == Key(Coming(t))
      && Coming(t) == if Key(wanted) == s.lastSent then Coming(s) else wanted
  {
    var sorted := Sorted(Wanted(s.subscribers));
    if Join(sorted, ',') != s.lastSent {
      EventuallySnoc(s.inflight, s.server, Request(sorted));
      RequestAsks(sorted, Wanted(s.subscribers), Coming(s));
    }
  }

  /** A sync after the wanted set has grown or shrunk reaches agreement if and only if the change
      was not between no ids at all and the empty id alone. */
  lemma SyncAgreesIff(s: Socket)
    requires s.open && s.lastSent == Key(Coming(s))
    requires Coming(s) <= Wanted(s.subscribers) || Wanted(s.subscribers) <= Coming(s)
    ensures Agrees(Sync(s)) <==>
      Coming(s) == Wanted(s.subscribers) || !(Coming(s) <= {""} && Wanted(s.subscribers) <= {""})
  {
    SyncComing(s);
    var before, wanted := Coming(s), Wanted(s.subscribers);
    EmptyKey(before);
    EmptyKey(wanted);
    if Key(wanted) == s.lastSent {
      if before <= wanted {
        KeyOfNested(before, wanted);
      } else {
        KeyOfNested(wanted, before);
      }
    }
  }

  lemma SyncCloses(s: Socket, before: set<string>)
    requires s.open && s.lastSent == Key(Coming(s)) && Close(Coming(s), before)
    requires before <= Wanted(s.subscribers) || Wanted(s.subscribers) <= before
    ensures Close(Coming(Sync(s)), Wanted(s.subscribers))
  {
    SyncComing(s);
    EmptyKey(Coming(s));
    EmptyKey(Wanted(s.subscribers));
    if Coming(s) == before {
      SyncAgreesIff(s);
    }
  }

  lemma NextTidy(s: Socket, c: Call)
    requires Tidy(s) && Allowed(s, c)
    ensures Tidy(Next(s, c))
  {
    match c
    case Subscribe(ids) =>
      var t := s.(subscribers := s.subscribers[s.nextId := ids], nextId := s.nextId + 1);
      WantedGrows(s.subscribers, s.nextId, ids);
      SyncTidy(t, Wanted(s.subscribers));
    case Unsubscribe(id) => SyncTidy(s.(subscribers := s.subscribers - {id}), Wanted(s.subscribers));
    case Open =>
      EmptyKey({});
      SyncTidy(s.(open := true, lastSent := "", inflight := [], server := {}), {});
    case Close =>
    case ServerReads =>
  }

  lemma SyncTidy(s: Socket, before: set<string>)
    requires forall i | i in s.subscribers :: i < s.nextId
    requires s.open ==> s.lastSent == Key(Coming(s)) && Close(Coming(s), before)
    requires before <= Wanted(s.subscribers) || Wanted(s.subscribers) <= before
    ensures Tidy(Sync(s))
  {
    if s.open {
      SyncComing(s);
      SyncCloses(s, before);
    }
  }

  lemma WantedGrows(subscribers: map<nat, seq<string>>, id: nat, ids: seq<string>)
    requires id !in subscribers
    ensures Wanted(subscribers[id := ids]) == Wanted(subscribers) + HubMachine.Items(ids)
  {
    var more := subscribers[id := ids];
    forall x ensures x in Wanted(more) <==> x in Wanted(subscribers) || x in ids {
      if x in Wanted(subscribers) {
        var i :| i in subscribers && x in subscribers[i];
        assert i in more && x in more[i];
      }
      if x in ids {
        assert id in more && x in more[id];
      }
    }
  }

  ghost function Run(s: Socket, calls: seq<Call>): Socket {
    if calls == [] then s else Next(Run(s, calls[..|calls| - 1]), calls[|calls| - 1])
  }

  ghost predicate Runs(s: Socket, calls: seq<Call>) {
    forall k | 0 <= k < |calls| :: Allowed(Run(s, calls[..k]), calls[k])
  }

  lemma RunsFront(s: Socket, calls: seq<Call>)
    requires Runs(s, calls) && calls != []
    ensures var front := calls[..|calls| - 1];
      Runs(s, front) && Allowed(Run(s, front), calls[|calls| - 1])
  {
    var front := calls[..|calls| - 1];
    forall k | 0 <= k < |front| ensures Allowed(Run(s, front[..k]), front[k]) {
      assert front[..k] == calls[..k];
      assert Allowed(Run(s, calls[..k]), calls[k]);
    }
    assert Allowed(Run(s, calls[..|front|]), calls[|front|]);
  }

  function Initial(): Socket {
    Socket(false, map[], 0, "", [], {})
  }

  /** After any calls, opens, closes and reads by the server, whatever the ids: while the socket
      is open `lastSent` is the key of what the server is going to hold, and that is the union of
      all live subscribers' ids, except that it may be empty for the empty id alone or the other
      way round. */
  lemma {:induction false} RunIsTidy(calls: seq<Call>)
    requires Runs(Initial(), calls)
    ensures Tidy(Run(Initial(), calls))
  {
    if calls != [] {
      RunsFront(Initial(), calls);
      RunIsTidy(calls[..|calls| - 1]);
      NextTidy(Run(Initial(), calls[..|calls| - 1]), calls[|calls| - 1]);
    }
  }

  /** Every subscription asks for ids of this set only. */
  ghost predicate Uses(calls: seq<Call>, ids: set<string>) {
    forall k, i | 0 <= k < |calls| && calls[k].Subscribe? && 0 <= i < |calls[k].ids| :: calls[k].ids[i] in ids
  }

  ghost predicate Within(s: Socket, ids: set<string>) {
    Wanted(s.subscribers) <= ids && (s.open ==> Coming(s) <= ids)
  }

  lemma NextWithin(s: Socket, c: Call, ids: set<string>)
    requires Tidy(s) && Within(s, ids) && Allowed(s, c)
    requires c.Subscribe? ==> forall i | 0 <= i < |c.ids| :: c.ids[i] in ids
    ensures Within(Next(s, c), ids)
  {
    match c
    case Subscribe(more) =>
      var t := s.(subscribers := s.subscribers[s.nextId := more], nextId := s.nextId + 1);
      WantedGrows(s.subscribers, s.nextId, more);
      if t.open {
        SyncComing(t);
      }
    case Unsubscribe(id) =>
      var t := s.(subscribers := s.subscribers - {id});
      if t.open {
        SyncComing(t);
      }
    case Open =>
      EmptyKey({});
      SyncComing(s.(open := true, lastSent := "", inflight := [], server := {}));
    case Close =>
    case ServerReads =>
  }

  lemma {:induction false} RunWithin(calls: seq<Call>, ids: set<string>)
    requires Runs(Initial(), calls) && Uses(calls, ids)
    ensures Within(Run(Initial(), calls), ids)
  {
    if calls != [] {
      var front := calls[..|calls| - 1];
      RunsFront(Initial(), calls);
      RunIsTidy(front);
      RunWithin(front, ids);
      NextWithin(Run(Initial(), front), calls[|front|], ids);
    }
  }

  /** Without the empty id the server is going to hold exactly the union of all live subscribers'
      ids after every call, and `lastSent` is the sorted comma-join of that set. */
  lemma RunAgrees(calls: seq<Call>, ids: set<string>)
    requires Runs(Initial(), calls) && Uses(calls, ids) && "" !in ids
    ensures Agrees(Run(Initial(), calls))
  {
    RunIsTidy(calls);
    RunWithin(calls, ids);
    var s := Run(Initial(), calls);
    if s.open {
      NoneOf(Coming(s), ids);
      NoneOf(Wanted(s.subscribers), ids);
    }
  }

  lemma NoneOf(a: set<string>, ids: set<string>)
    requires a <= ids && "" !in ids
    ensures a <= {""} ==> a == {}
  {
  }

  /** Once the server has caught up it holds what is wanted. */
  lemma CaughtUp(calls: seq<Call>, ids: set<string>)
    requires Runs(Initial(), calls) && Uses(calls, ids) && "" !in ids
    requires Run(Initial(), calls).open && Run(Initial(), calls).inflight == []
    ensures Run(Initial(), calls).server == Wanted(Run(Initial(), calls).subscribers)
  {
    RunAgrees(calls, ids);
  }

  /** The empty id joins to the key of no ids at all, so it is never asked for. */
  lemma EmptyIdIsNotSent(s: Socket)
    requires s == Socket(true, map[], 0, "", [], {})
    ensures Agrees(s)
    ensures var t := Next(s, Subscribe([""])); t.inflight == [] && t.server == {} && Wanted(t.subscribers) == {""}
  {
    EmptyKey({});
    var t := s.(subscribers := map[0 := [""]], nextId := 1);
    assert 0 in t.subscribers && t.subscribers[0] == [""] && "" in t.subscribers[0];
    assert "" in Wanted(t.subscribers);
    assert Wanted(t.subscribers) == {""};
    EmptyKey({""});
  }

  /** Callers restricted to a set of ids always reach agreement if and only if the empty id is not
      among them; commas do no harm. */
  lemma AgreesIff(ids: set<string>)
    ensures (forall calls | Runs(Initial(), calls) && Uses(calls, ids) :: Agrees(Run(Initial(), calls)))
            <==> "" !in ids
  {
    if "" !in ids {
      forall calls | Runs(Initial(), calls) && Uses(calls, ids) ensures Agrees(Run(Initial(), calls)) {
        RunAgrees(calls, ids);
      }
    } else {
      EmptyIdRun(ids);
    }
  }

  lemma EmptyIdRun(ids: set<string>)
    requires "" in ids
    ensures exists calls :: Runs(Initial(), calls) && Uses(calls, ids) && !Agrees(Run(Initial(), calls))
  {
    var calls := [Open, Subscribe([""])];
    var live := Socket(true, map[], 0, "", [], {});
    EmptyKey({});
    assert calls[..0] == [] && calls[..1] == [Open] && [Open][..0] == [];
    assert Run(Initial(), []) == Initial();
    assert Wanted(map[]) == {};
    assert Run(Initial(), [Open]) == Next(Initial(), Open) == live;
    EmptyIdIsNotSent(live);
    assert Run(Initial(), calls) == Next(live, Subscribe([""]));
    assert "" in Wanted(Run(Initial(), calls).subscribers);
    assert Runs(Initial(), calls) && Uses(calls, ids);
  }

  // ---------------------------------------------------------------- the pages and their lists of ids

  /** The hook of one page: the list of its last render, the list its subscription was made with
      (remembered by its join), and that subscription. */
  datatype Page = Page(shown: seq<string>, stable: seq<string>, subscription: Option<nat>)

  datatype Browser = Browser(pages: map<int, Page>, socket: Socket)

  /** Renders of a page, the first of which mounts it; a new value of the context; unmounting; and
      what the network does. */
  datatype Action =
    | Show(page: int, ids: seq<string>)
    | Refresh(page: int)
    | Leave(page: int)
    | Net(call: Call)

  predicate Possible(b: Browser, a: Action) {
    a.Net? ==> (a.call.Open? || a.call.Close? || a.call.ServerReads?) && Allowed(b.socket, a.call)
  }

  /** The effect of a hook, and its cleanup. */
  ghost function Begun(ids: seq<string>, s: Socket): (Page, Socket) {
    if ids == [] then (Page(ids, ids, None), s) else (Page(ids, ids, Some(s.nextId)), Next(s, Subscribe(ids)))
  }

  ghost function Ended(page: Page, s: Socket): Socket {
    if page.subscription.Some? then Next(s, Unsubscribe(page.subscription.value)) else s
  }

  /** A render: the subscription is replaced when the join has changed. */
  ghost function Render(page: Page, s: Socket, ids: seq<string>): (Page, Socket) {
    if Join(ids, ',') == Join(page.stable, ',') then (page.(shown := ids), s) else Begun(ids, Ended(page, s))
  }

  ghost function Act(b: Browser, a: Action): Browser {
    match a
    case Show(k, ids) =>
      var (p, s) := if k in b.pages then Render(b.pages[k], b.socket, ids) else Begun(ids, b.socket);
      Browser(b.pages[k := p], s)
    case Refresh(k) =>
      if k !in b.pages then b
      else
        var (p, s) := Begun(b.pages[k].stable, Ended(b.pages[k], b.socket));
        Browser(b.pages[k := p.(shown := b.pages[k].shown)], s)
    case Leave(k) => if k in b.pages then Browser(b.pages - {k}, Ended(b.pages[k], b.socket)) else b
    case Net(c) => b.(socket := Next(b.socket, c))
  }

  /** The page's own subscription asks for its list. */
  ghost predicate Live(page: Page, s: Socket) {
    && (page.subscription.None? <==> page.stable == [])
    && (page.subscription.Some? ==>
          page.subscription.value in s.subscribers && s.subscribers[page.subscription.value] == page.stable)
  }

  ghost predicate Owned(pages: map<int, Page>, i: nat) {
    exists k :: k in pages && pages[k].subscription == Some(i)
  }

  /** Every page has its own subscription, and there are no others. */
  ghost predicate Matched(b: Browser) {
    && (forall k | k in b.pages :: Live(b.pages[k], b.socket))
    && (forall k, l | k in b.pages && l in b.pages && b.pages[k].subscription.Some?
          && b.pages[l].subscription == b.pages[k].subscription :: k == l)
    && (forall i | i in b.socket.subscribers :: Owned(b.pages, i))
  }

  ghost predicate Held(b: Browser, ids: set<string>) {
    Matched(b) && Tidy(b.socket) && Within(b.socket, ids)
  }

  ghost predicate AllIn(list: seq<string>, ids: set<string>) {
    forall i | 0 <= i < |list| :: list[i] in ids
  }

  /** Without page k nothing of its subscription is left. */
  lemma EndedHeld(b: Browser, k: int, ids: set<string>)
    requires Held(b, ids) && k in b.pages
    ensures Held(Browser(b.pages - {k}, Ended(b.pages[k], b.socket)), ids)
  {
    hide Tidy, Within;
    var page := b.pages[k];
    var rest := b.pages - {k};
    if page.subscription.Some? {
      NextTidy(b.socket, Unsubscribe(page.subscription.value));
      NextWithin(b.socket, Unsubscribe(page.subscription.value), ids);
    }
    var s := Ended(page, b.socket);
    forall i | i in s.subscribers ensures Owned(rest, i) {
      var l :| l in b.pages && b.pages[l].subscription == Some(i);
      assert l in rest;
    }
  }

  lemma SubscribersAfter(s: Socket, list: seq<string>)
    ensures Next(s, Subscribe(list)).subscribers == s.subscribers[s.nextId := list]
  {
  }

  /** One more page, with a subscription that is new. */
  lemma OneMorePage(b: Browser, k: int, page: Page, s: Socket)
    requires Matched(b) && k !in b.pages && page.subscription == Some(b.socket.nextId) && page.stable != []
    requires b.socket.nextId !in b.socket.subscribers
    requires s.subscribers == b.socket.subscribers[b.socket.nextId := page.stable]
    ensures Matched(Browser(b.pages[k := page], s))
  {
    var pages := b.pages[k := page];
    forall i | i in s.subscribers ensures Owned(pages, i) {
      if i in b.socket.subscribers {
        assert Owned(b.pages, i);
        var l :| l in b.pages && b.pages[l].subscription == Some(i);
        assert l in pages && pages[l].subscription == Some(i);
      } else {
        assert k in pages && pages[k].subscription == Some(i);
      }
    }
    forall l | l in b.pages ensures Live(b.pages[l], s) && b.pages[l].subscription != page.subscription {
      assert Live(b.pages[l], b.socket);
    }
  }

  lemma OneEmptyPage(b: Browser, k: int)
    requires Matched(b) && k !in b.pages
    ensures Matched(b.(pages := b.pages[k := Page([], [], None)]))
  {
    hide Live;
    var pages := b.pages[k := Page([], [], None)];
    forall i | i in b.socket.subscribers ensures Owned(pages, i) {
      assert Owned(b.pages, i);
      var l :| l in b.pages && b.pages[l].subscription == Some(i);
      assert l in pages && pages[l].subscription == Some(i);
    }
    EmptyIsLive(b.socket);
  }

  lemma EmptyIsLive(s: Socket)
    ensures Live(Page([], [], None), s)
  {
  }

  lemma TidyIsFresh(s: Socket)
    requires Tidy(s)
    ensures s.nextId !in s.subscribers
  {
  }

  lemma BegunHeld(b: Browser, k: int, list: seq<string>, ids: set<string>)
    requires Held(b, ids) && k !in b.pages && AllIn(list, ids)
    ensures var (p, s) := Begun(list, b.socket);
      Held(Browser(b.pages[k := p], s), ids) && p.shown == p.stable == list
  {
    hide Matched, Tidy, Within, Next;
    if list == [] {
      OneEmptyPage(b, k);
    } else {
      var (p, s) := Begun(list, b.socket);
      NextTidy(b.socket, Subscribe(list));
      NextWithin(b.socket, Subscribe(list), ids);
      SubscribersAfter(b.socket, list);
      TidyIsFresh(b.socket);
      OneMorePage(b, k, p, s);
    }
  }

  lemma ShownHeld(b: Browser, k: int, shown: seq<string>, ids: set<string>)
    requires Held(b, ids) && k in b.pages
    ensures Held(b.(pages := b.pages[k := b.pages[k].(shown := shown)]), ids)
  {
    hide Tidy, Within;
    var pages := b.pages[k := b.pages[k].(shown := shown)];
    forall i | i in b.socket.subscribers ensures Owned(pages, i) {
      var l :| l in b.pages && b.pages[l].subscription == Some(i);
      assert l in pages && pages[l].subscription == Some(i);
    }
    forall l | l in pages ensures Live(pages[l], b.socket) {
      assert Live(b.pages[l], b.socket);
    }
  }

  ghost predicate StableIn(b: Browser, ids: set<string>) {
    forall k | k in b.pages :: AllIn(b.pages[k].stable, ids)
  }

  lemma ActHeld(b: Browser, a: Action, ids: set<string>)
    requires Held(b, ids) && StableIn(b, ids) && Possible(b, a) && (a.Show? ==> AllIn(a.ids, ids))
    ensures Held(Act(b, a), ids) && StableIn(Act(b, a), ids)
  {
    hide Matched, Tidy, Within;
    match a
    case Show(k, list) =>
      if k !in b.pages {
        BegunHeld(b, k, list, ids);
      } else if Join(list, ',') == Join(b.pages[k].stable, ',') {
        ShownHeld(b, k, list, ids);
      } else {
        Replaced(b, k, list, list, ids);
      }
    case Refresh(k) =>
      if k in b.pages {
        Replaced(b, k, b.pages[k].stable, b.pages[k].shown, ids);
      }
    case Leave(k) =>
      if k in b.pages {
        EndedHeld(b, k, ids);
      }
    case Net(c) => NetHeld(b, c, ids);
  }

  lemma Replaced(b: Browser, k: int, list: seq<string>, shown: seq<string>, ids: set<string>)
    requires Held(b, ids) && k in b.pages && AllIn(list, ids)
    ensures var (p, s) := Begun(list, Ended(b.pages[k], b.socket));
      Held(Browser(b.pages[k := p.(shown := shown)], s), ids) && p.shown == p.stable == list
  {
    hide Matched, Tidy, Within;
    var rest := Browser(b.pages - {k}, Ended(b.pages[k], b.socket));
    EndedHeld(b, k, ids);
    BegunHeld(rest, k, list, ids);
    var (p, s) := Begun(list, rest.socket);
    ShownHeld(Browser(rest.pages[k := p], s), k, shown, ids);
    assert rest.pages[k := p][k := p.(shown := shown)] == b.pages[k := p.(shown := shown)];
  }

  lemma NetHeld(b: Browser, c: Call, ids: set<string>)
    requires Held(b, ids) && Possible(b, Net(c))
    ensures Held(Act(b, Net(c)), ids)
  {
    hide Tidy, Within;
    NextTidy(b.socket, c);
    NextWithin(b.socket, c, ids);
    var t := Next(b.socket, c);
    assert t.subscribers == b.socket.subscribers;
    forall k | k in b.pages ensures Live(b.pages[k], t) {
      assert Live(b.pages[k], b.socket);
    }
  }

  ghost function Browsed(actions: seq<Action>): Browser {
    if actions == [] then Browser(map[], Initial())
    else Act(Browsed(actions[..|actions| - 1]), actions[|actions| - 1])
  }

  ghost predicate Browses(actions: seq<Action>)
    decreases |actions|
  {
    actions == [] || (Browses(actions[..|actions| - 1])
                      && Possible(Browsed(actions[..|actions| - 1]), actions[|actions| - 1]))
  }

  ghost predicate ShowsOnly(actions: seq<Action>, ids: set<string>) {
    forall i | 0 <= i < |actions| && actions[i].Show? :: AllIn(actions[i].ids, ids)
  }

  /** Whatever pages are opened, rendered and left, and whatever the network does: every page keeps
      its own subscription to its list, and the socket keeps its promise. */
  lemma {:induction false} BrowsedHeld(actions: seq<Action>, ids: set<string>)
    requires Browses(actions) && ShowsOnly(actions, ids)
    ensures Held(Browsed(actions), ids) && StableIn(Browsed(actions), ids)
  {
    hide Held, StableIn;
    if actions == [] {
      NothingHeld(ids);
    } else {
      var front := actions[..|actions| - 1];
      BrowsedHeld(front, ids);
      ActHeld(Browsed(front), actions[|front|], ids);
    }
  }

  lemma NothingHeld(ids: set<string>)
    ensures Held(Browser(map[], Initial()), ids) && StableIn(Browser(map[], Initial()), ids)
  {
    assert Wanted(map[]) == {};
  }

  // ---------------------------------------------------------------- which lists are followed

  /** Every page is subscribed to the list of its last render. */
  ghost predicate Follows(b: Browser) {
    forall k | k in b.pages :: b.pages[k].stable == b.pages[k].shown
  }

  ghost predicate Clean(ids: seq<string>) {
    AllFree(ids, ',') && AllNonEmpty(ids)
  }

  ghost predicate CleanActions(actions: seq<Action>) {
    forall i | 0 <= i < |actions| && actions[i].Show? :: Clean(actions[i].ids)
  }

  ghost predicate CleanPages(b: Browser) {
    forall k | k in b.pages :: Clean(b.pages[k].stable)
  }

  lemma ActFollows(b: Browser, a: Action)
    requires Follows(b) && CleanPages(b) && (a.Show? ==> Clean(a.ids))
    ensures Follows(Act(b, a)) && CleanPages(Act(b, a))
  {
    hide Clean, Next;
    if a.Show? && a.page in b.pages && Join(a.ids, ',') == Join(b.pages[a.page].stable, ',') {
      CleanJoin(a.ids, b.pages[a.page].stable);
    }
  }

  lemma CleanJoin(xs: seq<string>, ys: seq<string>)
    requires Clean(xs) && Clean(ys) && Join(xs, ',') == Join(ys, ',')
    ensures xs == ys
  {
    JoinInjective(xs, ys, ',');
  }

  lemma {:induction false} BrowsedFollows(actions: seq<Action>)
    requires CleanActions(actions)
    ensures Follows(Browsed(actions)) && CleanPages(Browsed(actions))
  {
    hide Clean, Follows, CleanPages;
    if actions == [] {
      NothingFollows();
    } else {
      BrowsedFollows(actions[..|actions| - 1]);
      ActFollows(Browsed(actions[..|actions| - 1]), actions[|actions| - 1]);
    }
  }

  lemma NothingFollows()
    ensures Follows(Browser(map[], Initial())) && CleanPages(Browser(map[], Initial()))
  {
  }

  /** What all pages show. */
  function AllShown(b: Browser): set<string> {
    set k, id | k in b.pages && id in b.pages[k].shown :: id
  }

  lemma WantedIsShown(b: Browser)
    requires Matched(b) && Follows(b)
    ensures Wanted(b.socket.subscribers) == AllShown(b)
  {
    forall id ensures id in Wanted(b.socket.subscribers) <==> id in AllShown(b) {
      if id in Wanted(b.socket.subscribers) {
        var i :| i in b.socket.subscribers && id in b.socket.subscribers[i];
        assert Owned(b.pages, i);
        var k :| k in b.pages && b.pages[k].subscription == Some(i);
        assert Live(b.pages[k], b.socket);
      }
      if id in AllShown(b) {
        var k :| k in b.pages && id in b.pages[k].shown;
        assert Live(b.pages[k], b.socket);
        var i := b.pages[k].subscription.value;
        assert i in b.socket.subscribers && id in b.socket.subscribers[i];
      }
    }
  }

  /** Pages that show ids neither empty nor with a comma: whatever was opened, rendered, left,
      disconnected and connected again, once the server has caught up it holds exactly the ids of
      what the pages show now. */
  lemma PagesAreServed(actions: seq<Action>, ids: set<string>)
    requires Browses(actions) && ShowsOnly(actions, ids) && CleanActions(actions) && "" !in ids
    requires Browsed(actions).socket.open && Browsed(actions).socket.inflight == []
    ensures Browsed(actions).socket.server == AllShown(Browsed(actions))
  {
    var b := Browsed(actions);
    BrowsedHeld(actions, ids);
    BrowsedFollows(actions);
    WantedIsShown(b);
    NoneOf(Coming(b.socket), ids);
    NoneOf(Wanted(b.socket.subscribers), ids);
  }

  /** Ids written with these characters only. */
  ghost predicate Over(ids: seq<string>, letters: set<char>) {
    forall i | 0 <= i < |ids| :: ids[i] != "" && forall c | c in ids[i] :: c in letters
  }

  ghost predicate WrittenIn(actions: seq<Action>, letters: set<char>) {
    forall i | 0 <= i < |actions| && actions[i].Show? :: Over(actions[i].ids, letters)
  }

  /** For non-empty ids written with some set of characters, every page is always subscribed to
      the list of its last render if and only if the comma is not among them. */
  lemma {:induction false} PagesFollowIff(letters: set<char>)
    ensures (forall actions | WrittenIn(actions, letters) :: Follows(Browsed(actions))) <==> ',' !in letters
  {
    if ',' !in letters {
      forall actions: seq<Action> | WrittenIn(actions, letters) ensures Follows(Browsed(actions)) {
        forall i | 0 <= i < |actions| && actions[i].Show? ensures Clean(actions[i].ids) {
          assert Over(actions[i].ids, letters);
        }
        BrowsedFollows(actions);
      }
    } else {
      CommaRun(letters);
    }
  }

  lemma CommaRun(letters: set<char>)
    requires ',' in letters
    ensures exists actions :: WrittenIn(actions, letters) && !Follows(Browsed(actions))
  {
    var actions := [Show(0, [",,,"]), Show(0, [",", ","])];
    var first := Browsed([Show(0, [",,,"])]);
    assert actions[..1] == [Show(0, [",,,"])] && [Show(0, [",,,"])][..0] == [];
    assert Browsed([]) == Browser(map[], Initial());
    assert "," + "," + "," == ",,,";
    assert first.pages[0].stable == ["," + "," + ","];
    CommaIdIsMissed(first.pages[0], first.socket, ",", ",");
    var last := Browsed(actions);
    assert last == Act(first, Show(0, [",", ","]));
    assert 0 in last.pages && last.pages[0].shown == [",", ","] && last.pages[0].stable == [",,,"];
    assert !Follows(last);
    assert WrittenIn(actions, letters);
  }

  /** An id with a comma joins like the two ids around it: the change is missed. */
  lemma CommaIdIsMissed(page: Page, s: Socket, a: string, b: string)
    requires page.stable == [a + "," + b]
    ensures Render(page, s, [a, b]) == (page.(shown := [a, b]), s) && page.stable != [a, b]
  {
    assert [a, b][1..] == [b];
    assert Join([a, b], ',') == a + "," + b;
  }

  /** The ids the server admits are written without commas, so its projects are always followed. */
  lemma ValidIdsAreServed(actions: seq<Action>, ids: set<string>)
    requires Browses(actions) && ShowsOnly(actions, ids) && forall id | id in ids :: ValidId(id)
    requires Browsed(actions).socket.open && Browsed(actions).socket.inflight == []
    ensures Browsed(actions).socket.server == AllShown(Browsed(actions))
  {
    forall i | 0 <= i < |actions| && actions[i].Show? ensures Clean(actions[i].ids) {
      assert AllIn(actions[i].ids, ids);
    }
    PagesAreServed(actions, ids);
  }

  // ---------------------------------------------------------------- the code

  class Connection {
    var open: bool
    var subscribers: map<nat, seq<string>>
    var nextId: nat
    var lastSent: string
    var inflight: seq<Message>
    ghost var server: set<string>

    constructor ()
      ensures View() == Initial()
    {
      open, subscribers, nextId, lastSent, inflight, server := false, map[], 0, "", [], {};
    }

    ghost function View(): Socket
      reads this
    {
      Socket(open, subscribers, nextId, lastSent, inflight, server)
    }

    method CollectIds() returns (ids: set<string>)
      ensures ids == Wanted(subscribers)
    {
      ids := {};
      var left := subscribers.Items;
      while left != {}
        invariant left <= subscribers.Items
        invariant forall i, id | i in subscribers && id in subscribers[i] ::
          (i, subscribers[i]) in left || id in ids
        invariant forall id | id in ids :: Wants(subscribers, id)
      {
        var item :| item in left;
        for k := 0 to |item.1|
          invariant forall i, id | i in subscribers && id in subscribers[i] ::
            (i, subscribers[i]) in left || id in ids
          invariant forall j | 0 <= j < k :: item.1[j] in ids
          invariant forall id | id in ids :: Wants(subscribers, id)
        {
          assert subscribers[item.0] == item.1 && item.1[k] in subscribers[item.0];
          ids := ids + {item.1[k]};
        }
        left := left - {item};
      }
    }

    method SyncSubscriptions()
      modifies this
      ensures View() == Sync(old(View()))
    {
      if !open {
        return;
      }
      var allIds := CollectIds();
      var sorted := Sort(allIds);
      var key := Join(sorted, ',');
      if key == lastSent {
        return;
      }
      lastSent := key;
      if |sorted| > 0 {
        inflight := inflight + [HubMachine.Message("subscribe", sorted)];
      } else {
        inflight := inflight + [HubMachine.Message("unsubscribe_all", [])];
      }
    }

    method Subscribe(ids: seq<string>) returns (id: nat)
      modifies this
      ensures View() == Next(old(View()), Call.Subscribe(ids)) && id == old(nextId)
    {
      id := nextId;
      nextId := nextId + 1;
      subscribers := subscribers[id := ids];
      SyncSubscriptions();
    }

    method Unsubscribe(id: nat)
      modifies this
      ensures View() == Next(old(View()), Call.Unsubscribe(id))
    {
      subscribers := subscribers - {id};
      SyncSubscriptions();
    }

    method OnOpen()
      requires !open
      modifies this
      ensures View() == Next(old(View()), Open)
    {
      open := true;
      inflight := [];
      server := {};
      lastSent := "";
      SyncSubscriptions();
    }

    method OnClose()
      modifies this
      ensures View() == Next(old(View()), Close)
    {
      open := false;
    }
  }
}
