/** Over runs of any number of hubs: what is submitted is delivered to whom it is for, published once, and delivered by
    every hub the publication reaches. */
module HubDelivery {
  import opened Wrappers
  import opened HubState
  import opened HubTables
  import opened HubContracts
  import opened HubNetwork

  // ---- queues only grow ----

  /** Connections stay who they are, and what a queue has accepted keeps its place. */
  ghost predicate Grown(net: Net, net': Net) {
    && |net'.hubs| == |net.hubs|
    && forall i, n :: 0 <= i < |net.hubs| && n in net.hubs[i].conns ==>
         && n in net'.hubs[i].conns && net'.hubs[i].conns[n].id == net.hubs[i].conns[n].id
         && net'.hubs[i].conns[n].room == net.hubs[i].conns[n].room
         && net.hubs[i].conns[n].sent <= net'.hubs[i].conns[n].sent
  }

  lemma ChangeGrows(net: Net, i: nat, h': Hub, net': Net)
    requires i < |net.hubs| && net'.hubs == net.hubs[i := h'] && GoodChange(net.hubs, net.hubs[i], h')
    ensures Grown(net, net')
  {
    forall n | n in net.hubs[i].conns ensures Extends(net.hubs, net.hubs[i].conns[n], h'.conns[n]) {
    }
  }

  lemma HubStepGrows(net: Net, e: Event)
    requires Routed(net) && (e.ShutdownBegins? || e.ShutdownNotifies? || e.ShutdownCloses?) && e.hub < |net.hubs|
    ensures Grown(net, Step(net, e))
  {
    var h := net.hubs[e.hub];
    assert HubRouted(net.hubs, h);
    match e
    case ShutdownBegins(i) =>
      SameEntries(net.hubs, h, h.(shuttingDown := true));
      ChangeGrows(net, i, h.(shuttingDown := true), Step(net, e));
    case ShutdownNotifies(i, room) =>
      NoticeGood(net.hubs, h, room, MembersOf(h, room).Values, Notice(ServerShutdown, room));
      ChangeGrows(net, i, ShutdownNotify(h, room), Step(net, e));
    case ShutdownCloses(i, room) =>
      MembersAreRegistered(h, room);
      SameEntries(net.hubs, h, ShutdownClose(h, room));
      ChangeGrows(net, i, ShutdownClose(h, room), Step(net, e));
  }

  lemma ProcessGrows(net: Net, item: nat, reach: set<nat>)
    requires Routed(net) && item < |net.inbox| && net.inbox[item].0 < |net.hubs|
    ensures Grown(net, AtProcess(net, item, reach))
  {
    var i := net.inbox[item].0;
    assert HubRouted(net.hubs, net.hubs[i]);
    HandleGood(net.hubs, net.hubs[i], net.inbox[item].1);
    ChangeGrows(net, i, Handle(net.hubs[i], net.inbox[item].1).0, AtProcess(net, item, reach));
  }

  lemma ArriveGrows(net: Net, item: nat)
    requires Routed(net) && item < |net.bus| && net.bus[item].0 < |net.hubs|
    ensures Grown(net, Step(net, Event.Arrive(item)))
  {
    var i := net.bus[item].0;
    assert HubRouted(net.hubs, net.hubs[i]);
    RelayGood(net.hubs, net.hubs[i], net.bus[item].1);
    ChangeGrows(net, i, NatsArrives(net.hubs[i], net.bus[item].1), Step(net, Event.Arrive(item)));
  }

  lemma StepGrows(net: Net, e: Event)
    requires Routed(net)
    ensures Grown(net, Step(net, e))
  {
    match e
    case Process(item, reach) =>
      if item < |net.inbox| && net.inbox[item].0 < |net.hubs| {
        ProcessGrows(net, item, reach);
      }
    case Arrive(item) =>
      if item < |net.bus| && net.bus[item].0 < |net.hubs| {
        ArriveGrows(net, item);
      }
    case ShutdownBegins(i) => if i < |net.hubs| { HubStepGrows(net, e); }
    case ShutdownNotifies(i, _) => if i < |net.hubs| { HubStepGrows(net, e); }
    case ShutdownCloses(i, _) => if i < |net.hubs| { HubStepGrows(net, e); }
    case _ =>
  }

  lemma {:induction false} RunConcat(net: Net, a: seq<Event>, b: seq<Event>)
    ensures Run(net, a + b) == Run(Run(net, a), b)
    decreases |b|
  {
    if b == [] {
      assert a + b == a;
    } else {
      assert (a + b)[..|a + b| - 1] == a + b[..|b| - 1];
      RunConcat(net, a, b[..|b| - 1]);
    }
  }

  lemma {:induction false} RunGrows(hubs: nat, before: seq<Event>, after: seq<Event>)
    ensures Grown(Run(Hubs(hubs), before), Run(Hubs(hubs), before + after))
    decreases |after|
  {
    if after == [] {
      assert before + after == before;
    } else {
      var n := |after| - 1;
      RunGrows(hubs, before, after[..n]);
      assert (before + after)[..|before + after| - 1] == before + after[..n];
      RunIsRouted(hubs, before + after[..n]);
      StepGrows(Run(Hubs(hubs), before + after[..n]), after[n]);
    }
  }

  // ---- delivery on the hub that handles a submission ----

  /** Connection `n` of hub `i` has `m` in its queue, at the place that was free in `was`. */
  ghost predicate HasNext(net: Net, i: nat, n: nat, was: Conn, m: Message) {
    && i < |net.hubs| && n in net.hubs[i].conns
    && |was.sent| < |net.hubs[i].conns[n].sent| && net.hubs[i].conns[n].sent[|was.sent|] == m
  }

  lemma HasNextStays(hubs: nat, before: seq<Event>, after: seq<Event>, i: nat, n: nat, was: Conn, m: Message)
    requires HasNext(Run(Hubs(hubs), before), i, n, was, m)
    ensures HasNext(Run(Hubs(hubs), before + after), i, n, was, m)
  {
    RunGrows(hubs, before, after);
  }

  /** Item `k` of the inbox is a relayed message for hub `i`. */
  predicate IsSubmission(net: Net, k: nat, i: nat, m: Message) {
    k < |net.inbox| && net.inbox[k] == (i, Relay(m)) && i < |net.hubs| && IsRelayed(m.kind)
  }

  /** A submission, once handled, is for ever after in the queue of its target, or of every other member of its room, at
      the next free place, unless that queue was full or closed. */
  lemma SubmissionIsDelivered(hubs: nat, before: seq<Event>, k: nat, reach: set<nat>, after: seq<Event>,
                              i: nat, m: Message, n: nat)
    requires var net := Run(Hubs(hubs), before);
             && IsSubmission(net, k, i, m) && n in net.hubs[i].conns
             && IsAddressed(net.hubs[i], m, n) && Accepts(net.hubs[i].conns[n])
    ensures HasNext(Run(Hubs(hubs), before + [Process(k, reach)] + after), i, n,
                    Run(Hubs(hubs), before).hubs[i].conns[n], m)
  {
    var net, e := Run(Hubs(hubs), before), Process(k, reach);
    RunIsRouted(hubs, before);
    assert HubRouted(net.hubs, net.hubs[i]);
    TablesAreFiled(net.hubs[i]);
    RelayReachesExactly(net.hubs[i], m);
    assert (before + [e])[..|before|] == before;
    assert Run(Hubs(hubs), before + [e]).hubs[i] == Broadcast(net.hubs[i], m).0;
    HasNextStays(hubs, before + [e], after, i, n, net.hubs[i].conns[n], m);
  }

  // ---- publication ----

  lemma {:induction false} FanReaches(m: Message, reach: set<nat>, n: nat)
    ensures forall j: nat :: (j, m) in Fan(m, reach, n) <==> j < n && j in reach
  {
    if n > 0 {
      FanReaches(m, reach, n - 1);
    }
  }

  lemma {:induction false} FanSize(m: Message, reach: set<nat>, n: nat)
    ensures |Fan(m, reach, n)| == |set j: nat | j < n && j in reach|
  {
    if n > 0 {
      FanSize(m, reach, n - 1);
      var below, upto := set j: nat | j < n - 1 && j in reach, set j: nat | j < n && j in reach;
      assert upto == if n - 1 in reach then below + {n - 1} else below;
    }
  }

  /** And it is on its way to every hub that the broker reaches, one copy for each, if its room is there and the broker
      takes its id; otherwise it goes nowhere else. */
  lemma SubmissionIsPublished(net: Net, k: nat, reach: set<nat>, i: nat, m: Message)
    requires Routed(net) && IsSubmission(net, k, i, m)
    ensures var net' := Step(net, Process(k, reach));
            if m.room in net.hubs[i].rooms && net.hubs[i].broker && ValidRoomId(m.room)
            then && (forall j: nat :: j < |net.hubs| && j in reach ==> (j, m) in net'.bus[|net.bus|..])
                 && |net'.bus| == |net.bus| + |set j: nat | j < |net.hubs| && j in reach|
                 && net'.bus[..|net.bus|] == net.bus && net'.published == net.published + 1
            else net'.bus == net.bus && net'.published == net.published
  {
    assert HubRouted(net.hubs, net.hubs[i]);
    TablesAreFiled(net.hubs[i]);
    RelayReachesExactly(net.hubs[i], m);
    FanReaches(m, reach, |net.hubs|);
    FanSize(m, reach, |net.hubs|);
  }

  /** A publication that has come to a hub is for ever after in the queue of its target, or of every member there but
      the sender's id, unless that queue was full or closed. */
  lemma PublicationIsDelivered(hubs: nat, before: seq<Event>, k: nat, after: seq<Event>, i: nat, m: Message, n: nat)
    requires var net := Run(Hubs(hubs), before);
             && k < |net.bus| && net.bus[k] == (i, m) && i < |net.hubs| && n in net.hubs[i].conns
             && IsAddressed(net.hubs[i], m, n) && Accepts(net.hubs[i].conns[n])
    ensures HasNext(Run(Hubs(hubs), before + [Event.Arrive(k)] + after), i, n,
                    Run(Hubs(hubs), before).hubs[i].conns[n], m)
  {
    var net, e := Run(Hubs(hubs), before), Event.Arrive(k);
    RunIsRouted(hubs, before);
    assert HubRouted(net.hubs, net.hubs[i]);
    TablesAreFiled(net.hubs[i]);
    ArrivalReachesExactly(net.hubs[i], m);
    assert (before + [e])[..|before|] == before;
    assert Run(Hubs(hubs), before + [e]).hubs[i] == NatsArrives(net.hubs[i], m);
    HasNextStays(hubs, before + [e], after, i, n, net.hubs[i].conns[n], m);
  }

  // ---- submission ----

  /** What a client submits waits at its hub, stamped with the connection's own id and room, and otherwise as it was
      given. */
  lemma SubmissionWaits(net: Net, i: nat, n: nat, raw: Message)
    requires i < |net.hubs| && n in net.hubs[i].conns
    ensures var net' := Step(net, Submit(i, n, raw));
            && net'.hubs == net.hubs && net'.bus == net.bus && |net'.inbox| == |net.inbox| + 1
            && net'.inbox[..|net.inbox|] == net.inbox && net'.inbox[|net.inbox|].0 == i
            && net'.inbox[|net.inbox|].1.Relay?
            && var m := net'.inbox[|net.inbox|].1.message;
               && m.from == net.hubs[i].conns[n].id && m.room == net.hubs[i].conns[n].room
               && m.kind == raw.kind && m.target == raw.target && m.peer == raw.peer && m.body == raw.body
               && m.peers == raw.peers && m.peerCount == raw.peerCount
  {
  }

  // ---- exactly what is published ----

  /** The hub input at this place of the inbox has something to tell the other hubs. */
  predicate IsNewsworthy(h: Hub, input: Input) {
    match input
    case Reg(n, natsOk) =>
      n in h.conns && h.conns[n].life == Fresh && !IsRefused(h, n, natsOk) && h.broker && ValidRoomId(h.conns[n].room)
    case Unreg(n) => n in h.conns && IsDeparture(h, n) && h.broker && ValidRoomId(h.conns[n].room)
    case Relay(m) => IsRelayed(m.kind) && m.room in h.rooms && h.broker && ValidRoomId(m.room)
  }

  predicate Tells(net: Net, e: Event) {
    && e.Process? && e.item < |net.inbox| && net.inbox[e.item].0 < |net.hubs|
    && IsNewsworthy(net.hubs[net.inbox[e.item].0], net.inbox[e.item].1)
  }

  lemma NewsIsPublished(h: Hub, input: Input)
    requires TablesOk(h)
    ensures Handle(h, input).1.Some? <==> IsNewsworthy(h, input)
  {
    match input
    case Reg(n, natsOk) =>
      if n in h.conns && h.conns[n].life == Fresh && !IsRefused(h, n, natsOk) {
        RegistrationIsPublished(h, n, natsOk);
      }
    case Unreg(n) =>
      if n in h.conns && h.conns[n].life == Registered && IsDeparture(h, n) {
        DepartureIsPublished(h, n);
      }
    case Relay(m) =>
      if IsRelayed(m.kind) {
        TablesAreFiled(h);
        RelayReachesExactly(h, m);
      }
  }

  function NewsIn(net: Net, es: seq<Event>): nat {
    if es == [] then 0
    else NewsIn(net, es[..|es| - 1]) + (if Tells(Run(net, es[..|es| - 1]), es[|es| - 1]) then 1 else 0)
  }

  /** Publications are exactly as many as the registrations, departures and relayed messages handled that a broker
      takes. */
  lemma {:induction false} PublicationsAreTheNews(hubs: nat, es: seq<Event>)
    ensures Run(Hubs(hubs), es).published == NewsIn(Hubs(hubs), es)
  {
    if es != [] {
      var before, e := es[..|es| - 1], es[|es| - 1];
      PublicationsAreTheNews(hubs, before);
      RunIsRouted(hubs, before);
      var net := Run(Hubs(hubs), before);
      if e.Process? && e.item < |net.inbox| && net.inbox[e.item].0 < |net.hubs| {
        assert HubRouted(net.hubs, net.hubs[net.inbox[e.item].0]);
        NewsIsPublished(net.hubs[net.inbox[e.item].0], net.inbox[e.item].1);
      }
    }
  }
}
