/**
  The WebSocket hub: per user a set of clients, each with a bounded buffer and a channel that is closed
  once. `Net` is the hub and all clients as a value; `Hub` and `Client` are the objects.
  */
module HubNet {
  import opened Text

  type UserId = Uuid
  type Payload = string

  /** The capacity of a send channel. */
  const CAPACITY: nat := 16

  /** A client: what waits in its channel, what its write pump has taken out, and how often it was closed. */
  datatype Channel = Channel(user: UserId, buffer: seq<Payload>, received: seq<Payload>, once: bool, closes: nat)

  /**
    `closing` are the clients for which a broadcast has spawned a close that has not run yet; `panicked`
    records a send on a closed channel or a second close.
    */
  datatype Net<C> = Net(clients: map<UserId, set<C>>, chans: map<C, Channel>, closing: set<C>, panicked: bool)

  /** One critical section of the hub, or a receive by a write pump. Anyone may close a client at any time. */
  datatype Event<C> =
    | Connect(c: C, user: UserId)
    | Broadcast(user: UserId, payload: Payload)
    | Close(c: C)
    | Receive(c: C)

  function Silent<C>(): Net<C> {
    Net(map[], map[], {}, false)
  }

  predicate Registered<C>(n: Net<C>, c: C) {
    c in n.chans && n.chans[c].user in n.clients && c in n.clients[n.chans[c].user]
  }

  function Connected<C>(n: Net<C>, c: C, user: UserId): Net<C> {
    if c in n.chans then n
    else n.(clients := n.clients[user := (if user in n.clients then n.clients[user] else {}) + {c}],
            chans := n.chans[c := Channel(user, [], [], false, 0)])
  }

  /** A non-blocking send: a full buffer drops the payload. */
  function Offered(ch: Channel, payload: Payload): Channel {
    if |ch.buffer| < CAPACITY then ch.(buffer := ch.buffer + [payload]) else ch
  }

  /** The clients of the user for which there is no room. */
  function Overflowing<C(==)>(n: Net<C>, user: UserId): set<C> {
    if user !in n.clients then {}
    else set c | c in n.clients[user] && c in n.chans && |n.chans[c].buffer| >= CAPACITY
  }

  /** A client without room misses the payload and is going to be closed. */
  function Broadcasted<C(==)>(n: Net<C>, user: UserId, payload: Payload): Net<C> {
    if user !in n.clients then n
    else n.(closing := n.closing + Overflowing(n, user),
            chans := map c | c in n.chans :: if c in n.clients[user] then Offered(n.chans[c], payload) else n.chans[c],
            panicked := n.panicked || exists c :: c in n.clients[user] && c in n.chans && n.chans[c].closes > 0)
  }

  /** `unregister`, which leaves the channel open when the user has no entry. */
  function Unregistered<C>(n: Net<C>, c: C): Net<C>
    requires c in n.chans
  {
    var ch := n.chans[c];
    if ch.user !in n.clients then n
    else
      var rest := n.clients[ch.user] - {c};
      n.(clients := if rest == {} then n.clients - {ch.user} else n.clients[ch.user := rest],
         chans := n.chans[c := ch.(closes := ch.closes + 1)],
         panicked := n.panicked || ch.closes > 0)
  }

  function Closed<C>(n: Net<C>, c: C): Net<C> {
    if c !in n.chans || n.chans[c].once then n
    else Unregistered(n.(chans := n.chans[c := n.chans[c].(once := true)], closing := n.closing - {c}), c)
  }

  function Received<C>(n: Net<C>, c: C): Net<C> {
    if c !in n.chans || n.chans[c].buffer == [] then n
    else
      var ch := n.chans[c];
      n.(chans := n.chans[c := ch.(buffer := ch.buffer[1..], received := ch.received + [ch.buffer[0]])])
  }

  function Next<C>(n: Net<C>, e: Event<C>): Net<C> {
    match e
    case Connect(c, user) => Connected(n, c, user)
    case Broadcast(user, payload) => Broadcasted(n, user, payload)
    case Close(c) => Closed(n, c)
    case Receive(c) => Received(n, c)
  }

  function After<C>(es: seq<Event<C>>): Net<C>
    decreases |es|
  {
    if es == [] then Silent() else Next(After(es[..|es| - 1]), es[|es| - 1])
  }

  // The invariant

  /** A user has an entry exactly when it has a registered client, and entries hold clients of that user. */
  ghost predicate EntriesAgree<C>(n: Net<C>) {
    forall u :: u in n.clients ==>
      n.clients[u] != {} && forall c :: c in n.clients[u] ==> c in n.chans && n.chans[c].user == u
  }

  /** Registered means open; every other client has been closed, exactly once. */
  ghost predicate ClosedOnce<C>(n: Net<C>) {
    forall c :: c in n.chans ==>
      n.chans[c].closes == (if Registered(n, c) then 0 else 1) && (n.chans[c].once <==> n.chans[c].closes == 1)
  }

  ghost predicate Bounded<C>(n: Net<C>) {
    forall c :: c in n.chans ==> |n.chans[c].buffer| <= CAPACITY
  }

  ghost predicate Healthy<C>(n: Net<C>) {
    !n.panicked && EntriesAgree(n) && ClosedOnce(n) && Bounded(n)
  }

  lemma ConnectHealthy<C>(n: Net<C>, c: C, user: UserId)
    requires Healthy(n)
    ensures Healthy(Connected(n, c, user))
  {
  }

  lemma BroadcastHealthy<C>(n: Net<C>, user: UserId, payload: Payload)
    requires Healthy(n)
    ensures Healthy(Broadcasted(n, user, payload))
  {
  }

  lemma CloseHealthy<C>(n: Net<C>, c: C)
    requires Healthy(n)
    ensures Healthy(Closed(n, c))
  {
  }

  lemma ReceiveHealthy<C>(n: Net<C>, c: C)
    requires Healthy(n)
    ensures Healthy(Received(n, c))
  {
  }

  lemma NextHealthy<C>(n: Net<C>, e: Event<C>)
    requires Healthy(n)
    ensures Healthy(Next(n, e))
  {
    match e
    case Connect(c, user) => ConnectHealthy(n, c, user);
    case Broadcast(user, payload) => BroadcastHealthy(n, user, payload);
    case Close(c) => CloseHealthy(n, c);
    case Receive(c) => ReceiveHealthy(n, c);
  }

  /**
    After any events: no send met a closed channel and no channel was closed twice, a user has an entry
    exactly when a client of it is open, and no buffer exceeds its capacity.
    */
  lemma {:induction false} AlwaysHealthy<C>(es: seq<Event<C>>)
    ensures Healthy(After(es))
    decreases |es|
  {
    if es != [] {
      AlwaysHealthy(es[..|es| - 1]);
      NextHealthy(After(es[..|es| - 1]), es[|es| - 1]);
    }
  }

  lemma EntryIffOpenClient<C>(es: seq<Event<C>>, user: UserId)
    ensures var n := After(es); user in n.clients <==>
        exists c :: c in n.chans && n.chans[c].user == user && n.chans[c].closes == 0
  {
    AlwaysHealthy(es);
    var n := After(es);
    if user in n.clients {
      var c :| c in n.clients[user];
      assert Registered(n, c);
    }
  }

  /** After any events: whoever is in an entry, and so gets broadcasts, has an open channel and connected for it. */
  lemma TargetsAreOpen<C>(es: seq<Event<C>>, user: UserId, c: C)
    requires Entered(After(es).clients, user, c)
    ensures c in After(es).chans && After(es).chans[c].user == user && After(es).chans[c].closes == 0
  {
    AlwaysHealthy(es);
    assert Registered(After(es), c);
  }

  /** What would panic: a broadcast to an entry with a closed client in it, and a second close of a channel. */
  lemma PanicsIff<C>(n: Net<C>, e: Event<C>)
    ensures Next(n, e).panicked <==>
            || n.panicked
            || (e.Broadcast? && exists c :: Entered(n.clients, e.user, c) && c in n.chans && n.chans[c].closes > 0)
            || (e.Close? && e.c in n.chans && !n.chans[e.c].once && n.chans[e.c].user in n.clients
                && n.chans[e.c].closes > 0)
  {
    if e.Broadcast? && e.user in n.clients {
      assert forall c :: Entered(n.clients, e.user, c) <==> c in n.clients[e.user];
    }
  }

  // Connecting and closing

  /** Event i is the first connect of c. */
  predicate FirstConnect<C(==)>(es: seq<Event<C>>, c: C, i: nat) {
    && i < |es| && es[i].Connect? && es[i].c == c
    && forall k :: 0 <= k < i ==> !(es[k].Connect? && es[k].c == c)
  }

  /** A close of c comes after event i. */
  predicate ClosesAfter<C(==)>(es: seq<Event<C>>, c: C, i: nat) {
    exists k :: i < k < |es| && es[k] == Event.Close(c)
  }

  lemma ClosesAfterLast<C>(es: seq<Event<C>>, c: C, i: nat)
    requires i < |es| - 1
    ensures ClosesAfter(es, c, i) <==> ClosesAfter(es[..|es| - 1], c, i) || es[|es| - 1] == Event.Close(c)
  {
    var before := es[..|es| - 1];
    if k :| i < k < |before| && before[k] == Event.Close(c) {
      assert es[k] == Event.Close(c);
    }
    assert forall k :: 0 <= k < |before| ==> before[k] == es[k];
  }

  /** What one event makes of the fate of client c. */
  lemma NextFate<C>(n: Net<C>, e: Event<C>, c: C)
    requires Healthy(n)
    ensures c in Next(n, e).chans <==> c in n.chans || (e.Connect? && e.c == c)
    ensures c in n.chans ==>
              && Next(n, e).chans[c].user == n.chans[c].user
              && Next(n, e).chans[c].closes == if e == Event.Close(c) then 1 else n.chans[c].closes
    ensures c !in n.chans && c in Next(n, e).chans ==>
              Next(n, e).chans[c].closes == 0 && Next(n, e).chans[c].user == e.user
  {
  }

  /** Client d is in the entry of user u. */
  predicate Entered<C>(clients: map<UserId, set<C>>, u: UserId, d: C) {
    u in clients && d in clients[u]
  }

  /** What a close leaves: the client in no entry, its channel closed, all other memberships as they were. */
  lemma ClosedLeaves<C>(n: Net<C>, c: C)
    requires Healthy(n) && c in n.chans
    ensures var n' := Closed(n, c);
            && n'.chans.Keys == n.chans.Keys
            && n'.chans[c] == n.chans[c].(once := true, closes := 1)
            && (forall u, d :: Entered(n'.clients, u, d) <==> d != c && Entered(n.clients, u, d))
            && (forall u :: u in n'.clients ==> n'.clients[u] != {})
            && (forall d :: d in n.chans && d != c ==> n'.chans[d] == n.chans[d])
            && (Registered(n, c) ==> n'.closing == n.closing - {c})
  {
    forall u, d | d != c && Entered(n.clients, u, d) ensures Entered(Closed(n, c).clients, u, d) {
      assert d in n.clients[u] - {c};
    }
  }

  /** A client is known to the hub if and only if it connected at some time. */
  lemma {:induction false} KnownIffConnected<C>(es: seq<Event<C>>, c: C)
    ensures c in After(es).chans <==> exists i :: 0 <= i < |es| && es[i].Connect? && es[i].c == c
    decreases |es|
  {
    if es != [] {
      var before := es[..|es| - 1];
      AlwaysHealthy(before);
      NextFate(After(before), es[|es| - 1], c);
      KnownIffConnected(before, c);
      hide Next, Healthy;
      if i :| 0 <= i < |before| && before[i].Connect? && before[i].c == c {
        assert es[i] == before[i];
      }
      assert forall i :: 0 <= i < |before| ==> before[i] == es[i];
    }
  }

  lemma FirstConnectLast<C>(es: seq<Event<C>>, c: C)
    requires es != [] && c !in After(es[..|es| - 1]).chans && es[|es| - 1].Connect? && es[|es| - 1].c == c
    ensures FirstConnect(es, c, |es| - 1) && !ClosesAfter(es, c, |es| - 1)
  {
    var before := es[..|es| - 1];
    KnownIffConnected(before, c);
    assert forall k :: 0 <= k < |before| ==> before[k] == es[k];
    hide After;
  }

  lemma {:induction false} ClosesIffCloseFollows<C>(es: seq<Event<C>>, c: C) returns (i: nat)
    requires c in After(es).chans
    ensures FirstConnect(es, c, i) && After(es).chans[c].user == es[i].user
    ensures After(es).chans[c].closes == if ClosesAfter(es, c, i) then 1 else 0
    decreases |es|
  {
    var before, e := es[..|es| - 1], es[|es| - 1];
    AlwaysHealthy(before);
    NextFate(After(before), e, c);
    hide Next, Healthy;
    if c in After(before).chans {
      i := ClosesIffCloseFollows(before, c);
      assert forall k :: 0 <= k < |before| ==> before[k] == es[k];
      ClosesAfterLast(es, c, i);
      hide ClosesAfter;
    } else {
      i := |es| - 1;
      FirstConnectLast(es, c);
      hide ClosesAfter, FirstConnect;
    }
  }

  /**
    Exactly the close of a client after its first connect, event i, closes its channel, once, and takes it out
    of the entry of the user it connected for; until then it is registered there.
    */
  lemma ClosedIffCloseFollows<C>(es: seq<Event<C>>, c: C) returns (i: nat)
    requires c in After(es).chans
    ensures FirstConnect(es, c, i) && After(es).chans[c].user == es[i].user
    ensures After(es).chans[c].closes == if ClosesAfter(es, c, i) then 1 else 0
    ensures Registered(After(es), c) <==> !ClosesAfter(es, c, i)
  {
    i := ClosesIffCloseFollows(es, c);
    AlwaysHealthy(es);
    hide After, FirstConnect, ClosesAfter;
  }

  lemma {:induction false} KnownStays<C>(es: seq<Event<C>>, more: seq<Event<C>>, c: C)
    requires c in After(es).chans
    ensures c in After(es + more).chans
  {
    KnownIffConnected(es, c);
    KnownIffConnected(es + more, c);
    var i :| 0 <= i < |es| && es[i].Connect? && es[i].c == c;
    assert (es + more)[i] == es[i];
  }

  /** A closed client is in no entry, and stays closed and out of every entry after any further events. */
  lemma CloseIsFinal<C>(es: seq<Event<C>>, more: seq<Event<C>>, c: C)
    requires c in After(es).chans
    ensures var n := After(es + [Event.Close(c)] + more);
            && c in n.chans && n.chans[c].closes == 1
            && forall u :: u in n.clients ==> c !in n.clients[u]
  {
    var all := es + [Event.Close(c)] + more;
    KnownStays(es, [Event.Close(c)] + more, c);
    assert es + ([Event.Close(c)] + more) == all;
    var j := ClosedIffCloseFollows(es, c);
    var i := ClosedIffCloseFollows(all, c);
    assert all[j] == es[j] && all[|es|] == Event.Close(c);
    assert ClosesAfter(all, c, i);
    AlwaysHealthy(all);
  }

  // What a client receives

  predicate Subsequence(a: seq<Payload>, b: seq<Payload>)
    decreases |b|
  {
    || a == []
    || (b != [] && (Subsequence(a, b[..|b| - 1])
        || (a[|a| - 1] == b[|b| - 1] && Subsequence(a[..|a| - 1], b[..|b| - 1]))))
  }

  /** All payloads broadcast to the user, in order. */
  function SentTo<C>(es: seq<Event<C>>, user: UserId): seq<Payload>
    decreases |es|
  {
    if es == [] then []
    else
      var e := es[|es| - 1];
      SentTo(es[..|es| - 1], user) + if e.Broadcast? && e.user == user then [e.payload] else []
  }

  /** Everything that has gone through or is in a channel. */
  function Through(ch: Channel): seq<Payload> {
    ch.received + ch.buffer
  }

  lemma SubsequenceGrows(a: seq<Payload>, b: seq<Payload>, x: Payload)
    requires Subsequence(a, b)
    ensures Subsequence(a, b + [x]) && Subsequence(a + [x], b + [x])
  {
  }

  /** A payload goes through to the clients registered for its user whose buffer holds less than sixteen others. */
  lemma EventThrough<C>(n: Net<C>, e: Event<C>, c: C)
    requires Healthy(n) && c in Next(n, e).chans
    ensures var after := Next(n, e).chans[c];
            if c !in n.chans then Through(after) == []
            else
              && after.user == n.chans[c].user
              && if e.Broadcast? && e.user == after.user && Registered(n, c) && |n.chans[c].buffer| < 16
                 then Through(after) == Through(n.chans[c]) + [e.payload]
                 else Through(after) == Through(n.chans[c])
  {
  }

  /**
    What a client has received, followed by what waits for it, is a subsequence of the broadcasts to its
    user, in their order; broadcasts to other users never reach it.
    */
  lemma {:induction false} ReceivedInOrder<C>(es: seq<Event<C>>, c: C)
    requires c in After(es).chans
    ensures Subsequence(Through(After(es).chans[c]), SentTo(es, After(es).chans[c].user))
    decreases |es|
  {
    if es != [] {
      var before, e := es[..|es| - 1], es[|es| - 1];
      var n := After(before);
      AlwaysHealthy(before);
      EventThrough(n, e, c);
      if c in n.chans {
        ReceivedInOrder(before, c);
        if e.Broadcast? && e.user == n.chans[c].user {
          SubsequenceGrows(Through(n.chans[c]), SentTo(before, e.user), e.payload);
        } else {
          assert SentTo(es, n.chans[c].user) == SentTo(before, n.chans[c].user);
        }
      }
    }
  }

  /** All payloads broadcast to the user of c since c connected, in order. */
  function SentSince<C(==)>(es: seq<Event<C>>, c: C): seq<Payload>
    requires c in After(es).chans
    decreases |es|
  {
    var before, e := es[..|es| - 1], es[|es| - 1];
    if c !in After(before).chans then []
    else SentSince(before, c) + if e.Broadcast? && e.user == After(before).chans[c].user then [e.payload] else []
  }

  lemma StillRegistered<C>(n: Net<C>, e: Event<C>, c: C)
    requires Healthy(n) && c in n.chans && Registered(Next(n, e), c) && c !in Next(n, e).closing
    ensures Registered(n, c) && c !in n.closing
    ensures e.Broadcast? && e.user == n.chans[c].user ==> |n.chans[c].buffer| < CAPACITY
  {
  }

  /**
    A client misses nothing while it stays: as long as it is registered and no close is pending for it,
    exactly the broadcasts to its user since it connected have gone through or wait in its channel.
    */
  lemma {:induction false} NothingMissed<C>(es: seq<Event<C>>, c: C)
    requires c in After(es).chans && Registered(After(es), c) && c !in After(es).closing
    ensures Through(After(es).chans[c]) == SentSince(es, c)
    decreases |es|
  {
    var before, e := es[..|es| - 1], es[|es| - 1];
    var n := After(before);
    AlwaysHealthy(before);
    EventThrough(n, e, c);
    if c in n.chans {
      StillRegistered(n, e, c);
      NothingMissed(before, c);
    }
    hide Healthy, Next, Registered, Through;
  }

  /** A broadcast touches no channel of another user and no closed channel. */
  lemma BroadcastIsolated<C>(es: seq<Event<C>>, user: UserId, payload: Payload, c: C)
    requires c in After(es).chans
    requires After(es).chans[c].user != user || After(es).chans[c].closes > 0
    ensures var n := Broadcasted(After(es), user, payload); c in n.chans && n.chans[c] == After(es).chans[c]
  {
    AlwaysHealthy(es);
  }

  lemma BroadcastChannels<C>(n: Net<C>, user: UserId, payload: Payload)
    ensures var n' := Broadcasted(n, user, payload);
            if user !in n.clients then n' == n
            else
              && n'.clients == n.clients && n'.chans.Keys == n.chans.Keys
              && forall c :: c in n.chans ==>
                 n'.chans[c] == if c in n.clients[user] then Offered(n.chans[c], payload) else n.chans[c]
  {
  }

  lemma NewClient<C>(n: Net<C>, c: C, user: UserId)
    requires c !in n.chans
    ensures var n' := Connected(n, c, user);
            && n'.clients == n.clients[user := (if user in n.clients then n.clients[user] else {}) + {c}]
            && n'.chans == n.chans[c := Channel(user, [], [], false, 0)]
  {
  }

  // The objects

  class Client {
    const user: UserId
    var buffer: seq<Payload>
    var received: seq<Payload>
    var once: bool
    var open: bool

    constructor (user: UserId)
      ensures this.user == user && buffer == [] && received == [] && !once && open
    {
      this.user := user;
      buffer, received, once, open := [], [], false, true;
    }

    /** The send of the select statement; it panics on a closed channel. */
    method TrySend(payload: Payload) returns (sent: bool)
      requires open
      modifies this`buffer
      ensures sent == (|old(buffer)| < CAPACITY)
      ensures buffer == if sent then old(buffer) + [payload] else old(buffer)
    {
      sent := |buffer| < CAPACITY;
      if sent {
        buffer := buffer + [payload];
      }
    }

    /** `close(c.send)`; it panics on a closed channel. */
    method CloseChannel()
      requires open
      modifies this`open
      ensures !open
    {
      open := false;
    }
  }

  /** `net` is the hub as a value, over all clients that ever connected. */
  class Hub {
    var clients: map<UserId, set<Client>>
    ghost var net: Net<Client>

    ghost function Known(): set<Client>
      reads this
    {
      net.chans.Keys
    }

    static ghost predicate Holds(c: Client, ch: Channel)
      reads c
    {
      ch == Channel(c.user, c.buffer, c.received, c.once, if c.open then 0 else 1)
    }

    ghost predicate Mirrors(c: Client)
      reads this, c
    {
      c in net.chans && Holds(c, net.chans[c])
    }

    ghost predicate Valid()
      reads this, Known()
    {
      clients == net.clients && Healthy(net) && forall c :: c in Known() ==> Mirrors(c)
    }

    constructor ()
      ensures Valid() && net == Silent<Client>()
    {
      clients := map[];
      net := Silent<Client>();
    }

    method Register(c: Client)
      requires Valid() && c !in Known()
      requires c.buffer == [] && c.received == [] && !c.once && c.open
      modifies this
      ensures Valid() && net == Next(old(net), Connect(c, c.user))
      ensures clients == old(clients)[c.user := (if c.user in old(clients) then old(clients)[c.user] else {}) + {c}]
    {
      ConnectHealthy(net, c, c.user);
      NewClient(net, c, c.user);
      hide Healthy, Connected;
      if c.user !in clients {
        clients := clients[c.user := {}];
      }
      clients := clients[c.user := clients[c.user] + {c}];
      net := Connected(net, c, c.user);
    }

    method Unregister(c: Client)
      requires clients == net.clients && !net.panicked && Mirrors(c)
      requires c.user in clients ==> c.open
      modifies this, c`open
      ensures clients == net.clients && Mirrors(c) && net == Unregistered(old(net), c)
      ensures !Entered(clients, c.user, c) && forall u, d :: d != c ==>
                (Entered(clients, u, d) <==> Entered(old(clients), u, d))
      ensures c.open == (old(c.open) && c.user !in old(clients))
    {
      if c.user !in clients {
        return;
      }
      var rest := clients[c.user] - {c};
      assert forall d :: d != c && Entered(clients, c.user, d) ==> d in rest;
      if rest == {} {
        clients := clients - {c.user};
      } else {
        clients := clients[c.user := rest];
      }
      c.CloseChannel();
      net := Unregistered(net, c);
    }

    /** `close`: at most one caller gets past the once flag. */
    method Close(c: Client)
      requires Valid() && c in Known()
      modifies this, c
      ensures Valid() && net == Next(old(net), Event.Close(c))
      ensures !c.open && c.buffer == old(c.buffer) && c.received == old(c.received)
      ensures forall u, d :: Entered(clients, u, d) <==> d != c && Entered(old(clients), u, d)
      ensures forall u :: u in clients ==> clients[u] != {}
    {
      CloseHealthy(net, c);
      ClosedLeaves(net, c);
      assert Mirrors(c);
      if !c.once {
        assert Registered(net, c) && c.open && c.user in clients;
        c.once := true;
        net := net.(chans := net.chans[c := net.chans[c].(once := true)], closing := net.closing - {c});
        Unregister(c);
      }
    }

    /** The loop of `broadcast`, in whatever order the map yields the clients; `closing` get a spawned close. */
    static method SendAll(targets: set<Client>, payload: Payload) returns (closing: set<Client>)
      requires forall c :: c in targets ==> c.open
      modifies targets`buffer
      ensures forall c :: c in targets ==>
                c.buffer == if |old(c.buffer)| < CAPACITY then old(c.buffer) + [payload] else old(c.buffer)
      ensures forall c :: c in closing <==> c in targets && |old(c.buffer)| >= CAPACITY
    {
      var left := targets;
      closing := {};
      while left != {}
        invariant left <= targets
        invariant forall c :: c in left ==> c.buffer == old(c.buffer)
        invariant forall c :: c in targets - left ==>
                    c.buffer == if |old(c.buffer)| < CAPACITY then old(c.buffer) + [payload] else old(c.buffer)
        invariant forall c :: c in closing <==> c in targets - left && |old(c.buffer)| >= CAPACITY
        decreases |left|
      {
        var c :| c in left;
        var sent := c.TrySend(payload);
        if !sent {
          closing := closing + {c};
        }
        left := left - {c};
      }
    }

    method OfferAll(targets: set<Client>, payload: Payload) returns (closing: set<Client>)
      requires targets <= Known() && forall c :: c in targets ==> c.open
      requires forall c :: c in Known() ==> Mirrors(c)
      modifies targets`buffer
      ensures forall c :: c in Known() ==>
                Holds(c, if c in targets then Offered(net.chans[c], payload) else net.chans[c])
      ensures forall c :: c in Known() ==>
                && c.open == old(c.open) && c.received == old(c.received)
                && c.buffer == (if c in targets && |old(c.buffer)| < CAPACITY then old(c.buffer) + [payload]
                                else old(c.buffer))
      ensures closing == set c | c in targets && |net.chans[c].buffer| >= CAPACITY
      ensures forall c :: c in closing <==> c in targets && |old(c.buffer)| >= CAPACITY
    {
      assert forall c :: c in targets ==> Mirrors(c);
      closing := SendAll(targets, payload);
    }

    lemma TargetsOpen(user: UserId)
      requires Valid() && user in clients
      ensures clients[user] <= Known() && forall c :: c in clients[user] ==> c.open
    {
    }

    /** `closing` are the clients whose close it spawns: exactly those that have no room. */
    method Broadcast(user: UserId, payload: Payload) returns (closing: set<Client>)
      requires Valid()
      modifies this, Known()
      ensures Valid() && net == Next(old(net), Event.Broadcast(user, payload)) && clients == old(clients)
      ensures closing == Overflowing(old(net), user)
      ensures forall c :: c in Known() ==>
                && c.open == old(c.open) && c.received == old(c.received)
                && c.buffer == (if Entered(clients, user, c) && |old(c.buffer)| < CAPACITY then
                                  old(c.buffer) + [payload]
                                else old(c.buffer))
                && (c in closing <==> Entered(clients, user, c) && |old(c.buffer)| >= CAPACITY)
    {
      hide Healthy, Broadcasted, Offered;
      BroadcastChannels(net, user, payload);
      if user !in clients {
        return {};
      }
      BroadcastHealthy(net, user, payload);
      TargetsOpen(user);
      closing := OfferAll(clients[user], payload);
      net := Broadcasted(net, user, payload);
    }

    /** The write pump takes the next payload, also from a closed channel that is not yet empty. */
    method Receive(c: Client) returns (payload: Option<Payload>)
      requires Valid() && c in Known()
      modifies this, c
      ensures Valid() && net == Next(old(net), Event.Receive(c))
      ensures payload == if old(c.buffer) == [] then None else Some(old(c.buffer)[0])
      ensures old(c.buffer) == (if payload.Some? then [payload.value] else []) + c.buffer
      ensures c.received == old(c.received) + if payload.Some? then [payload.value] else []
      ensures c.open == old(c.open) && clients == old(clients)
    {
      ReceiveHealthy(net, c);
      assert Mirrors(c);
      hide Healthy;
      if c.buffer == [] {
        return None;
      }
      payload := Some(c.buffer[0]);
      c.buffer, c.received := c.buffer[1..], c.received + [c.buffer[0]];
      net := Received(net, c);
    }
  }
}
