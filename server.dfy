/** The server's global state (`state` in the program): the device session,
    the WebSocket clients that receive pushed events, and the event
    subscriptions made on the device. The handlers change these fields in
    place; outcomes of network and device I/O are parameters. */
module Server {
  import opened Wrappers
  import Api

  /** A WebSocket client. Clients are objects compared by identity, so a
      client is its identity here. */
  type Client = nat

  /** `state.mc`: the session with the device, built from a connection. */
  datatype Session = Session(connection: Api.Connection, isConnected: bool)

  /** The device events the server forwards to its clients. */
  datatype Subscription = ContactMessage | ChannelMessage | Ack | Advertisement | ContactsChanged

  /** The subscriptions `setup_event_handlers` makes, in order. */
  const Handlers: seq<Subscription> :=
    [ContactMessage, ChannelMessage, Ack, Advertisement, ContactsChanged]

  /** A failure raised by the device library while connecting, and whether
      it came after the event handlers were set up. */
  datatype HandshakeFailure = HandshakeFailure(message: string, afterHandlers: bool)

  predicate Distinct(s: seq<Client>) {
    forall i, j :: 0 <= i < j < |s| ==> s[i] != s[j]
  }

  /** The clients of `s` that are not in `gone`, in their order in `s`. */
  function Without(s: seq<Client>, gone: set<Client>): (r: seq<Client>)
    ensures forall x :: x in r <==> x in s && x !in gone
    ensures |r| <= |s|
  {
    if s == [] then []
    else if s[0] in gone then Without(s[1..], gone)
    else [s[0]] + Without(s[1..], gone)
  }

  /** The clients of `s` that are in `failing`, in their order in `s`. */
  function Failing(s: seq<Client>, failing: set<Client>): (r: seq<Client>)
    ensures forall x :: x in r <==> x in s && x in failing
  {
    if s == [] then []
    else if s[0] in failing then [s[0]] + Failing(s[1..], failing)
    else Failing(s[1..], failing)
  }

  /** The position of the first occurrence of `x` in `s`. */
  function IndexOf(s: seq<Client>, x: Client): (k: nat)
    requires x in s
    ensures k < |s| && s[k] == x && x !in s[..k]
  {
    if s[0] == x then 0
    else
      var k := IndexOf(s[1..], x);
      assert s[..k + 1] == [s[0]] + s[1..][..k];
      k + 1
  }

  /** `list.remove(x)`: drops the first occurrence of `x` and keeps the
      other clients in order. */
  function RemoveFirst(s: seq<Client>, x: Client): (r: seq<Client>)
    requires x in s
    ensures |r| == |s| - 1
    ensures multiset(r) == multiset(s) - multiset{x}
    ensures r == s[..IndexOf(s, x)] + s[IndexOf(s, x) + 1..]
  {
    var k := IndexOf(s, x);
    assert s == s[..k] + [x] + s[k + 1..];
    s[..k] + s[k + 1..]
  }

  /** Removing from a list that starts with another client keeps that client
      at the front. */
  lemma RemoveFirstCons(a: Client, t: seq<Client>, x: Client)
    requires x in t && a != x
    ensures RemoveFirst([a] + t, x) == [a] + RemoveFirst(t, x)
  {
    var s := [a] + t;
    assert s[1..] == t;
    var k := IndexOf(t, x);
    assert IndexOf(s, x) == k + 1;
    assert s[..k + 1] == [a] + t[..k];
    assert s[k + 2..] == t[k + 1..];
  }

  /** The clients listed in `q`. */
  function Members(q: seq<Client>): (m: set<Client>)
    ensures forall x :: x in m <==> x in q
  {
    set x | x in q
  }

  /** `r` is `s` with some elements left out and the rest in order. */
  predicate IsSubsequence(r: seq<Client>, s: seq<Client>)
    decreases |s|
  {
    || r == []
    || (s != [] && ((r[0] == s[0] && IsSubsequence(r[1..], s[1..])) || IsSubsequence(r, s[1..])))
  }

  /** Pruning keeps the survivors in their relative order. */
  lemma {:induction false} WithoutIsSubsequence(s: seq<Client>, gone: set<Client>)
    ensures IsSubsequence(Without(s, gone), s)
  {
    if s != [] {
      WithoutIsSubsequence(s[1..], gone);
    }
  }

  /** Pruning a duplicate-free list leaves it duplicate-free. */
  lemma {:induction false} WithoutDistinct(s: seq<Client>, gone: set<Client>)
    requires Distinct(s)
    ensures Distinct(Without(s, gone))
  {
    if s != [] {
      assert Distinct(s[1..]);
      WithoutDistinct(s[1..], gone);
      assert s[0] !in s[1..];
    }
  }

  /** Only which members of `s` are gone matters. */
  lemma {:induction false} WithoutSameOnMembers(s: seq<Client>, g1: set<Client>, g2: set<Client>)
    requires forall x :: x in s ==> (x in g1 <==> x in g2)
    ensures Without(s, g1) == Without(s, g2)
  {
    if s != [] {
      WithoutSameOnMembers(s[1..], g1, g2);
    }
  }

  /** Marking gone a client that is already absent changes nothing. */
  lemma {:induction false} WithoutAbsent(s: seq<Client>, gone: set<Client>, d: Client)
    requires d !in Without(s, gone)
    ensures Without(s, gone + {d}) == Without(s, gone)
  {
    if s != [] {
      WithoutAbsent(s[1..], gone, d);
    }
  }

  /** Removing a surviving client from a pruned duplicate-free list is
      pruning that client as well. */
  lemma {:induction false} RemoveFirstWithout(s: seq<Client>, gone: set<Client>, d: Client)
    requires Distinct(s) && d in Without(s, gone)
    ensures RemoveFirst(Without(s, gone), d) == Without(s, gone + {d})
  {
    assert Distinct(s[1..]);
    if s[0] == d {
      assert d !in s[1..];
      WithoutAbsent(s[1..], gone, d);
    } else if s[0] in gone {
      RemoveFirstWithout(s[1..], gone, d);
    } else {
      RemoveFirstWithout(s[1..], gone, d);
      assert Without(s, gone) == [s[0]] + Without(s[1..], gone);
      RemoveFirstCons(s[0], Without(s[1..], gone), d);
    }
  }

  class AppState {
    var mc: Option<Session>
    var websockets: seq<Client>
    var subscriptions: seq<Subscription>

    /** Each accepted client is a new object, so no client is listed twice. */
    ghost predicate Valid()
      reads this
    {
      Distinct(websockets)
    }

    constructor ()
      ensures Valid()
      ensures mc == None && websockets == [] && subscriptions == []
    {
      mc := None;
      websockets := [];
      subscriptions := [];
    }

    /** `state.mc and state.mc.is_connected` */
    predicate Connected()
      reads this
      ensures Connected() ==> mc.Some?
    {
      mc.Some? && mc.value.isConnected
    }

    /** The first loop of `broadcast_event`: send to every client, and
        collect, in order, those whose send failed. */
    method CollectFailed(failing: set<Client>) returns (disconnected: seq<Client>)
      ensures disconnected == Failing(websockets, failing)
    {
      disconnected := [];
      var i := 0;
      while i < |websockets|
        invariant 0 <= i <= |websockets|
        invariant disconnected + Failing(websockets[i..], failing) == Failing(websockets, failing)
      {
        assert websockets[i..] == [websockets[i]] + websockets[i + 1..];
        if websockets[i] in failing {
          disconnected := disconnected + [websockets[i]];
        }
        i := i + 1;
      }
    }

    /** The second loop of `broadcast_event`: remove each listed client that
        is still in the list. */
    method RemoveClients(disconnected: seq<Client>)
      requires Valid()
      modifies this`websockets
      ensures Valid()
      ensures websockets == Without(old(websockets), Members(disconnected))
    {
      ghost var original := websockets;
      assert Members(disconnected[..0]) == {};
      WithoutNone(original);
      var i := 0;
      while i < |disconnected|
        invariant 0 <= i <= |disconnected|
        invariant websockets == Without(original, Members(disconnected[..i]))
      {
        ghost var gone := Members(disconnected[..i]);
        var ws := disconnected[i];
        assert Members(disconnected[..i + 1]) == gone + {ws} by {
          assert disconnected[..i + 1] == disconnected[..i] + [ws];
        }
        if ws in websockets {
          RemoveFirstWithout(original, gone, ws);
          websockets := RemoveFirst(websockets, ws);
        } else {
          WithoutAbsent(original, gone, ws);
        }
        i := i + 1;
      }
      assert disconnected[..i] == disconnected;
      WithoutDistinct(original, Members(disconnected));
    }

    /** `broadcast_event`: the clients whose send failed are dropped and the
        others stay, in their order. */
    method BroadcastEvent(failing: set<Client>)
      requires Valid()
      modifies this`websockets
      ensures Valid()
      ensures websockets == Without(old(websockets), failing)
    {
      var disconnected := CollectFailed(failing);
      RemoveClients(disconnected);
      WithoutSameOnMembers(old(websockets), Members(disconnected), failing);
    }

    /** A client connects to the WebSocket endpoint and is appended. */
    method Accept(ws: Client)
      requires Valid() && ws !in websockets
      modifies this`websockets
      ensures Valid()
      ensures websockets == old(websockets) + [ws]
    {
      websockets := websockets + [ws];
    }

    /** A client's endpoint ends: it is removed if it is still listed. */
    method Release(ws: Client)
      requires Valid()
      modifies this`websockets
      ensures Valid()
      ensures websockets == Without(old(websockets), {ws})
    {
      WithoutNone(websockets);
      if ws in websockets {
        RemoveFirstWithout(websockets, {}, ws);
        assert {} + {ws} == {ws};
        websockets := RemoveFirst(websockets, ws);
        WithoutDistinct(old(websockets), {ws});
      } else {
        WithoutSameOnMembers(websockets, {ws}, {});
      }
    }

    /** `setup_event_handlers`: with a session, subscribe to the five events. */
    method SetupEventHandlers()
      modifies this`subscriptions
      ensures mc.None? ==> subscriptions == old(subscriptions)
      ensures mc.Some? ==> subscriptions == old(subscriptions) + Handlers
    {
      if mc.Some? {
        subscriptions := subscriptions + Handlers;
      }
    }

    /** `cleanup_subscriptions`: unsubscribe (a library call) and forget them. */
    method CleanupSubscriptions()
      modifies this`subscriptions
      ensures subscriptions == []
    {
      subscriptions := [];
    }

    /** `POST /api/connect`. A refused request changes nothing; a failure of
        the device drops the session; success stores a connected session,
        subscribes to the device events and tells the clients. */
    method Connect(req: Api.ConnectionRequest, failure: Option<HandshakeFailure>, failing: set<Client>)
      returns (r: Result<Api.Connection, Api.HttpError>)
      requires Valid()
      modifies this
      ensures Valid()
      ensures old(Connected()) ==> r == Failure(Api.HttpError(400, "Already connected"))
      ensures r.Failure? && r.error.status == 400 ==>
        mc == old(mc) && websockets == old(websockets) && subscriptions == old(subscriptions)
      ensures Api.SelectConnection(old(Connected()), req).Failure? ==>
        r == Failure(Api.SelectConnection(old(Connected()), req).error)
      ensures r.Success? <==> Api.SelectConnection(old(Connected()), req).Success? && failure.None?
      ensures r.Success? ==>
        && Api.Describes(req, r.value)
        && mc == Some(Session(r.value, true))
        && subscriptions == old(subscriptions) + Handlers
        && websockets == Without(old(websockets), failing)
      ensures Api.SelectConnection(old(Connected()), req).Success? && failure.Some? ==>
        && r == Failure(Api.HttpError(500, failure.value.message))
        && mc == None
        && websockets == old(websockets)
        && subscriptions == old(subscriptions) + (if failure.value.afterHandlers then Handlers else [])
    {
      var selected := Api.SelectConnection(Connected(), req);
      if selected.Failure? {
        return Failure(selected.error);
      }
      mc := Some(Session(selected.value, true));
      if failure.Some? && !failure.value.afterHandlers {
        mc := None;
        return Failure(Api.HttpError(500, failure.value.message));
      }
      SetupEventHandlers();
      if failure.Some? {
        mc := None;
        return Failure(Api.HttpError(500, failure.value.message));
      }
      BroadcastEvent(failing);
      r := Success(selected.value);
    }

    /** `POST /api/disconnect`. Without a session it reports "Not connected";
        otherwise the subscriptions are dropped first, and only if the
        device disconnects is the session cleared and the clients told. */
    method Disconnect(error: Option<string>, failing: set<Client>)
      returns (r: Result<Option<string>, Api.HttpError>)
      requires Valid()
      modifies this
      ensures Valid()
      ensures old(mc).None? ==>
        r == Success(Some("Not connected")) && mc == None
        && websockets == old(websockets) && subscriptions == old(subscriptions)
      ensures old(mc).Some? && error.Some? ==>
        r == Failure(Api.HttpError(500, error.value)) && mc == old(mc)
        && websockets == old(websockets) && subscriptions == []
      ensures old(mc).Some? && error.None? ==>
        r == Success(None) && mc == None
        && websockets == Without(old(websockets), failing) && subscriptions == []
    {
      if mc.None? {
        return Success(Some("Not connected"));
      }
      CleanupSubscriptions();
      if error.Some? {
        return Failure(Api.HttpError(500, error.value));
      }
      mc := None;
      BroadcastEvent(failing);
      r := Success(None);
    }
  }

  /** Pruning nothing keeps the list. */
  lemma {:induction false} WithoutNone(s: seq<Client>)
    ensures Without(s, {}) == s
  {
    if s != [] {
      WithoutNone(s[1..]);
    }
  }
}
