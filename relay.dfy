/** The broker of relay_server.py: the module globals `clients` (every connected
    WebSocket client, in connection order) and `minescript_client` (the "host",
    the game client that identified itself), updated by the three server
    callbacks `new_client`, `client_left` and `message_received`.

    A client is known by its id. Decoding a frame (`json.loads`) is outside the
    model: each received frame comes with what it decoded to, `None` when it is
    not JSON. Sends are recorded as outbox entries instead of socket writes. */
module Relay {
  import opened Builtins
  import opened Wire

  type ClientId = nat

  /** What the handshake test of `message_received` sees in a frame: text that is
      not JSON, JSON on which `.get` fails, or a dict with its "type" and
      "payload" entries (Null where absent). */
  datatype Frame = Malformed | NonObject | Object(kind: Json, payload: Json)

  function Parse(decoded: Option<Json>): (f: Frame)
    ensures f.Malformed? <==> decoded.None?
    ensures f.Object? <==> decoded.Some? && decoded.value.Obj?
  {
    match decoded
    case None => Malformed
    case Some(v) =>
      if v.Obj? then Object(Get(v.fields, "type"), Get(v.fields, "payload")) else NonObject
  }

  /** The "I am Minescript" handshake: type STATUS, payload connected. */
  predicate IsHandshake(f: Frame) {
    f == Object(Str("STATUS"), Str("connected"))
  }

  /** The two STATUS frames the relay writes itself, as `json.dumps` renders them. */
  const ConnectedText: string := "{\"type\": \"STATUS\", \"payload\": \"connected\"}"
  const DisconnectedText: string := "{\"type\": \"STATUS\", \"payload\": \"disconnected\"}"

  /** One send: `server.send_message(client, text)` or `server.send_message_to_all(text)`. */
  datatype Send = ToClient(client: ClientId, text: string) | ToAll(text: string)

  /** One callback invocation by the WebSocket server. */
  datatype Event =
    | Join(client: ClientId)
    | Leave(client: ClientId)
    | Receive(client: ClientId, text: string, decoded: Option<Json>)

  datatype State = State(clients: seq<ClientId>, host: Option<ClientId>)

  const Initial: State := State([], None)

  /** The host, when there is one, is a connected client. */
  predicate Inv(s: State) {
    s.host.Some? ==> s.host.value in s.clients
  }

  /** What one callback does to the globals, and what it sends: at most one send,
      none only when a client other than the host leaves; the host changes only
      when it leaves or a handshake arrives; only a join adds a client. */
  function Step(s: State, e: Event): (r: (State, seq<Send>))
    ensures |r.1| <= 1
    ensures r.1 == [] <==> e.Leave? && s.host != Some(e.client)
    ensures r.0.host != s.host ==>
      (e.Leave? && s.host == Some(e.client)) || (e.Receive? && IsHandshake(Parse(e.decoded)))
    ensures !e.Join? ==> forall x :: x in r.0.clients ==> x in s.clients
  {
    match e
    case Join(c) =>
      (State(s.clients + [c], s.host),
       [ToClient(c, if s.host.Some? then ConnectedText else DisconnectedText)])
    case Leave(c) =>
      var rest := if c in s.clients then RemoveFirst(s.clients, c) else s.clients;
      assert forall x :: x in rest ==> x in multiset(rest) && x in multiset(s.clients);
      if s.host == Some(c) then (State(rest, None), [ToAll(DisconnectedText)])
      else (State(rest, s.host), [])
    case Receive(c, text, decoded) =>
      if IsHandshake(Parse(decoded)) then (State(s.clients, Some(c)), [ToAll(text)])
      else (s, [ToAll(text)])
  }

  /** The globals and every send after a sequence of callbacks. */
  function Run(s: State, trace: seq<Event>): (State, seq<Send>)
    decreases |trace|
  {
    if trace == [] then (s, [])
    else
      var (mid, sent) := Run(s, trace[..|trace| - 1]);
      var (next, more) := Step(mid, trace[|trace| - 1]);
      (next, sent + more)
  }

  /** A new client is appended and told, and only it, whether a host is present. */
  lemma JoinGreets(s: State, c: ClientId)
    ensures var (t, out) := Step(s, Join(c));
      && t.clients == s.clients + [c] && t.host == s.host
      && |out| == 1 && out[0].ToClient? && out[0].client == c
      && (out[0].text == ConnectedText <==> s.host.Some?)
      && (out[0].text == DisconnectedText <==> s.host.None?)
  {
    assert |ConnectedText| != |DisconnectedText|;
  }

  /** A leaving client is removed once if listed; only the host's departure clears
      the host, and it alone is announced, by one broadcast. */
  lemma LeaveEffects(s: State, c: ClientId)
    ensures var (t, out) := Step(s, Leave(c));
      && (c in s.clients ==> multiset(t.clients) == multiset(s.clients) - multiset{c})
      && (c !in s.clients ==> t.clients == s.clients)
      && (s.host == Some(c) ==> t.host == None && out == [ToAll(DisconnectedText)])
      && (s.host != Some(c) ==> t.host == s.host && out == [])
  {
  }

  /** Every frame is broadcast verbatim exactly once and never changes `clients`;
      the host changes only on a handshake, which makes the sender the host. */
  lemma ReceiveEffects(s: State, c: ClientId, text: string, decoded: Option<Json>)
    ensures var (t, out) := Step(s, Receive(c, text, decoded));
      && out == [ToAll(text)] && t.clients == s.clients
      && (IsHandshake(Parse(decoded)) ==> t.host == Some(c))
      && (!IsHandshake(Parse(decoded)) ==> t.host == s.host)
  {
  }

  /** Repeating a handshake from the same client changes nothing more. */
  lemma HandshakeIdempotent(s: State, c: ClientId, text: string, decoded: Option<Json>)
    requires IsHandshake(Parse(decoded))
    ensures var once := Step(s, Receive(c, text, decoded)).0;
      Step(once, Receive(c, text, decoded)).0 == once
  {
  }

  /** Text that is not JSON, JSON that is not an object, and an object whose type or
      payload differs from the handshake's are all ordinary frames. */
  lemma OnlyTheHandshakeIdentifies(decoded: Option<Json>)
    ensures IsHandshake(Parse(decoded)) <==>
      decoded.Some? && decoded.value.Obj?
      && Get(decoded.value.fields, "type") == Str("STATUS")
      && Get(decoded.value.fields, "payload") == Str("connected")
  {
  }

  /** The envelope a game client sends on connecting is recognised as the handshake. */
  lemma EnvelopeHandshake()
    ensures IsHandshake(Parse(Some(Envelope("STATUS", Str("connected")))))
    ensures !IsHandshake(Parse(Some(Envelope("STATUS", Str("disconnected")))))
  {
  }

  /** Each callback keeps the host among the clients, provided frames come only
      from connected clients (no distinctness of ids is needed). */
  lemma StepKeepsInvariant(s: State, e: Event)
    requires Inv(s)
    requires e.Receive? ==> e.client in s.clients
    ensures Inv(Step(s, e).0)
  {
    match e
    case Join(c) =>
    case Leave(c) =>
      if c in s.clients && s.host.Some? && s.host.value != c {
        RemoveFirstKeeps(s.clients, c, s.host.value);
      }
    case Receive(c, text, decoded) =>
  }

  /** Every frame of `trace` comes from a client connected at that moment. */
  predicate FromConnected(s: State, trace: seq<Event>) {
    forall i :: 0 <= i < |trace| && trace[i].Receive? ==> trace[i].client in Run(s, trace[..i]).0.clients
  }

  lemma {:induction false} RunKeepsInvariant(s: State, trace: seq<Event>)
    requires Inv(s) && FromConnected(s, trace)
    ensures Inv(Run(s, trace).0)
    decreases |trace|
  {
    if trace != [] {
      var n := |trace| - 1;
      var prefix := trace[..n];
      forall i | 0 <= i < |prefix| && prefix[i].Receive?
        ensures prefix[i].client in Run(s, prefix[..i]).0.clients
      {
        assert prefix[..i] == trace[..i];
      }
      RunKeepsInvariant(s, prefix);
      StepKeepsInvariant(Run(s, prefix).0, trace[n]);
    }
  }

  /** `trace[i]` is a handshake frame from `c`. */
  predicate HandshakeFrom(e: Event, c: ClientId) {
    e.Receive? && e.client == c && IsHandshake(Parse(e.decoded))
  }

  predicate IsAnyHandshake(e: Event) {
    e.Receive? && IsHandshake(Parse(e.decoded))
  }

  /** `c` handshook at `i` and, after that, nobody handshook and `c` did not leave. */
  predicate LastHostAt(trace: seq<Event>, c: ClientId, i: int) {
    && 0 <= i < |trace| && HandshakeFrom(trace[i], c)
    && forall j :: i < j < |trace| ==> !IsAnyHandshake(trace[j]) && trace[j] != Leave(c)
  }

  lemma LastHostKept(prefix: seq<Event>, e: Event, c: ClientId, i: int)
    requires LastHostAt(prefix, c, i) && !IsAnyHandshake(e) && e != Leave(c)
    ensures LastHostAt(prefix + [e], c, i)
  {
    var trace := prefix + [e];
    assert trace[i] == prefix[i];
    forall j | i < j < |trace| ensures !IsAnyHandshake(trace[j]) && trace[j] != Leave(c) {
      if j < |prefix| {
        assert trace[j] == prefix[j];
      }
    }
  }

  lemma LastHostEarlier(prefix: seq<Event>, e: Event, c: ClientId, i: int)
    requires LastHostAt(prefix + [e], c, i) && !IsAnyHandshake(e)
    ensures LastHostAt(prefix, c, i) && e != Leave(c)
  {
    var trace := prefix + [e];
    assert trace[|prefix|] == e;
    assert i < |prefix|;
    assert trace[i] == prefix[i];
    forall j | i < j < |prefix| ensures !IsAnyHandshake(prefix[j]) && prefix[j] != Leave(c) {
      assert trace[j] == prefix[j];
    }
  }

  /** Appending an event that is not a handshake keeps an earlier last handshake
      of `c` last, unless the event is `c` leaving. */
  lemma LastHostExtend(prefix: seq<Event>, e: Event, c: ClientId)
    requires !IsAnyHandshake(e)
    ensures (exists i :: LastHostAt(prefix + [e], c, i)) <==> (exists i :: LastHostAt(prefix, c, i)) && e != Leave(c)
  {
    if (exists i :: LastHostAt(prefix, c, i)) && e != Leave(c) {
      var i :| LastHostAt(prefix, c, i);
      LastHostKept(prefix, e, c, i);
    }
    if exists i :: LastHostAt(prefix + [e], c, i) {
      var i :| LastHostAt(prefix + [e], c, i);
      LastHostEarlier(prefix, e, c, i);
    }
  }

  /** A handshake from another client ends `c`'s turn as the host. */
  lemma LastHostReplaced(prefix: seq<Event>, e: Event, c: ClientId)
    requires IsAnyHandshake(e) && e.client != c
    ensures !exists i :: LastHostAt(prefix + [e], c, i)
  {
    var trace := prefix + [e];
    forall i | 0 <= i < |trace| ensures !LastHostAt(trace, c, i) {
      if i < |prefix| {
        assert trace[|prefix|] == e;
      }
    }
  }

  /** From a fresh relay, `c` is the host exactly when its handshake is the latest
      one and it has not left since: identification is by message content alone. */
  lemma {:induction false} HostIsLastHandshake(trace: seq<Event>, c: ClientId)
    ensures Run(Initial, trace).0.host == Some(c) <==> exists i :: LastHostAt(trace, c, i)
    decreases |trace|
  {
    if trace == [] {
      return;
    }
    var n := |trace| - 1;
    var prefix := trace[..n];
    var e := trace[n];
    assert trace == prefix + [e];
    HostIsLastHandshake(prefix, c);
    assert Run(Initial, trace).0 == Step(Run(Initial, prefix).0, e).0;
    if IsAnyHandshake(e) {
      if e.client == c {
        assert LastHostAt(trace, c, n);
      } else {
        LastHostReplaced(prefix, e, c);
      }
    } else {
      LastHostExtend(prefix, e, c);
    }
  }

  /** The relay's globals and everything it has sent. */
  class RelayServer {
    var clients: seq<ClientId>
    var host: Option<ClientId>
    var outbox: seq<Send>

    constructor ()
      ensures clients == [] && host == None && outbox == []
      ensures Valid()
    {
      clients, host, outbox := [], None, [];
    }

    function Snapshot(): State
      reads this
    {
      State(clients, host)
    }

    ghost predicate Valid()
      reads this
    {
      Inv(Snapshot())
    }

    /** `new_client`: appends the client and greets it with the host's presence. */
    method NewClient(client: ClientId)
      modifies this
      ensures clients == old(clients) + [client] && host == old(host)
      ensures outbox == old(outbox) + [ToClient(client, if old(host).Some? then ConnectedText else DisconnectedText)]
      ensures (Snapshot(), outbox[|old(outbox)|..]) == Step(old(Snapshot()), Join(client))
      ensures old(Valid()) ==> Valid()
    {
      clients := clients + [client];
      if host.Some? {
        outbox := outbox + [ToClient(client, ConnectedText)];
      } else {
        outbox := outbox + [ToClient(client, DisconnectedText)];
      }
    }

    /** `client_left`: drops the client if listed; the host's departure clears the
        host and is broadcast. */
    method ClientLeft(client: ClientId)
      modifies this
      ensures clients == if client in old(clients) then RemoveFirst(old(clients), client) else old(clients)
      ensures old(host) == Some(client) ==> host == None && outbox == old(outbox) + [ToAll(DisconnectedText)]
      ensures old(host) != Some(client) ==> host == old(host) && outbox == old(outbox)
      ensures (Snapshot(), outbox[|old(outbox)|..]) == Step(old(Snapshot()), Leave(client))
      ensures old(Valid()) ==> Valid()
    {
      if Valid() {
        StepKeepsInvariant(Snapshot(), Leave(client));
      }
      if client in clients {
        clients := RemoveFirst(clients, client);
      }
      if host == Some(client) {
        host := None;
        outbox := outbox + [ToAll(DisconnectedText)];
      }
      assert outbox[|old(outbox)|..] == if old(host) == Some(client) then [ToAll(DisconnectedText)] else [];
    }

    /** `message_received`: a handshake makes the sender the host; every frame,
        handshake or not, is broadcast as received. */
    method MessageReceived(client: ClientId, message: string, decoded: Option<Json>)
      modifies this
      ensures clients == old(clients)
      ensures host == if IsHandshake(Parse(decoded)) then Some(client) else old(host)
      ensures outbox == old(outbox) + [ToAll(message)]
      ensures (Snapshot(), outbox[|old(outbox)|..]) == Step(old(Snapshot()), Receive(client, message, decoded))
      ensures old(Valid()) && client in old(clients) ==> Valid()
    {
      var frame := Parse(decoded);
      if IsHandshake(frame) {
        host := Some(client);
        outbox := outbox + [ToAll(message)];
        return;
      }
      outbox := outbox + [ToAll(message)];
    }
  }
}
