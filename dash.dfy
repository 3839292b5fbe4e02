/** The message shaping of dashboard.py: how the `Dashboard` wraps every outgoing
    message in the `{"type", "payload"}` envelope and decides whether it leaves at
    all (`send_to_ui`), what a new browser client and the relay are greeted with,
    how inbound frames reach the job manager (bad ones are swallowed), `stop`,
    the inventory report of `_scan_inventory`, and the `__PORT__` substitution of
    the built-in page.

    Sockets are outbox entries carrying the JSON value that `json.dumps` would
    write. Whether the embedded server exists and whether the relay socket is
    connected are set by the server and client threads, which are outside the
    model; here they are two fields. */
module Dash {
  import opened Builtins
  import opened Wire
  import opened Jobs
  import Relay

  /** One frame leaving the dashboard: `ws_server.send_message_to_all`,
      `server.send_message(client, …)` or `ws_client.send` to the relay. */
  datatype Delivery = Broadcast(msg: Json) | ToClient(client: nat, msg: Json) | ToRelay(msg: Json)

  /** An inventory slot as `player_inventory` reports it; an attribute the object
      lacks is None. */
  datatype ItemStack = ItemStack(item: Option<string>, count: Option<int>)

  const Namespace: string := "minecraft:"

  /** `getattr(item, 'item', 'air').replace('minecraft:', '')`. */
  function WireName(item: Option<string>): string {
    ReplaceAll(if item.Some? then item.value else "air", Namespace, "")
  }

  /** `{"name": name, "count": getattr(item, 'count', 1)}`. */
  function Entry(stack: ItemStack): Json {
    Obj([("name", Str(WireName(stack.item))),
         ("count", Int(if stack.count.Some? then stack.count.value else 1))])
  }

  /** The truthy slots of the inventory, in inventory order (an empty slot is None). */
  function Present(inv: seq<Option<ItemStack>>): seq<ItemStack> {
    if inv == [] then []
    else (if inv[0].Some? then [inv[0].value] else []) + Present(inv[1..])
  }

  lemma {:induction false} PresentAppend(a: seq<Option<ItemStack>>, b: seq<Option<ItemStack>>)
    ensures Present(a + b) == Present(a) + Present(b)
  {
    if a == [] {
      assert a + b == b;
    } else {
      var head := if a[0].Some? then [a[0].value] else [];
      assert (a + b)[0] == a[0];
      assert (a + b)[1..] == a[1..] + b;
      assert Present(a + b) == head + Present(a[1..] + b);
      PresentAppend(a[1..], b);
    }
  }

  /** Exactly the truthy slots are reported: a stack appears iff some slot holds it. */
  lemma {:induction false} PresentMembers(inv: seq<Option<ItemStack>>, stack: ItemStack)
    ensures stack in Present(inv) <==> Some(stack) in inv
  {
    if inv != [] {
      PresentMembers(inv[1..], stack);
      assert inv == [inv[0]] + inv[1..];
    }
  }

  /** The INVENTORY payload: one entry per truthy slot, in order. */
  function Entries(inv: seq<Option<ItemStack>>): seq<Json> {
    var items := Present(inv);
    seq(|items|, k requires 0 <= k < |items| => Entry(items[k]))
  }

  /** The payload is built slot by slot: an empty slot adds nothing, a filled one
      adds its entry, and the entries of consecutive parts follow each other. */
  lemma EntriesSlotBySlot(a: seq<Option<ItemStack>>, b: seq<Option<ItemStack>>, stack: ItemStack)
    ensures Entries(a + b) == Entries(a) + Entries(b)
    ensures Entries([None]) == [] && Entries([Some(stack)]) == [Entry(stack)]
  {
    PresentAppend(a, b);
    assert Present([None]) == [];
    assert Present([Some(stack)]) == [stack];
  }

  /** Each entry has exactly the keys name and count; the count defaults to 1 and
      the name to "air" with the namespace removed. */
  lemma EntryShape(stack: ItemStack)
    ensures Entry(stack).Obj? && Keys(Entry(stack).fields) == ["name", "count"]
    ensures Get(Entry(stack).fields, "count") == Int(if stack.count.Some? then stack.count.value else 1)
    ensures stack.item.None? ==> Get(Entry(stack).fields, "name") == Str("air")
  {
    assert !Occurs("air", Namespace) by {
      forall i ensures !OccursAt("air", Namespace, i) {
      }
    }
    ReplaceAllWithoutMatch("air", Namespace, "");
  }

  /** A namespaced id loses its "minecraft:" prefix; an id without it is kept. */
  lemma WireNameStripsNamespace(path: string)
    ensures !Occurs(path, Namespace) ==> WireName(Some(Namespace + path)) == path
    ensures !Occurs(path, Namespace) ==> WireName(Some(path)) == path
  {
    if !Occurs(path, Namespace) {
      ReplaceAllLeading(path, Namespace, "");
      ReplaceAllWithoutMatch(path, Namespace, "");
    }
  }

  /** The loop of `_scan_inventory` that builds `data`. */
  method InventoryData(inv: seq<Option<ItemStack>>) returns (data: seq<Json>)
    ensures data == Entries(inv)
  {
    data := [];
    for i := 0 to |inv|
      invariant data == Entries(inv[..i])
    {
      var slot := inv[i];
      if slot.Some? {
        var stack := slot.value;
        var name := ReplaceAll(if stack.item.Some? then stack.item.value else "air", "minecraft:", "");
        data := data + [Obj([("name", Str(name)), ("count", Int(if stack.count.Some? then stack.count.value else 1))])];
      }
      PresentAppend(inv[..i], [slot]);
      assert inv[..i + 1] == inv[..i] + [slot];
    }
    assert inv[..|inv|] == inv;
  }

  /** The STATUS envelope the dashboard greets with. */
  function Greeting(): Json {
    Envelope("STATUS", Str("connected"))
  }

  /** The relay broadcasts every frame to every client, the sender included; the
      dashboard's own envelopes, coming back, are routed nowhere by `handle_task`. */
  lemma OwnEnvelopesIgnored(kind: string, payload: Json)
    requires kind in {"STATUS", "UI_CONFIG", "LOG_MSG", "CHAT_MSG", "INVENTORY"}
    ensures Route(Envelope(kind, payload)) == Ignore
  {
  }

  /** The greeting sent on `on_open` is the handshake the relay identifies its host by. */
  lemma GreetingIdentifiesHost()
    ensures Relay.IsHandshake(Relay.Parse(Some(Greeting())))
  {
    Relay.EnvelopeHandshake();
  }

  class Dashboard {
    /** Connected through the relay (`external=True`) rather than serving itself. */
    const external: bool
    const port: int
    const jobs: JobManager
    var running: bool
    /** `self.ws_server` exists (embedded mode). */
    var serverUp: bool
    /** `self.ws_client.sock.connected` (external mode). */
    var relayConnected: bool
    var outbox: seq<Delivery>

    ghost predicate Valid()
      reads this, jobs
    {
      jobs.Valid()
    }

    constructor (external: bool, port: int)
      ensures Valid() && fresh(jobs)
      ensures this.external == external && this.port == port
      ensures !running && !serverUp && !relayConnected && outbox == []
      ensures jobs.names == [] && jobs.sent == []
    {
      this.external := external;
      this.port := port;
      jobs := new JobManager();
      running, serverUp, relayConnected, outbox := false, false, false, [];
    }

    /** The connection `send_to_ui` writes to is up: the relay socket in external
        mode, the embedded server otherwise. */
    function Up(): bool
      reads this
    {
      if external then relayConnected else serverUp
    }

    /** `send_to_ui(kind, payload)`. */
    method SendToUi(kind: string, payload: Json)
      modifies this
      ensures outbox == old(outbox) + Deliveries(external, Up(), UiMessage(kind, payload))
      ensures running == old(running) && serverUp == old(serverUp) && relayConnected == old(relayConnected)
    {
      var msg := Envelope(kind, payload);
      if external {
        if relayConnected {
          outbox := outbox + [ToRelay(msg)];
        }
      } else {
        if serverUp {
          outbox := outbox + [Broadcast(msg)];
        }
      }
    }

    /** The embedded server's `new_client`: STATUS connected, then the UI
        configuration, to that client only. */
    method NewClient(client: nat, listing: seq<string>)
      modifies this
      ensures outbox == old(outbox) + [ToClient(client, Greeting()),
                                       ToClient(client, Envelope("UI_CONFIG", ConfigJson(UiConfig(listing))))]
      ensures running == old(running) && serverUp == old(serverUp) && relayConnected == old(relayConnected)
    {
      outbox := outbox + [ToClient(client, Envelope("STATUS", Str("connected")))];
      var config := jobs.GetUiConfig(listing);
      outbox := outbox + [ToClient(client, Envelope("UI_CONFIG", ConfigJson(config)))];
    }

    /** `on_open` of the relay connection: the same greeting, sent to the relay. */
    method OnOpen(listing: seq<string>)
      modifies this
      ensures outbox == old(outbox) + [ToRelay(Greeting()),
                                       ToRelay(Envelope("UI_CONFIG", ConfigJson(UiConfig(listing))))]
      ensures running == old(running) && serverUp == old(serverUp) && relayConnected == old(relayConnected)
    {
      outbox := outbox + [ToRelay(Envelope("STATUS", Str("connected")))];
      var config := jobs.GetUiConfig(listing);
      outbox := outbox + [ToRelay(Envelope("UI_CONFIG", ConfigJson(config)))];
    }

    /** `msg_received` / `on_message`: the frame, decoded (None when `json.loads`
        fails), goes to `handle_task`; a failure of either is swallowed and
        nothing else stops. The manager's `send_to_ui` calls leave as usual. */
    method OnFrame(decoded: Option<Json>, listing: seq<string>, launch: Launch)
      requires Valid()
      modifies this, jobs, jobs.Events()
      ensures Valid()
      ensures running == old(running) && serverUp == old(serverUp) && relayConnected == old(relayConnected)
      ensures decoded.None? ==> outbox == old(outbox) && unchanged(jobs) && unchanged(old(jobs.Events()))
      ensures decoded.Some? ==> jobs.Handled(decoded.value, listing, launch)
      ensures decoded.Some? && !(Route(decoded.value).StopAll? || Route(decoded.value).Exit?) ==>
        unchanged(old(jobs.Events()))
      ensures decoded.Some? && (Route(decoded.value).StopAll? || Route(decoded.value).Exit?) ==>
        forall n :: n in old(jobs.jobs) ==> old(jobs.jobs)[n].event.isSet
      ensures decoded.Some? ==> (|jobs.sent| >= |old(jobs.sent)|
        && outbox == old(outbox) + DeliveriesAll(external, Up(), jobs.sent[|old(jobs.sent)|..]))
    {
      if decoded.None? {
        return;
      }
      var before := |jobs.sent|;
      var raised := jobs.HandleTask(decoded.value, listing, launch);
      outbox := outbox + DeliveriesAll(external, Up(), jobs.sent[before..]);
    }

    /** `stop()`: the main loop ends and every job is stopped. */
    method Stop()
      requires Valid()
      modifies this, jobs, jobs.Events()
      ensures Valid()
      ensures !running && jobs.names == [] && jobs.jobs == map[]
      ensures serverUp == old(serverUp) && relayConnected == old(relayConnected)
      ensures jobs.chats == old(jobs.chats) && jobs.exited == old(jobs.exited)
      ensures forall n :: n in old(jobs.jobs) ==> old(jobs.jobs)[n].event.isSet
      ensures jobs.sent == old(jobs.sent) + StoppedLog(old(jobs.names))
      ensures outbox == old(outbox) + DeliveriesAll(external, Up(), StoppedLog(old(jobs.names)))
    {
      running := false;
      var before := |jobs.sent|;
      jobs.StopAll();
      assert jobs.sent[before..] == StoppedLog(old(jobs.names));
      outbox := outbox + DeliveriesAll(external, Up(), jobs.sent[before..]);
    }

    /** `_scan_inventory()`, given what `player_inventory()` returned (None when it
        raised, in which case nothing is sent). */
    method ScanInventory(inventory: Option<seq<Option<ItemStack>>>)
      modifies this
      ensures inventory.None? ==> outbox == old(outbox)
      ensures inventory.Some? ==>
        outbox == old(outbox) + Deliveries(external, Up(), UiMessage("INVENTORY", Arr(Entries(inventory.value))))
      ensures running == old(running) && serverUp == old(serverUp) && relayConnected == old(relayConnected)
    {
      if inventory.None? {
        return;
      }
      var data := InventoryData(inventory.value);
      SendToUi("INVENTORY", Arr(data));
    }

    /** `_get_default_html()`: the page template with every `__PORT__` replaced by
        the configured port. */
    function DefaultHtml(template: string): (page: string)
      ensures !Occurs(page, "__PORT__")
    {
      var digits := IntToText(port);
      ReplaceAllLeavesNoMatch(template, "__PORT__", digits);
      ReplaceAll(template, "__PORT__", digits)
    }

    /** Each placeholder becomes the port's digits, and a page without one is kept. */
    lemma DefaultHtmlPlaceholders(rest: string)
      ensures DefaultHtml("__PORT__" + rest) == IntToText(port) + DefaultHtml(rest)
      ensures !Occurs(rest, "__PORT__") ==> DefaultHtml(rest) == rest
    {
      ReplaceAllLeading(rest, "__PORT__", IntToText(port));
      if !Occurs(rest, "__PORT__") {
        ReplaceAllWithoutMatch(rest, "__PORT__", IntToText(port));
      }
    }
  }

  /** What `send_to_ui(m.kind, m.payload)` puts on the wire: the envelope, to every
      browser in embedded mode or to the relay in external mode, when that
      connection is up, and nothing otherwise. */
  function Deliveries(external: bool, up: bool, m: UiMessage): seq<Delivery> {
    var msg := Envelope(m.kind, m.payload);
    if !up then [] else if external then [ToRelay(msg)] else [Broadcast(msg)]
  }

  function DeliveriesAll(external: bool, up: bool, ms: seq<UiMessage>): seq<Delivery> {
    if ms == [] then [] else Deliveries(external, up, ms[0]) + DeliveriesAll(external, up, ms[1..])
  }

  /** Whatever `send_to_ui` sends is one envelope with exactly the keys type and
      payload, carrying the message as given; it is sent exactly when the
      connection is up. */
  lemma DeliveryShape(external: bool, up: bool, m: UiMessage)
    ensures |Deliveries(external, up, m)| <= 1
    ensures |Deliveries(external, up, m)| == 1 <==> up
    ensures forall x :: x in Deliveries(external, up, m) ==>
      && (external ==> x.ToRelay?) && (!external ==> x.Broadcast?)
      && Keys(x.msg.fields) == ["type", "payload"]
      && Get(x.msg.fields, "type") == Str(m.kind) && Get(x.msg.fields, "payload") == m.payload
  {
  }

  /** Delivering a batch of messages is delivering each in turn; with the
      connection down nothing leaves, and with it up one frame per message does. */
  lemma {:induction false} DeliveriesAllAppend(external: bool, up: bool, a: seq<UiMessage>, b: seq<UiMessage>)
    ensures DeliveriesAll(external, up, a + b) == DeliveriesAll(external, up, a) + DeliveriesAll(external, up, b)
  {
    if a == [] {
      assert a + b == b;
    } else {
      assert (a + b)[0] == a[0];
      assert (a + b)[1..] == a[1..] + b;
      DeliveriesAllAppend(external, up, a[1..], b);
    }
  }

  lemma {:induction false} DeliveriesAllCount(external: bool, up: bool, ms: seq<UiMessage>)
    ensures |DeliveriesAll(external, up, ms)| == if up then |ms| else 0
  {
    if ms != [] {
      DeliveriesAllCount(external, up, ms[1..]);
    }
  }
}
