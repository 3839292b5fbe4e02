# minescript-c2 in Dafny

minescript-c2 is a small command-and-control setup for Minescript, a scripting
add-on for the Minecraft client. It has three parts:

- **Job manager.** Inside the game, a `JobManager` runs Python "jobs" (scripts in a
  folder, each on its own thread with a stop event). It keeps them in the dict
  `active_jobs` and dispatches JSON commands (`JOB`, `CMD`, `SAY`, `EXIT`) to them.
- **Dashboard.** A `Dashboard` connects that manager to browsers. It either serves
  a WebSocket itself (embedded mode) or connects to a relay (external mode). It
  wraps every outgoing message in a `{"type", "payload"}` envelope and publishes the
  player's inventory about once a second.
- **Relay.** The relay server is a stand-alone WebSocket broker. It tracks the
  connected clients and the one client that identified itself as the game (the
  "host"), and rebroadcasts every frame.

This project models those three pieces as Dafny state machines and proves what
each one promises:

- `Jobs.JobManager` is a class over `active_jobs`. It is kept as the key order
  `names` plus the map `jobs`, because Python dicts keep insertion order and the
  status report and `stop_all_jobs` depend on it. Its methods are proved against
  the pure routing table `Jobs.Route` and the configuration function `Jobs.UiConfig`.
- `Relay.RelayServer` is a class over the globals `clients` and
  `minescript_client`, plus an outbox. Each callback is tied to the pure transition
  `Relay.Step`. Traces of callbacks (`Relay.Run`) whose frames all come from
  connected clients are proved to keep the host among the clients. A client is shown to be the host exactly when its handshake
  is the latest one and it has not left since.
- `Dash.Dashboard` is a class over the dashboard's connection flags and outbox. It
  covers `send_to_ui` gating, the greetings, the swallowing of bad frames, `stop`,
  the inventory report and the `__PORT__` page substitution.

`Builtins` gives the Python built-ins the code relies on, with CPython's
semantics: `list.remove`, `str.replace`, `str.join`, `str.capitalize` and `str(int)`.
`Wire` gives decoded JSON values, `dict.get` and the envelope.

Sockets, threads, imports and the file system are parameters or outbox entries:

- A frame arrives already decoded: an `Option<Json>`, with None when `json.loads` fails.
- Importing and spawning a job is a `Launch` value: `Launched(thread)` or `LaunchFailed(error)`.
- The scripts folder is its list of file names.
- `player_inventory()` is an optional list of slots.
- `minescript.chat` calls are recorded in `chats`.
- `os._exit(0)` sets `exited`.

## Model

| member | source | states |
|---|---|---|
| Builtins.RemoveFirst | relay_server.py:45-46 | `list.remove` guarded by `in`: an absent element leaves the list as it is; a present one leaves the multiset of elements minus exactly one copy |
| Builtins.RemoveFirstOrder | relay_server.py:46 | `list.remove` takes out the first occurrence and keeps the elements before and after it in order |
| Builtins.RemoveFirstDistinct | relay_server.py:45-46 | on a duplicate-free list, removal keeps it duplicate-free, drops exactly the removed element and adds nothing |
| Builtins.RemoveFirstKeeps | relay_server.py:46 | every element other than the removed one is still in the list, whether or not ids repeat |
| Builtins.ReplaceAllWithoutMatch | dashboard.py:618 | `str.replace` returns a text without the pattern unchanged |
| Builtins.ReplaceAllLeading | dashboard.py:179 | a leading occurrence is replaced and the scan resumes right after it |
| Builtins.ReplaceAllCopiesPrefix | dashboard.py:618 | with a non-empty pattern and a non-empty replacement sharing no character with it: when the first k characters of the output are all pattern characters, they are the first k characters of the input |
| Builtins.ReplaceAllLeavesNoMatch | dashboard.py:618 | with a non-empty replacement sharing no character with the pattern, no occurrence of the pattern survives the replace |
| Builtins.JoinEmptyIff | job_manager.py:109 | `", ".join(keys)` is empty exactly for no keys or a single empty key, which is when `or "None"` applies |
| Builtins.Digits | dashboard.py:618 | the decimal digits of a non-negative number are a non-empty run of digits with no leading zero |
| Builtins.DigitsValue | dashboard.py:618 | the digits spell back the number they were made from |
| Builtins.IntToText | dashboard.py:618 | `str(n)` is non-empty, starts with '-' exactly when n is negative, and is otherwise made of digits |
| Builtins.IntToTextValue | dashboard.py:618 | reading `str(n)` back as a decimal number gives n, negated after the minus sign for negatives |
| Wire.GetLastBinding | job_manager.py:97-98 | `dict.get` on a decoded object gives None for an absent key and, for a present key, the value of its last binding, as `json.loads` keeps the last of repeated keys |
| Wire.DistinctKeys | dashboard.py:128 | the dict `json.loads` builds holds each key once, and exactly the keys of the document |
| Wire.DistinctKeysOrder | dashboard.py:128 | the keys of the decoded dict come in the order of their first binding in the document |
| Wire.Repr | job_manager.py:113-114 | `repr` is never empty; a string is quoted, a list is bracketed and a dict is braced |
| Wire.ReprObjEntries | job_manager.py:113-114 | a dict prints one `'key': value` item per key it holds, with the value `dict.get` reads for that key |
| Wire.ReprRepeatedKey | job_manager.py:113-114 | a document with a repeated key prints that key once, in its first place, with its last value: `{"a":1,"b":2,"a":3}` prints as `{'a': 3, 'b': 2}` |
| Wire.TypeName | job_manager.py:67 | Python's type name of a decoded value is "NoneType", "bool", "int", "str", "list" or "dict", exactly for values of that kind |
| Wire.Envelope | dashboard.py:93 | the envelope has exactly the keys type and payload, in that order, and reading them back gives the kind and payload put in |
| Jobs.StopEvent.constructor | job_manager.py:69 | a new stop event is not set |
| Jobs.StopEvent.Set | job_manager.py:86 | `Event.set()` sets the flag |
| Jobs.StoppedLog | job_manager.py:92-94 | one "⏹️ Stopped {name}" LOG_MSG per name, in key order |
| Jobs.StoppedLogAppend | job_manager.py:93-94 | stopping one more key appends exactly its Stopped message |
| Jobs.StatusReportNone | job_manager.py:109-110 | the status report reads "Active Jobs: None" exactly when there are no jobs, or the only job is named "" or "None" |
| Jobs.NotAModuleNameTellsTypes | job_manager.py:67 | the import error of a hashable non-string name tells the kinds apart: two names get the same message exactly when both are None, both bools or both ints |
| Jobs.JobName | job_manager.py:27 | the script name plus ".py" gives back the file name |
| Jobs.JobNamesAppend | job_manager.py:25-28 | the scripts of a listing keep listing order: the names of a concatenation are the names of its parts |
| Jobs.JobNamesMembers | job_manager.py:26-27 | a name is offered exactly when some listed file ends in ".py", does not start with "__" and carries that name |
| Jobs.StartButtons | job_manager.py:29-34 | one start button per script name, in order |
| Jobs.UiConfigShape | job_manager.py:20-53 | always two groups: start buttons labelled "▶ " + capitalised name, with that name as script and "start" as action, then the fixed STOP ALL / RELOAD UI controls |
| Jobs.Route | job_manager.py:96-120 | the routing table is closed: only JOB, CMD, SAY and EXIT do anything, and `.get` fails exactly on a non-dict task or a non-dict JOB payload |
| Jobs.TaskRaises | job_manager.py:56 | `handle_task` raises exactly when the task is not a dict, or its type is JOB and the payload is not a dict, or the payload asks to start a list or dict name, which cannot be looked up in `active_jobs` |
| Jobs.ButtonsRouteToTheirActions | job_manager.py:29-50 | every button of the configuration, sent back as an envelope, is routed to the action it is labelled with |
| Jobs.JobManager.constructor | job_manager.py:11 | the registry starts empty |
| Jobs.JobManager.GetUiConfig | job_manager.py:20-53 | the loop over the listing returns `UiConfig(listing)` |
| Jobs.JobManager.StartJob | job_manager.py:55-80 | a present name gets only the "already running" warning; a failed import or spawn leaves the registry unchanged and sends one error message; success inserts exactly that name with a fresh event that is not set, and announces it; all other entries are kept |
| Jobs.JobManager.StopJob | job_manager.py:82-90 | an absent name changes nothing and sends nothing; a present one has its event set, exactly its key deleted and one Stopped message sent; no other event changes |
| Jobs.JobManager.StopNext | job_manager.py:93-94 | one turn of the loop stops the next key of the snapshot and keeps the loop's progress predicate |
| Jobs.JobManager.StopAll | job_manager.py:92-94 | the registry ends empty, every previously tracked event is set, and one Stopped message is sent per previous key in key order |
| Jobs.JobManager.HandleTask | job_manager.py:96-120 | a SAY payload is passed to `chat` and echoed as `str(payload)`, which `Wire.Text` gives; a non-string start name that can be hashed is reported with the import error `Jobs.NotAModuleName` gives; it raises exactly on a bad task and then changes nothing; otherwise it performs the routed command's effect; an unrecognised task changes nothing and sends nothing; STOP ALL and EXIT set every tracked event, and every other task leaves all tracked events as they were; a job it starts has an event that is not set |
| Jobs.DuplicateStart | job_manager.py:55-58 | starting the same script twice leaves one entry and answers the second start with the "already running" warning |
| Relay.Parse | relay_server.py:58-63 | a frame is malformed exactly when it is not JSON, and carries type and payload exactly when it decodes to a dict |
| Relay.Step | relay_server.py:32-73 | each callback sends at most one frame, and none only when a client other than the host leaves; the host changes only when the host leaves or a handshake arrives; only a join adds a client |
| Relay.JoinGreets | relay_server.py:32-41 | a new client is appended, the host is kept, and exactly one STATUS frame goes to that client only: "connected" iff a host is present |
| Relay.LeaveEffects | relay_server.py:43-54 | a listed client is removed once and an unlisted one changes nothing; only the host leaving clears the host, with exactly one "disconnected" broadcast |
| Relay.ReceiveEffects | relay_server.py:56-73 | every frame is broadcast verbatim exactly once, `clients` never changes, and the host changes only on a handshake, to the sender |
| Relay.HandshakeIdempotent | relay_server.py:63-65 | repeating the handshake from the same client leaves the state as one handshake left it |
| Relay.OnlyTheHandshakeIdentifies | relay_server.py:63 | a frame is a handshake exactly when it decodes to a dict whose type is "STATUS" and whose payload is "connected" |
| Relay.EnvelopeHandshake | relay_server.py:63 | the STATUS/connected envelope is a handshake, and STATUS/disconnected is not |
| Relay.StepKeepsInvariant | relay_server.py:34-65 | each callback keeps the host among the clients, given frames only from connected clients |
| Relay.RunKeepsInvariant | relay_server.py:32-73 | any sequence of callbacks keeps the host among the clients, given frames only from connected clients |
| Relay.HostIsLastHandshake | relay_server.py:43-68 | from a fresh relay, a client is the host exactly when its handshake is the latest one and it has not left since |
| Relay.RelayServer.constructor | relay_server.py:28-29 | no clients, no host, nothing sent, and the invariant holds |
| Relay.RelayServer.NewClient | relay_server.py:32-41 | `new_client` performs `Step` on a join and keeps the invariant |
| Relay.RelayServer.ClientLeft | relay_server.py:43-54 | `client_left` performs `Step` on a leave and keeps the invariant |
| Relay.RelayServer.MessageReceived | relay_server.py:56-73 | `message_received` performs `Step` on a frame, never touches `clients`, and keeps the invariant when the sender is connected |
| Dash.PresentAppend | dashboard.py:177-178 | the truthy slots of consecutive parts of the inventory follow each other |
| Dash.PresentMembers | dashboard.py:178 | a stack is reported exactly when some slot holds it |
| Dash.EntriesSlotBySlot | dashboard.py:176-180 | the payload is one entry per filled slot, in inventory order, and nothing for an empty slot |
| Dash.EntryShape | dashboard.py:179-180 | each entry has exactly the keys name and count; the count defaults to 1 and the name to "air" |
| Dash.WireNameStripsNamespace | dashboard.py:179 | for a path with no "minecraft:" of its own, "minecraft:" + path becomes path, and the path alone is kept |
| Dash.InventoryData | dashboard.py:176-180 | the loop builds exactly `Entries(inv)` |
| Dash.OwnEnvelopesIgnored | dashboard.py:128 | the dashboard's own STATUS, UI_CONFIG, LOG_MSG, CHAT_MSG and INVENTORY envelopes, echoed back by a relay, are routed nowhere |
| Dash.GreetingIdentifiesHost | dashboard.py:148 | the greeting sent on `on_open` is the handshake by which the relay identifies its host |
| Dash.Dashboard.constructor | dashboard.py:30-45 | not running, no connection, an empty job registry |
| Dash.Dashboard.SendToUi | dashboard.py:91-100 | sends `Deliveries` of the message and changes nothing else |
| Dash.Dashboard.NewClient | dashboard.py:122-124 | the new client gets STATUS "connected" and then the UI configuration, in that order |
| Dash.Dashboard.OnOpen | dashboard.py:147-149 | the relay gets STATUS "connected" and then the UI configuration, in that order |
| Dash.Dashboard.OnFrame | dashboard.py:126-129 | a frame that is not JSON changes nothing; any other goes through `handle_task`, whose messages leave through `send_to_ui`; STOP ALL and EXIT set every tracked stop event, and every other frame, raising ones included, leaves them as they were; nothing stops either way |
| Dash.Dashboard.Stop | dashboard.py:184-186 | not running, the job registry empty, every tracked event set, and one Stopped message delivered per job; the connection flags, the chat record and the exit flag are unchanged |
| Dash.Dashboard.ScanInventory | dashboard.py:173-182 | one INVENTORY envelope with the entries when the inventory could be read, and nothing when it raised |
| Dash.Dashboard.DefaultHtml | dashboard.py:618 | no "__PORT__" placeholder is left in the page |
| Dash.Dashboard.DefaultHtmlPlaceholders | dashboard.py:618 | a placeholder at the start of the page becomes `str(port)` (`IntToText`, with a minus sign for a negative port) and the scan goes on after it; a page without a placeholder is kept |
| Dash.DeliveryShape | dashboard.py:91-100 | `send_to_ui` sends at most one frame, exactly when the mode's connection is up; it goes to the relay in external mode and to every browser otherwise, and is the envelope of the message |
| Dash.DeliveriesAllAppend | dashboard.py:91-100 | delivering a batch of messages is delivering each in turn |
| Dash.DeliveriesAllCount | dashboard.py:91-100 | with the connection up one frame leaves per message, and none otherwise |

## Left out

- Threads and timing are not modelled: job threads, `Event.wait`, `join(timeout=1.0)`, `threading.Timer` and the `time.time()`/`sleep` cadence of `_main_loop`. A stop event is a flag, and each callback runs atomically.
- Dynamic imports are not modelled: `importlib.import_module`/`reload`, the `sys.path` edits and `module.run`. Each start of a string name receives its outcome as a `Launch` value. A hashable non-string name (None, a bool or an int) always fails with the error `importlib` gives it; a list or dict name raises before any import.
- The file system is not modelled: `os.listdir`, `os.makedirs`, the `os.path` checks and `_ensure_ui_files`. The scripts folder is a list of names, and a missing folder lists nothing.
- Console output is left out: `minescript.echo` and `print` only log. `minescript.chat` is recorded as a call, and `player_inventory` is a parameter.
- The WebSocket and HTTP libraries are left out: `WebsocketServer`, `WebSocketApp`, `SimpleHTTPRequestHandler`, `TCPServer`, `run_http`, `run_websocket` and the dashboard's server and client threads. Sends are outbox entries. Whether the dashboard's server exists or its relay socket is connected is a field those threads would set.
- JSON encoding and decoding are abstracted. Frames arrive decoded, and the dashboard's outbox holds JSON values. Only the relay's two STATUS frames are written out as the text `json.dumps` gives.
- Floating-point JSON numbers are not modelled.
- Relay client ids stand for the server's client dicts, compared by id.
- Wire.Repr: does not model Python's choice of quote or any escape inside strings (quotes, backslashes, control and non-printable characters). A string inside a list or dict is always printed between single quotes, as it is.
- Builtins.Capitalize: maps ASCII letters only, where Python maps all of Unicode.
- The relay's `re.sub` port patch of the served page is left out, because it depends on Python regular-expression semantics.
- The dashboard page's HTML, CSS and JavaScript are left out. `DefaultHtml` takes the page template as a parameter.
- `Dashboard.start`, `_check_deps`, `_main_loop`, the `MockMine` fallback and `webbrowser` are left out. They are startup and timing code.
- Dash.Dashboard.OnFrame: the manager's `send_to_ui` calls are delivered after `handle_task` returns rather than as they happen. Nothing else writes to the outbox in between, so the order is the same.
- Jobs.JobManager.HandleTask: does not model an exception raised inside `minescript.chat`, a foreign call.
- `exited` only records that `os._exit(0)` was called. The model does not stop the process there, so no method requires `!exited`.
- setup.py and example_script.py are not part of this model. One installs packages; the other is a job body made of host calls and timed waits.
