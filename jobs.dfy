/** The job registry and command dispatcher of job_manager.py.

    A `JobManager` keeps `active_jobs`, a Python dict from script name to its
    running entry; `names` holds the dict's keys in insertion order (the order
    `", ".join(keys)` and `stop_all_jobs` see) and `jobs` the entries. Importing
    a job's module and starting its thread are outside the model: each start is
    told by a `Launch` value whether they succeeded. Calls of the `send_to_ui`
    callback are recorded in `sent`, calls of `minescript.chat` in `chats`, and
    `os._exit(0)` sets `exited`. */
module Jobs {
  import opened Builtins
  import opened Wire

  /** `threading.Event` reduced to its flag. Waiting on it is the job body's business. */
  class StopEvent {
    var isSet: bool

    constructor ()
      ensures !isSet
    {
      isSet := false;
    }

    /** `Event.set()`. */
    method Set()
      modifies this
      ensures isSet
    {
      isSet := true;
    }
  }

  /** What resolving the job's module and starting its thread came to. */
  datatype Launch = Launched(thread: nat) | LaunchFailed(error: string)

  /** An `active_jobs` entry, `{"thread": t, "event": stop_event}`. */
  datatype Job = Job(thread: nat, event: StopEvent)

  /** One call `send_to_ui(kind, payload)`. */
  datatype UiMessage = UiMessage(kind: string, payload: Json)

  function Log(text: string): UiMessage {
    UiMessage("LOG_MSG", Str(text))
  }

  function AlreadyRunning(name: string): string {
    "\U{26A0}\U{FE0F} " + name + " is already running."
  }

  function StartedText(name: string): string {
    "\U{1F680} Started " + name
  }

  function StartFailed(name: string, error: string): string {
    "\U{274C} Error starting " + name + ": " + error
  }

  function StoppedText(name: string): string {
    "\U{23F9}\U{FE0F} Stopped " + name
  }

  /** One "Stopped" log line per name, in the given order. */
  function StoppedLog(names: seq<string>): (log: seq<UiMessage>)
    ensures |log| == |names|
    ensures forall i :: 0 <= i < |names| ==> log[i] == Log(StoppedText(names[i]))
  {
    if names == [] then [] else [Log(StoppedText(names[0]))] + StoppedLog(names[1..])
  }

  lemma {:induction false} StoppedLogAppend(names: seq<string>, name: string)
    ensures StoppedLog(names + [name]) == StoppedLog(names) + [Log(StoppedText(name))]
  {
    assert StoppedLog(names + [name])[|names|] == Log(StoppedText((names + [name])[|names|]));
  }

  const NoStartsWith: string := "' object has no attribute 'startswith'"

  /** The error `importlib.import_module` raises for a name that can be looked up
      in a dict but is not a string (None, a bool or an int): its first step,
      `name.startswith('.')`, fails with a message that quotes the value's type. */
  function NotAModuleName(v: Json): string
    requires Hashable(v) && !v.Str?
  {
    "'" + TypeName(v) + NoStartsWith
  }

  /** The error tells the kinds of name apart: two names get the same message
      exactly when they are of the same Python type. */
  lemma NotAModuleNameTellsTypes(a: Json, b: Json)
    requires Hashable(a) && !a.Str? && Hashable(b) && !b.Str?
    ensures NotAModuleName(a) == NotAModuleName(b) <==> TypeName(a) == TypeName(b)
    ensures NotAModuleName(a) == NotAModuleName(b) <==>
      (a.Null? && b.Null?) || (a.Bool? && b.Bool?) || (a.Int? && b.Int?)
  {
    if TypeName(a) != TypeName(b) {
      assert |NotAModuleName(a)| != |NotAModuleName(b)|;
    }
  }

  /** `"Active Jobs: " + (", ".join(keys) or "None")`. */
  function StatusReport(names: seq<string>): string {
    var joined := Join(", ", names);
    "Active Jobs: " + if joined == "" then "None" else joined
  }

  /** The status report reads "None" for an empty registry, and otherwise only
      when the single job is itself named "" or "None". */
  lemma {:induction false} StatusReportNone(names: seq<string>)
    ensures StatusReport(names) == "Active Jobs: None" <==> names == [] || names == [""] || names == ["None"]
  {
    JoinEmptyIff(", ", names);
    var joined := Join(", ", names);
    var prefix := "Active Jobs: ";
    if |names| > 1 {
      var head := names[0];
      assert joined == head + ", " + Join(", ", names[1..]);
      assert joined[|head|] == ',';
      assert joined != "None";
      assert StatusReport(names) == prefix + joined;
      assert (prefix + joined)[|prefix|..] == joined;
      assert (prefix + "None")[|prefix|..] == "None";
    } else if |names| == 1 {
      assert joined == names[0];
      var tail := if joined == "" then "None" else joined;
      assert StatusReport(names) == prefix + tail;
      assert (prefix + tail)[|prefix|..] == tail;
      assert (prefix + "None")[|prefix|..] == "None";
    }
  }

  // ---------------------------------------------------------------- UI configuration

  /** A button of the UI configuration; `kind` and `payload` are what the button sends back. */
  datatype Button = Button(caption: string, kind: string, payload: Json, style: string)

  datatype Group = Group(title: string, buttons: seq<Button>)

  /** A listed file is a job when it ends in ".py" and does not start with "__". */
  predicate IsJobFile(file: string) {
    EndsWith(file, ".py") && !StartsWith(file, "__")
  }

  /** `filename[:-3]`: the job's name; putting ".py" back gives the file. */
  function JobName(file: string): (name: string)
    requires EndsWith(file, ".py")
    ensures name + ".py" == file
  {
    file[..|file| - 3]
  }

  /** The names of the job files of a directory listing, in listing order. */
  function JobNames(listing: seq<string>): seq<string> {
    if listing == [] then []
    else (if IsJobFile(listing[0]) then [JobName(listing[0])] else []) + JobNames(listing[1..])
  }

  /** Listing order is kept: the names of a concatenation are the names of its parts. */
  lemma {:induction false} JobNamesAppend(a: seq<string>, b: seq<string>)
    ensures JobNames(a + b) == JobNames(a) + JobNames(b)
  {
    if a != [] {
      var head := if IsJobFile(a[0]) then [JobName(a[0])] else [];
      assert (a + b)[0] == a[0];
      assert (a + b)[1..] == a[1..] + b;
      assert JobNames(a + b) == head + JobNames(a[1..] + b);
      assert JobNames(a) == head + JobNames(a[1..]);
      JobNamesAppend(a[1..], b);
    } else {
      assert a + b == b;
    }
  }

  /** A name is offered exactly when some listed job file carries it. */
  lemma {:induction false} JobNamesMembers(listing: seq<string>, name: string)
    ensures name in JobNames(listing) <==> exists f :: f in listing && IsJobFile(f) && JobName(f) == name
  {
    if listing != [] {
      JobNamesMembers(listing[1..], name);
      if name in JobNames(listing[1..]) {
        var f :| f in listing[1..] && IsJobFile(f) && JobName(f) == name;
        assert f in listing;
      }
      forall f | f in listing && IsJobFile(f) && JobName(f) == name
        ensures name in JobNames(listing)
      {
        if f != listing[0] {
          assert f in listing[1..];
        }
      }
    }
  }

  function StartButton(name: string): Button {
    Button("\U{25B6} " + Capitalize(name), "JOB",
           Obj([("script", Str(name)), ("action", Str("start"))]), "btn-success")
  }

  function StartButtons(names: seq<string>): (buttons: seq<Button>)
    ensures |buttons| == |names|
    ensures forall i :: 0 <= i < |names| ==> buttons[i] == StartButton(names[i])
  {
    if names == [] then [] else [StartButton(names[0])] + StartButtons(names[1..])
  }

  const ScriptsTitle: string := "\U{1F4C2} Scripts"

  const StopAllButton: Button :=
    Button("\U{1F6D1} STOP ALL", "JOB", Obj([("action", Str("stop_all"))]), "btn-warning")

  const ReloadButton: Button :=
    Button("\U{267B}\U{FE0F} RELOAD UI", "CMD", Str("reload_ui"), "")

  const ControlsGroup: Group := Group("\U{1F6D1} Controls", [StopAllButton, ReloadButton])

  /** The configuration `get_ui_config` returns for a directory listing: one start
      button per job file, then the fixed controls. */
  function UiConfig(listing: seq<string>): seq<Group> {
    [Group(ScriptsTitle, StartButtons(JobNames(listing))), ControlsGroup]
  }

  /** Always two groups: one start button per job file in listing order, labelled
      with the capitalised name and carrying that name as its script, then the
      fixed controls. */
  lemma UiConfigShape(listing: seq<string>)
    ensures |UiConfig(listing)| == 2 && UiConfig(listing)[1] == ControlsGroup
    ensures var names := JobNames(listing);
      var buttons := UiConfig(listing)[0].buttons;
      && |buttons| == |names|
      && forall i :: 0 <= i < |names| ==>
           && buttons[i].caption == "\U{25B6} " + Capitalize(names[i])
           && buttons[i].kind == "JOB"
           && Get(buttons[i].payload.fields, "script") == Str(names[i])
           && Get(buttons[i].payload.fields, "action") == Str("start")
  {
    var names := JobNames(listing);
    forall i | 0 <= i < |names|
      ensures var b := UiConfig(listing)[0].buttons[i];
        Get(b.payload.fields, "script") == Str(names[i]) && Get(b.payload.fields, "action") == Str("start")
    {
      StartButtonPayload(names[i]);
    }
  }

  lemma StartButtonPayload(name: string)
    ensures Get(StartButton(name).payload.fields, "script") == Str(name)
    ensures Get(StartButton(name).payload.fields, "action") == Str("start")
  {
    var fields := StartButton(name).payload.fields;
    assert fields[..1] == [("script", Str(name))];
  }

  function ButtonJson(b: Button): Json {
    Obj([("label", Str(b.caption)), ("type", Str(b.kind)), ("payload", b.payload), ("style", Str(b.style))])
  }

  function GroupJson(g: Group): Json {
    Obj([("group", Str(g.title)),
         ("buttons", Arr(seq(|g.buttons|, i requires 0 <= i < |g.buttons| => ButtonJson(g.buttons[i]))))])
  }

  /** The UI_CONFIG payload as it goes on the wire. */
  function ConfigJson(groups: seq<Group>): Json {
    Arr(seq(|groups|, i requires 0 <= i < |groups| => GroupJson(groups[i])))
  }

  // ---------------------------------------------------------------- dispatch

  /** Where `handle_task` sends a decoded task. `Raises` is a task on which one of
      its `.get` calls fails (the task or the JOB payload is not a dict). */
  datatype Command =
    | StartJob(script: Json)
    | StopAll
    | ReloadUi
    | ReportStatus
    | Say(text: Json)
    | Exit
    | Ignore
    | Raises

  /** The routing table of `handle_task`, closed over the `type` tag. */
  function Route(task: Json): (cmd: Command)
    ensures !cmd.Ignore? && !cmd.Raises? ==>
      task.Obj? && Get(task.fields, "type") in {Str("JOB"), Str("CMD"), Str("SAY"), Str("EXIT")}
    ensures cmd.Raises? <==>
      !task.Obj? || (Get(task.fields, "type") == Str("JOB") && !Get(task.fields, "payload").Obj?)
  {
    if !task.Obj? then Raises
    else
      var kind := Get(task.fields, "type");
      var payload := Get(task.fields, "payload");
      if kind == Str("JOB") then
        if !payload.Obj? then Raises
        else
          var action := Get(payload.fields, "action");
          if action == Str("start") then StartJob(Get(payload.fields, "script"))
          else if action == Str("stop_all") then StopAll
          else Ignore
      else if kind == Str("CMD") then
        if payload == Str("reload_ui") then ReloadUi
        else if payload == Str("status") then ReportStatus
        else Ignore
      else if kind == Str("SAY") then Say(payload)
      else if kind == Str("EXIT") then Exit
      else Ignore
  }

  /** `handle_task` raises (before changing anything) when routing fails or the
      script name of a start cannot be looked up in a dict. */
  predicate TaskRaises(task: Json)
    ensures TaskRaises(task) <==>
      || !task.Obj?
      || (var payload := Get(task.fields, "payload");
          && Get(task.fields, "type") == Str("JOB")
          && (!payload.Obj?
              || (Get(payload.fields, "action") == Str("start") && !Hashable(Get(payload.fields, "script")))))
  {
    Route(task).Raises? || (Route(task).StartJob? && !Hashable(Route(task).script))
  }

  /** Every button of the configuration, sent back as `{"type": kind, "payload": payload}`,
      is routed to the action it is labelled with. */
  lemma ButtonsRouteToTheirActions(listing: seq<string>)
    ensures forall i :: 0 <= i < |JobNames(listing)| ==>
      var b := UiConfig(listing)[0].buttons[i];
      Route(Envelope(b.kind, b.payload)) == StartJob(Str(JobNames(listing)[i]))
    ensures Route(Envelope(StopAllButton.kind, StopAllButton.payload)) == StopAll
    ensures Route(Envelope(ReloadButton.kind, ReloadButton.payload)) == ReloadUi
  {
    var names := JobNames(listing);
    forall i | 0 <= i < |names|
      ensures var b := UiConfig(listing)[0].buttons[i];
              Route(Envelope(b.kind, b.payload)) == StartJob(Str(names[i]))
    {
      var b := StartButton(names[i]);
      assert UiConfig(listing)[0].buttons[i] == b;
      var fields := b.payload.fields;
      assert Get(fields, "action") == Str("start");
      assert Get(fields, "script") == Str(names[i]);
    }
    assert Get(StopAllButton.payload.fields, "action") == Str("stop_all");
  }

  // ---------------------------------------------------------------- the registry

  class JobManager {
    /** The keys of `active_jobs`, in insertion order. */
    var names: seq<string>
    /** `active_jobs` itself. */
    var jobs: map<string, Job>
    /** Every `send_to_ui` call so far, oldest first. */
    var sent: seq<UiMessage>
    /** Every `minescript.chat` call so far. */
    var chats: seq<string>
    /** `os._exit(0)` was called. */
    var exited: bool

    /** At most one entry per name; each entry has its own stop event. */
    ghost predicate Valid()
      reads this
    {
      && NoDup(names)
      && (forall n :: n in jobs <==> n in names)
      && (forall a, b :: a in jobs && b in jobs && a != b ==> jobs[a].event != jobs[b].event)
    }

    ghost function Events(): set<StopEvent>
      reads this
    {
      set n | n in jobs :: jobs[n].event
    }

    constructor ()
      ensures Valid()
      ensures names == [] && jobs == map[] && sent == [] && chats == [] && !exited
    {
      names, jobs, sent, chats, exited := [], map[], [], [], false;
    }

    /** `get_ui_config` over the directory listing (a missing directory lists nothing). */
    method GetUiConfig(listing: seq<string>) returns (groups: seq<Group>)
      ensures groups == UiConfig(listing)
    {
      var buttons: seq<Button> := [];
      for i := 0 to |listing|
        invariant buttons == StartButtons(JobNames(listing[..i]))
      {
        var file := listing[i];
        if EndsWith(file, ".py") && !StartsWith(file, "__") {
          buttons := buttons + [StartButton(file[..|file| - 3])];
        }
        JobNamesAppend(listing[..i], [file]);
        assert listing[..i + 1] == listing[..i] + [file];
      }
      assert listing[..|listing|] == listing;
      groups := [Group(ScriptsTitle, buttons), ControlsGroup];
    }

    /** The effect of `start_job(name)`. */
    twostate predicate StartOutcome(name: string, launch: Launch)
      reads this, Events()
    {
      && chats == old(chats) && exited == old(exited)
      && (name in old(jobs) ==>
            names == old(names) && jobs == old(jobs)
            && sent == old(sent) + [Log(AlreadyRunning(name))])
      && (name !in old(jobs) && launch.LaunchFailed? ==>
            names == old(names) && jobs == old(jobs)
            && sent == old(sent) + [Log(StartFailed(name, launch.error))])
      && (name !in old(jobs) && launch.Launched? ==>
            && names == old(names) + [name]
            && name in jobs && jobs == old(jobs)[name := jobs[name]]
            && jobs[name].thread == launch.thread
            && fresh(jobs[name].event) && !jobs[name].event.isSet
            && sent == old(sent) + [Log(StartedText(name))])
    }

    /** `start_job(name)`: a name already present only gets a warning; otherwise the
        entry is inserted after every fallible step has succeeded. */
    method StartJob(name: string, launch: Launch)
      requires Valid()
      modifies this
      ensures Valid()
      ensures StartOutcome(name, launch)
    {
      if name in jobs {
        sent := sent + [Log(AlreadyRunning(name))];
        return;
      }
      match launch
      case LaunchFailed(error) =>
        sent := sent + [Log(StartFailed(name, error))];
      case Launched(thread) =>
        var event := new StopEvent();
        jobs := jobs[name := Job(thread, event)];
        names := names + [name];
        sent := sent + [Log(StartedText(name))];
    }

    /** `stop_job(name)`: sets that entry's event, waits (not modelled), deletes
        only that key and reports it; an absent name is a silent no-op. */
    method StopJob(name: string)
      requires Valid()
      modifies this, if name in jobs then {jobs[name].event} else {}
      ensures Valid()
      ensures chats == old(chats) && exited == old(exited)
      ensures name !in old(jobs) ==> names == old(names) && jobs == old(jobs) && sent == old(sent)
      ensures name in old(jobs) ==>
        && old(jobs)[name].event.isSet
        && jobs == old(jobs) - {name}
        && names == RemoveFirst(old(names), name)
        && sent == old(sent) + [Log(StoppedText(name))]
      ensures forall n :: n in jobs ==> jobs[n].event.isSet == old(jobs[n].event.isSet)
    {
      if name !in jobs {
        return;
      }
      var job := jobs[name];
      job.event.Set();
      RemoveFirstDistinct(names, name);
      jobs := jobs - {name};
      names := RemoveFirst(names, name);
      sent := sent + [Log(StoppedText(name))];
    }

    /** The effect of `stop_all_jobs()` on the registry and the messages; every
        event that was tracked is set as well (stated where it is used). */
    twostate predicate StopAllOutcome()
      reads this
    {
      && names == [] && jobs == map[]
      && sent == old(sent) + StoppedLog(old(names))
      && chats == old(chats)
    }

    /** Where `stop_all_jobs` stands after stopping the first `i` keys of `snapshot`,
        having started from the entries `entries` and the message log `log0`: those
        keys' events are set and reported, the other keys are still registered. */
    ghost predicate StoppedPrefix(entries: map<string, Job>, log0: seq<UiMessage>, snapshot: seq<string>, i: nat)
      reads this, set n | n in entries :: entries[n].event
    {
      && Valid()
      && i <= |snapshot|
      && names == snapshot[i..]
      && (forall k :: i <= k < |snapshot| ==> snapshot[k] in jobs && snapshot[k] in entries && jobs[snapshot[k]] == entries[snapshot[k]])
      && (forall k :: 0 <= k < i ==> snapshot[k] in entries && entries[snapshot[k]].event.isSet)
      && sent == log0 + StoppedLog(snapshot[..i])
    }

    /** One turn of the `stop_all_jobs` loop: `stop_job` on the next key of the
        snapshot, which is the oldest key still registered. */
    method StopNext(ghost entries: map<string, Job>, ghost log0: seq<UiMessage>, snapshot: seq<string>, i: nat)
      requires StoppedPrefix(entries, log0, snapshot, i) && i < |snapshot|
      requires NoDup(snapshot)
      requires forall a, b :: a in entries && b in entries && a != b ==> entries[a].event != entries[b].event
      modifies this, entries[snapshot[i]].event
      ensures StoppedPrefix(entries, log0, snapshot, i + 1)
      ensures chats == old(chats) && exited == old(exited)
    {
      var name := snapshot[i];
      assert names == [name] + names[1..];
      assert names[1..] == snapshot[i + 1..];
      StopJob(name);
      forall k | 0 <= k < i ensures entries[snapshot[k]].event.isSet {
        assert snapshot[k] != name;
      }
      assert snapshot[..i + 1] == snapshot[..i] + [name];
      StoppedLogAppend(snapshot[..i], name);
    }

    /** `stop_all_jobs()`: stops every job of a snapshot of the keys, in key order. */
    method StopAll()
      requires Valid()
      modifies this, Events()
      ensures Valid()
      ensures StopAllOutcome() && exited == old(exited)
      ensures forall n :: n in old(jobs) ==> old(jobs)[n].event.isSet
    {
      var snapshot := names;
      ghost var entries := jobs;
      ghost var log0 := sent;
      var i := 0;
      while i < |snapshot|
        invariant StoppedPrefix(entries, log0, snapshot, i)
        invariant chats == old(chats) && exited == old(exited)
      {
        assert entries[snapshot[i]].event in old(Events());
        StopNext(entries, log0, snapshot, i);
        i := i + 1;
      }
      assert snapshot[..i] == snapshot;
      forall n | n in old(jobs) ensures old(jobs)[n].event.isSet {
        var k :| 0 <= k < |snapshot| && snapshot[k] == n;
      }
    }

    /** The effect of `handle_task(task)`, command by command. */
    twostate predicate Handled(task: Json, listing: seq<string>, launch: Launch)
      reads this, Events()
    {
      var cmd := Route(task);
      && (TaskRaises(task) || cmd.Ignore? ==>
            && names == old(names) && jobs == old(jobs) && sent == old(sent)
            && chats == old(chats) && exited == old(exited))
      && (cmd.StartJob? && cmd.script.Str? ==> StartOutcome(cmd.script.s, launch))
      && (cmd.StartJob? && Hashable(cmd.script) && !cmd.script.Str? ==>
            && names == old(names) && jobs == old(jobs) && chats == old(chats) && exited == old(exited)
            && sent == old(sent) + [Log(StartFailed(Text(cmd.script), NotAModuleName(cmd.script)))])
      && (cmd.StopAll? ==> StopAllOutcome() && exited == old(exited))
      && (cmd.ReloadUi? ==>
            && names == old(names) && jobs == old(jobs) && chats == old(chats) && exited == old(exited)
            && sent == old(sent) + [UiMessage("UI_CONFIG", ConfigJson(UiConfig(listing)))])
      && (cmd.ReportStatus? ==>
            && names == old(names) && jobs == old(jobs) && chats == old(chats) && exited == old(exited)
            && sent == old(sent) + [Log(StatusReport(old(names)))])
      && (cmd.Say? ==>
            && names == old(names) && jobs == old(jobs) && exited == old(exited)
            && chats == old(chats) + [Text(cmd.text)]
            && sent == old(sent) + [UiMessage("CHAT_MSG", Str("[Me] " + Text(cmd.text)))])
      && (cmd.Exit? ==> StopAllOutcome() && exited)
    }

    /** `handle_task(task)`. `raised` reports the exception that leaves it; nothing
        has changed by then. */
    method HandleTask(task: Json, listing: seq<string>, launch: Launch) returns (raised: bool)
      requires Valid()
      modifies this, Events()
      ensures Valid()
      ensures raised == TaskRaises(task)
      ensures Handled(task, listing, launch)
      ensures !(Route(task).StopAll? || Route(task).Exit?) ==> unchanged(old(Events()))
      ensures Route(task).StopAll? || Route(task).Exit? ==>
        forall n :: n in old(jobs) ==> old(jobs)[n].event.isSet
    {
      raised := TaskRaises(task);
      if raised {
        return;
      }
      match Route(task)
      case StartJob(script) =>
        if script.Str? {
          StartJob(script.s, launch);
        } else {
          sent := sent + [Log(StartFailed(Text(script), NotAModuleName(script)))];
        }
      case StopAll =>
        StopAll();
      case ReloadUi =>
        var config := GetUiConfig(listing);
        sent := sent + [UiMessage("UI_CONFIG", ConfigJson(config))];
      case ReportStatus =>
        sent := sent + [Log(StatusReport(names))];
      case Say(text) =>
        chats := chats + [Text(text)];
        sent := sent + [UiMessage("CHAT_MSG", Str("[Me] " + Text(text)))];
      case Exit =>
        StopAll();
        exited := true;
      case Ignore =>
    }
  }

  /** Starting the same job twice without a stop in between leaves one entry and
      answers the second start with the "already running" warning. */
  method DuplicateStart() returns (count: nat, reply: UiMessage)
    ensures count == 1
    ensures reply == Log(AlreadyRunning("mine"))
  {
    var manager := new JobManager();
    var task := Envelope("JOB", Obj([("action", Str("start")), ("script", Str("mine"))]));
    assert Get(task.fields, "payload").fields == [("action", Str("start")), ("script", Str("mine"))];
    assert Route(task) == StartJob(Str("mine"));
    var raised := manager.HandleTask(task, ["mine.py"], Launched(1));
    raised := manager.HandleTask(task, ["mine.py"], Launched(2));
    count := |manager.names|;
    reply := manager.sent[|manager.sent| - 1];
  }
}
