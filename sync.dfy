/** The content script's synchronisation engine: listeners on the page's video
    that report local play, pause and seek events to the extension, and a
    handler for commands arriving from the extension that applies them to the
    video while the `ignoreNextEvent` flag suppresses the echo.

    Timers and the promise returned by `play()` are explicit inputs
    (`TimerFired`, `PlayResolved`, `PlayRejected`), so the engine is a
    sequential state machine: `Step` and `Run` are its pure description, and
    the class `Engine` updates the same state field by field and is proved to
    agree with `Step`. */
module Sync {
  import opened Lists

  /** An event the video element dispatches. */
  datatype MediaEvent = PlayEvent | PauseEvent | SeekedEvent

  /** The `type` a listener posts for its event; `seeked` is reported as `seek`. */
  function ReportKind(e: MediaEvent): string {
    match e
    case PlayEvent => "play"
    case PauseEvent => "pause"
    case SeekedEvent => "seek"
  }

  /** Identity of a connection port to the extension's background page. */
  type Port = nat

  /** One listener closure: a fresh identity, the port it posts to, and the
      event type it is registered for. */
  datatype Listener = Listener(id: nat, port: Port, event: MediaEvent)

  /** One slot of `eventListeners`: `null` or a listener. */
  datatype Slot = Null | Holds(listener: Listener)

  /** `{type, time}` as posted to the port. */
  datatype Report = Report(kind: string, time: real)
  datatype Post = Post(port: Port, report: Report)

  datatype Option<T> = None | Some(value: T)

  /** A command from the background page, `{type, time}`. `time` is the
      number the video's `currentTime` setter receives: `Some(t)` when the
      message's `time` converts to the finite number `t`, and `None` when it
      is missing or converts to NaN or an infinity, so that the setter throws.
      `exit` and `error` read no time. */
  datatype Command = Command(kind: string, time: Option<real>)

  /** The part of the video element the engine reads and writes. */
  datatype Video = Video(currentTime: real, paused: bool)

  datatype State = State(
    ignoreNextEvent: bool,
    playSlot: Slot,
    pauseSlot: Slot,
    seekedSlot: Slot,
    attached: seq<Listener>,   // the video's listener list, in registration order
    video: Video,
    pendingPlays: nat,         // play() promises not yet settled
    pendingTimers: nat,        // 100 ms flag resets scheduled and not yet fired
    posted: seq<Post>,         // every message posted to a port, in order
    nextId: nat)               // identity for the next closure created

  /** Everything that can happen to the engine, one at a time. */
  datatype Input =
    | Connected(port: Port)    // a port was opened and addEventListeners(port) ran
    | Inbound(cmd: Command)    // handleBackgroundMessage(cmd)
    | Local(e: MediaEvent)     // the video dispatched e
    | VideoChanged(v: Video)   // playback or the user moved the video without the script
    | PlayResolved             // the oldest pending play() promise resolved
    | PlayRejected             // the oldest pending play() promise rejected
    | TimerFired               // one scheduled timer ran

  function Initial(time: real, paused: bool): State {
    State(false, Null, Null, Null, [], Video(time, paused), 0, 0, [], 0)
  }

  // ---------------------------------------------------------------------
  // The video's listener list

  /** `addEventListener`: the listener is registered afterwards, nothing
      else is, the list grows by at most one (the earlier registrations keep
      their order, `RegisterKeepsOrder`), and a listener already registered is
      not added twice. */
  function Register(ls: seq<Listener>, l: Listener): (r: seq<Listener>)
    ensures forall x {:trigger x in r} :: x in r <==> x in ls || x == l
    ensures |r| <= |ls| + 1
    ensures l in ls ==> r == ls
  {
    if l in ls then ls else ls + [l]
  }

  /** `removeEventListener` for one listener, keeping the others in order. */
  function Without(ls: seq<Listener>, l: Listener): (r: seq<Listener>)
    ensures forall x {:trigger x in r} :: x in r <==> x in ls && x != l
    ensures l !in ls ==> r == ls
    ensures |r| <= |ls|
  {
    if ls == [] then []
    else if ls[|ls| - 1] == l then Without(ls[..|ls| - 1], l)
    else Without(ls[..|ls| - 1], l) + [ls[|ls| - 1]]
  }

  /** Registering leaves the earlier registrations in place and in order. */
  lemma RegisterKeepsOrder(ls: seq<Listener>, l: Listener)
    ensures |ls| <= |Register(ls, l)| && Register(ls, l)[..|ls|] == ls
  {
    assert (ls + [l])[..|ls|] == ls;
  }

  /** Registering keeps a list without duplicates without duplicates. */
  lemma RegisterNoDup(ls: seq<Listener>, l: Listener)
    requires NoDup(ls)
    ensures NoDup(Register(ls, l))
  {
  }

  /** Removing a listener keeps a list without duplicates without
      duplicates. */
  lemma {:induction false} WithoutNoDup(ls: seq<Listener>, l: Listener)
    requires NoDup(ls)
    ensures NoDup(Without(ls, l))
  {
    if ls != [] {
      var init, last := ls[..|ls| - 1], ls[|ls| - 1];
      assert NoDup(init) && last !in init;
      WithoutNoDup(init, l);
      assert last !in Without(init, l);
    }
  }

  /** Removing from a list with one more listener at its end. */
  lemma WithoutSnoc(ls: seq<Listener>, x: Listener, l: Listener)
    ensures Without(ls + [x], l) == if x == l then Without(ls, l) else Without(ls, l) + [x]
  {
    assert (ls + [x])[..|ls|] == ls;
  }

  /** `removeEventListener(type, slot)`: a `null` slot removes nothing. */
  function Unregister(ls: seq<Listener>, slot: Slot): (r: seq<Listener>)
    ensures forall x :: x in r <==> x in ls && Holds(x) != slot
  {
    match slot
    case Null => ls
    case Holds(l) => Without(ls, l)
  }

  /** Emptying a slot keeps a list without duplicates without duplicates. */
  lemma UnregisterNoDup(ls: seq<Listener>, slot: Slot)
    requires NoDup(ls)
    ensures NoDup(Unregister(ls, slot))
  {
    if slot.Holds? {
      WithoutNoDup(ls, slot.listener);
    }
  }

  /** The listeners the video calls, in order, when it dispatches `e`. */
  function Handlers(ls: seq<Listener>, e: MediaEvent): (r: seq<Listener>)
    ensures forall l :: l in r <==> l in ls && l.event == e
    ensures |r| <= |ls|
  {
    if ls == [] then []
    else
      Handlers(ls[..|ls| - 1], e) + if ls[|ls| - 1].event == e then [ls[|ls| - 1]] else []
  }

  /** On a list without duplicates, the video calls each listener registered
      for `e` exactly once. */
  lemma {:induction false} HandlersNoDup(ls: seq<Listener>, e: MediaEvent)
    requires NoDup(ls)
    ensures NoDup(Handlers(ls, e))
  {
    if ls != [] {
      var init, last := ls[..|ls| - 1], ls[|ls| - 1];
      assert NoDup(init) && last !in init;
      HandlersNoDup(init, e);
    }
  }

  /** The video calls each listener registered for `e` as many times as it
      is registered, and no other listener. */
  lemma {:induction false} HandlersCount(ls: seq<Listener>, e: MediaEvent)
    ensures forall l :: multiset(Handlers(ls, e))[l] == if l.event == e then multiset(ls)[l] else 0
  {
    if ls != [] {
      var init, last := ls[..|ls| - 1], ls[|ls| - 1];
      assert ls == init + [last];
      HandlersCount(init, e);
    }
  }

  /** What the listeners post when the video dispatches `e`: nothing while the
      flag is set, otherwise one `{type, time}` per listener registered for
      `e`, to that listener's port, carrying the video's current time. */
  function Dispatch(ls: seq<Listener>, e: MediaEvent, ignore: bool, time: real): seq<Post> {
    if ignore || ls == [] then []
    else
      var last := ls[|ls| - 1];
      Dispatch(ls[..|ls| - 1], e, ignore, time)
        + if last.event == e then [Post(last.port, Report(ReportKind(last.event), time))] else []
  }

  /** Each listener the video calls for `e` posts one `{type, time}` to its
      own port, unless the flag is set. */
  lemma {:induction false} DispatchPosts(ls: seq<Listener>, e: MediaEvent, ignore: bool, time: real)
    ensures ignore ==> Dispatch(ls, e, ignore, time) == []
    ensures !ignore ==> |Dispatch(ls, e, ignore, time)| == |Handlers(ls, e)|
    ensures !ignore ==> forall i :: 0 <= i < |Handlers(ls, e)| ==>
      Dispatch(ls, e, ignore, time)[i] == Post(Handlers(ls, e)[i].port, Report(ReportKind(e), time))
  {
    if !ignore && ls != [] {
      DispatchPosts(ls[..|ls| - 1], e, ignore, time);
    }
  }

  // ---------------------------------------------------------------------
  // The handlers

  /** Whether `l` sits in one of the three `eventListeners` slots. */
  predicate InSlots(s: State, l: Listener) {
    Holds(l) == s.playSlot || Holds(l) == s.pauseSlot || Holds(l) == s.seekedSlot
  }

  /** Every listener on the video was created before the next identity was
      handed out, so a closure created now is not on the video yet. This holds
      of every state a run reaches (`InitialSound`, `RunKeepsSound`). */
  ghost predicate Fresh(s: State) {
    forall l :: l in s.attached ==> l.id < s.nextId
  }

  /** The invariant of every reachable state: identities are fresh and no
      listener is on the video twice. */
  ghost predicate Sound(s: State) {
    Fresh(s) && NoDup(s.attached)
  }

  /** `addEventListeners(port)`: three fresh closures bound to `port` go into
      the slots and, after the listeners already there, onto the video's
      listener list. */
  function Attach(s: State, port: Port): (r: State)
    ensures r.playSlot == Holds(Listener(s.nextId, port, PlayEvent))
    ensures r.pauseSlot == Holds(Listener(s.nextId + 1, port, PauseEvent))
    ensures r.seekedSlot == Holds(Listener(s.nextId + 2, port, SeekedEvent))
    ensures r.ignoreNextEvent == s.ignoreNextEvent && r.video == s.video && r.posted == s.posted
    ensures r.pendingPlays == s.pendingPlays && r.pendingTimers == s.pendingTimers
  {
    var play := Listener(s.nextId, port, PlayEvent);
    var pause := Listener(s.nextId + 1, port, PauseEvent);
    var seeked := Listener(s.nextId + 2, port, SeekedEvent);
    s.(playSlot := Holds(play), pauseSlot := Holds(pause), seekedSlot := Holds(seeked),
       attached := Register(Register(Register(s.attached, play), pause), seeked),
       nextId := s.nextId + 3)
  }

  /** In a fresh state the three new closures are not on the video yet, so
      `addEventListeners` appends all three, in order, after the listeners
      already there, and the state stays fresh and without duplicates. */
  lemma AttachFresh(s: State, port: Port)
    requires Fresh(s)
    ensures Attach(s, port).attached == s.attached + [Listener(s.nextId, port, PlayEvent),
                                                      Listener(s.nextId + 1, port, PauseEvent),
                                                      Listener(s.nextId + 2, port, SeekedEvent)]
    ensures Fresh(Attach(s, port))
    ensures NoDup(s.attached) ==> NoDup(Attach(s, port).attached)
  {
  }

  /** After `addEventListeners`, the video's listeners are the old ones and
      the three new slot listeners. */
  lemma AttachRegisters(s: State, port: Port)
    ensures forall l :: l in Attach(s, port).attached <==> l in s.attached || InSlots(Attach(s, port), l)
  {
  }

  /** `removeEventListeners()`: the three slot listeners leave the video and
      every slot becomes `null`. */
  function Detach(s: State): (r: State)
    ensures r.playSlot == Null && r.pauseSlot == Null && r.seekedSlot == Null
    ensures forall l :: l in r.attached <==> l in s.attached && !InSlots(s, l)
    ensures r.ignoreNextEvent == s.ignoreNextEvent && r.video == s.video && r.posted == s.posted
    ensures r.pendingPlays == s.pendingPlays && r.pendingTimers == s.pendingTimers
  {
    s.(attached := Unregister(Unregister(Unregister(s.attached, s.playSlot), s.pauseSlot), s.seekedSlot),
       playSlot := Null, pauseSlot := Null, seekedSlot := Null)
  }

  /** Whether a command is one of the three that move the video. */
  predicate Moves(kind: string) {
    kind == "play" || kind == "pause" || kind == "seek"
  }

  /** `handleBackgroundMessage(cmd)`. For `play`, `pause` and `seek` the flag
      is set first; a time the `currentTime` setter rejects throws there, so
      the video is not moved and no reset is scheduled. */
  function Handle(s: State, cmd: Command): (r: State)
    ensures Moves(cmd.kind) ==>
      && r.ignoreNextEvent
      && r.posted == s.posted
      && r.attached == s.attached
      && r.playSlot == s.playSlot && r.pauseSlot == s.pauseSlot && r.seekedSlot == s.seekedSlot
    ensures Moves(cmd.kind) && cmd.time.None? ==> r == s.(ignoreNextEvent := true)
    ensures Moves(cmd.kind) && cmd.time.Some? ==> r.video.currentTime == cmd.time.value
    ensures cmd.kind == "play" && cmd.time.Some? ==>
      !r.video.paused && r.pendingPlays == s.pendingPlays + 1 && r.pendingTimers == s.pendingTimers
    ensures cmd.kind == "pause" && cmd.time.Some? ==> r.video.paused
    ensures cmd.kind == "seek" ==> r.video.paused == s.video.paused
    ensures (cmd.kind == "pause" || cmd.kind == "seek") && cmd.time.Some? ==>
      r.pendingPlays == s.pendingPlays && r.pendingTimers == s.pendingTimers + 1
    ensures cmd.kind == "exit" || cmd.kind == "error" ==>
      && r == Detach(s).(video := r.video)
      && r.video == s.video.(paused := true)
    ensures !Moves(cmd.kind) && cmd.kind != "exit" && cmd.kind != "error" ==> r == s
  {
    if Moves(cmd.kind) && cmd.time.None? then
      s.(ignoreNextEvent := true)
    else if cmd.kind == "play" then
      s.(ignoreNextEvent := true, video := Video(cmd.time.value, false), pendingPlays := s.pendingPlays + 1)
    else if cmd.kind == "pause" then
      s.(ignoreNextEvent := true, video := Video(cmd.time.value, true), pendingTimers := s.pendingTimers + 1)
    else if cmd.kind == "seek" then
      s.(ignoreNextEvent := true, video := s.video.(currentTime := cmd.time.value), pendingTimers := s.pendingTimers + 1)
    else if cmd.kind == "exit" || cmd.kind == "error" then
      var d := Detach(s);
      d.(video := d.video.(paused := true))
    else
      s
  }


  /** One input. A promise or timer input when none is pending cannot occur
      and leaves the state as it is. */
  function Step(s: State, input: Input): (r: State)
    ensures s.ignoreNextEvent && !r.ignoreNextEvent ==> input == TimerFired && s.pendingTimers > 0
    ensures !s.ignoreNextEvent && r.ignoreNextEvent ==> input.Inbound? && Moves(input.cmd.kind)
    ensures input.Local? ==> r == s.(posted := r.posted)
    ensures input.Local? && s.ignoreNextEvent ==> r.posted == s.posted
    ensures !input.Local? ==> r.posted == s.posted
    ensures input == TimerFired && s.pendingTimers > 0 ==> !r.ignoreNextEvent && r.pendingTimers == s.pendingTimers - 1
  {
    match input
    case Connected(port) => Attach(s, port)
    case Inbound(cmd) => Handle(s, cmd)
    case Local(e) => s.(posted := s.posted + Dispatch(s.attached, e, s.ignoreNextEvent, s.video.currentTime))
    case VideoChanged(v) => s.(video := v)
    case PlayResolved =>
      if s.pendingPlays > 0 then s.(pendingPlays := s.pendingPlays - 1, pendingTimers := s.pendingTimers + 1) else s
    case PlayRejected =>
      if s.pendingPlays > 0 then s.(pendingPlays := s.pendingPlays - 1) else s
    case TimerFired =>
      if s.pendingTimers > 0 then s.(pendingTimers := s.pendingTimers - 1, ignoreNextEvent := false) else s
  }

  function Run(s: State, inputs: seq<Input>): State
    decreases |inputs|
  {
    if inputs == [] then s else Run(Step(s, inputs[0]), inputs[1..])
  }

  // ---------------------------------------------------------------------
  // Properties of runs

  /** While the flag is set and no timer fires, whatever happens, the
      listeners post nothing and the flag stays set. */
  lemma {:induction false} SuppressedUntilTimer(s: State, inputs: seq<Input>)
    requires s.ignoreNextEvent
    requires forall i :: 0 <= i < |inputs| ==> inputs[i] != TimerFired
    ensures Run(s, inputs).ignoreNextEvent
    ensures Run(s, inputs).posted == s.posted
    decreases |inputs|
  {
    if inputs != [] {
      SuppressedUntilTimer(Step(s, inputs[0]), inputs[1..]);
    }
  }

  /** Removing three distinct listeners appended after `a`, none of them in
      `a`, in the order they were appended, leaves `a`. */
  lemma WithoutAppended(a: seq<Listener>, p: Listener, q: Listener, w: Listener)
    requires p !in a && q !in a && w !in a
    requires p != q && p != w && q != w
    ensures Without(Without(Without(a + [p, q, w], p), q), w) == a
  {
    assert a + [p, q, w] == a + [p] + [q] + [w];
    WithoutSnoc(a + [p] + [q], w, p);
    WithoutSnoc(a + [p], q, p);
    WithoutSnoc(a, p, p);
    assert Without(a + [p, q, w], p) == a + [q] + [w];
    WithoutSnoc(a + [q], w, q);
    WithoutSnoc(a, q, q);
    assert Without(a + [q] + [w], q) == a + [w];
    WithoutSnoc(a, w, w);
  }

  /** `removeEventListeners` undoes `addEventListeners`: the video is left
      with exactly the listeners it had before. */
  lemma DetachAfterAttach(s: State, port: Port)
    requires Fresh(s)
    ensures Detach(Attach(s, port)).attached == s.attached
  {
    AttachFresh(s, port);
    DetachAppended(Attach(s, port), s.attached);
  }

  /** Detaching a state whose slot listeners were appended, distinct and new,
      after `a` leaves `a`. */
  lemma DetachAppended(r: State, a: seq<Listener>)
    requires r.playSlot.Holds? && r.pauseSlot.Holds? && r.seekedSlot.Holds?
    requires r.attached == a + [r.playSlot.listener, r.pauseSlot.listener, r.seekedSlot.listener]
    requires r.playSlot.listener !in a && r.pauseSlot.listener !in a && r.seekedSlot.listener !in a
    requires r.playSlot != r.pauseSlot && r.playSlot != r.seekedSlot && r.pauseSlot != r.seekedSlot
    ensures Detach(r).attached == a
  {
    WithoutAppended(a, r.playSlot.listener, r.pauseSlot.listener, r.seekedSlot.listener);
  }

  /** Every input keeps the state sound. */
  lemma StepKeepsSound(s: State, input: Input)
    requires Sound(s)
    ensures Sound(Step(s, input))
  {
    match input
    case Connected(port) =>
      AttachFresh(s, port);
    case Inbound(cmd) =>
      if cmd.kind == "exit" || cmd.kind == "error" {
        UnregisterNoDup(s.attached, s.playSlot);
        UnregisterNoDup(Unregister(s.attached, s.playSlot), s.pauseSlot);
        UnregisterNoDup(Unregister(Unregister(s.attached, s.playSlot), s.pauseSlot), s.seekedSlot);
      }
    case _ =>
  }

  /** Every state a run reaches from the start is sound. */
  lemma {:induction false} RunKeepsSound(s: State, inputs: seq<Input>)
    requires Sound(s)
    ensures Sound(Run(s, inputs))
    decreases |inputs|
  {
    if inputs != [] {
      StepKeepsSound(s, inputs[0]);
      RunKeepsSound(Step(s, inputs[0]), inputs[1..]);
    }
  }

  /** The script starts sound. */
  lemma InitialSound(time: real, paused: bool)
    ensures Sound(Initial(time, paused))
  {
  }

  /** In every state a run from the start reaches, dispatching an event calls
      each listener at most once. */
  lemma ReachableCallsOnce(time: real, paused: bool, inputs: seq<Input>, e: MediaEvent)
    ensures NoDup(Handlers(Run(Initial(time, paused), inputs).attached, e))
  {
    InitialSound(time, paused);
    RunKeepsSound(Initial(time, paused), inputs);
    HandlersNoDup(Run(Initial(time, paused), inputs).attached, e);
  }

  /** Calling `addEventListeners` a second time without removing first leaves
      the first three closures on the video: the later `removeEventListeners`
      takes off only the closures in the slots. */
  lemma RewireLeaks(s: State, p: Port, q: Port)
    requires Fresh(s)
    ensures Detach(Attach(Attach(s, p), q)).attached
         == s.attached + [Listener(s.nextId, p, PlayEvent), Listener(s.nextId + 1, p, PauseEvent),
                          Listener(s.nextId + 2, p, SeekedEvent)]
  {
    AttachFresh(s, p);
    DetachAfterAttach(Attach(s, p), q);
  }

  /** Whether an input schedules a flag reset: a resolved play, or an inbound
      pause or seek whose time the video accepts. */
  predicate Schedules(input: Input) {
    || input == PlayResolved
    || (input.Inbound? && (input.cmd.kind == "pause" || input.cmd.kind == "seek") && input.cmd.time.Some?)
  }

  /** An inbound play schedules its reset only once its promise resolves: with
      no timer pending and nothing else scheduling one, the flag stays set. */
  lemma {:induction false} PlayHoldsUntilResolved(s: State, inputs: seq<Input>)
    requires s.ignoreNextEvent && s.pendingTimers == 0
    requires forall i :: 0 <= i < |inputs| ==> !Schedules(inputs[i])
    ensures Run(s, inputs).ignoreNextEvent
    ensures Run(s, inputs).pendingTimers == 0
    ensures Run(s, inputs).posted == s.posted
    decreases |inputs|
  {
    if inputs != [] {
      PlayHoldsUntilResolved(Step(s, inputs[0]), inputs[1..]);
    }
  }

  /** A `play`, `pause` or `seek` whose time the video rejects sets the flag
      and schedules nothing: with no reset pending and nothing scheduling one
      later, the flag stays set for good and no local event is reported. */
  lemma BadTimeSuppressesForGood(s: State, kind: string, inputs: seq<Input>)
    requires Moves(kind) && s.pendingTimers == 0
    requires forall i :: 0 <= i < |inputs| ==> !Schedules(inputs[i])
    ensures Handle(s, Command(kind, None)).pendingTimers == 0
    ensures Run(Handle(s, Command(kind, None)), inputs).ignoreNextEvent
    ensures Run(Handle(s, Command(kind, None)), inputs).posted == s.posted
  {
    PlayHoldsUntilResolved(Handle(s, Command(kind, None)), inputs);
  }

  /** Once the video's listener list is empty, and no port is connected
      again, no event posts anything. */
  lemma {:induction false} DetachedIsSilent(s: State, inputs: seq<Input>)
    requires s.attached == []
    requires forall i :: 0 <= i < |inputs| ==> !inputs[i].Connected?
    ensures Run(s, inputs).attached == []
    ensures Run(s, inputs).posted == s.posted
    decreases |inputs|
  {
    if inputs != [] {
      var next := Step(s, inputs[0]);
      assert next.attached == [];
      DetachedIsSilent(next, inputs[1..]);
    }
  }

  /** Wired by exactly one `addEventListeners`: the video's listeners are the
      three slot listeners. */
  ghost predicate WiredOnce(s: State) {
    && s.playSlot.Holds? && s.pauseSlot.Holds? && s.seekedSlot.Holds?
    && s.playSlot.listener.event == PlayEvent
    && s.pauseSlot.listener.event == PauseEvent
    && s.seekedSlot.listener.event == SeekedEvent
    && s.attached == [s.playSlot.listener, s.pauseSlot.listener, s.seekedSlot.listener]
  }

  /** Detaching a singly wired engine leaves the video with no listener. */
  lemma DetachWired(s: State)
    requires WiredOnce(s)
    ensures Detach(s).attached == []
  {
    var p, q, w := s.playSlot.listener, s.pauseSlot.listener, s.seekedSlot.listener;
    assert [p, q, w][..2] == [p, q] && [p, q][..1] == [p] && [p][..0] == [];
    assert Without([p], p) == [];
    assert Without([p, q], p) == [q];
    assert Without([p, q, w], p) == [q, w];
    assert [q, w][..1] == [q] && [q][..0] == [];
    assert Without([q, w], q) == [w];
    assert Without([w], w) == [];
  }

  /** `exit` and `error` leave a singly wired engine with no listener at all,
      so later events post nothing until a port is connected again. */
  lemma ExitSilences(s: State, kind: string, time: Option<real>, inputs: seq<Input>)
    requires WiredOnce(s)
    requires kind == "exit" || kind == "error"
    requires forall i :: 0 <= i < |inputs| ==> !inputs[i].Connected?
    ensures Handle(s, Command(kind, time)).attached == []
    ensures Run(Handle(s, Command(kind, time)), inputs).posted == s.posted
  {
    var r := Handle(s, Command(kind, time));
    DetachWired(s);
    DetachedIsSilent(r, inputs);
  }

  /** The slot listener registered for `e`. */
  function SlotFor(s: State, e: MediaEvent): Slot {
    match e
    case PlayEvent => s.playSlot
    case PauseEvent => s.pauseSlot
    case SeekedEvent => s.seekedSlot
  }

  /** Connecting a port to an engine with no listeners wires it once. */
  lemma ConnectWiresOnce(s: State, port: Port)
    requires s.attached == []
    ensures WiredOnce(Attach(s, port))
    ensures Attach(s, port).playSlot.listener.port == port
    ensures Attach(s, port).pauseSlot.listener.port == port
    ensures Attach(s, port).seekedSlot.listener.port == port
  {
  }

  /** In a singly wired engine with the flag clear, an event posts exactly
      one message, of the event's type and carrying the video's time, to the
      port of the slot listener for that event. */
  lemma WiredReportsOnce(s: State, e: MediaEvent)
    requires WiredOnce(s) && !s.ignoreNextEvent
    ensures SlotFor(s, e).Holds?
    ensures Step(s, Local(e)).posted
         == s.posted + [Post(SlotFor(s, e).listener.port, Report(ReportKind(e), s.video.currentTime))]
  {
    var a, b, c := s.playSlot.listener, s.pauseSlot.listener, s.seekedSlot.listener;
    HandlersOfSlots(a, b, c, e);
    var l := SlotFor(s, e).listener;
    assert Handlers(s.attached, e) == [l];
    DispatchPosts(s.attached, e, false, s.video.currentTime);
    assert Dispatch(s.attached, e, false, s.video.currentTime) == [Post(l.port, Report(ReportKind(e), s.video.currentTime))];
  }

  /** The video calls exactly one of a play, a pause and a seeked listener
      for each event. */
  lemma HandlersOfSlots(a: Listener, b: Listener, c: Listener, e: MediaEvent)
    requires a.event == PlayEvent && b.event == PauseEvent && c.event == SeekedEvent
    ensures Handlers([a, b, c], e) == [match e case PlayEvent => a case PauseEvent => b case SeekedEvent => c]
  {
    assert [a, b, c][..2] == [a, b] && [a, b][..1] == [a] && [a][..0] == [];
    assert Handlers([a], e) == if e == PlayEvent then [a] else [];
    assert Handlers([a, b], e) == Handlers([a], e) + if e == PauseEvent then [b] else [];
  }


  /** A local seek to `t` in a singly wired engine with the flag clear is
      reported once, as `{type: "seek", time: t}`, to the seeked listener's
      port. */
  lemma LocalSeekIsReported(s: State, t: real)
    requires WiredOnce(s) && !s.ignoreNextEvent
    ensures Run(s, [VideoChanged(s.video.(currentTime := t)), Local(SeekedEvent)]).posted
         == s.posted + [Post(s.seekedSlot.listener.port, Report("seek", t))]
  {
    var inputs := [VideoChanged(s.video.(currentTime := t)), Local(SeekedEvent)];
    var moved := Step(s, inputs[0]);
    assert inputs[1..] == [Local(SeekedEvent)] && inputs[1..][1..] == [];
    assert Run(s, inputs) == Run(moved, inputs[1..]) == Step(moved, Local(SeekedEvent));
    WiredReportsOnce(moved, SeekedEvent);
  }

  /** A remote `{type: "pause", time: 12}` followed by the pause event it
      causes posts nothing. */
  lemma RemotePauseIsNotEchoed(s: State)
    ensures Run(s, [Inbound(Command("pause", Some(12.0))), Local(PauseEvent)]).posted == s.posted
    ensures Run(s, [Inbound(Command("pause", Some(12.0))), Local(PauseEvent)]).video == Video(12.0, true)
  {
  }

  /** Timers stack rather than reset: after two inbound seeks, the first timer
      to fire clears the flag although a second one is still pending. */
  lemma TimersStack(s: State, t1: real, t2: real)
    requires s.pendingTimers == 0
    ensures var r := Run(s, [Inbound(Command("seek", Some(t1))), Inbound(Command("seek", Some(t2))), TimerFired]);
            !r.ignoreNextEvent && r.pendingTimers == 1 && r.video.currentTime == t2
  {
    var inputs := [Inbound(Command("seek", Some(t1))), Inbound(Command("seek", Some(t2))), TimerFired];
    var a := Step(s, inputs[0]);
    var b := Step(a, inputs[1]);
    assert inputs[1..] == [inputs[1], TimerFired] && inputs[1..][1..] == [TimerFired];
    assert Run(s, inputs) == Run(a, inputs[1..]) == Run(b, [TimerFired]) == Step(b, TimerFired);
  }

  // ---------------------------------------------------------------------
  // The engine object

  class Engine {
    var ignoreNextEvent: bool
    /** `eventListeners.play`, `.pause` and `.seeked`. */
    var playSlot: Slot
    var pauseSlot: Slot
    var seekedSlot: Slot
    /** The listener list of the active video element. */
    var attached: seq<Listener>
    /** `activeVideo.currentTime` and `activeVideo.paused`. */
    var currentTime: real
    var paused: bool
    var pendingPlays: nat
    var pendingTimers: nat
    var posted: seq<Post>
    var nextId: nat

    function Snapshot(): State
      reads this
    {
      State(ignoreNextEvent, playSlot, pauseSlot, seekedSlot, attached,
            Video(currentTime, paused), pendingPlays, pendingTimers, posted, nextId)
    }

    /** The script's start: flag clear, slots `null`, for a video found on the page. */
    constructor (time: real, isPaused: bool)
      ensures Snapshot() == Initial(time, isPaused)
    {
      ignoreNextEvent := false;
      playSlot, pauseSlot, seekedSlot := Null, Null, Null;
      attached := [];
      currentTime, paused := time, isPaused;
      pendingPlays, pendingTimers := 0, 0;
      posted := [];
      nextId := 0;
    }

    /** `addEventListeners(port)`. */
    method AddEventListeners(port: Port)
      modifies this
      ensures Snapshot() == Attach(old(Snapshot()), port)
    {
      var play := Listener(nextId, port, PlayEvent);
      var pause := Listener(nextId + 1, port, PauseEvent);
      var seeked := Listener(nextId + 2, port, SeekedEvent);
      ghost var wired := Attach(Snapshot(), port);
      playSlot, pauseSlot, seekedSlot := Holds(play), Holds(pause), Holds(seeked);
      attached := Register(Register(Register(attached, play), pause), seeked);
      nextId := nextId + 3;
      assert attached == wired.attached;
    }

    /** `removeEventListeners()`. */
    method RemoveEventListeners()
      modifies this
      ensures Snapshot() == Detach(old(Snapshot()))
    {
      attached := Unregister(attached, playSlot);
      attached := Unregister(attached, pauseSlot);
      attached := Unregister(attached, seekedSlot);
      playSlot, pauseSlot, seekedSlot := Null, Null, Null;
    }

    /** The video dispatches `e`: each listener registered for it runs in
        turn, and posts unless the flag is set. */
    method OnMediaEvent(e: MediaEvent)
      modifies this
      ensures Snapshot() == Step(old(Snapshot()), Local(e))
    {
      var i := 0;
      while i < |attached|
        invariant 0 <= i <= |attached|
        invariant ignoreNextEvent == old(ignoreNextEvent) && attached == old(attached)
        invariant currentTime == old(currentTime) && paused == old(paused)
        invariant playSlot == old(playSlot) && pauseSlot == old(pauseSlot) && seekedSlot == old(seekedSlot)
        invariant pendingPlays == old(pendingPlays) && pendingTimers == old(pendingTimers) && nextId == old(nextId)
        invariant posted == old(posted) + Dispatch(attached[..i], e, ignoreNextEvent, currentTime)
      {
        var l := attached[i];
        if l.event == e && !ignoreNextEvent {
          posted := posted + [Post(l.port, Report(ReportKind(l.event), currentTime))];
        }
        assert attached[..i + 1][..i] == attached[..i];
        i := i + 1;
      }
      assert attached[..i] == attached;
    }

    /** `handleBackgroundMessage(cmd)`: the flag is set before the video is
        touched; the reset is scheduled as a pending timer, or for `play` as
        a pending promise. */
    method HandleBackgroundMessage(cmd: Command)
      modifies this
      ensures Snapshot() == Handle(old(Snapshot()), cmd)
    {
      if cmd.kind == "play" {
        ignoreNextEvent := true;
        if cmd.time.None? { return; }  // the currentTime setter throws
        currentTime := cmd.time.value;
        paused := false;
        pendingPlays := pendingPlays + 1;
      } else if cmd.kind == "pause" {
        ignoreNextEvent := true;
        if cmd.time.None? { return; }
        currentTime := cmd.time.value;
        paused := true;
        pendingTimers := pendingTimers + 1;
      } else if cmd.kind == "seek" {
        ignoreNextEvent := true;
        if cmd.time.None? { return; }
        currentTime := cmd.time.value;
        pendingTimers := pendingTimers + 1;
      } else if cmd.kind == "exit" {
        RemoveEventListeners();
        paused := true;
      } else if cmd.kind == "error" {
        RemoveEventListeners();
        paused := true;
      }
    }


    /** Playback or the user moves the video; no listener runs until the
        video dispatches an event. */
    method OnVideoChanged(v: Video)
      modifies this
      ensures Snapshot() == Step(old(Snapshot()), VideoChanged(v))
    {
      currentTime, paused := v.currentTime, v.paused;
    }

    /** The oldest `play()` promise resolves and schedules its reset. */
    method OnPlayResolved()
      requires pendingPlays > 0
      modifies this
      ensures Snapshot() == Step(old(Snapshot()), PlayResolved)
    {
      pendingPlays := pendingPlays - 1;
      pendingTimers := pendingTimers + 1;
    }

    /** The oldest `play()` promise rejects: nothing is scheduled. */
    method OnPlayRejected()
      requires pendingPlays > 0
      modifies this
      ensures Snapshot() == Step(old(Snapshot()), PlayRejected)
    {
      pendingPlays := pendingPlays - 1;
    }

    /** A scheduled reset runs. */
    method OnTimer()
      requires pendingTimers > 0
      modifies this
      ensures Snapshot() == Step(old(Snapshot()), TimerFired)
    {
      pendingTimers := pendingTimers - 1;
      ignoreNextEvent := false;
    }
  }
}
