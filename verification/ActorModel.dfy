/**
 One actor (sphactor_actor.c): its settings, the command interpreter, and one turn of its event loop.
 The functions here say what each piece of code does to the actor's state; the class at the end is
 the code itself, statement by statement, proved to do just that.
 */
module ActorModel {
  import opened Options
  import opened Reports
  import opened Wire
  import opened PollTimer
  import SubFilters
  import Decimal

  const TWO_64: nat := 0x1_0000_0000_0000_0000

  /** What zsock_signal (pipe, 0) puts on the pipe. */
  const SIGNAL: Frames := ["signal 0"]

  /** The part of the actor that commands read and write. */
  datatype Settings = Settings(
    uuid: string,
    endpoint: string,
    name: string,
    actorType: Option<string>,
    connected: set<string>,
    sub: SubFilters.Sub,
    timeout: int,
    reporting: bool,
    verbose: bool
  )

  /** What a command changes. */
  function Apply(s: Settings, c: Command): Settings {
    match c
    case Connect(dest) => s.(connected := s.connected + {dest})
    case Disconnect(dest) => s.(connected := s.connected - {dest})
    case FilterAdd(f) => s.(sub := SubFilters.Apply(s.sub, SubFilters.Add(f)))
    case FilterRemove(f) => s.(sub := SubFilters.Apply(s.sub, SubFilters.Remove(f)))
    case SetName(name) => s.(name := name)
    case SetType(t) => s.(actorType := Some(t))
    case SetVerbose(on) => s.(verbose := on)
    case SetReporting(on) => s.(reporting := on)
    case SetTimeout(t) => s.(timeout := t)
    case _ => s
  }

  function TypeText(s: Settings): string {
    if s.actorType.Some? then s.actorType.value else ""
  }

  /** The reply to a command, built after the change; pointers travel as opaque text. */
  function Reply(s: Settings, c: Command): Option<Frames> {
    match c
    case Instance => Some(["self"])
    case Connect(dest) => Some(["CONNECTED", dest, "0"])
    case Disconnect(dest) => Some(["DISCONNECTED", dest, "0"])
    case Filters => Some(SubFilters.Reply(s.sub.filters))
    case Uuid => Some([s.uuid])
    case Name => Some([s.name])
    case Type => Some([TypeText(s)])
    case Endpoint => Some([s.endpoint])
    case Timeout => Some([Decimal.Print(s.timeout)])
    case Capability => Some(["capability"])
    case _ => None
  }

  /** The assertions in the command's code hold: its argument is there, and the socket calls succeed. */
  predicate AssertsHold(s: Settings, c: Command) {
    match c
    case Malformed => false
    case Connect(dest) => dest != s.endpoint
    case Disconnect(dest) => dest in s.connected
    case _ => true
  }

  // ---------------------------------------------------------------- the world around one actor

  /** A command message, and the command recv_api reads from it. */
  datatype Request = Request(frames: Frames, command: Command)

  /** What arrives on the SUB socket. A signal frame with a nonzero code marks a command. */
  datatype SubMsg = Data(frames: Frames) | Signalled(code: nat, request: Request)

  /** One call of the handler: the event, the status field during the call, and the message it carries. */
  datatype Event = Event(kind: Status, status: Status, msg: Option<nat>)

  /** What a handler returns: NULL, the message of its event, or another message. */
  datatype Outcome = Null | Same(frames: Frames) | Other(frames: Frames)

  /** What a handler does: its result, whether it destroyed ev->msg, and a call of set_timeout. */
  datatype Reaction = Reaction(outcome: Outcome, destroyed: bool, rearm: Option<int>)

  /** A queue: what waits in it, and what was read from it so far. */
  datatype Queue<T> = Queue(waiting: seq<T>, seen: seq<T>)

  /** The zmsg_t objects received, built or returned (ids count up), and how often each was let go. */
  datatype Messages = Messages(built: nat, released: multiset<nat>)

  datatype World = World(
    settings: Settings,
    next: int,                   // time_next
    stats: Report,               // status, iterations, recv_time, send_time
    terminated: bool,
    clock: int,                  // the last clock read
    pipe: Queue<Request>,
    sub: Queue<SubMsg>,
    replies: seq<Frames>,        // sent back on the pipe
    published: seq<Frames>,      // sent on the PUB socket
    trace: seq<Event>,
    reports: seq<Report>,
    messages: Messages
  )

  datatype Which = Nobody | Pipe | Sub | Socket

  /** What one call of run_once meets: arrivals, clock reads, the poller's answer, the handler's reaction. */
  datatype Turn = Turn(
    pipeArrivals: seq<Request>,
    subArrivals: seq<SubMsg>,
    poll: Reads,
    which: Which,
    recv: int,
    arm: int,
    send: int,
    reaction: Reaction
  )

  function TimerOf(w: World): Timer {
    Timer(w.settings.timeout, w.next)
  }

  function NewSettings(uuid: string, name: string): Settings {
    Settings(uuid, "inproc://" + uuid, name, None, {}, SubFilters.Fresh(), -1, true, false)
  }

  function New(uuid: string, name: string, now: int): World {
    World(NewSettings(uuid, name), 0, Report(INIT, 0, 0, 0), false, now, Queue([], []), Queue([], []), [], [], [],
          [Report(INIT, 0, 0, 0)], Messages(0, multiset{}))
  }

  // ---------------------------------------------------------------- pieces of run_once

  function SetStatus(w: World, s: Status): World {
    w.(stats := w.stats.(status := s))
  }

  /** Publishes a report, whether reporting is on or not. */
  function AddReport(w: World): World {
    w.(reports := w.reports + [w.stats])
  }

  /** Sets the status and, if reporting is on, publishes a report. */
  function Announce(w: World, s: Status): World {
    var v := SetStatus(w, s);
    if w.settings.reporting then AddReport(v) else v
  }

  /** The next message object. */
  function Build(w: World): World {
    w.(messages := w.messages.(built := w.messages.built + 1))
  }

  /** A message object is destroyed or handed to a socket. */
  function Release(w: World, id: Option<nat>): World {
    match id
    case None => w
    case Some(i) => w.(messages := w.messages.(released := w.messages.released[i := w.messages.released[i] + 1]))
  }

  /** The message the handler returns. */
  function Returned(w: World, msg: Option<nat>, r: Reaction): Option<nat> {
    match r.outcome
    case Null => None
    case Same(_) => msg
    case Other(_) => Some(w.messages.built)
  }

  function Body(r: Reaction): Frames {
    match r.outcome
    case Null => []
    case Same(frames) => frames
    case Other(frames) => frames
  }

  function Rearm(w: World, timeout: int, now: int): World {
    w.(settings := w.settings.(timeout := timeout), next := PollTimer.SetTimeout(timeout, now).next)
  }

  function SideEffects(w: World, msg: Option<nat>, r: Reaction, now: int): World {
    var v := if r.rearm.Some? then Rearm(w, r.rearm.value, now) else w;
    if r.destroyed then Release(v, msg) else v
  }

  /** A call of the handler. */
  function Handle(w: World, kind: Status, msg: Option<nat>, r: Reaction, now: int): World {
    var called := w.(trace := w.trace + [Event(kind, w.stats.status, msg)]);
    SideEffects(if r.outcome.Other? then Build(called) else called, msg, r, now)
  }

  /** s_publish_msg: the socket takes the message over. */
  function Publish(w: World, id: nat, frames: Frames, now: int): World {
    Release(w, Some(id)).(published := w.published + [frames], stats := w.stats.(sendTime := now))
  }

  /** TIME, SOCK and FDSOCK: the handler's result is published. */
  function Dispatch(w: World, kind: Status, msg: Option<nat>, t: Turn): World {
    var id := Returned(w, msg, t.reaction);
    var v := Handle(w, kind, msg, t.reaction, t.arm);
    if id.Some? then Publish(v, id.value, Body(t.reaction), t.send) else v
  }

  /** INIT, STOP and DESTROY: the handler's result is destroyed. */
  function Inform(w: World, kind: Status, t: Turn): World {
    Release(Handle(w, kind, None, t.reaction, t.arm), Returned(w, None, t.reaction))
  }

  function StartActor(w: World, t: Turn): World {
    var v := Inform(w.(replies := w.replies + [SIGNAL]), INIT, t);
    v.(next := StartTimer(v.settings.timeout, t.send).next, clock := t.send)
  }

  function StopActor(w: World, t: Turn): World {
    Inform(Announce(w, Status.STOP), Status.STOP, t)
  }

  /** The end of an actor: the last status and the handler's last event. */
  function EndActor(w: World, t: Turn): World {
    Inform(if w.settings.reporting then Announce(w, DESTROY) else w, DESTROY, t)
  }

  /** TRIGGER publishes the handler's result and then destroys it as well. */
  function TriggerActor(w: World, t: Turn): World {
    Release(Dispatch(w, SOCK, None, t), Returned(w, None, t.reaction))
  }

  function SendBody(w: World, body: Frames, now: int): World {
    if body == [] then w.(published := w.published + [[w.settings.name]], stats := w.stats.(sendTime := now))
    else Publish(Build(w), w.messages.built, body, now)
  }

  /** A command the handler is not asked about. */
  function Builtin(w: World, c: Command, t: Turn): World {
    match c
    case Start => StartActor(w, t)
    case Stop => StopActor(w, t)
    case Trigger => TriggerActor(w, t)
    case Send(body) => SendBody(w, body, t.send)
    case SetTimeout(timeout) => Rearm(w, timeout, t.arm)
    case Term => w.(terminated := true)
    case _ => w.(settings := Apply(w.settings, c))
  }

  /** The answer recv_api returns: a message object and its frames. */
  datatype Answer = Nothing | Message(id: nat, frames: Frames)

  /** sphactor_actor_recv_api on message id, which it must destroy or give to the handler. */
  function RecvApi(w: World, id: nat, c: Command, t: Turn): World {
    var v := Announce(w, API);
    if c.Unknown? then Handle(v, API, Some(id), t.reaction, t.arm)
    else
      var done := Builtin(v, c, t);
      Release(if Reply(done.settings, c).Some? then Build(done) else done, Some(id))
  }

  /** What recv_api returns. */
  function AnswerApi(w: World, id: nat, c: Command, t: Turn): Answer {
    var v := Announce(w, API);
    if c.Unknown? then
      var back := Returned(v, Some(id), t.reaction);
      if back.Some? then Message(back.value, Body(t.reaction)) else Nothing
    else
      var done := Builtin(v, c, t);
      var reply := Reply(done.settings, c);
      if reply.Some? then Message(done.messages.built, reply.value) else Nothing
  }

  function ReadPipe(w: World): World
    requires w.pipe.waiting != []
  {
    Build(w).(pipe := Queue(w.pipe.waiting[1..], w.pipe.seen + [w.pipe.waiting[0]]))
  }

  /** The answer to a command from the pipe goes back on the pipe. */
  function SendAnswer(w: World, a: Answer): World {
    match a
    case Nothing => w
    case Message(id, frames) => Release(w, Some(id)).(replies := w.replies + [frames])
  }

  function OnPipe(w: World, t: Turn): World
    requires w.pipe.waiting != []
  {
    var v, id, c := ReadPipe(w), w.messages.built, w.pipe.waiting[0].command;
    SendAnswer(RecvApi(v, id, c, t), AnswerApi(v, id, c, t))
  }

  function ReadSub(w: World): World
    requires w.sub.waiting != []
  {
    Build(w).(sub := Queue(w.sub.waiting[1..], w.sub.seen + [w.sub.waiting[0]]))
  }

  /** The answer to a remote command is destroyed. */
  function DropAnswer(w: World, a: Answer): World {
    match a
    case Nothing => w
    case Message(id, _) => Release(w, Some(id))
  }

  predicate IsApi(m: SubMsg) {
    m.Signalled? && m.code > 0
  }

  /** The filter on remote commands compares the whole first frame with "$TERM". */
  predicate Filtered(m: SubMsg) {
    IsApi(m) && m.request.frames != [] && m.request.frames[0] == "$TERM"
  }

  function OnRemote(w: World, id: nat, c: Command, t: Turn): World {
    DropAnswer(RecvApi(w, id, c, t), AnswerApi(w, id, c, t))
  }

  /** The missing braces: the time is kept only when reporting, the report is published always. */
  function OnData(w: World, id: nat, t: Turn): World {
    var v := SetStatus(w, SOCK);
    var seen := if w.settings.reporting then v.(stats := v.stats.(recvTime := t.recv)) else v;
    Dispatch(AddReport(seen), SOCK, Some(id), t)
  }

  function OnSub(w: World, t: Turn): World
    requires w.sub.waiting != []
  {
    var m, v, id := w.sub.waiting[0], ReadSub(w), w.messages.built;
    if Filtered(m) then v
    else if IsApi(m) then OnRemote(v, id, m.request.command, t)
    else OnData(v, id, t)
  }

  function OnSocket(w: World, t: Turn): World {
    Dispatch(Build(Announce(w, FDSOCK)), FDSOCK, Some(w.messages.built), t)
  }

  function OnTime(w: World, t: Turn): World {
    Dispatch(Announce(w, TIME), TIME, None, t)
  }

  function Arrive(w: World, t: Turn): World {
    w.(pipe := w.pipe.(waiting := w.pipe.waiting + t.pipeArrivals),
       sub := w.sub.(waiting := w.sub.waiting + t.subArrivals))
  }

  /** Before the poll: the IDLE report, unless the actor is falling behind. */
  function Idle(w: World, t: Turn): World {
    if t.poll.check > w.next then w else Announce(w, IDLE)
  }

  predicate FiresIn(w: World, t: Turn) {
    Fires(TimerOf(w), Tick(t.poll, t.which.Nobody?))
  }

  /** The poller names a reader that is ready. */
  predicate ReaderReady(w: World, t: Turn) {
    && (t.which.Pipe? ==> w.pipe.waiting + t.pipeArrivals != [])
    && (t.which.Sub? ==> w.sub.waiting + t.subArrivals != [])
  }

  /** What happens after the poll. */
  function React(w: World, fires: bool, t: Turn): World
    requires t.which.Pipe? ==> w.pipe.waiting != []
    requires t.which.Sub? ==> w.sub.waiting != []
  {
    if fires then OnTime(w, t)
    else
      match t.which
      case Pipe => OnPipe(w, t)
      case Sub => OnSub(w, t)
      case _ => OnSocket(w, t)
  }

  function Count(w: World, t: Turn): World {
    w.(stats := w.stats.(iterations := (w.stats.iterations + 1) % TWO_64), clock := t.send)
  }

  /** The command that is handed to recv_api after the poll, if any. */
  function CommandAt(w: World, fires: bool, t: Turn): Option<Command>
    requires t.which.Pipe? ==> w.pipe.waiting != []
    requires t.which.Sub? ==> w.sub.waiting != []
  {
    if fires then None
    else if t.which.Pipe? then Some(w.pipe.waiting[0].command)
    else if t.which.Sub? && IsApi(w.sub.waiting[0]) && !Filtered(w.sub.waiting[0]) then
      Some(w.sub.waiting[0].request.command)
    else None
  }

  function CommandOf(w: World, t: Turn): Option<Command>
    requires ReaderReady(w, t)
  {
    CommandAt(Arrive(w, t), FiresIn(w, t), t)
  }

  /**
   A turn that can happen: the clock does not run backwards, the poller keeps to its contract, and no
   assertion of the program fails.
   */
  predicate TurnOk(w: World, t: Turn) {
    && Possible(TimerOf(w), w.clock, Tick(t.poll, t.which.Nobody?))
    && LastRead(t.poll) <= t.recv <= t.arm <= t.send
    && ReaderReady(w, t)
    && (CommandOf(w, t).Some? ==> AssertsHold(w.settings, CommandOf(w, t).value))
  }

  /** What the poll leaves: the messages that arrived, the IDLE report, the deadline moved on. */
  function Polled(w: World, t: Turn): World
    requires TurnOk(w, t)
  {
    Idle(Arrive(w, t), t).(next := Advance(TimerOf(w), t.poll).next)
  }

  /** The reader the poller names is still ready after the poll. */
  lemma PolledReady(w: World, t: Turn)
    requires TurnOk(w, t)
    ensures t.which.Pipe? ==> Polled(w, t).pipe.waiting != []
    ensures t.which.Sub? ==> Polled(w, t).sub.waiting != []
  {
  }

  /** sphactor_actor_run_once. */
  function Once(w: World, t: Turn): World
    requires TurnOk(w, t)
  {
    PolledReady(w, t);
    Count(React(Polled(w, t), FiresIn(w, t), t), t)
  }

  // ---------------------------------------------------------------- runs

  /** The loop of sphactor_actor_run goes through these turns. */
  predicate CanRun(w: World, ts: seq<Turn>)
    decreases |ts|
  {
    ts == [] || (!w.terminated && TurnOk(w, ts[0]) && CanRun(Once(w, ts[0]), ts[1..]))
  }

  function Turns(w: World, ts: seq<Turn>): World
    requires CanRun(w, ts)
    decreases |ts|
  {
    if ts == [] then w else Turns(Once(w, ts[0]), ts[1..])
  }

  // ---------------------------------------------------------------- the code

  class SphactorActor {
    var settings: Settings
    var timeNext: int
    var stats: Report
    var terminated: bool
    var clock: int
    var pipe: Queue<Request>
    var sub: Queue<SubMsg>
    var replies: seq<Frames>
    var published: seq<Frames>
    var trace: seq<Event>
    var reports: seq<Report>
    var messages: Messages

    ghost function State(): World
      reads this
    {
      World(settings, timeNext, stats, terminated, clock, pipe, sub, replies, published, trace, reports, messages)
    }

    /** sphactor_actor_new; the first report goes straight into the slot. */
    constructor (uuid: string, name: string, now: int)
      ensures State() == New(uuid, name, now)
    {
      settings := NewSettings(uuid, name);
      timeNext, stats, terminated, clock := 0, Report(INIT, 0, 0, 0), false, now;
      pipe, sub, replies, published, trace := Queue([], []), Queue([], []), [], [], [];
      reports, messages := [Report(INIT, 0, 0, 0)], Messages(0, multiset{});
    }

    method SetReport(s: Status)
      modifies this`stats, this`reports
      ensures State() == Announce(old(State()), s)
    {
      stats := stats.(status := s);
      if settings.reporting { reports := reports + [stats]; }
    }

    method NewMessage() returns (id: nat)
      modifies this`messages
      ensures id == old(messages.built) && State() == Build(old(State()))
    {
      id := messages.built;
      messages := messages.(built := id + 1);
    }

    method Destroy(id: nat)
      modifies this`messages
      ensures State() == Release(old(State()), Some(id))
    {
      messages := messages.(released := messages.released[id := messages.released[id] + 1]);
    }

    method PublishMsg(id: nat, frames: Frames, now: int)
      modifies this`messages, this`published, this`stats
      ensures State() == Publish(old(State()), id, frames, now)
    {
      published := published + [frames];
      Destroy(id);
      stats := stats.(sendTime := now);
    }

    method SetTimeout(timeout: int, now: int)
      modifies this`settings, this`timeNext
      ensures State() == Rearm(old(State()), timeout, now)
    {
      settings := settings.(timeout := timeout);
      if settings.timeout >= 0 { timeNext := now + settings.timeout; } else { timeNext := INT64_MAX; }
    }

    method TakeResult(msg: Option<nat>, r: Reaction) returns (result: Option<nat>)
      modifies this`messages
      ensures State() == (if r.outcome.Other? then Build(old(State())) else old(State()))
      ensures result == Returned(old(State()), msg, r)
    {
      match r.outcome {
        case Null => result := None;
        case Same(_) => result := msg;
        case Other(_) => var id := NewMessage(); result := Some(id);
      }
    }

    method TakeEffects(msg: Option<nat>, r: Reaction, now: int)
      modifies this`messages, this`settings, this`timeNext
      ensures State() == SideEffects(old(State()), msg, r, now)
    {
      if r.rearm.Some? { SetTimeout(r.rearm.value, now); }
      if r.destroyed && msg.Some? { Destroy(msg.value); }
    }

    method CallHandler(kind: Status, msg: Option<nat>, r: Reaction, now: int) returns (result: Option<nat>)
      modifies this`trace, this`messages, this`settings, this`timeNext
      ensures State() == Handle(old(State()), kind, msg, r, now)
      ensures result == Returned(old(State()), msg, r)
    {
      trace := trace + [Event(kind, stats.status, msg)];
      result := TakeResult(msg, r);
      TakeEffects(msg, r, now);
    }

    method CallAndPublish(kind: Status, msg: Option<nat>, t: Turn) returns (result: Option<nat>)
      modifies this
      ensures State() == Dispatch(old(State()), kind, msg, t)
      ensures result == Returned(old(State()), msg, t.reaction)
    {
      result := CallHandler(kind, msg, t.reaction, t.arm);
      if result.Some? { PublishMsg(result.value, Body(t.reaction), t.send); }
    }

    method CallAndDestroy(kind: Status, t: Turn)
      modifies this
      ensures State() == Inform(old(State()), kind, t)
    {
      var result := CallHandler(kind, None, t.reaction, t.arm);
      if result.Some? { Destroy(result.value); }
    }

    method Start(t: Turn)
      modifies this
      ensures State() == StartActor(old(State()), t)
    {
      replies := replies + [SIGNAL];
      CallAndDestroy(INIT, t);
      clock := t.send;
      timeNext := clock + settings.timeout;
      if settings.timeout == -1 { timeNext := INT64_MAX; }
    }

    method Stop(t: Turn)
      modifies this
      ensures State() == StopActor(old(State()), t)
    {
      SetReport(Status.STOP);
      CallAndDestroy(Status.STOP, t);
    }

    method End(t: Turn)
      modifies this
      ensures State() == EndActor(old(State()), t)
    {
      if settings.reporting { SetReport(DESTROY); }
      CallAndDestroy(DESTROY, t);
    }

    method Trigger(t: Turn)
      modifies this
      ensures State() == TriggerActor(old(State()), t)
    {
      var result := CallAndPublish(SOCK, None, t);
      if result.Some? { Destroy(result.value); }
    }

    method SendMessage(body: Frames, now: int)
      modifies this
      ensures State() == SendBody(old(State()), body, now)
    {
      if |body| > 0 {
        var dup := NewMessage();
        PublishMsg(dup, body, now);
      } else {
        published := published + [[settings.name]];
        stats := stats.(sendTime := now);
      }
    }

    method FilterAdd(filter: string)
      modifies this`settings
      ensures settings == old(settings).(sub := SubFilters.Apply(old(settings).sub, SubFilters.Add(filter)))
    {
      var list, subscribed := settings.sub.filters, settings.sub.subscribed;
      if list == None {
        subscribed := subscribed - multiset{""};
        list := Some([]);
      } else if filter in list.value {
        return;
      }
      assert [] + [filter] == [filter];
      subscribed := subscribed + multiset{filter};
      list := Some(list.value + [filter]);
      settings := settings.(sub := SubFilters.Sub(list, subscribed));
    }

    method FilterRemove(filter: string)
      modifies this`settings
      ensures settings == old(settings).(sub := SubFilters.Apply(old(settings).sub, SubFilters.Remove(filter)))
    {
      var list, subscribed := settings.sub.filters, settings.sub.subscribed;
      if list == None { return; }
      list := Some(SubFilters.Without(list.value, filter));
      if |list.value| == 0 {
        subscribed := subscribed + multiset{""};
        list := None;
      }
      settings := settings.(sub := SubFilters.Sub(list, subscribed));
    }

    /** The commands that only set or change a field. */
    method ChangeSetting(c: Command)
      modifies this`settings
      ensures settings == Apply(old(settings), c)
    {
      match c {
        case Connect(dest) => settings := settings.(connected := settings.connected + {dest});
        case Disconnect(dest) => settings := settings.(connected := settings.connected - {dest});
        case FilterAdd(f) => FilterAdd(f);
        case FilterRemove(f) => FilterRemove(f);
        case SetName(name) => settings := settings.(name := name);
        case SetType(t) => settings := settings.(actorType := Some(t));
        case SetVerbose(on) => settings := settings.(verbose := on);
        case SetReporting(on) => settings := settings.(reporting := on);
        case SetTimeout(timeout) => settings := settings.(timeout := timeout);
        case _ =>
      }
    }

    /** The reply to FILTERS: one frame for each filter, or an empty frame. */
    method FilterFrames() returns (frames: Frames)
      ensures frames == SubFilters.Reply(settings.sub.filters)
    {
      frames := [];
      if settings.sub.filters.Some? {
        var list, i := settings.sub.filters.value, 0;
        while i < |list|
          invariant 0 <= i <= |list| && frames == list[..i]
        {
          frames := frames + [list[i]];
          i := i + 1;
        }
      } else {
        frames := [""];
      }
    }

    method BuildReply(c: Command) returns (reply: Option<Frames>)
      ensures reply == Reply(settings, c)
    {
      reply := None;
      match c {
        case Instance => reply := Some(["self"]);
        case Connect(dest) => reply := Some(["CONNECTED", dest, "0"]);
        case Disconnect(dest) => reply := Some(["DISCONNECTED", dest, "0"]);
        case Filters => var frames := FilterFrames(); reply := Some(frames);
        case Uuid => reply := Some([settings.uuid]);
        case Name => reply := Some([settings.name]);
        case Type => reply := Some([if settings.actorType.Some? then settings.actorType.value else ""]);
        case Endpoint => reply := Some([settings.endpoint]);
        case Timeout => reply := Some([Decimal.Print(settings.timeout)]);
        case Capability => reply := Some(["capability"]);
        case _ =>
      }
    }

    method RunBuiltin(c: Command, t: Turn)
      modifies this
      ensures State() == Builtin(old(State()), c, t)
    {
      hide StartActor, StopActor, TriggerActor, SendBody, Apply, Rearm;
      if c.Start? { Start(t); }
      else if c.Stop? { Stop(t); }
      else if c.Trigger? { Trigger(t); }
      else if c.Send? { SendMessage(c.body, t.send); }
      else if c.SetTimeout? { SetTimeout(c.timeout, t.arm); }
      else if c.Term? { terminated := true; }
      else { ChangeSetting(c); }
    }

    method HandleApi(id: nat, c: Command, t: Turn) returns (answer: Answer)
      modifies this
      ensures State() == RecvApi(old(State()), id, c, t)
      ensures answer == AnswerApi(old(State()), id, c, t)
    {
      SetReport(API);
      if c.Unknown? {
        var result := CallHandler(API, Some(id), t.reaction, t.arm);
        answer := if result.Some? then Message(result.value, Body(t.reaction)) else Nothing;
        return;
      }
      RunBuiltin(c, t);
      var reply := BuildReply(c);
      answer := Nothing;
      if reply.Some? {
        var retmsg := NewMessage();
        answer := Message(retmsg, reply.value);
      }
      Destroy(id);
    }

    method ServePipe(t: Turn)
      requires pipe.waiting != []
      modifies this
      ensures State() == OnPipe(old(State()), t)
    {
      var r := pipe.waiting[0];
      var id := NewMessage();
      pipe := Queue(pipe.waiting[1..], pipe.seen + [r]);
      var answer := HandleApi(id, r.command, t);
      if answer.Message? {
        replies := replies + [answer.frames];
        Destroy(answer.id);
      }
    }

    method ServeRemote(id: nat, c: Command, t: Turn)
      modifies this
      ensures State() == OnRemote(old(State()), id, c, t)
    {
      var answer := HandleApi(id, c, t);
      if answer.Message? { Destroy(answer.id); }
    }

    method ServeData(id: nat, t: Turn)
      modifies this
      ensures State() == OnData(old(State()), id, t)
    {
      stats := stats.(status := SOCK);
      if settings.reporting { stats := stats.(recvTime := t.recv); }
      reports := reports + [stats];
      var result := CallAndPublish(SOCK, Some(id), t);
    }

    method ServeSub(t: Turn)
      requires sub.waiting != []
      modifies this
      ensures State() == OnSub(old(State()), t)
    {
      var m := sub.waiting[0];
      var id := NewMessage();
      sub := Queue(sub.waiting[1..], sub.seen + [m]);
      if IsApi(m) {
        if !(|m.request.frames| > 0 && m.request.frames[0] == "$TERM") {
          ServeRemote(id, m.request.command, t);
        }
      } else {
        ServeData(id, t);
      }
    }

    method ServeSocket(t: Turn)
      modifies this
      ensures State() == OnSocket(old(State()), t)
    {
      SetReport(FDSOCK);
      var id := NewMessage();
      var result := CallAndPublish(FDSOCK, Some(id), t);
    }

    method ServeTime(t: Turn)
      modifies this
      ensures State() == OnTime(old(State()), t)
    {
      SetReport(TIME);
      var result := CallAndPublish(TIME, None, t);
    }

    /** The part of run_once up to the end of the catch-up loop; till is what the poller is asked to wait. */
    method Wait(t: Turn) returns (till: int, skipped: bool)
      requires LoopReads(TimerOf(State()), t.poll.loop)
      modifies this`stats, this`reports, this`timeNext
      ensures State() == Idle(old(State()), t).(next := Advance(TimerOf(old(State())), t.poll).next)
      ensures till == ToInt32(PollTimer.Wait(TimerOf(old(State())), t.poll))
      ensures skipped == Skipped(TimerOf(old(State())), t.poll)
    {
      var due := timeNext;
      if t.poll.check > timeNext {
        till := ToInt32(0);
      } else {
        till := ToInt32(timeNext - t.poll.again);
        SetReport(IDLE);
      }
      skipped := timeNext - t.poll.wake <= 0;
      if settings.timeout > 0 {
        var i := 0;
        while timeNext <= t.poll.loop[i]
          invariant 0 <= i < |t.poll.loop|
          invariant timeNext == due + i * settings.timeout
          invariant State() == Idle(old(State()), t).(next := timeNext)
          decreases |t.poll.loop| - i
        {
          MulMinus(i + 1, 1, settings.timeout);
          assert i != |t.poll.loop| - 1;
          timeNext := timeNext + settings.timeout;
          i := i + 1;
        }
        assert i == |t.poll.loop| - 1;
      }
    }

    /** The part of run_once after the catch-up loop. */
    method Serve(fires: bool, t: Turn)
      requires t.which.Pipe? ==> pipe.waiting != []
      requires t.which.Sub? ==> sub.waiting != []
      modifies this
      ensures State() == React(old(State()), fires, t)
    {
      if fires { ServeTime(t); }
      else if t.which.Pipe? { ServePipe(t); }
      else if t.which.Sub? { ServeSub(t); }
      else { ServeSocket(t); }
    }

    /** Arrivals, the poll and the catch-up loop: whether a TIME event is due. */
    method Await(t: Turn) returns (fires: bool)
      requires TurnOk(State(), t)
      modifies this`pipe, this`sub, this`stats, this`reports, this`timeNext
      ensures State() == Polled(old(State()), t)
      ensures fires == FiresIn(old(State()), t)
    {
      pipe := pipe.(waiting := pipe.waiting + t.pipeArrivals);
      sub := sub.(waiting := sub.waiting + t.subArrivals);
      var till, skipped := Wait(t);
      fires := t.which.Nobody? || skipped;
    }

    method RunOnce(t: Turn)
      requires TurnOk(State(), t)
      modifies this
      ensures State() == Once(old(State()), t)
    {
      hide Polled, React, FiresIn;
      PolledReady(State(), t);
      var fires := Await(t);
      Serve(fires, t);
      stats := stats.(iterations := (stats.iterations + 1) % TWO_64);
      clock := t.send;
    }

    /** The loop of sphactor_actor_run, on the turns it meets until the actor is terminated. */
    method Run(ts: seq<Turn>)
      requires CanRun(State(), ts) && Turns(State(), ts).terminated
      modifies this
      ensures State() == Turns(old(State()), ts)
    {
      var i := 0;
      while !terminated
        invariant 0 <= i <= |ts|
        invariant CanRun(State(), ts[i..]) && Turns(State(), ts[i..]) == Turns(old(State()), ts)
        decreases |ts| - i
      {
        assert ts[i..][1..] == ts[i + 1..];
        RunOnce(ts[i]);
        i := i + 1;
      }
    }
  }
}
