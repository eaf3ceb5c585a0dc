/** What every run of an actor's event loop keeps. */
module ActorRuns {
  import opened Options
  import opened Reports
  import opened Wire
  import opened PollTimer
  import opened ActorModel

  // ---------------------------------------------------------------- nothing is lost to the timer

  /** Nothing changed in the queues, in the count of calls, or in the flag that ends the loop. */
  predicate SameLoop(w: World, v: World) {
    && v.pipe == w.pipe && v.sub == w.sub
    && v.stats.iterations == w.stats.iterations && v.terminated == w.terminated
  }

  lemma HandleKeeps(w: World, kind: Status, msg: Option<nat>, r: Reaction, now: int)
    ensures SameLoop(w, Handle(w, kind, msg, r, now))
  {
  }

  lemma DispatchKeeps(w: World, kind: Status, msg: Option<nat>, t: Turn)
    ensures SameLoop(w, Dispatch(w, kind, msg, t))
  {
    hide Handle;
    HandleKeeps(w, kind, msg, t.reaction, t.arm);
  }

  lemma InformKeeps(w: World, kind: Status, t: Turn)
    ensures SameLoop(w, Inform(w, kind, t))
  {
    hide Handle;
    HandleKeeps(w, kind, None, t.reaction, t.arm);
  }

  lemma BuiltinKeeps(w: World, c: Command, t: Turn)
    ensures SameLoop(w.(terminated := w.terminated || c.Term?), Builtin(w, c, t))
  {
    hide Inform, Dispatch;
    DispatchKeeps(w, SOCK, None, t);
    InformKeeps(w.(replies := w.replies + [SIGNAL]), INIT, t);
    InformKeeps(Announce(w, Status.STOP), Status.STOP, t);
  }

  lemma RecvApiKeeps(w: World, id: nat, c: Command, t: Turn)
    ensures SameLoop(w.(terminated := w.terminated || c.Term?), RecvApi(w, id, c, t))
  {
    hide Builtin, Handle, Reply;
    HandleKeeps(Announce(w, API), API, Some(id), t.reaction, t.arm);
    BuiltinKeeps(Announce(w, API), c, t);
  }

  lemma OnPipeKeeps(w: World, t: Turn)
    requires w.pipe.waiting != []
    ensures SameLoop(ReadPipe(w).(terminated := w.terminated || w.pipe.waiting[0].command.Term?), OnPipe(w, t))
  {
    hide RecvApi, AnswerApi;
    RecvApiKeeps(ReadPipe(w), w.messages.built, w.pipe.waiting[0].command, t);
  }

  lemma OnSubKeeps(w: World, t: Turn)
    requires w.sub.waiting != []
    ensures var m := w.sub.waiting[0];
      SameLoop(ReadSub(w).(terminated := w.terminated || (IsApi(m) && !Filtered(m) && m.request.command.Term?)),
               OnSub(w, t))
  {
    hide RecvApi, AnswerApi, Dispatch, Filtered;
    var m, v, id := w.sub.waiting[0], ReadSub(w), w.messages.built;
    if IsApi(m) {
      RecvApiKeeps(v, id, m.request.command, t);
    } else {
      var seen := SetStatus(v, SOCK);
      DispatchKeeps(AddReport(seen), SOCK, Some(id), t);
      DispatchKeeps(AddReport(seen.(stats := seen.stats.(recvTime := t.recv))), SOCK, Some(id), t);
    }
  }

  /**
   A TIME event leaves the queues alone; otherwise the reader the poller named gives up one message.
   Only $TERM ends the loop.
   */
  lemma ReactKeeps(w: World, fires: bool, t: Turn)
    requires t.which.Pipe? ==> w.pipe.waiting != []
    requires t.which.Sub? ==> w.sub.waiting != []
    ensures var v := React(w, fires, t);
      && v.pipe == (if !fires && t.which.Pipe? then ReadPipe(w).pipe else w.pipe)
      && v.sub == (if !fires && t.which.Sub? then ReadSub(w).sub else w.sub)
      && v.stats.iterations == w.stats.iterations
      && v.terminated == (w.terminated || CommandAt(w, fires, t) == Some(Term))
  {
    hide OnPipe, OnSub, Dispatch, Filtered;
    DispatchKeeps(Announce(w, TIME), TIME, None, t);
    DispatchKeeps(Build(Announce(w, FDSOCK)), FDSOCK, Some(w.messages.built), t);
    if t.which.Pipe? { OnPipeKeeps(w, t); }
    if t.which.Sub? { OnSubKeeps(w, t); }
  }

  function All<T>(q: Queue<T>): seq<T> {
    q.seen + q.waiting
  }

  function Read<T>(w: Queue<T>, v: Queue<T>): int {
    |v.seen| - |w.seen|
  }

  lemma PolledKeeps(w: World, t: Turn)
    requires TurnOk(w, t)
    ensures SameLoop(Arrive(w, t), Polled(w, t))
  {
  }

  lemma OnceQueues(w: World, t: Turn)
    requires TurnOk(w, t)
    ensures var v := Once(w, t);
      && All(v.pipe) == All(w.pipe) + t.pipeArrivals && All(v.sub) == All(w.sub) + t.subArrivals
      && Read(w.pipe, v.pipe) == (if !FiresIn(w, t) && t.which.Pipe? then 1 else 0)
      && Read(w.sub, v.sub) == (if !FiresIn(w, t) && t.which.Sub? then 1 else 0)
      && w.pipe.seen <= v.pipe.seen && w.sub.seen <= v.sub.seen
      && v.stats.iterations == (w.stats.iterations + 1) % TWO_64
  {
    hide React, FiresIn, Polled, TurnOk;
    PolledKeeps(w, t);
    PolledReady(w, t);
    ReactKeeps(Polled(w, t), FiresIn(w, t), t);
  }

  function PipeArrivals(ts: seq<Turn>): seq<Request> {
    if ts == [] then [] else ts[0].pipeArrivals + PipeArrivals(ts[1..])
  }

  function SubArrivals(ts: seq<Turn>): seq<SubMsg> {
    if ts == [] then [] else ts[0].subArrivals + SubArrivals(ts[1..])
  }

  /**
   In every run the messages read from the pipe, followed by those that wait in it, are those sent, in
   order; likewise for SUB. A call reads at most one message, none when TIME fires, and counts itself.
   */
  lemma {:induction false} NothingLost(w: World, ts: seq<Turn>)
    requires CanRun(w, ts) && w.stats.iterations < TWO_64
    ensures var v := Turns(w, ts);
      && All(v.pipe) == All(w.pipe) + PipeArrivals(ts)
      && All(v.sub) == All(w.sub) + SubArrivals(ts)
      && w.pipe.seen <= v.pipe.seen && w.sub.seen <= v.sub.seen
      && Read(w.pipe, v.pipe) + Read(w.sub, v.sub) <= |ts|
      && v.stats.iterations == (w.stats.iterations + |ts|) % TWO_64
    decreases |ts|
  {
    hide Once, TurnOk, FiresIn;
    if ts != [] {
      OnceQueues(w, ts[0]);
      NothingLost(Once(w, ts[0]), ts[1..]);
      var v := Once(w, ts[0]);
      assert All(v.pipe) + PipeArrivals(ts[1..]) == All(w.pipe) + PipeArrivals(ts);
      assert All(v.sub) + SubArrivals(ts[1..]) == All(w.sub) + SubArrivals(ts);
    }
  }

  lemma OnceClock(w: World, t: Turn)
    requires TurnOk(w, t)
    ensures Once(w, t).clock == t.send
  {
  }

  // ---------------------------------------------------------------- a turn at once

  /** The turn in which these messages arrive and one reader is served while the clock stands still. */
  function PromptTurn(w: World, pipe: seq<Request>, sub: seq<SubMsg>, which: Which, r: Reaction): Turn {
    var now := w.clock;
    Turn(pipe, sub, Reads(now, now, now, if w.settings.timeout > 0 then [now] else []), which, now, now, now, r)
  }

  /** It can happen while the deadline is ahead, if its command's assertions hold. */
  lemma PromptTurnOk(w: World, pipe: seq<Request>, sub: seq<SubMsg>, which: Which, r: Reaction)
    requires w.clock < w.next && !which.Nobody?
    requires which.Pipe? ==> w.pipe.waiting + pipe != []
    requires which.Sub? ==> w.sub.waiting + sub != []
    requires var t := PromptTurn(w, pipe, sub, which, r);
      var c := CommandAt(Arrive(w, t), false, t);
      c.Some? ==> AssertsHold(w.settings, c.value)
    ensures var t := PromptTurn(w, pipe, sub, which, r); TurnOk(w, t) && !FiresIn(w, t)
  {
    hide AssertsHold, CommandAt;
  }

  // ---------------------------------------------------------------- the lifecycle

  /** The status field shows the event: for SOCK only when a message came in, since TRIGGER calls it too. */
  predicate StatusShown(e: Event) {
    (e.kind.TIME? || e.kind.API? || e.kind.FDSOCK? || e.kind.STOP? || (e.kind.SOCK? && e.msg.Some?))
    ==> e.status == e.kind
  }

  predicate LoopEvent(e: Event) {
    StatusShown(e) && (e.kind.TIME? || e.kind.SOCK? || e.kind.FDSOCK? || e.kind.API?)
  }

  lemma DispatchEvent(w: World, kind: Status, msg: Option<nat>, t: Turn)
    ensures Dispatch(w, kind, msg, t).trace == w.trace + [Event(kind, w.stats.status, msg)]
  {
  }

  predicate NotLifecycle(c: Option<Command>) {
    c.Some? ==> !c.value.Start? && !c.value.Stop?
  }

  predicate NoLifecycleCommands(w: World, ts: seq<Turn>)
    requires CanRun(w, ts)
    decreases |ts|
  {
    ts == [] || (NotLifecycle(CommandOf(w, ts[0])) && NoLifecycleCommands(Once(w, ts[0]), ts[1..]))
  }

  predicate LoopEvents(events: seq<Event>) {
    forall e :: e in events ==> LoopEvent(e)
  }

  /** The handler's clock read and then the one that arms the timer follow the actor's creation. */
  predicate StartOk(now: int, start: Turn) {
    0 <= now <= start.arm <= start.send
  }

  /** sphactor_actor_run on turns that end with the actor terminated. */
  function Lifetime(uuid: string, name: string, now: int, start: Turn, ts: seq<Turn>, stop: Turn, end: Turn): World
    requires CanRun(StartActor(New(uuid, name, now), start), ts)
    requires Turns(StartActor(New(uuid, name, now), start), ts).terminated
  {
    EndActor(StopActor(Turns(StartActor(New(uuid, name, now), start), ts), stop), end)
  }

  lemma InformEvent(w: World, kind: Status, t: Turn)
    ensures Inform(w, kind, t).trace == w.trace + [Event(kind, w.stats.status, None)]
  {
  }

  lemma StopEvent(w: World, t: Turn)
    ensures StopActor(w, t).trace == w.trace + [Event(Status.STOP, Status.STOP, None)]
  {
    hide Inform;
    InformEvent(Announce(w, Status.STOP), Status.STOP, t);
  }

  lemma EndEvent(w: World, t: Turn)
    ensures EndActor(w, t).trace
         == w.trace + [Event(DESTROY, if w.settings.reporting then DESTROY else w.stats.status, None)]
  {
    hide Inform;
    InformEvent(Announce(w, DESTROY), DESTROY, t);
    InformEvent(w, DESTROY, t);
  }

  lemma StartEvent(uuid: string, name: string, now: int, t: Turn)
    ensures StartActor(New(uuid, name, now), t).trace == [Event(INIT, INIT, None)]
  {
  }

  // ---------------------------------------------------------------- termination

  /** A turn terminates the actor exactly when the command it runs is $TERM. */
  lemma TerminatedExactly(w: World, t: Turn)
    requires TurnOk(w, t) && !w.terminated
    ensures Once(w, t).terminated <==> CommandOf(w, t) == Some(Term)
  {
    hide React, FiresIn, Advance, Possible;
    PolledReady(w, t);
    ReactKeeps(Polled(w, t), FiresIn(w, t), t);
  }

  predicate Parsed(r: Request) {
    r.command == Decode(r.frames)
  }

  lemma TermText(r: Request)
    requires Parsed(r) && r.frames != []
    ensures r.command.Term? <==> CString(r.frames[0]) == "$TERM"
  {
    VerbOfLast(TERM);
  }

  /**
   A command that reaches the actor through SUB terminates it exactly when its first frame reads
   "$TERM" as a C string without being those five characters; so never when frames hold no NUL.
   */
  lemma RemoteTerminatesExactly(w: World, t: Turn)
    requires TurnOk(w, t) && !w.terminated && !FiresIn(w, t) && t.which.Sub?
    requires var m := (w.sub.waiting + t.subArrivals)[0]; IsApi(m) && Parsed(m.request) && m.request.frames != []
    ensures var first := (w.sub.waiting + t.subArrivals)[0].request.frames[0];
      && (Once(w, t).terminated <==> CString(first) == "$TERM" && first != "$TERM")
      && (NulFree(first) ==> !Once(w, t).terminated)
  {
    var m := (w.sub.waiting + t.subArrivals)[0];
    TermText(m.request);
    TerminatedExactly(w, t);
    if NulFree(m.request.frames[0]) { CStringNulFree(m.request.frames[0]); }
  }

  /** A message on SUB whose command, if it is one, is in frames without NUL. */
  predicate PlainMessage(m: SubMsg) {
    IsApi(m) ==> Parsed(m.request) && m.request.frames != [] && NulFree(m.request.frames[0])
  }

  predicate PlainQueue(q: seq<SubMsg>) {
    forall m :: m in q ==> PlainMessage(m)
  }

  /** The turn reads $TERM from the pipe. */
  predicate EndsByPipe(w: World, t: Turn)
    requires TurnOk(w, t)
  {
    !FiresIn(w, t) && t.which.Pipe? && (w.pipe.waiting + t.pipeArrivals)[0].command.Term?
  }

  lemma TurnEndsByPipe(w: World, t: Turn)
    requires TurnOk(w, t) && !w.terminated && Once(w, t).terminated
    requires PlainQueue(w.sub.waiting + t.subArrivals)
    ensures EndsByPipe(w, t)
  {
    hide Once, FiresIn, Possible, NulFree, Parsed, AssertsHold;
    TerminatedExactly(w, t);
    if t.which.Sub? {
      var m := (w.sub.waiting + t.subArrivals)[0];
      assert PlainMessage(m);
      RemoteTerminatesExactly(w, t);
    }
  }

  lemma PlainStays(w: World, t: Turn)
    requires TurnOk(w, t) && PlainQueue(w.sub.waiting + t.subArrivals)
    ensures PlainQueue(Once(w, t).sub.waiting)
  {
    hide React, FiresIn, Advance, Possible, PlainMessage;
    PolledReady(w, t);
    PolledKeeps(w, t);
    ReactKeeps(Polled(w, t), FiresIn(w, t), t);
  }

  /** A run that terminates does so in its last turn, by a $TERM read from the pipe. */
  lemma {:induction false} PipeTerminates(w: World, ts: seq<Turn>)
    requires CanRun(w, ts) && !w.terminated && Turns(w, ts).terminated
    requires PlainQueue(w.sub.waiting) && forall t :: t in ts ==> PlainQueue(t.subArrivals)
    ensures ts != [] && CanRun(w, ts[..|ts| - 1])
    ensures var v, last := Turns(w, ts[..|ts| - 1]), ts[|ts| - 1]; TurnOk(v, last) && EndsByPipe(v, last)
    decreases |ts|
  {
    hide Once, TurnOk, EndsByPipe, PlainMessage;
    var t, v := ts[0], Once(w, ts[0]);
    assert t in ts;
    if v.terminated {
      assert ts == [t];
      TurnEndsByPipe(w, t);
    } else {
      PlainStays(w, t);
      PipeTerminates(v, ts[1..]);
      assert ts[..|ts| - 1][1..] == ts[1..][..|ts| - 2];
    }
  }
}
