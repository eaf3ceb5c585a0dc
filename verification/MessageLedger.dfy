/**
 Ownership of messages: every zmsg_t received, built or returned during a run is destroyed or handed
 to a socket exactly once. A handler keeps its side of this when it either returns or destroys the
 message of its event (MemberHandler shows that handleMsg makes any handler do so).
 */
module MessageLedger {
  import opened Options
  import opened Reports
  import opened Wire
  import opened PollTimer
  import opened ActorModel
  import ActorRuns

  /** Given a message with its event, the handler returns it or destroys it, and not both. */
  predicate Kept(r: Reaction, msg: Option<nat>) {
    msg.Some? ==> (r.destroyed <==> !r.outcome.Same?)
  }

  /** Everything built so far was let go exactly once, except message open, which is still held. */
  ghost predicate Open(m: Messages, open: Option<nat>) {
    forall i: nat :: m.released[i] == (if i < m.built && open != Some(i) then 1 else 0)
  }

  ghost predicate Balanced(w: World) {
    Open(w.messages, None)
  }

  /** Message id has been built and is held. */
  ghost predicate Holds(w: World, id: nat) {
    id < w.messages.built && Open(w.messages, Some(id))
  }

  /** After a call of the handler, what it returned is all that is held. */
  lemma HandleHolds(w: World, kind: Status, msg: Option<nat>, r: Reaction, now: int)
    requires Kept(r, msg) && Open(w.messages, msg) && (msg.Some? ==> msg.value < w.messages.built)
    ensures var v, back := Handle(w, kind, msg, r, now), Returned(w, msg, r);
      Open(v.messages, back) && (back.Some? ==> back.value < v.messages.built)
  {
  }

  lemma DispatchBalanced(w: World, kind: Status, msg: Option<nat>, t: Turn)
    requires Kept(t.reaction, msg) && Open(w.messages, msg) && (msg.Some? ==> msg.value < w.messages.built)
    ensures Balanced(Dispatch(w, kind, msg, t))
  {
    hide Handle, Returned;
    HandleHolds(w, kind, msg, t.reaction, t.arm);
  }

  lemma InformBalanced(w: World, kind: Status, t: Turn)
    requires Balanced(w)
    ensures Balanced(Inform(w, kind, t))
  {
    hide Handle, Returned;
    HandleHolds(w, kind, None, t.reaction, t.arm);
  }

  /** The same, while the caller holds another message. */
  lemma InformHolds(w: World, kind: Status, t: Turn, id: nat)
    requires Holds(w, id)
    ensures Holds(Inform(w, kind, t), id)
  {
  }

  lemma SendHolds(w: World, body: Frames, now: int, id: nat)
    requires Holds(w, id)
    ensures Holds(SendBody(w, body, now), id)
  {
  }

  /** TRIGGER lets its result go twice. */
  lemma TriggerHolds(w: World, t: Turn, id: nat)
    requires Holds(w, id)
    ensures var v := TriggerActor(w, t);
      && id < v.messages.built
      && (t.reaction.outcome.Other? ==>
            w.messages.built < v.messages.built && v.messages.released[w.messages.built] == 2)
      && (!t.reaction.outcome.Other? ==> Holds(v, id))
  {
  }

  /** The one command that breaks the ledger: TRIGGER when its handler returns a message. */
  predicate DoubleFrees(c: Command, r: Reaction) {
    c.Trigger? && r.outcome.Other?
  }

  lemma BuiltinHolds(w: World, c: Command, t: Turn, id: nat)
    requires Holds(w, id) && !DoubleFrees(c, t.reaction)
    ensures Holds(Builtin(w, c, t), id)
  {
    hide Inform, TriggerActor, SendBody;
    InformHolds(w.(replies := w.replies + [SIGNAL]), INIT, t, id);
    InformHolds(Announce(w, Status.STOP), Status.STOP, t, id);
    TriggerHolds(w, t, id);
    if c.Send? { SendHolds(w, c.body, t.send, id); }
  }

  function IdOf(a: Answer): Option<nat> {
    if a.Message? then Some(a.id) else None
  }

  lemma RecvApiHolds(w: World, id: nat, c: Command, t: Turn)
    requires Holds(w, id) && !DoubleFrees(c, t.reaction) && (c.Unknown? ==> Kept(t.reaction, Some(id)))
    ensures var v, a := RecvApi(w, id, c, t), AnswerApi(w, id, c, t);
      Open(v.messages, IdOf(a)) && (a.Message? ==> a.id < v.messages.built)
  {
    hide Builtin, Handle, Returned, Reply;
    if c.Unknown? {
      HandleHolds(Announce(w, API), API, Some(id), t.reaction, t.arm);
    } else {
      BuiltinHolds(Announce(w, API), c, t, id);
    }
  }

  /** A message let go twice stays so. */
  lemma RecvApiDoubleFrees(w: World, id: nat, c: Command, t: Turn)
    requires Holds(w, id) && DoubleFrees(c, t.reaction)
    ensures var v := RecvApi(w, id, c, t);
      w.messages.built < v.messages.built && v.messages.released[w.messages.built] >= 2
    ensures AnswerApi(w, id, c, t).Nothing?
  {
    hide TriggerActor;
    TriggerHolds(Announce(w, API), t, id);
  }

  lemma PipeBalanced(w: World, t: Turn)
    requires w.pipe.waiting != [] && Balanced(w)
    requires w.pipe.waiting[0].command.Unknown? ==> Kept(t.reaction, Some(w.messages.built))
    ensures Balanced(OnPipe(w, t)) <==> !DoubleFrees(w.pipe.waiting[0].command, t.reaction)
  {
    hide RecvApi, AnswerApi, Holds;
    var v, id, c := ReadPipe(w), w.messages.built, w.pipe.waiting[0].command;
    ReadIsHeld(w, v);
    if DoubleFrees(c, t.reaction) {
      RecvApiDoubleFrees(v, id, c, t);
      assert OnPipe(w, t).messages.released[v.messages.built] >= 2;
    } else {
      RecvApiHolds(v, id, c, t);
    }
  }

  lemma ReadIsHeld(w: World, v: World)
    requires Balanced(w) && v.messages == Build(w).messages
    ensures Holds(v, w.messages.built)
  {
  }

  lemma RemoteBalanced(w: World, id: nat, c: Command, t: Turn)
    requires Holds(w, id) && (c.Unknown? ==> Kept(t.reaction, Some(id)))
    ensures Balanced(OnRemote(w, id, c, t)) <==> !DoubleFrees(c, t.reaction)
  {
    hide RecvApi, AnswerApi, Holds;
    if DoubleFrees(c, t.reaction) {
      RecvApiDoubleFrees(w, id, c, t);
      assert OnRemote(w, id, c, t).messages.released[w.messages.built] >= 2;
    } else {
      RecvApiHolds(w, id, c, t);
    }
  }

  lemma SubBalanced(w: World, t: Turn)
    requires w.sub.waiting != [] && Balanced(w)
    requires var m := w.sub.waiting[0];
      !IsApi(m) || (!Filtered(m) && m.request.command.Unknown?) ==> Kept(t.reaction, Some(w.messages.built))
    ensures var m := w.sub.waiting[0];
      Balanced(OnSub(w, t)) <==> !Filtered(m) && !(IsApi(m) && DoubleFrees(m.request.command, t.reaction))
  {
    hide OnRemote, Dispatch, Filtered;
    var m, v, id := w.sub.waiting[0], ReadSub(w), w.messages.built;
    ReadIsHeld(w, v);
    if Filtered(m) {
      FilteredIsApi(m);
      assert v.messages.released[id] == 0;
    } else if IsApi(m) {
      RemoteBalanced(v, id, m.request.command, t);
    } else {
      var seen := SetStatus(v, SOCK);
      DispatchBalanced(AddReport(seen), SOCK, Some(id), t);
      DispatchBalanced(AddReport(seen.(stats := seen.stats.(recvTime := t.recv))), SOCK, Some(id), t);
    }
  }

  lemma FilteredIsApi(m: SubMsg)
    ensures Filtered(m) ==> IsApi(m)
  {
  }

  /** A turn that leaks or frees twice: TRIGGER with a result, or a remote $TERM. */
  predicate BreaksLedger(w: World, t: Turn)
    requires ReaderReady(w, t)
  {
    || (CommandOf(w, t).Some? && DoubleFrees(CommandOf(w, t).value, t.reaction))
    || (!FiresIn(w, t) && t.which.Sub? && Filtered((w.sub.waiting + t.subArrivals)[0]))
  }

  /** The message that the handler is given after the poll: a command of its own, data, or a socket's. */
  function Carried(w: World, fires: bool, t: Turn): Option<nat>
    requires t.which.Pipe? ==> w.pipe.waiting != []
    requires t.which.Sub? ==> w.sub.waiting != []
  {
    var c := CommandAt(w, fires, t);
    if fires || (c.Some? && !c.value.Unknown?) || (t.which.Sub? && Filtered(w.sub.waiting[0])) then None
    else Some(w.messages.built)
  }

  /** The handler keeps its side in this turn. */
  predicate KeptIn(w: World, t: Turn)
    requires ReaderReady(w, t)
  {
    Kept(t.reaction, Carried(Arrive(w, t), FiresIn(w, t), t))
  }

  lemma SameCarried(p: World, v: World, fires: bool, t: Turn)
    requires v.pipe == p.pipe && v.sub == p.sub && v.messages == p.messages
    requires t.which.Pipe? ==> p.pipe.waiting != []
    requires t.which.Sub? ==> p.sub.waiting != []
    ensures Carried(v, fires, t) == Carried(p, fires, t)
  {
    hide Filtered;
  }

  lemma ReactBalanced(w: World, fires: bool, t: Turn)
    requires t.which.Pipe? ==> w.pipe.waiting != []
    requires t.which.Sub? ==> w.sub.waiting != []
    requires Balanced(w) && Kept(t.reaction, Carried(w, fires, t))
    ensures Balanced(React(w, fires, t)) <==>
      && (CommandAt(w, fires, t).Some? ==> !DoubleFrees(CommandAt(w, fires, t).value, t.reaction))
      && (!fires && t.which.Sub? ==> !Filtered(w.sub.waiting[0]))
  {
    hide OnPipe, OnSub, Dispatch, Filtered, DoubleFrees;
    if fires {
      DispatchBalanced(Announce(w, TIME), TIME, None, t);
    } else if t.which.Pipe? {
      PipeBalanced(w, t);
    } else if t.which.Sub? {
      FilteredIsApi(w.sub.waiting[0]);
      SubBalanced(w, t);
    } else {
      ReadIsHeld(w, Build(Announce(w, FDSOCK)));
      DispatchBalanced(Build(Announce(w, FDSOCK)), FDSOCK, Some(w.messages.built), t);
    }
  }

  /** A turn keeps the ledger balanced exactly when it is neither of the two that break it. */
  lemma TurnBalancedExactly(w: World, t: Turn)
    requires TurnOk(w, t) && KeptIn(w, t) && Balanced(w)
    ensures Balanced(Once(w, t)) <==> !BreaksLedger(w, t)
  {
    hide React, FiresIn, Filtered, DoubleFrees, Announce, Carried;
    PolledReady(w, t);
    SameMessages(w, t);
    SameCarried(Arrive(w, t), Polled(w, t), FiresIn(w, t), t);
    ReactBalanced(Polled(w, t), FiresIn(w, t), t);
  }

  lemma SameMessages(w: World, t: Turn)
    requires TurnOk(w, t)
    ensures Polled(w, t).messages == w.messages
    ensures Polled(w, t).pipe == Arrive(w, t).pipe && Polled(w, t).sub == Arrive(w, t).sub
  {
  }

  /** TRIGGER, its handler returning a message, lets that message go twice. */
  lemma TriggerFreesTwice(w: World, frames: Frames) returns (t: Turn)
    requires Balanced(w) && w.pipe.waiting == [] && w.clock < w.next
    ensures TurnOk(w, t) && KeptIn(w, t)
    ensures var v, id := Once(w, t), w.messages.built + 1; id < v.messages.built && v.messages.released[id] == 2
  {
    hide Reply, Handle;
    var r, request := Reaction(Other(frames), true, None), Request(Encode(Command.Trigger), Command.Trigger);
    t := ActorRuns.PromptTurn(w, [request], [], Which.Pipe, r);
    ActorRuns.PromptTurnOk(w, [request], [], Which.Pipe, r);
    PolledReady(w, t);
    SameMessages(w, t);
    TriggerOnPipe(Polled(w, t), t);
  }

  lemma TriggerOnPipe(w: World, t: Turn)
    requires Balanced(w) && w.pipe.waiting != [] && w.pipe.waiting[0].command.Trigger?
    requires t.reaction.outcome.Other?
    ensures var v, id := OnPipe(w, t), w.messages.built + 1; id < v.messages.built && v.messages.released[id] == 2
  {
    hide TriggerActor, Holds;
    ReadIsHeld(w, ReadPipe(w));
    HoldsAnnounced(ReadPipe(w), w.messages.built);
    TriggerHolds(Announce(ReadPipe(w), API), t, w.messages.built);
  }

  lemma HoldsAnnounced(w: World, id: nat)
    requires Holds(w, id)
    ensures Holds(Announce(w, API), id)
  {
  }

  /** A remote $TERM is read and never let go. */
  lemma RemoteTermLeaks(w: World) returns (t: Turn)
    requires Balanced(w) && w.sub.waiting == [] && w.clock < w.next
    ensures TurnOk(w, t) && KeptIn(w, t)
    ensures var v, id := Once(w, t), w.messages.built; id < v.messages.built && v.messages.released[id] == 0
  {
    hide Handle, Dispatch, OnRemote;
    var r, m := Reaction(Null, true, None), Signalled(1, Request(["$TERM"], Term));
    t := ActorRuns.PromptTurn(w, [], [m], Which.Sub, r);
    ActorRuns.PromptTurnOk(w, [], [m], Which.Sub, r);
    PolledReady(w, t);
    SameMessages(w, t);
  }

  predicate CleanRun(w: World, ts: seq<Turn>)
    requires CanRun(w, ts)
    decreases |ts|
  {
    ts == [] || (!BreaksLedger(w, ts[0]) && CleanRun(Once(w, ts[0]), ts[1..]))
  }

  /** The handler keeps its side in every turn of the run. */
  predicate KeptRun(w: World, ts: seq<Turn>)
    requires CanRun(w, ts)
    decreases |ts|
  {
    ts == [] || (KeptIn(w, ts[0]) && KeptRun(Once(w, ts[0]), ts[1..]))
  }

  // ---------------------------------------------------------------- nothing is repaired later

  /** Messages below n and messages not built yet are left alone. */
  ghost predicate Touches(w: World, v: World, n: nat) {
    && w.messages.built <= v.messages.built
    && forall i: nat :: i < n || i >= v.messages.built ==> v.messages.released[i] == w.messages.released[i]
  }

  predicate Within(w: World, id: Option<nat>, n: nat) {
    id.Some? ==> n <= id.value < w.messages.built
  }

  lemma HandleTouches(w: World, kind: Status, msg: Option<nat>, r: Reaction, now: int, n: nat)
    requires n <= w.messages.built && Within(w, msg, n)
    ensures Touches(w, Handle(w, kind, msg, r, now), n)
    ensures Within(Handle(w, kind, msg, r, now), Returned(w, msg, r), n)
  {
  }

  lemma DispatchTouches(w: World, kind: Status, msg: Option<nat>, t: Turn, n: nat)
    requires n <= w.messages.built && Within(w, msg, n)
    ensures Touches(w, Dispatch(w, kind, msg, t), n)
    ensures Within(Dispatch(w, kind, msg, t), Returned(w, msg, t.reaction), n)
  {
    hide Handle, Returned;
    HandleTouches(w, kind, msg, t.reaction, t.arm, n);
  }

  lemma InformTouches(w: World, kind: Status, t: Turn, n: nat)
    requires n <= w.messages.built
    ensures Touches(w, Inform(w, kind, t), n)
  {
    hide Handle, Returned;
    HandleTouches(w, kind, None, t.reaction, t.arm, n);
  }

  lemma TriggerTouches(w: World, t: Turn, n: nat)
    requires n <= w.messages.built
    ensures Touches(w, TriggerActor(w, t), n)
  {
    hide Dispatch, Returned;
    DispatchTouches(w, SOCK, None, t, n);
  }

  lemma SendTouches(w: World, body: Frames, now: int, n: nat)
    requires n <= w.messages.built
    ensures Touches(w, SendBody(w, body, now), n)
  {
  }

  lemma BuiltinTouches(w: World, c: Command, t: Turn, n: nat)
    requires n <= w.messages.built
    ensures Touches(w, Builtin(w, c, t), n)
  {
    hide Inform, TriggerActor, SendBody;
    InformTouches(w.(replies := w.replies + [SIGNAL]), INIT, t, n);
    InformTouches(Announce(w, Status.STOP), Status.STOP, t, n);
    TriggerTouches(w, t, n);
    if c.Send? { SendTouches(w, c.body, t.send, n); }
  }

  lemma RecvApiTouches(w: World, id: nat, c: Command, t: Turn, n: nat)
    requires n <= id < w.messages.built
    ensures Touches(w, RecvApi(w, id, c, t), n)
    ensures Within(RecvApi(w, id, c, t), IdOf(AnswerApi(w, id, c, t)), n)
  {
    hide Builtin, Handle, Returned, Reply;
    HandleTouches(Announce(w, API), API, Some(id), t.reaction, t.arm, n);
    BuiltinTouches(Announce(w, API), c, t, n);
  }

  lemma PipeTouches(w: World, t: Turn)
    requires w.pipe.waiting != []
    ensures Touches(w, OnPipe(w, t), w.messages.built)
  {
    hide RecvApi, AnswerApi;
    RecvApiTouches(ReadPipe(w), w.messages.built, w.pipe.waiting[0].command, t, w.messages.built);
  }

  lemma SubTouches(w: World, t: Turn)
    requires w.sub.waiting != []
    ensures Touches(w, OnSub(w, t), w.messages.built)
  {
    hide RecvApi, AnswerApi, Dispatch, Filtered;
    var m, v, id := w.sub.waiting[0], ReadSub(w), w.messages.built;
    var seen := SetStatus(v, SOCK);
    if IsApi(m) { RecvApiTouches(v, id, m.request.command, t, id); }
    DispatchTouches(AddReport(seen), SOCK, Some(id), t, id);
    DispatchTouches(AddReport(seen.(stats := seen.stats.(recvTime := t.recv))), SOCK, Some(id), t, id);
  }

  lemma TurnTouches(w: World, t: Turn)
    requires TurnOk(w, t)
    ensures Touches(w, Once(w, t), w.messages.built)
  {
    hide OnPipe, OnSub, Dispatch, FiresIn, Announce, Touches;
    PolledReady(w, t);
    SameMessages(w, t);
    ReactTouches(Polled(w, t), FiresIn(w, t), t);
    TouchesMessages(Polled(w, t), React(Polled(w, t), FiresIn(w, t), t), w, Once(w, t));
  }

  lemma TouchesMessages(w: World, v: World, w': World, v': World)
    requires w'.messages == w.messages && v'.messages == v.messages
    requires Touches(w, v, w.messages.built)
    ensures Touches(w', v', w'.messages.built)
  {
  }

  lemma ReactTouches(w: World, fires: bool, t: Turn)
    requires t.which.Pipe? ==> w.pipe.waiting != []
    requires t.which.Sub? ==> w.sub.waiting != []
    ensures Touches(w, React(w, fires, t), w.messages.built)
  {
    hide OnPipe, OnSub, Dispatch;
    var n := w.messages.built;
    if fires {
      DispatchTouches(Announce(w, TIME), TIME, None, t, n);
    } else if t.which.Pipe? {
      PipeTouches(w, t);
    } else if t.which.Sub? {
      SubTouches(w, t);
    } else {
      DispatchTouches(Build(Announce(w, FDSOCK)), FDSOCK, Some(n), t, n);
    }
  }

  /** Some message was not let go exactly once. */
  ghost predicate Spoiled(w: World) {
    exists i: nat :: i < w.messages.built && w.messages.released[i] != 1
  }

  ghost predicate NoneAhead(w: World) {
    forall i: nat :: i >= w.messages.built ==> w.messages.released[i] == 0
  }

  lemma BalancedIsClean(w: World)
    ensures Balanced(w) <==> !Spoiled(w) && NoneAhead(w)
  {
  }

  lemma SpoiledStays(w: World, v: World)
    requires Touches(w, v, w.messages.built)
    ensures Spoiled(w) ==> Spoiled(v)
    ensures NoneAhead(w) ==> NoneAhead(v)
  {
    if i: nat :| i < w.messages.built && w.messages.released[i] != 1 {
      assert v.messages.released[i] == w.messages.released[i];
    }
  }

  lemma {:induction false} TurnsSpoiled(w: World, ts: seq<Turn>)
    requires CanRun(w, ts) && Spoiled(w)
    ensures Spoiled(Turns(w, ts))
    decreases |ts|
  {
    hide Once, TurnOk, Spoiled, Touches;
    if ts != [] {
      TurnTouches(w, ts[0]);
      SpoiledStays(w, Once(w, ts[0]));
      TurnsSpoiled(Once(w, ts[0]), ts[1..]);
    }
  }

  /** A run on handlers that keep their contract is balanced at its end if and only if no turn broke the ledger. */
  lemma {:induction false} TurnsBalancedExactly(w: World, ts: seq<Turn>)
    requires CanRun(w, ts) && KeptRun(w, ts) && Balanced(w)
    ensures Balanced(Turns(w, ts)) <==> CleanRun(w, ts)
    ensures !Balanced(Turns(w, ts)) ==> Spoiled(Turns(w, ts))
    decreases |ts|
  {
    hide Once, Possible, CommandOf, Balanced, KeptIn, BreaksLedger, Spoiled, Touches, NoneAhead;
    if ts != [] {
      var v := Once(w, ts[0]);
      TurnBalancedExactly(w, ts[0]);
      if BreaksLedger(w, ts[0]) {
        TurnTouches(w, ts[0]);
        SpoiledStays(w, v);
        BalancedIsClean(w);
        BalancedIsClean(v);
        TurnsSpoiled(v, ts[1..]);
        BalancedIsClean(Turns(w, ts));
      } else {
        TurnsBalancedExactly(v, ts[1..]);
      }
    }
  }

  /**
   Over a whole life on such handlers every message object is let go exactly once if and only if no turn was
   a TRIGGER with a result or a remote $TERM.
   */
  lemma {:induction false} EveryMessageOnce(uuid: string, name: string, now: int, start: Turn, ts: seq<Turn>,
                                            stop: Turn, end: Turn)
    requires CanRun(StartActor(New(uuid, name, now), start), ts)
    requires Turns(StartActor(New(uuid, name, now), start), ts).terminated
    requires KeptRun(StartActor(New(uuid, name, now), start), ts)
    ensures var m := ActorRuns.Lifetime(uuid, name, now, start, ts, stop, end).messages;
      (forall i: nat :: m.released[i] == (if i < m.built then 1 else 0))
      <==> CleanRun(StartActor(New(uuid, name, now), start), ts)
  {
    hide Inform, CanRun, Turns, CleanRun, KeptRun, Spoiled, Touches;
    var w0 := New(uuid, name, now);
    InformBalanced(w0.(replies := w0.replies + [SIGNAL]), INIT, start);
    var w := StartActor(w0, start);
    TurnsBalancedExactly(w, ts);
    var v := Turns(w, ts);
    if CleanRun(w, ts) { EndBalanced(v, stop, end); } else { EndSpoiled(v, stop, end); }
    BalancedIsClean(EndActor(StopActor(v, stop), end));
  }

  lemma EndBalanced(v: World, stop: Turn, end: Turn)
    requires Balanced(v)
    ensures Balanced(EndActor(StopActor(v, stop), end))
  {
    hide Inform;
    InformBalanced(Announce(v, Status.STOP), Status.STOP, stop);
    var s := StopActor(v, stop);
    InformBalanced(Announce(s, DESTROY), DESTROY, end);
    InformBalanced(s, DESTROY, end);
  }

  lemma EndSpoiled(v: World, stop: Turn, end: Turn)
    requires Spoiled(v)
    ensures Spoiled(EndActor(StopActor(v, stop), end))
  {
    hide Inform, Spoiled;
    InformSpoiled(v, Announce(v, Status.STOP), Status.STOP, stop);
    var s := StopActor(v, stop);
    InformSpoiled(s, Announce(s, DESTROY), DESTROY, end);
    InformSpoiled(s, s, DESTROY, end);
  }

  lemma InformSpoiled(w: World, w': World, kind: Status, t: Turn)
    requires Spoiled(w) && w'.messages == w.messages
    ensures Spoiled(Inform(w', kind, t))
  {
    hide Inform;
    InformTouches(w', kind, t, w'.messages.built);
    SpoiledStays(w', Inform(w', kind, t));
  }
}
