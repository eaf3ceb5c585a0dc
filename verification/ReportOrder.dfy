/** An actor builds its reports in order, which is what lets the mailbox's reader never see one go back. */
module ReportOrder {
  import opened Options
  import opened Reports
  import opened Wire
  import opened PollTimer
  import opened ActorModel
  import ActorRuns

  /** The reports are in order, none is newer than the current fields, and those lie in the past. */
  predicate UpTo(w: World, now: int) {
    && Sorted(w.reports)
    && (forall r :: r in w.reports ==> NotOlder(r, w.stats))
    && w.stats.recvTime <= now && w.stats.sendTime <= now
  }

  lemma AddReportUpTo(w: World, now: int)
    requires UpTo(w, now)
    ensures UpTo(AddReport(w), now)
  {
    var reports := w.reports + [w.stats];
    forall i, j | 0 <= i < j < |reports| ensures NotOlder(reports[i], reports[j]) {
      assert w.reports[i] in w.reports;
    }
  }

  lemma AnnounceUpTo(w: World, s: Status, now: int)
    requires UpTo(w, now)
    ensures UpTo(Announce(w, s), now)
  {
    AddReportUpTo(SetStatus(w, s), now);
  }

  lemma HandleUpTo(w: World, kind: Status, msg: Option<nat>, r: Reaction, arm: int, now: int)
    requires UpTo(w, now)
    ensures UpTo(Handle(w, kind, msg, r, arm), now)
  {
  }

  lemma DispatchUpTo(w: World, kind: Status, msg: Option<nat>, t: Turn, now: int)
    requires UpTo(w, now) && now <= t.send
    ensures UpTo(Dispatch(w, kind, msg, t), t.send)
  {
    hide Handle;
    HandleUpTo(w, kind, msg, t.reaction, t.arm, now);
  }

  lemma InformUpTo(w: World, kind: Status, t: Turn, now: int)
    requires UpTo(w, now)
    ensures UpTo(Inform(w, kind, t), now)
  {
    hide Handle;
    HandleUpTo(w, kind, None, t.reaction, t.arm, now);
  }

  lemma BuiltinUpTo(w: World, c: Command, t: Turn, now: int)
    requires UpTo(w, now) && now <= t.send
    ensures UpTo(Builtin(w, c, t), t.send)
  {
    hide Dispatch, Inform, Announce;
    DispatchUpTo(w, SOCK, None, t, now);
    InformUpTo(w.(replies := w.replies + [SIGNAL]), INIT, t, now);
    AnnounceUpTo(w, Status.STOP, now);
    InformUpTo(Announce(w, Status.STOP), Status.STOP, t, now);
  }

  lemma RecvApiUpTo(w: World, id: nat, c: Command, t: Turn, now: int)
    requires UpTo(w, now) && now <= t.send
    ensures UpTo(RecvApi(w, id, c, t), t.send)
  {
    hide Builtin, Handle, Reply, Announce;
    AnnounceUpTo(w, API, now);
    HandleUpTo(Announce(w, API), API, Some(id), t.reaction, t.arm, now);
    BuiltinUpTo(Announce(w, API), c, t, now);
  }

  lemma DataUpTo(w: World, id: nat, t: Turn, now: int)
    requires UpTo(w, now) && now <= t.recv <= t.send
    ensures UpTo(OnData(w, id, t), t.send)
  {
    hide Dispatch, AddReport;
    var v := SetStatus(w, SOCK);
    var seen := if w.settings.reporting then v.(stats := v.stats.(recvTime := t.recv)) else v;
    AddReportUpTo(seen, t.recv);
    DispatchUpTo(AddReport(seen), SOCK, Some(id), t, t.recv);
  }

  lemma ReactUpTo(w: World, fires: bool, t: Turn, now: int)
    requires t.which.Pipe? ==> w.pipe.waiting != []
    requires t.which.Sub? ==> w.sub.waiting != []
    requires UpTo(w, now) && now <= t.recv <= t.send
    ensures UpTo(React(w, fires, t), t.send)
  {
    hide Dispatch, RecvApi, AnswerApi, OnData, Filtered, Announce;
    var id := w.messages.built;
    if fires {
      AnnounceUpTo(w, TIME, now);
      DispatchUpTo(Announce(w, TIME), TIME, None, t, now);
    } else if t.which.Pipe? {
      RecvApiUpTo(ReadPipe(w), id, w.pipe.waiting[0].command, t, now);
    } else if t.which.Sub? {
      var m := w.sub.waiting[0];
      if IsApi(m) { RecvApiUpTo(ReadSub(w), id, m.request.command, t, now); } else { DataUpTo(ReadSub(w), id, t, now); }
    } else {
      AnnounceUpTo(w, FDSOCK, now);
      DispatchUpTo(Build(Announce(w, FDSOCK)), FDSOCK, Some(id), t, now);
    }
  }

  lemma OnceUpTo(w: World, t: Turn)
    requires TurnOk(w, t) && UpTo(w, w.clock) && w.stats.iterations < TWO_64 - 1
    ensures UpTo(Once(w, t), t.send) && Once(w, t).stats.iterations == w.stats.iterations + 1
  {
    hide React, FiresIn, Announce;
    assert w.clock <= LastRead(t.poll);
    AnnounceUpTo(Arrive(w, t), IDLE, w.clock);
    PolledReady(w, t);
    ReactUpTo(Polled(w, t), FiresIn(w, t), t, w.clock);
    ActorRuns.PolledKeeps(w, t);
    ActorRuns.ReactKeeps(Polled(w, t), FiresIn(w, t), t);
  }

  lemma {:induction false} TurnsUpTo(w: World, ts: seq<Turn>)
    requires CanRun(w, ts) && UpTo(w, w.clock) && w.stats.iterations + |ts| < TWO_64
    ensures UpTo(Turns(w, ts), Turns(w, ts).clock)
    decreases |ts|
  {
    hide Once, TurnOk, UpTo;
    if ts != [] {
      OnceUpTo(w, ts[0]);
      ActorRuns.OnceClock(w, ts[0]);
      TurnsUpTo(Once(w, ts[0]), ts[1..]);
    }
  }

  lemma StartUpTo(uuid: string, name: string, now: int, start: Turn)
    requires ActorRuns.StartOk(now, start)
    ensures var w := StartActor(New(uuid, name, now), start); UpTo(w, w.clock) && w.stats.iterations == 0
  {
    hide Inform;
    var w0 := New(uuid, name, now);
    InformUpTo(w0.(replies := w0.replies + [SIGNAL]), INIT, start, now);
    StartIterations(w0, start);
  }

  /**
   The reports of an actor that was started, up to any point of its loop and whether it ever ends or not, do not
   go backwards in iterations, recv_time or send_time for 2^64 calls.
   */
  lemma {:induction false} ReportsSorted(uuid: string, name: string, now: int, start: Turn, ts: seq<Turn>)
    requires ActorRuns.StartOk(now, start) && |ts| < TWO_64
    requires CanRun(StartActor(New(uuid, name, now), start), ts)
    ensures Sorted(Turns(StartActor(New(uuid, name, now), start), ts).reports)
  {
    hide StartActor, New, CanRun, Turns;
    StartUpTo(uuid, name, now, start);
    TurnsUpTo(StartActor(New(uuid, name, now), start), ts);
  }

  /** Neither do those of a whole life. */
  lemma {:induction false} LifeReportsSorted(uuid: string, name: string, now: int, start: Turn, ts: seq<Turn>,
                                             stop: Turn, end: Turn)
    requires ActorRuns.StartOk(now, start) && |ts| < TWO_64
    requires CanRun(StartActor(New(uuid, name, now), start), ts)
    requires Turns(StartActor(New(uuid, name, now), start), ts).terminated
    ensures Sorted(ActorRuns.Lifetime(uuid, name, now, start, ts, stop, end).reports)
  {
    hide Inform, Announce, StartActor, New, CanRun, Turns;
    var w := StartActor(New(uuid, name, now), start);
    StartUpTo(uuid, name, now, start);
    TurnsUpTo(w, ts);
    var v := Turns(w, ts);
    AnnounceUpTo(v, Status.STOP, v.clock);
    InformUpTo(Announce(v, Status.STOP), Status.STOP, stop, v.clock);
    var s := StopActor(v, stop);
    AnnounceUpTo(s, DESTROY, v.clock);
    InformUpTo(Announce(s, DESTROY), DESTROY, end, v.clock);
    InformUpTo(s, DESTROY, end, v.clock);
  }

  lemma StartIterations(w: World, t: Turn)
    ensures StartActor(w, t).stats == w.stats && StartActor(w, t).clock == t.send
  {
  }
}
