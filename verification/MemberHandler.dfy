/**
 The C++ base class for actors (libsphactor.hpp): handleMsg calls the overridden handler for an event
 and sees to it that the event's message ends up in exactly one place.
 */
module MemberHandler {
  import opened Options
  import opened Reports
  import opened ActorModel
  import MessageLedger

  /** What an overridden handler does with its event: destroy the message or not, and return a pointer. */
  datatype Override = Override(destroys: bool, result: Pointer)

  datatype Pointer = NullPointer | EventMessage | NewMessage(id: nat)

  /** DESTROY deletes the object, an unknown event is logged; every other event has a handler. */
  predicate Handled(kind: Option<Status>) {
    kind.Some? && !kind.value.DESTROY? && !kind.value.IDLE?
  }

  function PointerTo(o: Override, msg: Option<nat>): Option<nat> {
    match o.result
    case NullPointer => None
    case EventMessage => msg
    case NewMessage(id) => Some(id)
  }

  class Event {
    var msg: Option<nat>

    constructor (msg: Option<nat>)
      ensures this.msg == msg
    {
      this.msg := msg;
    }
  }

  class Sphactor {
    var deleted: bool
    var freed: seq<nat>      // the messages destroyed, in order

    constructor ()
      ensures !deleted && freed == []
    {
      deleted, freed := false, [];
    }

    method DestroyMessage(ev: Event)
      requires ev.msg.Some?
      modifies this`freed, ev
      ensures freed == old(freed) + [old(ev.msg).value] && ev.msg == None
    {
      freed := freed + [ev.msg.value];
      ev.msg := None;
    }

    method CallOverride(ev: Event, o: Override) returns (ret: Option<nat>)
      modifies this`freed, ev
      ensures ret == PointerTo(o, old(ev.msg))
      ensures ev.msg == (if o.destroys then None else old(ev.msg))
      ensures freed == (if o.destroys && old(ev.msg).Some? then old(freed) + [old(ev.msg).value] else old(freed))
    {
      ret := PointerTo(o, ev.msg);
      if o.destroys && ev.msg.Some? { DestroyMessage(ev); }
    }

    /**
     handleMsg: what the handler returned is passed on, unless the event has no handler; the event's message
     is destroyed, once, exactly when ReactionOf says so.
     */
    method HandleMsg(ev: Event, kind: Option<Status>, o: Override) returns (ret: Option<nat>)
      requires kind == Some(FDSOCK) ==> ev.msg.Some?
      requires o.result.NewMessage? ==> ev.msg != Some(o.result.id)
      modifies this, ev
      ensures ret == (if Handled(kind) then PointerTo(o, old(ev.msg)) else None)
      ensures deleted == (old(deleted) || kind == Some(DESTROY))
      ensures freed == (if ReactionOf(kind, old(ev.msg), o, []).destroyed
                        then old(freed) + [old(ev.msg).value] else old(freed))
      ensures ev.msg.Some? ==> ret == ev.msg
      ensures kind in {Some(INIT), Some(TIME), Some(API), Some(SOCK), Some(FDSOCK), Some(Status.STOP)} ==>
        && (o.result.NullPointer? ==> ret == None)
        && (o.result.EventMessage? ==> ret == old(ev.msg))
        && (o.result.NewMessage? ==> ret == Some(o.result.id))
      ensures kind in {None, Some(DESTROY), Some(IDLE)} ==> ret == None && ev.msg == None
      ensures old(ev.msg).Some? && freed == old(freed) ==> ret == old(ev.msg)
    {
      ret := None;
      if Handled(kind) {
        ret := CallOverride(ev, o);
      } else if kind == Some(DESTROY) {
        deleted := true;
      }
      if ev.msg.Some? && ret != ev.msg { DestroyMessage(ev); }
    }
  }

  /** How a call of handleMsg looks to run_once. */
  function ReactionOf(kind: Option<Status>, msg: Option<nat>, o: Override, body: seq<string>): Reaction {
    var ret := if Handled(kind) then PointerTo(o, msg) else None;
    Reaction(if ret.None? then Null else if ret == msg then Same(body) else Other(body),
             msg.Some? && (ret != msg || (Handled(kind) && o.destroys)),
             None)
  }

  /** A handler that destroys the message of its event and returns it all the same. */
  predicate ReturnsDestroyed(kind: Option<Status>, msg: Option<nat>, o: Override) {
    Handled(kind) && msg.Some? && o.destroys && o.result.EventMessage?
  }

  /**
   An actor built on the base class keeps the message contract of the event loop whatever it overrides,
   except that no override may return the message it has destroyed.
   */
  lemma HandleMsgKeepsContractExactly(kind: Option<Status>, msg: Option<nat>, o: Override, body: seq<string>)
    requires o.result.NewMessage? ==> msg != Some(o.result.id)
    ensures MessageLedger.Kept(ReactionOf(kind, msg, o, body), msg) <==> !ReturnsDestroyed(kind, msg, o)
  {
  }
}
