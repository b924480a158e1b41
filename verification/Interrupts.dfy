/** The interrupt flag of a session, core/interrupt.go, and the error list of `DownloadFolder`,
    core/threading.go:26-56. Both are guarded by a mutex, so their methods are single steps. */
module Interrupts {
  import opened Common

  /** What happens to an interrupter, in the order in which it gets its mutex or its signals. */
  datatype Op = Registering | Signalling | Asking | Deregistering

  /** The channel of a registered interrupter, by the number of signals it holds; none if deregistered. */
  type Channel = Option<nat>

  predicate Answer(c: Channel) { c.None? || c.value > 0 }

  /** A signal that finds the channel full is dropped; a positive answer deregisters. */
  function Apply(c: Channel, room: nat, op: Op): Channel {
    match op
    case Registering => Some(0)
    case Signalling => if c.Some? && c.value < room then Some(c.value + 1) else c
    case Asking => if Answer(c) then None else c
    case Deregistering => None
  }

  function Replay(room: nat, ops: seq<Op>): Channel {
    if ops == [] then None else Apply(Replay(room, ops[..|ops| - 1]), room, ops[|ops| - 1])
  }

  /** Since the last registration nothing has happened but questions, all of them answered with no. */
  predicate Undisturbed(ops: seq<Op>) {
    ops != [] && match ops[|ops| - 1]
    case Registering => true
    case Asking => Undisturbed(ops[..|ops| - 1])
    case _ => false
  }

  /** The flag is sticky and loses nothing: the answer is no if and only if neither a signal nor a
      deregistration has come since the last registration. Asking does not reset it. */
  lemma {:induction false} AnswerIsSticky(room: nat, ops: seq<Op>)
    requires room > 0
    ensures Answer(Replay(room, ops)) <==> !Undisturbed(ops)
  {
    if ops == [] {
    } else {
      AnswerIsSticky(room, ops[..|ops| - 1]);
    }
  }

  /** Registered, and not deregistered since. */
  predicate Registered(ops: seq<Op>) {
    ops != [] && match ops[|ops| - 1]
    case Registering => true
    case Deregistering => false
    case _ => Registered(ops[..|ops| - 1])
  }

  lemma {:induction false} NothingArrives(ops: seq<Op>)
    ensures Replay(0, ops) == if Registered(ops) then Some(0) else None
  {
    if ops == [] {
    } else {
      NothingArrives(ops[..|ops| - 1]);
    }
  }

  lemma ReplayOneMore(room: nat, ops: seq<Op>, op: Op)
    ensures Replay(room, ops + [op]) == Apply(Replay(room, ops), room, op)
  {
    assert (ops + [op])[..|ops|] == ops;
  }

  class Interrupter {
    /** The number of kinds of signals waited for, which is the room in the channel. */
    const signals: nat
    var channel: Channel
    ghost var Ops: seq<Op>

    /** The channel is what everything that happened so far makes of it. */
    ghost predicate Valid()
      reads this
    {
      channel == Replay(signals, Ops)
    }

    /** `newInterruptOps` registers at once. */
    constructor (signals: nat)
      ensures Valid() && this.signals == signals && Ops == [Registering]
    {
      this.signals, channel, Ops := signals, Some(0), [Registering];
      new;
      ReplayOneMore(signals, [], Registering);
    }

    method Register()
      requires Valid()
      modifies this
      ensures Valid() && Ops == old(Ops) + [Registering]
    {
      ReplayOneMore(signals, Ops, Registering);
      channel, Ops := Some(0), Ops + [Registering];
    }

    /** `signal.Notify` never waits for room. */
    method Notify()
      requires Valid()
      modifies this
      ensures Valid() && Ops == old(Ops) + [Signalling]
    {
      hide Replay;
      ReplayOneMore(signals, Ops, Signalling);
      if channel.Some? {
        if channel.value < signals {
          channel := Some(channel.value + 1);
        }
      }
      Ops := Ops + [Signalling];
    }

    method Deregister()
      requires Valid()
      modifies this
      ensures Valid() && Ops == old(Ops) + [Deregistering]
    {
      ReplayOneMore(signals, Ops, Deregistering);
      channel, Ops := None, Ops + [Deregistering];
    }

    /** The answer is no if and only if neither a signal nor a deregistration has come since the last
        registration, however often it was asked for. Without room in the channel signals are lost. */
    method Interrupted() returns (yes: bool)
      requires Valid()
      modifies this
      ensures Valid() && Ops == old(Ops) + [Asking]
      ensures signals > 0 ==> (yes <==> !Undisturbed(old(Ops)))
      ensures signals == 0 ==> (yes <==> !Registered(old(Ops)))
      ensures yes ==> channel.None?
    {
      hide Replay, Undisturbed, Registered;
      if signals > 0 {
        AnswerIsSticky(signals, Ops);
      } else {
        NothingArrives(Ops);
      }
      ReplayOneMore(signals, Ops, Asking);
      Ops := Ops + [Asking];
      if channel.None? { return true; }
      if channel.value > 0 {
        channel := None;
        return true;
      }
      return false;
    }
  }

  // ---------- collected errors ----------

  class ThreadSafeErrors {
    var errs: seq<string>

    constructor ()
      ensures errs == []
    {
      errs := [];
    }

    /** A nil error is not added, and no error is ever dropped. */
    method Add(err: Option<string>)
      modifies this
      ensures errs == old(errs) + match err { case None => [] case Some(text) => [text] }
    {
      if err.Some? {
        errs := errs + [err.value];
      }
    }

    method Bad() returns (bad: bool)
      ensures bad <==> errs != []
    {
      bad := |errs| != 0;
    }
  }
}
