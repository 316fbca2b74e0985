/** The supervisor's control queue: two priorities and a flag. */
module Ctl {

  datatype Msg = Restart(why: string) | Stop

  /** The queue as a value. Only `Stop` is ever urgent. */
  datatype Inbox = Inbox(urgent: seq<Msg>, normal: seq<Msg>, stopping: bool, listening: bool, senders: bool)
  {
    predicate Valid() {
      && (forall m <- urgent :: m.Stop?)
      && (forall m <- normal :: m.Restart?)
    }

    /** A stop that has not been taken yet, or whose sender has finished sending. */
    predicate StopKnown() {
      urgent != [] || stopping
    }

    // Sending a stop is two steps, and a receiver may run between them.
    function PushStop(): Inbox {
      if listening then this.(urgent := urgent + [Stop]) else this
    }

    function MarkStopping(): Inbox {
      this.(stopping := true)
    }

    function PushRestart(why: string): Inbox {
      if stopping || !listening then this else this.(normal := normal + [Restart(why)])
    }

    function Drain(): Inbox {
      this.(urgent := [], normal := [])
    }
  }

  const EmptyInbox := Inbox([], [], false, true, true)

  /** What `recv` gives: a message, the end of all senders, or nothing yet. */
  datatype Received = Message(msg: Msg) | Closed | Blocked

  /** What the messages still to be had are, in the order a receiver that asks
      for one at a time is given them: stops first, and nothing else once a stop
      is in flight. */
  function Deliverable(q: Inbox): seq<Msg> {
    q.urgent + (if q.stopping then [] else q.normal)
  }

  class Channel {
    var urgent: seq<Msg>
    var normal: seq<Msg>
    var stopping: bool
    var listening: bool
    var senders: bool

    function View(): Inbox
      reads this
    {
      Inbox(urgent, normal, stopping, listening, senders)
    }

    constructor ()
      ensures View() == EmptyInbox
    {
      urgent, normal, stopping, listening, senders := [], [], false, true, true;
    }

    /** A stop jumps the queue; a restart that comes after one is not taken in. */
    method Send(msg: Msg) returns (ok: bool)
      requires View().Valid()
      modifies this
      ensures View().Valid()
      ensures msg.Stop? ==> View() == old(View()).PushStop().MarkStopping() && ok == listening
      ensures msg.Restart? ==>
                && View() == old(View()).PushRestart(msg.why)
                && (ok <==> old(!stopping && listening))
      ensures msg.Restart? && ok ==> Deliverable(View()) == old(Deliverable(View())) + [msg]
    {
      ok := listening;
      if msg.Stop? {
        if listening {
          urgent := urgent + [msg];
        }
        stopping := true;
        return;
      }
      if stopping {
        return false;
      }
      if listening {
        normal := normal + [msg];
      }
    }

    /** The next message, highest priority first, as found when asked. */
    method Recv() returns (r: Received)
      requires View().Valid()
      modifies this
      ensures View().Valid()
      ensures old(Deliverable(View())) != [] ==>
                && r == Message(old(Deliverable(View()))[0])
                && Deliverable(View()) == old(Deliverable(View()))[1..]
      ensures old(Deliverable(View())) == [] ==>
                && View() == old(View())
                && r == if senders then Blocked else Closed
      ensures old(urgent) != [] ==> r == Message(Stop)
      ensures old(stopping) ==> !(r.Message? && r.msg.Restart?)
      ensures stopping == old(stopping) && listening == old(listening) && senders == old(senders)
    {
      if urgent != [] {
        assert urgent[0] in View().urgent;
        r := Message(urgent[0]);
        urgent := urgent[1..];
        return;
      }
      if !stopping && normal != [] {
        assert normal[0] in View().normal;
        r := Message(normal[0]);
        normal := normal[1..];
        return;
      }
      return if senders then Blocked else Closed;
    }

    /** Discards anything queued, and says whether a stop was among it or is in flight. */
    method DrainStale() returns (stop: bool)
      requires View().Valid()
      modifies this
      ensures View() == old(View()).Drain()
      ensures stop == old(View()).StopKnown()
    {
      stop := false;
      while urgent != []
        invariant View().Valid()
        invariant stop || urgent == old(urgent)
        invariant old(urgent) == [] ==> !stop && urgent == []
        invariant normal == old(normal) && stopping == old(stopping)
        invariant listening == old(listening) && senders == old(senders)
        decreases |urgent|
      {
        if urgent[0].Stop? {
          stop := true;
        }
        urgent := urgent[1..];
      }
      while normal != []
        invariant urgent == [] && stopping == old(stopping)
        invariant listening == old(listening) && senders == old(senders)
        decreases |normal|
      {
        normal := normal[1..];
      }
      stop := stop || stopping;
    }
  }
}
