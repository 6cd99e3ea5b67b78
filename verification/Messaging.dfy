/** include/qrmci/CommunicationHandler.h and include/qrmci/DaemonMessaging.h: receiving. */
module Messaging {
  import opened Protocol

  datatype Poll<+M> = Got(message: M) | TimedOut | Broken

  /** Milliseconds; the sentinel that makes receive poll indefinitely. */
  const WAIT_FOREVER := -1

  /** One queue as this process sees it, together with its termination flag. Messages may
      arrive, the flag may be set and the broker may fail at any point. `patience` bounds
      how often the flag is still read before it is set; it is arbitrary, so every
      receive that ever returns is covered. */
  class Channel<M(0)> {
    var queue: seq<M>
    var stop: bool
    var patience: nat
    ghost var arrived: seq<M>
    ghost var consumed: seq<M>
    ghost var attempts: nat
    ghost var lastAttempt: Poll<M>

    ghost predicate Valid()
      reads this
    {
      consumed + queue == arrived
    }

    /** What happens around a call: the queue may grow and the flag may be set. */
    twostate predicate Elapsed()
      reads this
    {
      old(arrived) <= arrived && (old(stop) ==> stop)
    }

    constructor (patience: nat)
      ensures Valid() && consumed == [] && attempts == 0
    {
      queue, stop, arrived, consumed, attempts, lastAttempt := [], false, [], [], 0, TimedOut;
      this.patience := patience;
    }

    method ReadFlag() returns (b: bool)
      requires Valid()
      modifies this
      ensures Valid() && Elapsed() && b == stop
      ensures consumed == old(consumed) && attempts == old(attempts) && lastAttempt == old(lastAttempt)
      ensures !b ==> patience < old(patience)
      ensures old(patience) >= patience
    {
      var signalled: bool := *;
      if signalled || patience == 0 {
        stop := true;
      } else if !stop {
        patience := patience - 1;
      }
      b := stop;
    }

    /** One transport attempt; a message is taken from the head and acknowledged. */
    method ReceiveExtended() returns (r: Poll<M>)
      requires Valid()
      modifies this
      ensures Valid() && Elapsed() && patience == old(patience)
      ensures attempts == old(attempts) + 1 && lastAttempt == r
      ensures consumed == old(consumed) + if r.Got? then [r.message] else []
    {
      attempts := attempts + 1;
      var arrives: bool, broken: bool, lost: bool := *, *, *;
      if arrives {
        var m: M := *;
        queue, arrived := queue + [m], arrived + [m];
      }
      if broken {
        lastAttempt := Broken;
        return Broken;
      }
      if queue == [] || lost {
        lastAttempt := TimedOut;
        return TimedOut;
      }
      r := Got(queue[0]);
      lastAttempt := r;
      consumed, queue := consumed + [queue[0]], queue[1..];
    }

    /** receive: the flag guards every attempt; only the sentinel retries a timeout. */
    method Receive(timeout: int) returns (r: Result<Option<M>>)
      requires Valid()
      modifies this
      ensures Valid() && Elapsed() && patience <= old(patience)
      ensures consumed == old(consumed) + if r.Ok? && r.value.Some? then [r.value.value] else []
      ensures attempts >= old(attempts) && (timeout != WAIT_FOREVER ==> attempts <= old(attempts) + 1)
      ensures old(stop) ==> r == Ok(None) && attempts == old(attempts)
      ensures r.Ok? && r.value.Some? ==> patience < old(patience)
      ensures r == Ok(None) ==> stop || (timeout != WAIT_FOREVER && attempts > old(attempts) && lastAttempt.TimedOut?)
      ensures r.Err? ==> r.error.kind == MessagingFailed && attempts > old(attempts) && lastAttempt.Broken?
    {
      var indefinitely := timeout == WAIT_FOREVER;
      var done := false;
      while !done
        invariant Valid() && Elapsed() && patience <= old(patience)
        invariant consumed == old(consumed)
        invariant done ==> !indefinitely && attempts > old(attempts) && lastAttempt.TimedOut?
        invariant attempts >= old(attempts)
        invariant !done && !indefinitely ==> attempts == old(attempts)
        invariant !indefinitely ==> attempts <= old(attempts) + 1
        invariant old(stop) ==> attempts == old(attempts)
        decreases !done, patience
      {
        var flagged := ReadFlag();
        if flagged {
          break;
        }
        var received := ReceiveExtended();
        match received {
          case Got(m) => return Ok(Some(m));
          case Broken => return Err(Error(MessagingFailed, None));
          case TimedOut => done := !indefinitely;
        }
      }
      return Ok(None);
    }

    /** drainQueue: `handled` is what the handler was given, call by call. It goes on until
        the flag is set, a poll finds nothing, or the broker fails. */
    method DrainQueue() returns (handledAny: bool, handled: seq<M>)
      requires Valid()
      modifies this
      ensures Valid() && Elapsed()
      ensures consumed == old(consumed) + handled
      ensures old(queue) <= handled + queue
      ensures arrived[|old(consumed)|..] == handled + queue
      ensures handledAny <==> handled != []
      ensures old(stop) ==> handled == [] && attempts == old(attempts)
      ensures stop || (attempts > old(attempts) && !lastAttempt.Got?)
    {
      handledAny, handled := false, [];
      while true
        invariant Valid() && Elapsed()
        invariant consumed == old(consumed) + handled
        invariant handledAny <==> handled != []
        invariant attempts >= old(attempts)
        invariant old(stop) ==> handled == [] && attempts == old(attempts)
        decreases patience
      {
        var received := Receive(0);
        if received.Err? || received.value.None? {
          break;
        }
        handled := handled + [received.value.value];
        handledAny := true;
      }
      assert arrived[|old(consumed)|..] == handled + queue;
      assert old(arrived)[|old(consumed)|..] == old(queue);
    }
  }
}
