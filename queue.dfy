/**
 * The outbound message queue (`pending_messages_`) as the SEND_MESSAGE_TO_PEER
 * case of the UI callback runs it: an optional new message goes to the back,
 * then at most one message, the front, is handed to the socket, and only when
 * the socket is not busy sending.
 */
module OutQueue {
  import opened Wrappers

  function AsSeq<T>(o: Option<T>): (s: seq<T>)
    ensures |s| <= 1
    ensures o.None? <==> s == []
    ensures o.Some? ==> s == [o.value]
  {
    match o
    case Some(x) => [x]
    case None => []
  }

  datatype StepResult<T> = StepResult(pending: seq<T>, sent: Option<T>)

  /** One SEND_MESSAGE_TO_PEER callback; `busy` is the socket client's
      IsSendingMessage() at that moment. */
  function Step<T>(pending: seq<T>, message: Option<T>, busy: bool): (r: StepResult<T>)
    ensures AsSeq(r.sent) + r.pending == pending + AsSeq(message)
    ensures r.sent.Some? <==> !busy && pending + AsSeq(message) != []
  {
    var queued := pending + AsSeq(message);
    if queued != [] && !busy then StepResult(queued[1..], Some(queued[0]))
    else StepResult(queued, None)
  }

  /** A run of callbacks, each given as (message, busy). */
  datatype Run<T> = Run(sent: seq<T>, pending: seq<T>)

  function Signalled<T>(steps: seq<(Option<T>, bool)>): seq<T>
    decreases |steps|
  {
    if steps == [] then [] else AsSeq(steps[0].0) + Signalled(steps[1..])
  }

  function RunSteps<T>(pending: seq<T>, steps: seq<(Option<T>, bool)>): (r: Run<T>)
    ensures |r.sent| <= |steps|
    decreases |steps|
  {
    if steps == [] then Run([], pending)
    else
      var first := Step(pending, steps[0].0, steps[0].1);
      var rest := RunSteps(first.pending, steps[1..]);
      Run(AsSeq(first.sent) + rest.sent, rest.pending)
  }

  /** The first-in first-out promise: over any run of callbacks, what was sent
      followed by what is still pending is exactly what was pending before
      followed by every message signalled, in the order it was signalled. */
  lemma {:induction false} RunKeepsOrder<T>(pending: seq<T>, steps: seq<(Option<T>, bool)>)
    ensures RunSteps(pending, steps).sent + RunSteps(pending, steps).pending == pending + Signalled(steps)
    decreases |steps|
  {
    if steps != [] {
      var message := steps[0].0;
      var first := Step(pending, message, steps[0].1);
      var rest := RunSteps(first.pending, steps[1..]);
      RunKeepsOrder(first.pending, steps[1..]);
      Regroup(AsSeq(first.sent), rest.sent, rest.pending, first.pending, Signalled(steps[1..]), pending, AsSeq(message));
    }
  }

  /** The associativity step of RunKeepsOrder. */
  lemma Regroup<T>(sent: seq<T>, restSent: seq<T>, restPending: seq<T>, mid: seq<T>, later: seq<T>,
                   pending: seq<T>, message: seq<T>)
    requires restSent + restPending == mid + later
    requires sent + mid == pending + message
    ensures (sent + restSent) + restPending == pending + (message + later)
  {
    calc {
      (sent + restSent) + restPending;
      sent + (mid + later);
      (pending + message) + later;
    }
  }

  /** Callbacks that signal nothing new, while the socket is idle, each send
      one pending message, front first, until the queue is empty. */
  lemma {:induction false} IdleRunDrains<T>(pending: seq<T>, steps: seq<(Option<T>, bool)>)
    requires forall i :: 0 <= i < |steps| ==> !steps[i].1 && steps[i].0.None?
    ensures RunSteps(pending, steps).sent == pending[..if |steps| < |pending| then |steps| else |pending|]
    ensures RunSteps(pending, steps).pending == pending[if |steps| < |pending| then |steps| else |pending|..]
    decreases |steps|
  {
    if steps != [] {
      IdleRunDrains(Step(pending, steps[0].0, steps[0].1).pending, steps[1..]);
      if pending != [] {
        var n := if |steps| < |pending| then |steps| else |pending|;
        assert pending[..n] == [pending[0]] + pending[1..][..n - 1];
        assert pending[n..] == pending[1..][n - 1..];
      }
    }
  }
}
