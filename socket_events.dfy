/**
 * What the handlers send to the browser over Socket.IO. Each `socketio.emit` call of
 * the handlers is one `Event` appended to a log; the log is the model's transport.
 */
module Socket {
  import opened Json

  /**
   * The `status` messages. Wording and emoji are not kept; messages that interpolate
   * a value carry that value, messages that interpolate an exception do not.
   */
  datatype Notice =
    // generation through the router
    | StartingGeneration
    | ConfigMissing
    | GenerationComplete
    | GpuServerError(error: Value)
    | SubmitFailed
    | JobQueuedOnRunPod
    | JobQueued
    | GeneratingOnRunPod
    | GpuError(message: Value)
    | JobTimedOut
    | StatusCheckFailed
    // preprocessing through the router
    | Preprocessing
    | ImageLoaded
    | ReadyOnHome
    | ProcessingOnRunPod
    | ReadyOnRunPod
    // generation without the router
    | SendingJob
    | ConnectFailed
    | JobQueuedOnGpu
    | JobInQueue
    | GeneratingOnGpu
    | GenerationCompleteSending

  datatype Event =
    | Status(notice: Notice)
    | Progress(percent: real)
    | FinalSequence(payload: map<string, Value>)
    | PreprocessingComplete(cacheReady: bool, time: real, cached: Value, provider: string)

  /** `to=sid` sends to the requesting session; an emit without `to=` reaches every client. */
  datatype Recipient = Session | Broadcast

  datatype Emit = Emit(event: Event, to: Recipient)

  /** Every event of `events`, in order, sent to `to`. */
  function Addressed(events: seq<Event>, to: Recipient): (r: seq<Emit>)
    ensures |r| == |events|
    ensures forall i :: 0 <= i < |r| ==> r[i] == Emit(events[i], to)
  {
    seq(|events|, i requires 0 <= i < |events| => Emit(events[i], to))
  }

  predicate HasFinalSequence(log: seq<Event>) {
    exists i :: 0 <= i < |log| && log[i].FinalSequence?
  }

  predicate HasPreprocessingComplete(log: seq<Event>) {
    exists i :: 0 <= i < |log| && log[i].PreprocessingComplete?
  }

  /** Progress values the browser can show: every progress event lies in [lo, hi]. */
  predicate ProgressWithin(log: seq<Event>, lo: real, hi: real) {
    forall i :: 0 <= i < |log| && log[i].Progress? ==> lo <= log[i].percent <= hi
  }

  lemma FinalSequenceInConcat(a: seq<Event>, b: seq<Event>)
    ensures HasFinalSequence(a + b) <==> HasFinalSequence(a) || HasFinalSequence(b)
  {
    if HasFinalSequence(a + b) {
      var i :| 0 <= i < |a + b| && (a + b)[i].FinalSequence?;
      if i >= |a| { assert b[i - |a|].FinalSequence?; }
    }
    if HasFinalSequence(b) {
      var i :| 0 <= i < |b| && b[i].FinalSequence?;
      assert (a + b)[i + |a|].FinalSequence?;
    }
    if HasFinalSequence(a) {
      var i :| 0 <= i < |a| && a[i].FinalSequence?;
      assert (a + b)[i].FinalSequence?;
    }
  }

  lemma PreprocessingCompleteInConcat(a: seq<Event>, b: seq<Event>)
    ensures HasPreprocessingComplete(a + b) <==> HasPreprocessingComplete(a) || HasPreprocessingComplete(b)
  {
    if HasPreprocessingComplete(a + b) {
      var i :| 0 <= i < |a + b| && (a + b)[i].PreprocessingComplete?;
      if i >= |a| { assert b[i - |a|].PreprocessingComplete?; }
    }
    if HasPreprocessingComplete(b) {
      var i :| 0 <= i < |b| && b[i].PreprocessingComplete?;
      assert (a + b)[i + |a|].PreprocessingComplete?;
    }
    if HasPreprocessingComplete(a) {
      var i :| 0 <= i < |a| && a[i].PreprocessingComplete?;
      assert (a + b)[i].PreprocessingComplete?;
    }
  }

  lemma ProgressWithinConcat(a: seq<Event>, b: seq<Event>, lo: real, hi: real)
    requires ProgressWithin(a, lo, hi) && ProgressWithin(b, lo, hi)
    ensures ProgressWithin(a + b, lo, hi)
  {
    forall i | 0 <= i < |a + b| && (a + b)[i].Progress?
      ensures lo <= (a + b)[i].percent <= hi
    {
      if i >= |a| { assert (a + b)[i] == b[i - |a|]; }
    }
  }
}
