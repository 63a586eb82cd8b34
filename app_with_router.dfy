/**
 * The Socket.IO handlers of the frontend that uses the GPU router: preprocessing and
 * generation. Each checks the RunPod credentials, asks the router, and either
 * reports a Home result at once or polls the RunPod job it was given until the job
 * ends, the time is up, or polling fails. Everything the handler emits is a log
 * entry; everything it emits goes to the requesting session.
 */
module RouterApp {
  import opened Wrappers
  import opened Json
  import opened Socket
  import opened RunPodApi
  import opened Router

  // ---------------------------------------------------------------------------
  // Generation polling

  const GenerationCeiling: real := 300.0

  /** By the 168th poll the sleeps alone exceed the ceiling, so no poll can follow it. */
  const GenerationMaxPolls: nat := 168

  /** The sleep before the poll that follows `pollCount` earlier polls. */
  function GenerationPollInterval(pollCount: nat): (interval: real)
    ensures 0.5 <= interval <= 2.0
  {
    if pollCount < 10 then 0.5 else if pollCount < 30 then 1.0 else 2.0
  }

  /** The time slept before the first `n` polls. */
  function GenerationSleepTotal(n: nat): (total: real)
    ensures 0.5 * n as real <= total <= 2.0 * n as real
  {
    if n == 0 then 0.0 else GenerationSleepTotal(n - 1) + GenerationPollInterval(n - 1)
  }

  lemma {:induction false} GenerationSleepTotalClosedForm(n: nat)
    ensures GenerationSleepTotal(n) ==
            if n <= 10 then 0.5 * n as real
            else if n <= 30 then 5.0 + (n - 10) as real
            else 25.0 + 2.0 * (n - 30) as real
  {
    if n > 0 {
      GenerationSleepTotalClosedForm(n - 1);
    }
  }

  /** A sleep lasts at least as long as asked: poll k reads at least the k+1 sleeps before it. */
  ghost predicate GenerationPaced(feed: JobFeed) {
    forall k: nat :: feed.elapsed(k) >= GenerationSleepTotal(k + 1)
  }

  /** `min(15 + elapsed * 2, 90)`. */
  function GenerationProgress(elapsed: real): (percent: real)
    ensures percent <= 90.0
    ensures elapsed >= 0.0 ==> 15.0 <= percent
    ensures percent <= 15.0 + 2.0 * elapsed
    ensures percent == 90.0 || percent == 15.0 + 2.0 * elapsed
  {
    if 15.0 + elapsed * 2.0 < 90.0 then 15.0 + elapsed * 2.0 else 90.0
  }

  /** The job's output as sent: with its total time, the number of polls and the provider. */
  function TaggedOutput(output: map<string, Value>, totalTime: real, pollCount: nat): (tagged: map<string, Value>)
    ensures tagged.Keys == output.Keys + {"total_time", "poll_count", "provider"}
    ensures tagged["provider"] == Str("runpod") && tagged["poll_count"] == Num(pollCount as real)
    ensures tagged["total_time"] == Num(totalTime)
    ensures forall k :: k in output && k !in {"total_time", "poll_count", "provider"} ==> tagged[k] == output[k]
  {
    output["total_time" := Num(totalTime)]["poll_count" := Num(pollCount as real)]["provider" := Str("runpod")]
  }

  /** What the timeout check emits: the timeout notice once more than the ceiling has elapsed. */
  function GenerationTimeoutNotice(elapsed: real): seq<Event> {
    if elapsed > GenerationCeiling then [Status(JobTimedOut)] else []
  }

  /** The timeout check that follows a status that did not end the loop. */
  function AfterCeilingCheck(events: seq<Event>, elapsed: real): JobStep {
    if elapsed > GenerationCeiling then JobStep(events + [Status(JobTimedOut)], Some(TimedOut))
    else JobStep(events, None)
  }

  /** One pass of the generation loop from the status request on; `pollCount` counts this poll. */
  function GenerationPoll(reply: PollReply, elapsed: real, sinceSubmit: real, pollCount: nat): (s: JobStep)
    ensures s.stop == Some(Delivered) <==> HasFinalSequence(s.events)
    ensures s.stop == Some(Delivered) ==>
              && reply.PollBody? && StatusOf(reply.body) == Some(Completed)
              && CompletedOutcome(OutputOf(reply.body)).Some?
              && CompletedOutcome(OutputOf(reply.body)).value.Succeeded?
              && s.events == [Status(GenerationComplete), Progress(100.0),
                              FinalSequence(TaggedOutput(CompletedOutcome(OutputOf(reply.body)).value.output,
                                                         sinceSubmit, pollCount))]
    ensures s.stop == Some(CompletedWithError) ==>
              && reply.PollBody? && StatusOf(reply.body) == Some(Completed)
              && CompletedOutcome(OutputOf(reply.body)).Some?
              && CompletedOutcome(OutputOf(reply.body)).value.NotSucceeded?
              && s.events == [Status(GenerationComplete), Progress(100.0),
                              Status(GpuError(CompletedOutcome(OutputOf(reply.body)).value.message))]
    ensures s.stop == Some(RemoteFailed) ==>
              && reply.PollBody? && StatusOf(reply.body) == Some(Failed)
              && FailureMessage(OutputOf(reply.body)).Some?
              && s.events == [Status(GpuError(FailureMessage(OutputOf(reply.body)).value))]
    ensures s.stop == Some(TimedOut) ==> NonTerminal(reply) && elapsed > GenerationCeiling
    ensures s.stop.None? ==> NonTerminal(reply) && elapsed <= GenerationCeiling
    ensures elapsed >= 0.0 ==> ProgressWithin(s.events, 10.0, 100.0)
  {
    match reply
    case PollRaised => JobStep([Status(StatusCheckFailed)], Some(PollError))
    case PollBody(body) =>
      match StatusOf(body)
      case None => JobStep([Status(StatusCheckFailed)], Some(PollError))
      case Some(status) =>
        match status
        case InQueue => AfterCeilingCheck([Status(JobQueued), Progress(10.0)], elapsed)
        case InProgress =>
          AfterCeilingCheck([Status(GeneratingOnRunPod), Progress(GenerationProgress(elapsed))], elapsed)
        case Unrecognised => AfterCeilingCheck([], elapsed)
        case Completed =>
          var done := [Status(GenerationComplete), Progress(100.0)];
          (match CompletedOutcome(OutputOf(body))
           case None => JobStep(done + [Status(StatusCheckFailed)], Some(PollError))
           case Some(Succeeded(output)) =>
             var events := done + [FinalSequence(TaggedOutput(output, sinceSubmit, pollCount))];
             assert events[2].FinalSequence?;
             JobStep(events, Some(Delivered))
           case Some(NotSucceeded(message)) => JobStep(done + [Status(GpuError(message))], Some(CompletedWithError)))
        case Failed =>
          (match FailureMessage(OutputOf(body))
           case None => JobStep([Status(StatusCheckFailed)], Some(PollError))
           case Some(message) => JobStep([Status(GpuError(message))], Some(RemoteFailed)))
  }

  /**
   * How a pass ends, by what the status request returned: a COMPLETED job is delivered
   * when its output says success and reported as a GPU error otherwise, a FAILED job is
   * reported with its message, and a raise, a body that is not a dict or an output that
   * is not a dict is the status-check failure.
   */
  lemma GenerationPollEnds(reply: PollReply, elapsed: real, sinceSubmit: real, pollCount: nat, s: JobStep)
    requires s == GenerationPoll(reply, elapsed, sinceSubmit, pollCount)
    ensures !reply.PollBody? || StatusOf(reply.body).None? ==>
              s == JobStep([Status(StatusCheckFailed)], Some(PollError))
    ensures ReportsStatus(reply, Completed) ==>
              |s.events| == 3 && s.events[..2] == [Status(GenerationComplete), Progress(100.0)]
    ensures ReportsStatus(reply, Completed) && Reports(OutputOf(reply.body), "success") ==>
              s.stop == Some(Delivered)
    ensures ReportsStatus(reply, Completed) && OutputOf(reply.body).Obj? && !Reports(OutputOf(reply.body), "success") ==>
              s.stop == Some(CompletedWithError)
    ensures ReportsStatus(reply, Completed) && !OutputOf(reply.body).Obj? ==>
              s.events[2] == Status(StatusCheckFailed) && s.stop == Some(PollError)
    ensures ReportsStatus(reply, Failed) && OutputOf(reply.body).Obj? ==> s.stop == Some(RemoteFailed)
    ensures ReportsStatus(reply, Failed) && !OutputOf(reply.body).Obj? ==>
              s == JobStep([Status(StatusCheckFailed)], Some(PollError))
  {
  }

  /**
   * A status that does not end the job: IN_QUEUE and IN_PROGRESS report themselves with
   * their progress, and the pass times the loop out exactly when more than the ceiling
   * has elapsed since the submission.
   */
  lemma GenerationPollOngoing(reply: PollReply, elapsed: real, sinceSubmit: real, pollCount: nat, s: JobStep)
    requires s == GenerationPoll(reply, elapsed, sinceSubmit, pollCount)
    ensures NonTerminal(reply) ==>
              && (s.stop == Some(TimedOut) <==> elapsed > GenerationCeiling)
              && (s.stop.None? <==> elapsed <= GenerationCeiling)
              && (elapsed > GenerationCeiling <==> |s.events| > 0 && s.events[|s.events| - 1] == Status(JobTimedOut))
    ensures ReportsStatus(reply, InQueue) ==>
              s.events == [Status(JobQueued), Progress(10.0)] + GenerationTimeoutNotice(elapsed)
    ensures ReportsStatus(reply, InProgress) ==>
              s.events == [Status(GeneratingOnRunPod), Progress(GenerationProgress(elapsed))] + GenerationTimeoutNotice(elapsed)
    ensures ReportsStatus(reply, Unrecognised) ==> s.events == GenerationTimeoutNotice(elapsed)
  {
  }

  function GenerationPollAt(feed: JobFeed, k: nat): JobStep {
    GenerationPoll(feed.replies(k), feed.elapsed(k), feed.sinceSubmit(k), k + 1)
  }

  /** Everything the first `n` polls emit. */
  function GenerationLog(feed: JobFeed, n: nat): seq<Event> {
    if n == 0 then [] else GenerationLog(feed, n - 1) + GenerationPollAt(feed, n - 1).events
  }

  /** None of the first `n` polls stops the loop. */
  predicate GenerationGoesOn(feed: JobFeed, n: nat) {
    n == 0 || (GenerationGoesOn(feed, n - 1) && GenerationPollAt(feed, n - 1).stop.None?)
  }

  /** Polls before the n-th let the loop go on, and the n-th stops it. */
  predicate GenerationStopsAt(feed: JobFeed, n: nat) {
    n >= 1 && GenerationGoesOn(feed, n - 1) && GenerationPollAt(feed, n - 1).stop.Some?
  }

  /** A final_sequence is in the log exactly when the poll that stopped the loop delivered one. */
  lemma {:induction false} GenerationLogFinal(feed: JobFeed, n: nat)
    requires n > 0 ==> GenerationGoesOn(feed, n - 1)
    ensures HasFinalSequence(GenerationLog(feed, n)) <==> n > 0 && GenerationPollAt(feed, n - 1).stop == Some(Delivered)
  {
    if n > 0 {
      GenerationLogFinal(feed, n - 1);
      FinalSequenceInConcat(GenerationLog(feed, n - 1), GenerationPollAt(feed, n - 1).events);
    }
  }

  /** Every progress value sent while polling lies in [10, 100]. */
  lemma {:induction false} GenerationLogProgress(feed: JobFeed, n: nat)
    requires forall k: nat :: feed.elapsed(k) >= 0.0
    ensures ProgressWithin(GenerationLog(feed, n), 10.0, 100.0)
  {
    if n > 0 {
      GenerationLogProgress(feed, n - 1);
      ProgressWithinConcat(GenerationLog(feed, n - 1), GenerationPollAt(feed, n - 1).events, 10.0, 100.0);
    }
  }

  lemma GenerationPacedElapsed(feed: JobFeed)
    requires GenerationPaced(feed)
    ensures forall k: nat :: feed.elapsed(k) >= 0.0
  {
  }

  /** What the log of a loop that stopped at poll n says about how it stopped. */
  lemma GenerationLogEnd(feed: JobFeed, n: nat, end: JobEnd)
    requires GenerationPaced(feed)
    requires GenerationStopsAt(feed, n) && GenerationPollAt(feed, n - 1).stop == Some(end)
    ensures HasFinalSequence(GenerationLog(feed, n)) <==> end == Delivered
    ensures end == Delivered ==>
              var log := GenerationLog(feed, n);
              && log[|log| - 1].FinalSequence?
              && log[|log| - 1].payload["provider"] == Str("runpod")
              && log[|log| - 1].payload["poll_count"] == Num(n as real)
    ensures end == TimedOut ==> feed.elapsed(n - 1) > GenerationCeiling
    ensures ProgressWithin(GenerationLog(feed, n), 10.0, 100.0)
  {
    GenerationLogFinal(feed, n);
    GenerationPacedElapsed(feed);
    GenerationLogProgress(feed, n);
  }

  /** A poll that lets the loop go on came early enough for another one to follow. */
  lemma GenerationRoomForMore(feed: JobFeed, k: nat)
    requires GenerationPaced(feed)
    requires GenerationPollAt(feed, k).stop.None?
    ensures k + 1 < GenerationMaxPolls
  {
    GenerationSleepTotalClosedForm(k + 1);
  }

  /**
   * The body of the generation loop's `try`: one status request and what it reports,
   * written as statements. `GenerationPoll` is its specification, and the lemmas above
   * are stated about that function.
   */
  method GenerationPollOnce(feed: JobFeed, k: nat)
    returns (events: seq<Event>, stop: Option<JobEnd>)
    ensures JobStep(events, stop) == GenerationPollAt(feed, k)
  {
    var reply, elapsed, sinceSubmit, pollCount := feed.replies(k), feed.elapsed(k), feed.sinceSubmit(k), k + 1;
    stop := None;
    match reply {
      case PollRaised =>
        return [Status(StatusCheckFailed)], Some(PollError);
      case PollBody(body) =>
        var status := StatusOf(body);
        if status.None? {
          return [Status(StatusCheckFailed)], Some(PollError);
        }
        if status.value == InQueue {
          events := [Status(JobQueued), Progress(10.0)];
        } else if status.value == InProgress {
          events := [Status(GeneratingOnRunPod), Progress(GenerationProgress(elapsed))];
        } else if status.value == Completed {
          events := [Status(GenerationComplete), Progress(100.0)];
          match CompletedOutcome(OutputOf(body)) {
            case None =>
              return events + [Status(StatusCheckFailed)], Some(PollError);
            case Some(Succeeded(output)) =>
              return events + [FinalSequence(TaggedOutput(output, sinceSubmit, pollCount))], Some(Delivered);
            case Some(NotSucceeded(message)) =>
              return events + [Status(GpuError(message))], Some(CompletedWithError);
          }
        } else if status.value == Failed {
          match FailureMessage(OutputOf(body)) {
            case None =>
              return [Status(StatusCheckFailed)], Some(PollError);
            case Some(message) =>
              return [Status(GpuError(message))], Some(RemoteFailed);
          }
        } else {
          events := [];
        }
        if elapsed > GenerationCeiling {
          events, stop := events + [Status(JobTimedOut)], Some(TimedOut);
        }
    }
  }

  /**
   * The generation polling loop: sleep by the schedule, poll, report, and stop at the
   * first COMPLETED, FAILED, polling exception, or non-terminal status seen after the
   * ceiling.
   */
  method PollGeneration(feed: JobFeed) returns (log: seq<Event>, polls: nat, slept: real, end: JobEnd)
    requires GenerationPaced(feed)
    ensures 1 <= polls <= GenerationMaxPolls
    ensures slept == GenerationSleepTotal(polls)
    ensures GenerationStopsAt(feed, polls) && GenerationPollAt(feed, polls - 1).stop == Some(end)
    ensures log == GenerationLog(feed, polls)
  {
    log, polls, slept := [], 0, 0.0;
    while true
      invariant polls < GenerationMaxPolls
      invariant slept == GenerationSleepTotal(polls)
      invariant GenerationGoesOn(feed, polls)
      invariant log == GenerationLog(feed, polls)
      decreases GenerationMaxPolls - polls
    {
      var interval := GenerationPollInterval(polls);
      slept := slept + interval;
      polls := polls + 1;
      var events, stop := GenerationPollOnce(feed, polls - 1);
      log := log + events;
      if stop.Some? {
        end := stop.value;
        break;
      }
      GenerationRoomForMore(feed, polls - 1);
    }
  }

  // ---------------------------------------------------------------------------
  // Preprocessing polling

  const PreprocessCeiling: real := 60.0

  /** By the 43rd guard test the sleeps alone reach the ceiling, so at most 43 polls are made. */
  const PreprocessMaxPolls: nat := 43

  /** The sleep before the poll that follows `pollCount` earlier polls. */
  function PreprocessPollInterval(pollCount: nat): (interval: real)
    ensures 0.5 <= interval <= 2.0
  {
    if pollCount < 10 then 0.5 else if pollCount < 20 then 1.0 else 2.0
  }

  /** The time slept before the first `n` polls. */
  function PreprocessSleepTotal(n: nat): (total: real)
    ensures 0.5 * n as real <= total <= 2.0 * n as real
  {
    if n == 0 then 0.0 else PreprocessSleepTotal(n - 1) + PreprocessPollInterval(n - 1)
  }

  lemma {:induction false} PreprocessSleepTotalClosedForm(n: nat)
    ensures PreprocessSleepTotal(n) ==
            if n <= 10 then 0.5 * n as real
            else if n <= 20 then 5.0 + (n - 10) as real
            else 15.0 + 2.0 * (n - 20) as real
  {
    if n > 0 {
      PreprocessSleepTotalClosedForm(n - 1);
    }
  }

  /**
   * For preprocessing, `feed.elapsed(k)` is the clock reading of the k-th test of the loop
   * guard, which follows k sleeps.
   */
  ghost predicate PreprocessPaced(feed: JobFeed) {
    forall k: nat :: feed.elapsed(k) >= PreprocessSleepTotal(k)
  }

  /** The guard lets a poll start only early enough for it to be one of the first 43. */
  lemma PreprocessRoomForPoll(feed: JobFeed, k: nat)
    requires PreprocessPaced(feed)
    requires feed.elapsed(k) < PreprocessCeiling
    ensures k < PreprocessMaxPolls
  {
    PreprocessSleepTotalClosedForm(k);
  }

  /** How the preprocessing handler's RunPod branch ends. */
  datatype PreprocessEnd = CacheReady | CacheError | CacheJobFailed | CacheTimedOut | CacheRaised

  datatype PreprocessStep = PreprocessStep(events: seq<Event>, stop: Option<PreprocessEnd>)

  /**
   * One pass of the preprocessing loop after its sleep. A raise ends the loop with nothing
   * emitted here: the handler's `except` reports it.
   */
  function PreprocessPoll(reply: PollReply, sinceSubmit: real): (s: PreprocessStep)
    ensures s.stop != Some(CacheTimedOut)
  {
    match reply
    case PollRaised => PreprocessStep([], Some(CacheRaised))
    case PollBody(body) =>
      match StatusOf(body)
      case None => PreprocessStep([], Some(CacheRaised))
      case Some(status) =>
        if status == Completed then
          (match CompletedOutcome(OutputOf(body))
           case None => PreprocessStep([], Some(CacheRaised))
           case Some(Succeeded(_)) =>
             var events := [Status(ReadyOnRunPod), PreprocessingComplete(true, sinceSubmit, Bool(false), "runpod")];
             assert events[1].PreprocessingComplete?;
             PreprocessStep(events, Some(CacheReady))
           case Some(NotSucceeded(_)) => PreprocessStep([Status(ImageLoaded)], Some(CacheError)))
        else if status == Failed then PreprocessStep([Status(ImageLoaded)], Some(CacheJobFailed))
        else PreprocessStep([], None)
  }

  /**
   * What one preprocessing poll means: preprocessing_complete exactly for a completed
   * job whose output says success, "image loaded" for any other completed or failed
   * job, nothing for a raise or a status that lets the loop go on.
   */
  lemma PreprocessPollMeaning(reply: PollReply, sinceSubmit: real, s: PreprocessStep)
    requires s == PreprocessPoll(reply, sinceSubmit)
    ensures HasPreprocessingComplete(s.events) <==> s.stop == Some(CacheReady)
    ensures s.stop == Some(CacheReady) ==>
              && reply.PollBody? && StatusOf(reply.body) == Some(Completed)
              && CompletedOutcome(OutputOf(reply.body)).Some?
              && CompletedOutcome(OutputOf(reply.body)).value.Succeeded?
              && s.events == [Status(ReadyOnRunPod), PreprocessingComplete(true, sinceSubmit, Bool(false), "runpod")]
    ensures s.stop == Some(CacheError) ==>
              && reply.PollBody? && StatusOf(reply.body) == Some(Completed)
              && CompletedOutcome(OutputOf(reply.body)).Some?
              && CompletedOutcome(OutputOf(reply.body)).value.NotSucceeded?
              && s.events == [Status(ImageLoaded)]
    ensures s.stop == Some(CacheJobFailed) ==>
              && reply.PollBody? && StatusOf(reply.body) == Some(Failed)
              && s.events == [Status(ImageLoaded)]
    ensures s.stop == Some(CacheRaised) ==> s.events == []
    ensures s.stop.None? <==> NonTerminal(reply)
    ensures s.stop.None? ==> s.events == []
  {
    if s.stop == Some(CacheReady) {
      assert s.events[1].PreprocessingComplete?;
    }
  }

  /**
   * How a preprocessing poll ends, by what the status request returned: a COMPLETED job
   * is ready when its output says success and an error otherwise, a FAILED job ends the
   * loop, and a raise, a body that is not a dict or an output that is not a dict is left
   * for the handler's `except`.
   */
  lemma PreprocessPollEnds(reply: PollReply, sinceSubmit: real, s: PreprocessStep)
    requires s == PreprocessPoll(reply, sinceSubmit)
    ensures !reply.PollBody? || StatusOf(reply.body).None? ==> s.stop == Some(CacheRaised)
    ensures ReportsStatus(reply, Completed) && Reports(OutputOf(reply.body), "success") ==>
              s.stop == Some(CacheReady)
    ensures ReportsStatus(reply, Completed) && OutputOf(reply.body).Obj? && !Reports(OutputOf(reply.body), "success") ==>
              s.stop == Some(CacheError)
    ensures ReportsStatus(reply, Completed) && !OutputOf(reply.body).Obj? ==> s.stop == Some(CacheRaised)
    ensures ReportsStatus(reply, Failed) ==> s.stop == Some(CacheJobFailed)
  {
  }

  function PreprocessPollAt(feed: JobFeed, k: nat): PreprocessStep {
    PreprocessPoll(feed.replies(k), feed.sinceSubmit(k))
  }

  /** Everything the first `n` polls emit. */
  function PreprocessLog(feed: JobFeed, n: nat): seq<Event> {
    if n == 0 then [] else PreprocessLog(feed, n - 1) + PreprocessPollAt(feed, n - 1).events
  }

  /** Each of the first `n` polls started in time and let the loop go on. */
  predicate PreprocessGoesOn(feed: JobFeed, n: nat) {
    n == 0 ||
    (PreprocessGoesOn(feed, n - 1) && feed.elapsed(n - 1) < PreprocessCeiling && PreprocessPollAt(feed, n - 1).stop.None?)
  }

  /**
   * How a loop that made `n` polls ended: out of time at the guard after polls that
   * all let it go on, or by the n-th poll, started in time after polls that let it go on.
   */
  predicate PreprocessEndsBy(feed: JobFeed, n: nat, end: PreprocessEnd) {
    if end == CacheTimedOut then PreprocessGoesOn(feed, n) && feed.elapsed(n) >= PreprocessCeiling
    else
      && n >= 1 && PreprocessGoesOn(feed, n - 1) && feed.elapsed(n - 1) < PreprocessCeiling
      && PreprocessPollAt(feed, n - 1).stop == Some(end)
  }

  /** A poll started in time after `k` polls that let the loop go on either ends it or lets it go on. */
  lemma PreprocessAdvance(feed: JobFeed, k: nat)
    requires PreprocessGoesOn(feed, k) && feed.elapsed(k) < PreprocessCeiling
    ensures PreprocessLog(feed, k + 1) == PreprocessLog(feed, k) + PreprocessPollAt(feed, k).events
    ensures PreprocessPollAt(feed, k).stop.None? ==> PreprocessGoesOn(feed, k + 1)
    ensures PreprocessPollAt(feed, k).stop.Some? ==> PreprocessEndsBy(feed, k + 1, PreprocessPollAt(feed, k).stop.value)
  {
  }

  /** Everything a loop that made `n` polls and ended by `end` emits. */
  function PreprocessLoopLog(feed: JobFeed, n: nat, end: PreprocessEnd): seq<Event> {
    PreprocessLog(feed, n) + if end == CacheTimedOut then [Status(ImageLoaded)] else []
  }

  /** No preprocessing_complete is emitted by polls that let the loop go on. */
  lemma {:induction false} PreprocessLogQuiet(feed: JobFeed, n: nat)
    requires PreprocessGoesOn(feed, n)
    ensures PreprocessLog(feed, n) == []
  {
    if n > 0 {
      PreprocessLogQuiet(feed, n - 1);
      PreprocessPollMeaning(feed.replies(n - 1), feed.sinceSubmit(n - 1), PreprocessPollAt(feed, n - 1));
    }
  }

  /**
   * The loop's log is the stopping poll's events alone; preprocessing_complete is in it
   * exactly when the job completed with success, and otherwise the log ends with
   * "image loaded" unless a raise is left for the handler to report.
   */
  lemma PreprocessLoopOutcome(feed: JobFeed, n: nat, end: PreprocessEnd)
    requires PreprocessEndsBy(feed, n, end)
    ensures HasPreprocessingComplete(PreprocessLoopLog(feed, n, end)) <==> end == CacheReady
    ensures end == CacheReady ==>
              PreprocessLoopLog(feed, n, end) ==
              [Status(ReadyOnRunPod), PreprocessingComplete(true, feed.sinceSubmit(n - 1), Bool(false), "runpod")]
    ensures end == CacheRaised ==> PreprocessLoopLog(feed, n, end) == []
    ensures end !in {CacheReady, CacheRaised} ==> PreprocessLoopLog(feed, n, end) == [Status(ImageLoaded)]
  {
    if end == CacheTimedOut {
      PreprocessLogQuiet(feed, n);
    } else {
      PreprocessLogQuiet(feed, n - 1);
      PreprocessPollMeaning(feed.replies(n - 1), feed.sinceSubmit(n - 1), PreprocessPollAt(feed, n - 1));
      assert PreprocessLoopLog(feed, n, end) == PreprocessPollAt(feed, n - 1).events;
    }
  }

  /**
   * The body of the preprocessing loop after its sleep: one status request, written as
   * statements. `PreprocessPoll` is its specification, and the lemmas above are stated
   * about that function.
   */
  method PreprocessPollOnce(feed: JobFeed, k: nat) returns (events: seq<Event>, stop: Option<PreprocessEnd>)
    ensures PreprocessStep(events, stop) == PreprocessPollAt(feed, k)
  {
    var pollReply := feed.replies(k);
    events, stop := [], None;
    if pollReply.PollRaised? {
      return [], Some(CacheRaised);
    }
    var status := StatusOf(pollReply.body);
    if status.None? {
      return [], Some(CacheRaised);
    }
    if status.value == Completed {
      match CompletedOutcome(OutputOf(pollReply.body)) {
        case None =>
          stop := Some(CacheRaised);
        case Some(Succeeded(_)) =>
          events := [Status(ReadyOnRunPod), PreprocessingComplete(true, feed.sinceSubmit(k), Bool(false), "runpod")];
          stop := Some(CacheReady);
        case Some(NotSucceeded(_)) =>
          events, stop := [Status(ImageLoaded)], Some(CacheError);
      }
    } else if status.value == Failed {
      events, stop := [Status(ImageLoaded)], Some(CacheJobFailed);
    }
  }

  /**
   * The preprocessing polling loop: while less than the ceiling has elapsed, sleep by
   * the schedule and poll; COMPLETED, FAILED or a raise ends it with that poll's end,
   * and otherwise it runs until the guard finds the time up (`CacheTimedOut`).
   */
  method PollPreprocessing(feed: JobFeed)
    returns (log: seq<Event>, polls: nat, slept: real, end: PreprocessEnd)
    requires PreprocessPaced(feed)
    ensures polls <= PreprocessMaxPolls
    ensures slept == PreprocessSleepTotal(polls)
    ensures log == PreprocessLog(feed, polls)
    ensures PreprocessEndsBy(feed, polls, end)
  {
    log, polls, slept := [], 0, 0.0;
    while true
      invariant polls <= PreprocessMaxPolls
      invariant slept == PreprocessSleepTotal(polls)
      invariant PreprocessGoesOn(feed, polls)
      invariant log == PreprocessLog(feed, polls)
      decreases PreprocessMaxPolls - polls
    {
      // the loop guard, tested before each sleep
      if feed.elapsed(polls) >= PreprocessCeiling {
        end := CacheTimedOut;
        break;
      }
      PreprocessRoomForPoll(feed, polls);
      PreprocessAdvance(feed, polls);
      var interval := PreprocessPollInterval(polls);
      slept := slept + interval;
      var events, stop := PreprocessPollOnce(feed, polls);
      log, polls := log + events, polls + 1;
      if stop.Some? {
        end := stop.value;
        break;
      }
    }
  }

  // ---------------------------------------------------------------------------
  // The handlers

  /** A Home GPU result as sent: with its total time and the provider. */
  function HomeTagged(result: map<string, Value>, totalTime: real): (tagged: map<string, Value>)
    ensures tagged.Keys == result.Keys + {"total_time", "provider"}
    ensures tagged["provider"] == Str("home") && tagged["total_time"] == Num(totalTime)
    ensures forall k :: k in result && k !in {"total_time", "provider"} ==> tagged[k] == result[k]
  {
    result["total_time" := Num(totalTime)]["provider" := Str("home")]
  }

  /** The RunPod submission carries a job id that the handler can read. */
  predicate HasJobId(result: Value) {
    Contains(result, "id") == Some(true) && Index(result, "id").Some?
  }

  /**
   * The status sent for a RunPod submission without a readable job id: the body's
   * `error` when the body is a dict without `id`, and the exception notice when
   * testing for the id, reading the error or reading the id raises.
   */
  function Rejection(result: Value): (notice: Notice)
    requires !HasJobId(result)
    ensures notice.GpuServerError? <==> result.Obj? && "id" !in result.fields
    ensures notice.GpuServerError? ==>
              notice.error == (if "error" in result.fields then result.fields["error"] else Null)
    ensures !notice.GpuServerError? ==> notice == SubmitFailed
  {
    match Contains(result, "id")
    case Some(false) =>
      (match Get(result, "error", Null)
       case Some(error) => GpuServerError(error)
       case None => SubmitFailed)
    case _ => SubmitFailed
  }

  /** Where a router result is served: by Home or by RunPod. */
  predicate FromHome(r: Routed) {
    r.Routed? && r.provider == Home
  }

  /** A RunPod result with a job id to poll. */
  predicate ToPoll(r: Routed) {
    r.Routed? && r.provider == RunPod && HasJobId(r.result)
  }

  /**
   * The generation handler's answer to a router result it does not poll: a Home
   * result is sent with its timing and provider (or, if it is not a dict, the
   * exception notice), a RunPod reply without a job id is rejected.
   */
  function ImmediateGenerationAnswer(r: Routed, homeTime: real): (events: seq<Event>)
    requires !ToPoll(r)
    ensures HasFinalSequence(events) <==> FromHome(r) && r.result.Obj?
    ensures FromHome(r) ==> |events| == 3 && events[0] == Status(GenerationComplete) && events[1] == Progress(100.0)
    ensures FromHome(r) && r.result.Obj? ==> events[2] == FinalSequence(HomeTagged(r.result.fields, homeTime))
    ensures !FromHome(r) ==> |events| == 1 && events[0].Status?
    ensures r.Raised? ==> events == [Status(SubmitFailed)]
    ensures FromHome(r) && !r.result.Obj? ==> events[2] == Status(SubmitFailed)
    ensures r.Routed? && r.provider == RunPod ==> events == [Status(Rejection(r.result))]
    ensures ProgressWithin(events, 100.0, 100.0)
  {
    match r
    case Raised => [Status(SubmitFailed)]
    case Routed(result, provider) =>
      if provider == Home then
        if result.Obj? then
          var events := [Status(GenerationComplete), Progress(100.0), FinalSequence(HomeTagged(result.fields, homeTime))];
          assert events[2].FinalSequence?;
          events
        else
          // adding the timing fields to a result that is not a dict raises
          [Status(GenerationComplete), Progress(100.0), Status(SubmitFailed)]
      else [Status(Rejection(result))]
  }

  /** Report the job as queued, then poll it. */
  method QueueAndPollGeneration(feed: JobFeed) returns (events: seq<Event>, polls: nat)
    requires GenerationPaced(feed)
    ensures GenerationStopsAt(feed, polls)
    ensures events == [Status(JobQueuedOnRunPod), Progress(5.0)] + GenerationLog(feed, polls)
    ensures HasFinalSequence(events) <==> GenerationPollAt(feed, polls - 1).stop == Some(Delivered)
    ensures ProgressWithin(events, 5.0, 100.0)
  {
    var queued := [Status(JobQueuedOnRunPod), Progress(5.0)];
    var polled, slept, end;
    polled, polls, slept, end := PollGeneration(feed);
    GenerationLogEnd(feed, polls, end);
    FinalSequenceInConcat(queued, polled);
    ProgressWithinConcat(queued, polled, 5.0, 100.0);
    events := queued + polled;
  }

  /**
   * The generation handler after the router returned `r`: a result that is not a job
   * to poll is answered at once, and a job is reported queued and polled until the
   * loop stops, `polls` being the number of status requests.
   */
  method AnswerGeneration(r: Routed, homeTime: real, feed: JobFeed) returns (events: seq<Event>, polls: nat)
    requires GenerationPaced(feed)
    ensures polls > 0 <==> ToPoll(r)
    ensures !ToPoll(r) ==> events == ImmediateGenerationAnswer(r, homeTime)
    ensures ToPoll(r) ==>
              && GenerationStopsAt(feed, polls)
              && events == [Status(JobQueuedOnRunPod), Progress(5.0)] + GenerationLog(feed, polls)
              && (HasFinalSequence(events) <==> GenerationPollAt(feed, polls - 1).stop == Some(Delivered))
    ensures ProgressWithin(events, 5.0, 100.0)
  {
    if ToPoll(r) {
      events, polls := QueueAndPollGeneration(feed);
    } else {
      events, polls := ImmediateGenerationAnswer(r, homeTime), 0;
    }
  }

  /**
   * `handle_start_generation`: without RunPod credentials it reports the configuration
   * error and leaves the router alone; otherwise it asks the router and answers.
   */
  method HandleStartGeneration(router: GpuRouter, env: Env, probe: ProbeOutcome, home: HomeOutcome,
                               submit: SubmitOutcome, now: Timestamp, homeTime: real, feed: JobFeed)
    returns (log: seq<Event>, routed: Option<Routed>, polls: nat)
    requires router.Valid() && GenerationPaced(feed)
    modifies router
    ensures router.Valid()
    ensures |log| >= 2 && log[0] == Status(StartingGeneration)
    ensures !Configured(env) ==>
              && log == [Status(StartingGeneration), Status(ConfigMissing)]
              && routed.None? && polls == 0 && unchanged(router)
    ensures Configured(env) ==>
              && routed.Some?
              && router.RoutedBy(GenerateOp, probe, home, submit, now, routed.value)
              && (polls > 0 <==> ToPoll(routed.value))
              && (!ToPoll(routed.value) ==> log[1..] == ImmediateGenerationAnswer(routed.value, homeTime))
              && (ToPoll(routed.value) ==>
                    && GenerationStopsAt(feed, polls)
                    && log[1..] == [Status(JobQueuedOnRunPod), Progress(5.0)] + GenerationLog(feed, polls))
  {
    if !Configured(env) {
      return [Status(StartingGeneration), Status(ConfigMissing)], None, 0;
    }
    var r := router.Generate(probe, home, submit, now);
    var events;
    events, polls := AnswerGeneration(r, homeTime, feed);
    log, routed := [Status(StartingGeneration)] + events, Some(r);
  }

  /** The `cached` flag of a Home preprocessing result that is a dict; False when absent. */
  function CachedFlag(result: map<string, Value>): (cached: Value)
    ensures "cached" in result ==> cached == result["cached"]
    ensures "cached" !in result ==> cached == Bool(false)
  {
    if "cached" in result then result["cached"] else Bool(false)
  }

  /**
   * The preprocessing handler's answer to a router result it does not poll: a Home
   * result that is a dict is ready at once, anything else (an exception, a Home
   * result without `get`, a RunPod reply without a job id) leaves the image loaded.
   */
  function ImmediatePreprocessAnswer(r: Routed, homeTime: real): (events: seq<Event>)
    requires !ToPoll(r)
    ensures HasPreprocessingComplete(events) <==> FromHome(r) && r.result.Obj?
    ensures FromHome(r) && r.result.Obj? ==>
              events == [Status(ReadyOnHome), PreprocessingComplete(true, homeTime, CachedFlag(r.result.fields), "home")]
    ensures !(FromHome(r) && r.result.Obj?) ==> events == [Status(ImageLoaded)]
  {
    match r
    case Raised => [Status(ImageLoaded)]
    case Routed(result, provider) =>
      if provider == Home then
        (match Get(result, "cached", Bool(false))
         case None => [Status(ImageLoaded)]
         case Some(cached) =>
           var events := [Status(ReadyOnHome), PreprocessingComplete(true, homeTime, cached, "home")];
           assert events[1].PreprocessingComplete?;
           events)
      else [Status(ImageLoaded)]
  }

  /**
   * Report the job as processing, then poll it; a raise inside the loop is reported
   * by the handler's `except` as "image loaded".
   */
  method ProcessAndPollPreprocessing(feed: JobFeed) returns (events: seq<Event>, polls: nat, end: PreprocessEnd)
    requires PreprocessPaced(feed)
    ensures polls <= PreprocessMaxPolls
    ensures PreprocessEndsBy(feed, polls, end)
    ensures HasPreprocessingComplete(events) <==> end == CacheReady
    ensures end == CacheReady ==>
              events == [Status(ProcessingOnRunPod), Status(ReadyOnRunPod),
                         PreprocessingComplete(true, feed.sinceSubmit(polls - 1), Bool(false), "runpod")]
    ensures end != CacheReady ==> events == [Status(ProcessingOnRunPod), Status(ImageLoaded)]
  {
    var polled, slept;
    polled, polls, slept, end := PollPreprocessing(feed);
    events := [Status(ProcessingOnRunPod)] + polled;
    if end == CacheTimedOut || end == CacheRaised {
      // the time ran out, or the handler's `except` reports the failure
      events := events + [Status(ImageLoaded)];
    }
    PreprocessLoopOutcome(feed, polls, end);
    if end == CacheReady {
      assert events[2].PreprocessingComplete?;
    }
  }

  /**
   * The preprocessing handler after the router returned `r`; `end` is how the polling
   * loop ended, None when there was no job to poll.
   */
  method AnswerPreprocess(r: Routed, homeTime: real, feed: JobFeed)
    returns (events: seq<Event>, polls: nat, end: Option<PreprocessEnd>)
    requires PreprocessPaced(feed)
    ensures |events| >= 1
    ensures end.Some? <==> ToPoll(r)
    ensures !ToPoll(r) ==> events == ImmediatePreprocessAnswer(r, homeTime) && polls == 0
    ensures ToPoll(r) ==>
              && PreprocessEndsBy(feed, polls, end.value)
              && (HasPreprocessingComplete(events) <==> end == Some(CacheReady))
              && events[0] == Status(ProcessingOnRunPod)
    ensures events[|events| - 1] == Status(ImageLoaded) || events[|events| - 1].PreprocessingComplete?
  {
    if ToPoll(r) {
      var e;
      events, polls, e := ProcessAndPollPreprocessing(feed);
      end := Some(e);
    } else {
      events, polls, end := ImmediatePreprocessAnswer(r, homeTime), 0, None;
    }
  }

  /**
   * `handle_preprocess`: without RunPod credentials the image is reported loaded and
   * the router is left alone; otherwise it asks the router and answers.
   */
  method HandlePreprocess(router: GpuRouter, env: Env, probe: ProbeOutcome, home: HomeOutcome,
                          submit: SubmitOutcome, now: Timestamp, homeTime: real, feed: JobFeed)
    returns (log: seq<Event>, routed: Option<Routed>, polls: nat, end: Option<PreprocessEnd>)
    requires router.Valid() && PreprocessPaced(feed)
    modifies router
    ensures router.Valid()
    ensures |log| >= 2 && log[0] == Status(Preprocessing)
    ensures !Configured(env) ==>
              && log == [Status(Preprocessing), Status(ImageLoaded)]
              && routed.None? && end.None? && unchanged(router)
    ensures Configured(env) ==>
              && routed.Some?
              && router.RoutedBy(PreprocessOp, probe, home, submit, now, routed.value)
              && (end.Some? <==> ToPoll(routed.value))
              && (!ToPoll(routed.value) ==> log[1..] == ImmediatePreprocessAnswer(routed.value, homeTime))
              && (ToPoll(routed.value) ==>
                    && PreprocessEndsBy(feed, polls, end.value)
                    && (HasPreprocessingComplete(log) <==> end == Some(CacheReady)))
    ensures log[|log| - 1] == Status(ImageLoaded) || log[|log| - 1].PreprocessingComplete?
  {
    if !Configured(env) {
      return [Status(Preprocessing), Status(ImageLoaded)], None, 0, None;
    }
    var r := router.Preprocess(probe, home, submit, now);
    var events;
    events, polls, end := AnswerPreprocess(r, homeTime, feed);
    log, routed := [Status(Preprocessing)] + events, Some(r);
    PreprocessingCompleteInConcat([Status(Preprocessing)], events);
    assert log[|log| - 1] == events[|events| - 1];
  }
}
