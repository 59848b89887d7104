/** How a queued run becomes a stream entry and back (control-plane/internal/dispatch/queue.go on one side,
  agent-runtime/internal/runqueue/worker.go on the other). Times are instants. */
module QueuedRuns {
  import opened Common

  /** `enqueuedAt` is `None` for the zero time. */
  datatype QueuedRun = QueuedRun(runId: string, attemptId: string, enqueuedAt: Option<int>)

  /** The RFC 3339 formatter and parser of the standard library. */
  datatype Times = Times(format: int -> string, parse: string -> Option<int>)

  /** Formatted times are not empty and are read back. */
  ghost predicate Sound(times: Times) {
    forall t :: times.format(t) != "" && times.parse(times.format(t)) == Some(t)
  }

  datatype Decoded = Run(run: QueuedRun) | MissingRunId | BadTime

  /** A run leaves with an attempt id and a time, whether or not it came with them. */
  function Normalize(run: QueuedRun, attemptId: string, now: int): QueuedRun {
    run.(attemptId := if run.attemptId == "" then attemptId else run.attemptId,
         enqueuedAt := if run.enqueuedAt.None? then Some(now) else run.enqueuedAt)
  }

  function Encode(run: QueuedRun, times: Times): map<string, string>
    requires run.enqueuedAt.Some?
  {
    map["schema_version" := "1", "run_id" := run.runId, "attempt_id" := run.attemptId,
        "enqueued_at" := times.format(run.enqueuedAt.value)]
  }

  /** A missing field reads as the empty string. */
  function FieldOf(values: map<string, string>, name: string): string {
    if name in values then values[name] else ""
  }

  function Decode(values: map<string, string>, times: Times): Decoded {
    var runId, attemptId := FieldOf(values, "run_id"), FieldOf(values, "attempt_id");
    var at := FieldOf(values, "enqueued_at");
    if runId == "" then MissingRunId
    else if at == "" then Run(QueuedRun(runId, attemptId, None))
    else
      match times.parse(at)
      case None => BadTime
      case Some(t) => Run(QueuedRun(runId, attemptId, Some(t)))
  }

  /** What the producer enqueues is what the consumer decodes, exactly for runs that have an id; an attempt id and
      a time that the run came with survive, missing ones are filled in. */
  lemma RoundTripIff(run: QueuedRun, attemptId: string, now: int, times: Times)
    requires Sound(times)
    ensures var sent := Normalize(run, attemptId, now);
            Decode(Encode(sent, times), times) == Run(sent) <==> run.runId != ""
    ensures run.runId != "" ==>
              Decode(Encode(Normalize(run, attemptId, now), times), times)
              == Run(QueuedRun(run.runId, if run.attemptId != "" then run.attemptId else attemptId,
                               Some(if run.enqueuedAt.Some? then run.enqueuedAt.value else now)))
  {
    var sent := Normalize(run, attemptId, now);
    var values := Encode(sent, times);
    assert |"run_id"| == 6 && |"attempt_id"| == 10 && |"enqueued_at"| == 11 && |"schema_version"| == 14;
    assert values["run_id"] == sent.runId && values["attempt_id"] == sent.attemptId;
    assert values["enqueued_at"] == times.format(sent.enqueuedAt.value);
    assert FieldOf(values, "run_id") == run.runId && FieldOf(values, "attempt_id") == sent.attemptId;
    var t := sent.enqueuedAt.value;
    assert times.parse(times.format(t)) == Some(t) && times.format(t) != "";
  }

  /** So an enqueued entry can be decoded at all exactly if its run has an id. */
  lemma DecodableIff(run: QueuedRun, attemptId: string, now: int, times: Times)
    requires Sound(times)
    ensures Decode(Encode(Normalize(run, attemptId, now), times), times).Run? <==> run.runId != ""
  {
    RoundTripIff(run, attemptId, now, times);
    var values := Encode(Normalize(run, attemptId, now), times);
    assert |"run_id"| == 6 && |"attempt_id"| == 10 && |"enqueued_at"| == 11;
    assert FieldOf(values, "run_id") == run.runId;
  }
}
