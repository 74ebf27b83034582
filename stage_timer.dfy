/** Per-request stage timing (`ml_inference_server/utils/stage_timer.py`):
    a timer records the duration of named stages of one request into a
    `StageTimings` record and stamps the total when finalised. Clock
    readings (`time.perf_counter()`, in seconds) are parameters, and the log
    line of `log_breakdown` is modelled by the values it would print. */
module StageTimer {
  import opened Wrappers

  /** `StageTimings`: the five stage durations, the total and the number
      of pairs. */
  datatype StageTimings = StageTimings(
    tGrpcReceive: real, tTokenize: real, tQueueWait: real, tModelInference: real, tGrpcSend: real,
    totalMs: real, numPairs: int)

  /** The all-zero record a timer starts with. */
  const NoTimings := StageTimings(0.0, 0.0, 0.0, 0.0, 0.0, 0.0, 0)

  /** A value of the `to_dict()` dictionary. */
  datatype Value = Float(f: real) | Int(i: int)

  /** The seven keys of `to_dict()`. */
  const TimingKeys: set<string> :=
    {"t_grpc_receive_ms", "t_tokenize_ms", "t_queue_wait_ms", "t_model_inference_ms", "t_grpc_send_ms",
     "total_ms", "num_pairs"}

  /** `to_dict()`: exactly the seven keys, each holding its field. */
  function ToDict(t: StageTimings): (d: map<string, Value>)
    ensures d.Keys == TimingKeys
    ensures d["t_grpc_receive_ms"] == Float(t.tGrpcReceive) && d["t_tokenize_ms"] == Float(t.tTokenize)
    ensures d["t_queue_wait_ms"] == Float(t.tQueueWait) && d["t_model_inference_ms"] == Float(t.tModelInference)
    ensures d["t_grpc_send_ms"] == Float(t.tGrpcSend) && d["total_ms"] == Float(t.totalMs)
    ensures d["num_pairs"] == Int(t.numPairs)
  {
    map["t_grpc_receive_ms" := Float(t.tGrpcReceive), "t_tokenize_ms" := Float(t.tTokenize),
        "t_queue_wait_ms" := Float(t.tQueueWait), "t_model_inference_ms" := Float(t.tModelInference),
        "t_grpc_send_ms" := Float(t.tGrpcSend), "total_ms" := Float(t.totalMs),
        "num_pairs" := Int(t.numPairs)]
  }

  /** The figures of one breakdown log line: the pair count, the total and
      the shares of tokenize, inference, gRPC (both directions) and queue
      wait in percent. */
  datatype Breakdown = Breakdown(
    numPairs: int, totalMs: real, pctTokenize: real, pctInference: real, pctGrpc: real, pctQueue: real)

  /** A share of the total in percent, 0 when the total is negative. */
  function Share(part: real, total: real): (p: real)
    requires total != 0.0
    ensures total > 0.0 ==> p * total == part * 100.0
    ensures total < 0.0 ==> p == 0.0
  {
    if total > 0.0 then part / total * 100.0 else 0.0
  }

  /** `log_breakdown(sample_rate, request_id)`: a line only for every
      `sample_rate`-th request id and a non-zero total; a zero sample rate
      is Python's ZeroDivisionError. With a positive total the four shares
      are those of the stage durations, so they add up to the stages' share
      of the total. */
  function LogBreakdown(t: StageTimings, sampleRate: int, requestId: int): (r: Result<Option<Breakdown>>)
    ensures sampleRate == 0 <==> r == Err(ZeroDivisionError)
    ensures r.Ok? ==> (r.value.Some? <==> requestId % sampleRate == 0 && t.totalMs != 0.0)
    ensures r.Ok? && r.value.Some? ==> r.value.value.numPairs == t.numPairs && r.value.value.totalMs == t.totalMs
    ensures r.Ok? && r.value.Some? && t.totalMs > 0.0 ==>
      var b := r.value.value;
      (b.pctTokenize + b.pctInference + b.pctGrpc + b.pctQueue) * t.totalMs ==
        (t.tTokenize + t.tModelInference + t.tGrpcReceive + t.tGrpcSend + t.tQueueWait) * 100.0
    ensures r.Ok? && r.value.Some? && t.totalMs < 0.0 ==>
      r.value.value.pctTokenize == r.value.value.pctInference == r.value.value.pctGrpc == r.value.value.pctQueue == 0.0
  {
    if sampleRate == 0 then Err(ZeroDivisionError)
    else if requestId % sampleRate != 0 then Ok(None)
    else if t.totalMs == 0.0 then Ok(None)
    else
      var total := t.totalMs;
      var b := Breakdown(t.numPairs, total, Share(t.tTokenize, total), Share(t.tModelInference, total),
        Share(t.tGrpcReceive + t.tGrpcSend, total), Share(t.tQueueWait, total));
      assert total > 0.0 ==>
        (b.pctTokenize + b.pctInference + b.pctGrpc + b.pctQueue) * total ==
          b.pctTokenize * total + b.pctInference * total + b.pctGrpc * total + b.pctQueue * total;
      Ok(Some(b))
  }

  /** Milliseconds between two clock readings in seconds. */
  function ElapsedMs(start: real, end: real): (ms: real)
    ensures start <= end ==> ms >= 0.0
  {
    (end - start) * 1000.0
  }

  /** The wrapper `timed_stage(name)` puts around `f`, applied to `x`
      between the clock readings `start` and `end`: the result of `f`
      together with the elapsed milliseconds. */
  function TimedStage<A, R>(f: A -> R, x: A, start: real, end: real): (r: (R, real))
    requires f.requires(x)
    reads f.reads(x)
    ensures r.0 == f(x) && r.1 == ElapsedMs(start, end)
  {
    (f(x), ElapsedMs(start, end))
  }

  /** `StageTimer`. */
  class StageTimer {
    const startTime: real
    var timings: StageTimings

    /** A timer started at clock reading `now`. */
    constructor (now: real)
      ensures startTime == now && timings == NoTimings
    {
      startTime := now;
      timings := NoTimings;
    }

    /** `_record_stage(name, elapsed_ms)`: the duration goes into the field
        of the stage so named, replacing an earlier one; any other name
        changes nothing. */
    method RecordStage(name: string, elapsedMs: real)
      modifies this`timings
      ensures name == "grpc_receive" ==> timings == old(timings).(tGrpcReceive := elapsedMs)
      ensures name == "tokenize" ==> timings == old(timings).(tTokenize := elapsedMs)
      ensures name == "queue_wait" ==> timings == old(timings).(tQueueWait := elapsedMs)
      ensures name == "model_inference" ==> timings == old(timings).(tModelInference := elapsedMs)
      ensures name == "grpc_send" ==> timings == old(timings).(tGrpcSend := elapsedMs)
      ensures name !in {"grpc_receive", "tokenize", "queue_wait", "model_inference", "grpc_send"} ==>
        timings == old(timings)
    {
      if name == "grpc_receive" {
        timings := timings.(tGrpcReceive := elapsedMs);
      } else if name == "tokenize" {
        timings := timings.(tTokenize := elapsedMs);
      } else if name == "queue_wait" {
        timings := timings.(tQueueWait := elapsedMs);
      } else if name == "model_inference" {
        timings := timings.(tModelInference := elapsedMs);
      } else if name == "grpc_send" {
        timings := timings.(tGrpcSend := elapsedMs);
      }
    }

    /** `with timer.stage(name):` around a block that ran from clock
        reading `start` to `end`: the stage gets the elapsed time. */
    method Stage(name: string, start: real, end: real)
      modifies this`timings
      ensures name == "grpc_receive" ==> timings == old(timings).(tGrpcReceive := ElapsedMs(start, end))
      ensures name == "tokenize" ==> timings == old(timings).(tTokenize := ElapsedMs(start, end))
      ensures name == "queue_wait" ==> timings == old(timings).(tQueueWait := ElapsedMs(start, end))
      ensures name == "model_inference" ==> timings == old(timings).(tModelInference := ElapsedMs(start, end))
      ensures name == "grpc_send" ==> timings == old(timings).(tGrpcSend := ElapsedMs(start, end))
      ensures name !in {"grpc_receive", "tokenize", "queue_wait", "model_inference", "grpc_send"} ==>
        timings == old(timings)
    {
      RecordStage(name, ElapsedMs(start, end));
    }

    /** `set_num_pairs(n)`. */
    method SetNumPairs(numPairs: int)
      modifies this`timings
      ensures timings == old(timings).(numPairs := numPairs)
    {
      timings := timings.(numPairs := numPairs);
    }

    /** `finalize()` at clock reading `now`: the total is the time since
        the timer started; the stage durations are untouched. */
    method Finalize(now: real) returns (t: StageTimings)
      modifies this`timings
      ensures timings == old(timings).(totalMs := ElapsedMs(startTime, now)) && t == timings
    {
      timings := timings.(totalMs := ElapsedMs(startTime, now));
      t := timings;
    }

    /** `get_timings()`: the same as `finalize()`. */
    method GetTimings(now: real) returns (t: StageTimings)
      modifies this`timings
      ensures timings == old(timings).(totalMs := ElapsedMs(startTime, now)) && t == timings
    {
      t := Finalize(now);
    }
  }
}
