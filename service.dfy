/**
 * The request loop of `main`: for each `test_resonances` request, save the
 * G-code state, move to the first probe point, start the accelerometer
 * capture, run the resonance test, stop and join the capture, report the
 * analysis output, and restore the G-code state. Everything the loop does
 * to the outside world is recorded as an event in a trace; the controller
 * and the environment are an oracle.
 */
module Service {
  import opened Wrappers
  import opened Gcode
  import opened Config
  import Capture

  /** What the loop does to the outside world, in order. */
  datatype Event =
    | Query(cmd: Cmd)                                  // a `gcode/script` query
    | Subscribe(sensor: string)                        // `adxl345/dump_adxl345` subscription
    | WriteHeader                                      // the capture file opened, header written
    | StartWriter                                      // the writer thread started
    | Cancel                                           // the subscription cancelled
    | Join                                             // the writer thread joined
    | Analyze(axis: string, written: seq<Capture.Line>, read: seq<Capture.Line>)
                                                       // `calibrate_shaper.py` run on the capture file:
                                                       // what the writer wrote, and what the script reads

  /** The world outside the loop, as seen from a trace position `i`: the
      controller's reply to the query recorded at `i`, the frames of the
      subscription opened at `i`, and the text the analysis run recorded at
      `i` prints. */
  datatype Env = Env(
    reply: nat -> Response,
    frames: nat -> seq<Capture.Frame>,
    flushed: nat -> nat,
    stdout: nat -> string)

  /** The parameters of one inbound `test_resonances` call. */
  type Request = map<string, string>

  /** A trace and the way its last statement ended. */
  datatype Step = Step(trace: seq<Event>, status: Status)

  /** `gcmd_run(c)`: the query is recorded, and ends as the reply says. */
  function IssueOutcome(t: seq<Event>, c: Cmd, env: Env): Step
  {
    Step(t + [Query(c)], Check(env.reply(|t|)))
  }

  /** Runs `plan` from trace position `|t|`: each event is recorded in
      turn, and a query whose reply raises ends the run there. */
  function RunPlan(t: seq<Event>, plan: seq<Event>, env: Env): Step
    decreases |plan|
  {
    if plan == [] then Step(t, Normal)
    else if plan[0].Query? && Check(env.reply(|t|)).Raised? then Step(t + [plan[0]], Check(env.reply(|t|)))
    else RunPlan(t + [plan[0]], plan[1..], env)
  }

  /** Running `a` and then `b` is running `a + b`. */
  lemma {:induction false} RunPlanAppend(t: seq<Event>, a: seq<Event>, b: seq<Event>, env: Env)
    ensures RunPlan(t, a + b, env) ==
      var s := RunPlan(t, a, env);
      if s.status.Raised? then s else RunPlan(s.trace, b, env)
    ensures RunPlan(t, a, env).status.Normal? ==> RunPlan(t, a, env).trace == t + a
    decreases |a|
  {
    if a == [] {
      assert a + b == b;
    } else {
      assert (a + b)[0] == a[0] && (a + b)[1..] == a[1..] + b;
      RunPlanAppend(t + [a[0]], a[1..], b, env);
      assert t + [a[0]] + a[1..] == t + a;
    }
  }

  /** The moves before the capture: save the G-code state, absolute
      positioning, go to the probe point, wait for the moves to finish. */
  function PreparePlan(p: Point): seq<Event>
  {
    [Query(SaveState), Query(Absolute), Query(MoveTo(p)), Query(Settle)]
  }

  /** The start of the measurement: subscribe to the accelerometer, open
      the capture file with its header, start the writer, run the test. */
  function CapturePlan(sensor: string, axis: string): seq<Event>
  {
    [Subscribe(sensor), WriteHeader, StartWriter, Query(TestResonances(axis))]
  }

  /** The end of the measurement, started at trace position `|t|`: cancel
      the subscription, join the writer, analyse the capture, and report
      the analysis output with `kprint`. The writer has written the header
      plus `Written(frames)`, but the file is neither flushed nor closed
      before the analysis starts, so the script reads only the lines the
      write buffer has already passed on. */
  function ReportPlan(t: seq<Event>, axis: string, frames: seq<Capture.Frame>, env: Env): seq<Event>
  {
    var file := [Capture.Header] + Capture.Written(frames);
    [ Cancel, Join, Analyze(axis, file, Capture.Readable(file, env.flushed(|t| + 2), false)),
      Query(Kprint(env.stdout(|t| + 2), false)) ]
  }

  /** The statements of the `try` block, started at trace position `|t|`,
      as the events they produce when nothing raises; the subscription is
      the one opened at `|t| + 4`. */
  function TryPlan(t: seq<Event>, axis: string, p: Point, sensor: string, env: Env): seq<Event>
  {
    var head := PreparePlan(p) + CapturePlan(sensor, axis);
    head + ReportPlan(t + head, axis, env.frames(|t| + 4), env)
  }

  /** The `try` block, up to the first statement that raises. */
  function TryOutcome(t: seq<Event>, axis: string, p: Point, sensor: string, env: Env): Step
  {
    RunPlan(t, TryPlan(t, axis, p, sensor, env), env)
  }

  /** One pass of the loop for request `req`. The axis and the first probe
      point are looked up outside the `try`; only `Error` is caught, and the
      restore follows the `try`/`except` rather than a `finally`. */
  function TestOutcome(t: seq<Event>, req: Request, cfg: Resolved, env: Env): Step
  {
    if "axis" !in req then Step(t, Raised(KeyError("axis")))
    else if |cfg.probePoints| == 0 then Step(t, Raised(IndexError))
    else
      Handled(TryOutcome(t, req["axis"], cfg.probePoints[0], SensorParam(cfg.sensorX), env), env)
  }

  /** What follows the `try` block `b`: an `Error` is reported with
      `kprint`, any other exception is not caught; unless an exception is
      still pending, the G-code state is restored. */
  function Handled(b: Step, env: Env): Step
  {
    var h :=
      if b.status.Raised? && b.status.exc.Error? then IssueOutcome(b.trace, Kprint(b.status.exc.msg, true), env)
      else b;
    if h.status.Raised? then h
    else IssueOutcome(h.trace, RestoreState, env)
  }

  /** The loop over the requests that arrive, until an exception escapes. */
  function ServeOutcome(t: seq<Event>, reqs: seq<Request>, cfg: Resolved, env: Env): Step
    decreases |reqs|
  {
    if reqs == [] then Step(t, Normal)
    else
      var s := TestOutcome(t, reqs[0], cfg, env);
      if s.status.Raised? then s else ServeOutcome(s.trace, reqs[1..], cfg, env)
  }

  /** The service's control thread after startup. */
  class Orchestrator {
    var trace: seq<Event>
    const cfg: Resolved
    const env: Env

    constructor (cfg: Resolved, env: Env)
      ensures trace == [] && this.cfg == cfg && this.env == env
    {
      trace := [];
      this.cfg := cfg;
      this.env := env;
    }

    /** `gcmd_run`: query the controller, raise on an `error` reply. */
    method GcmdRun(c: Cmd) returns (st: Status)
      modifies this
      ensures Step(trace, st) == IssueOutcome(old(trace), c, env)
    {
      var resp := env.reply(|trace|);
      trace := trace + [Query(c)];
      st := Check(resp);
    }

    /** `kprint`: a `RESPOND` command through `gcmd_run`. */
    method Kprint(msg: string, error: bool) returns (st: Status)
      modifies this
      ensures Step(trace, st) == IssueOutcome(old(trace), Gcode.Kprint(msg, error), env)
    {
      st := GcmdRun(Gcode.Kprint(msg, error));
    }

    /** The first four statements of the `try` block. */
    method Prepare(p: Point) returns (st: Status)
      modifies this
      ensures Step(trace, st) == RunPlan(old(trace), PreparePlan(p), env)
    {
      ghost var plan := PreparePlan(p);
      ghost var t0 := trace;
      st := GcmdRun(SaveState);
      if st.Raised? { return; }
      assert RunPlan(t0, plan, env) == RunPlan(trace, plan[1..], env);
      st := GcmdRun(Absolute);
      if st.Raised? { return; }
      assert RunPlan(t0, plan, env) == RunPlan(trace, plan[2..], env) by {
        assert plan[1..][1..] == plan[2..];
      }
      st := GcmdRun(MoveTo(p));
      if st.Raised? { return; }
      assert RunPlan(t0, plan, env) == RunPlan(trace, plan[3..], env) by {
        assert plan[2..][1..] == plan[3..];
      }
      ghost var t3 := trace;
      st := GcmdRun(Settle);
      assert plan[3..] == [Query(Settle)];
      assert RunPlan(t3, plan[3..], env) == Step(trace, st);
    }

    /** Subscribing, opening the capture, starting the writer and running
        the test; `frames` is what the subscription will yield. */
    method StartCapture(axis: string) returns (st: Status, frames: seq<Capture.Frame>)
      modifies this
      ensures Step(trace, st) == RunPlan(old(trace), CapturePlan(SensorParam(cfg.sensorX), axis), env)
      ensures frames == env.frames(|old(trace)|)
    {
      ghost var plan := CapturePlan(SensorParam(cfg.sensorX), axis);
      ghost var t0 := trace;
      frames := env.frames(|trace|);
      trace := trace + [Subscribe(SensorParam(cfg.sensorX))];
      assert RunPlan(t0, plan, env) == RunPlan(trace, plan[1..], env);
      trace := trace + [WriteHeader];
      assert RunPlan(t0, plan, env) == RunPlan(trace, plan[2..], env) by {
        assert plan[1..][1..] == plan[2..];
      }
      trace := trace + [StartWriter];
      assert RunPlan(t0, plan, env) == RunPlan(trace, plan[3..], env) by {
        assert plan[2..][1..] == plan[3..];
      }
      ghost var t3 := trace;
      st := GcmdRun(TestResonances(axis));
      assert plan[3..] == [Query(TestResonances(axis))];
      assert RunPlan(t3, plan[3..], env) == Step(trace, st);
    }

    /** Stopping the capture and reporting the analysis. The writer thread
        runs to the end of the subscription between `cancel()` and
        `join()`; the file stays open while the analysis reads it. */
    method FinishCapture(axis: string, frames: seq<Capture.Frame>) returns (st: Status)
      modifies this
      ensures Step(trace, st) == RunPlan(old(trace), ReportPlan(old(trace), axis, frames, env), env)
    {
      ghost var plan := ReportPlan(trace, axis, frames, env);
      ghost var t0 := trace;
      trace := trace + [Cancel];
      assert RunPlan(t0, plan, env) == RunPlan(trace, plan[1..], env);
      var file := Capture.BgWriter([Capture.Header], frames);
      trace := trace + [Join];
      assert RunPlan(t0, plan, env) == RunPlan(trace, plan[2..], env) by {
        assert plan[1..][1..] == plan[2..];
      }
      var read := Capture.Readable(file, env.flushed(|trace|), false);
      var out := env.stdout(|trace|);
      trace := trace + [Analyze(axis, file, read)];
      assert RunPlan(t0, plan, env) == RunPlan(trace, plan[3..], env) by {
        assert plan[2..][1..] == plan[3..];
      }
      ghost var t3 := trace;
      st := Kprint(out, false);
      assert plan[3..] == [Query(Gcode.Kprint(out, false))];
      assert RunPlan(t3, plan[3..], env) == Step(trace, st);
    }

    /** The `try` block. */
    method TryBlock(axis: string, p: Point) returns (st: Status)
      modifies this
      ensures Step(trace, st) == TryOutcome(old(trace), axis, p, SensorParam(cfg.sensorX), env)
    {
      ghost var t0 := trace;
      ghost var sensor := SensorParam(cfg.sensorX);
      ghost var head := PreparePlan(p) + CapturePlan(sensor, axis);
      ghost var tail := ReportPlan(t0 + head, axis, env.frames(|t0| + 4), env);
      RunPlanAppend(t0, head, tail, env);
      RunPlanAppend(t0, PreparePlan(p), CapturePlan(sensor, axis), env);
      st := Prepare(p);
      if st.Raised? { return; }
      var frames;
      st, frames := StartCapture(axis);
      if st.Raised? { return; }
      st := FinishCapture(axis, frames);
    }

    /** One pass of the request loop. */
    method HandleRequest(req: Request) returns (st: Status)
      modifies this
      ensures Step(trace, st) == TestOutcome(old(trace), req, cfg, env)
    {
      if "axis" !in req {
        return Raised(KeyError("axis"));
      }
      var axis := req["axis"];
      if |cfg.probePoints| == 0 {
        return Raised(IndexError);
      }
      var p := cfg.probePoints[0];
      st := TryBlock(axis, p);
      if st.Raised? {
        if !st.exc.Error? {
          return;
        }
        st := Kprint(st.exc.msg, true);
        if st.Raised? {
          return;
        }
      }
      st := GcmdRun(RestoreState);
    }

    /** The request loop, over the requests that arrive in turn. */
    method Serve(reqs: seq<Request>) returns (st: Status)
      modifies this
      ensures Step(trace, st) == ServeOutcome(old(trace), reqs, cfg, env)
    {
      var i := 0;
      while i < |reqs|
        invariant 0 <= i <= |reqs|
        invariant ServeOutcome(old(trace), reqs, cfg, env) == ServeOutcome(trace, reqs[i..], cfg, env)
      {
        assert reqs[i..][0] == reqs[i] && reqs[i..][1..] == reqs[i + 1..];
        st := HandleRequest(reqs[i]);
        if st.Raised? {
          return;
        }
        i := i + 1;
      }
      assert reqs[i..] == [];
      st := Normal;
    }
  }

  /** How `main` ends: startup raised, or the loop ran. */
  datatype Exit = Aborted(exc: Exc) | Served(trace: seq<Event>, status: Status)

  /** `main` after the readiness gate: startup checks, then the loop. A
      failed startup never reaches the loop. */
  method RunService(objects: seq<string>, settings: map<string, Section>, reqs: seq<Request>, env: Env)
    returns (exit: Exit)
    ensures exit.Aborted? <==> Startup(objects, settings).Failure?
    ensures exit.Aborted? ==> exit.exc == Startup(objects, settings).error
    ensures exit.Served? ==> Step(exit.trace, exit.status) == ServeOutcome([], reqs, Startup(objects, settings).value, env)
  {
    var r := Startup(objects, settings);
    if r.Failure? {
      return Aborted(r.error);
    }
    var o := new Orchestrator(r.value, env);
    var st := o.Serve(reqs);
    exit := Served(o.trace, st);
  }
}
