/**
 * Properties of the request loop: the fixed order of one axis test, the
 * failure boundary of its `try` block, what is reported and restored after
 * a failure, and the restores the loop issues over many requests.
 */
module ServiceProperties {
  import opened Gcode
  import opened Config
  import opened Service
  import Capture

  /** The commands of a trace, in the order they were issued. */
  function Commands(tr: seq<Event>): seq<Cmd>
  {
    CommandsUpTo(tr, |tr|)
  }

  /** The commands among the first `k` events of a trace. */
  function CommandsUpTo(tr: seq<Event>, k: nat): seq<Cmd>
    requires k <= |tr|
  {
    if k == 0 then []
    else CommandsUpTo(tr, k - 1) + (if tr[k - 1].Query? then [tr[k - 1].cmd] else [])
  }

  /** The messages of the `RESPOND TYPE=error` commands of a trace, in
      order. */
  function ErrorReports(tr: seq<Event>): seq<string>
  {
    ErrorReportsUpTo(tr, |tr|)
  }

  predicate IsErrorReport(e: Event)
  {
    e.Query? && e.cmd.Respond? && e.cmd.kind == ErrorType
  }

  function ErrorReportsUpTo(tr: seq<Event>, k: nat): seq<string>
    requires k <= |tr|
  {
    if k == 0 then []
    else ErrorReportsUpTo(tr, k - 1) + (if IsErrorReport(tr[k - 1]) then [tr[k - 1].cmd.msg] else [])
  }

  /** How many `RESTORE_GCODE_STATE` commands a trace holds. */
  function Restores(tr: seq<Event>): nat
  {
    RestoresUpTo(tr, |tr|)
  }

  function RestoresUpTo(tr: seq<Event>, k: nat): nat
    requires k <= |tr|
  {
    if k == 0 then 0
    else RestoresUpTo(tr, k - 1) + (if tr[k - 1] == Query(RestoreState) then 1 else 0)
  }

  /** The events of the `try` block's plan, written out. */
  lemma TryPlanEvents(t: seq<Event>, axis: string, p: Point, sensor: string, env: Env)
    ensures TryPlan(t, axis, p, sensor, env) ==
      [ Query(SaveState), Query(Absolute), Query(MoveTo(p)), Query(Settle),
        Subscribe(sensor), WriteHeader, StartWriter, Query(TestResonances(axis)),
        Cancel, Join, Analyze(axis, [Capture.Header] + Capture.Written(env.frames(|t| + 4)),
                              Capture.Readable([Capture.Header] + Capture.Written(env.frames(|t| + 4)), env.flushed(|t| + 10), false)),
        Query(Respond(CommandType, env.stdout(|t| + 10))) ]
  {
  }

  lemma {:induction false} CommandsUpToPrefix(a: seq<Event>, b: seq<Event>, k: nat)
    requires k <= |a|
    ensures CommandsUpTo(a + b, k) == CommandsUpTo(a, k)
  {
    if k > 0 {
      CommandsUpToPrefix(a, b, k - 1);
    }
  }

  lemma {:induction false} CommandsUpToSuffix(a: seq<Event>, b: seq<Event>, j: nat)
    requires j <= |b|
    ensures CommandsUpTo(a + b, |a| + j) == Commands(a) + CommandsUpTo(b, j)
  {
    if j == 0 {
      CommandsUpToPrefix(a, b, |a|);
    } else {
      CommandsUpToSuffix(a, b, j - 1);
    }
  }

  lemma CommandsAppend(a: seq<Event>, b: seq<Event>)
    ensures Commands(a + b) == Commands(a) + Commands(b)
  {
    CommandsUpToSuffix(a, b, |b|);
  }

  lemma {:induction false} ErrorReportsAppendUpTo(a: seq<Event>, b: seq<Event>, k: nat)
    requires k <= |a| + |b|
    ensures k <= |a| ==> ErrorReportsUpTo(a + b, k) == ErrorReportsUpTo(a, k)
    ensures |a| <= k ==> ErrorReportsUpTo(a + b, k) == ErrorReports(a) + ErrorReportsUpTo(b, k - |a|)
  {
    if k > 0 {
      ErrorReportsAppendUpTo(a, b, k - 1);
    }
  }

  lemma ErrorReportsAppend(a: seq<Event>, b: seq<Event>)
    ensures ErrorReports(a + b) == ErrorReports(a) + ErrorReports(b)
  {
    ErrorReportsAppendUpTo(a, b, |a| + |b|);
  }

  lemma {:induction false} RestoresAppendUpTo(a: seq<Event>, b: seq<Event>, k: nat)
    requires k <= |a| + |b|
    ensures k <= |a| ==> RestoresUpTo(a + b, k) == RestoresUpTo(a, k)
    ensures |a| <= k ==> RestoresUpTo(a + b, k) == Restores(a) + RestoresUpTo(b, k - |a|)
  {
    if k > 0 {
      RestoresAppendUpTo(a, b, k - 1);
    }
  }

  lemma RestoresAppend(a: seq<Event>, b: seq<Event>)
    ensures Restores(a + b) == Restores(a) + Restores(b)
  {
    RestoresAppendUpTo(a, b, |a| + |b|);
  }

  /** What a single event counts. */
  lemma SingleCounts(e: Event)
    ensures Restores([e]) == if e == Query(RestoreState) then 1 else 0
    ensures ErrorReports([e]) == if IsErrorReport(e) then [e.cmd.msg] else []
  {
    assert RestoresUpTo([e], 0) == 0 && ErrorReportsUpTo([e], 0) == [];
  }

  /** A trace without restores or error reports counts none. */
  lemma {:induction false} NoneCountedUpTo(tr: seq<Event>, k: nat)
    requires k <= |tr|
    requires forall i :: 0 <= i < k ==> tr[i] != Query(RestoreState) && !IsErrorReport(tr[i])
    ensures RestoresUpTo(tr, k) == 0 && ErrorReportsUpTo(tr, k) == []
  {
    if k > 0 {
      NoneCountedUpTo(tr, k - 1);
    }
  }

  /** No prefix of the `try` block's plan restores the G-code state or
      reports an error. */
  lemma NoReportOrRestoreInPlan(s: seq<Event>, t: seq<Event>, axis: string, p: Point, sensor: string, env: Env)
    requires s <= TryPlan(t, axis, p, sensor, env)
    ensures Restores(s) == 0
    ensures ErrorReports(s) == []
  {
    TryPlanEvents(t, axis, p, sensor, env);
    var plan := TryPlan(t, axis, p, sensor, env);
    forall i | 0 <= i < |s|
      ensures s[i] != Query(RestoreState) && !IsErrorReport(s[i])
    {
      assert s[i] == plan[i];
    }
    NoneCountedUpTo(s, |s|);
  }

  /** `b` ran `plan` from trace position `|t|`: it did a prefix of the plan,
      all of it when it ended normally; when it raised, the last event is
      the query whose reply raised; every other query was answered without
      error. */
  ghost predicate FollowsPlan(t: seq<Event>, b: Step, plan: seq<Event>, env: Env)
  {
    && |t| <= |b.trace|
    && b.trace <= t + plan
    && (b.status.Normal? ==> b.trace == t + plan)
    && (b.status.Raised? ==>
          && |t| < |b.trace|
          && b.trace[|b.trace| - 1].Query?
          && b.status == Check(env.reply(|b.trace| - 1)))
    && (forall i :: |t| <= i < |b.trace| && b.trace[i].Query? && (b.status.Normal? || i < |b.trace| - 1) ==>
          env.reply(i).Answered?)
  }

  /** Running a plan stops at the first query whose reply raises. */
  lemma {:induction false} RunPlanFollows(t: seq<Event>, plan: seq<Event>, env: Env)
    ensures FollowsPlan(t, RunPlan(t, plan, env), plan, env)
    decreases |plan|
  {
    if plan != [] && !(plan[0].Query? && Check(env.reply(|t|)).Raised?) {
      var t' := t + [plan[0]];
      RunPlanFollows(t', plan[1..], env);
      assert t' + plan[1..] == t + plan;
      var b := RunPlan(t, plan, env);
      forall i | |t| <= i < |b.trace| && b.trace[i].Query? && (b.status.Normal? || i < |b.trace| - 1)
        ensures env.reply(i).Answered?
      {
        if i == |t| {
          assert b.trace[i] == plan[0];
        }
      }
    }
  }

  /** The `try` block runs its plan and stops at the first command that
      raises; it always ends with a query, and ends as that query's reply
      says. */
  lemma TryFollowsPlan(t: seq<Event>, axis: string, p: Point, sensor: string, env: Env)
    ensures FollowsPlan(t, TryOutcome(t, axis, p, sensor, env), TryPlan(t, axis, p, sensor, env), env)
    ensures var b := TryOutcome(t, axis, p, sensor, env);
      |t| < |b.trace| && b.status == Check(env.reply(|b.trace| - 1))
  {
    RunPlanFollows(t, TryPlan(t, axis, p, sensor, env), env);
    TryPlanEvents(t, axis, p, sensor, env);
  }

  /** The `try` block neither restores the G-code state nor reports an
      error: the trace it adds counts none of either. */
  lemma TryCountsNothing(t: seq<Event>, axis: string, p: Point, sensor: string, env: Env)
    ensures var b := TryOutcome(t, axis, p, sensor, env);
      && t < b.trace <= t + TryPlan(t, axis, p, sensor, env)
      && b.trace[|b.trace| - 1].Query?
      && b.status == Check(env.reply(|b.trace| - 1))
      && Restores(b.trace) == Restores(t)
      && ErrorReports(b.trace) == ErrorReports(t)
  {
    var b := TryOutcome(t, axis, p, sensor, env);
    TryFollowsPlan(t, axis, p, sensor, env);
    var u := b.trace[|t|..];
    assert b.trace == t + u;
    NoReportOrRestoreInPlan(u, t, axis, p, sensor, env);
    RestoresAppend(t, u);
    ErrorReportsAppend(t, u);
  }

  lemma CommandsSnoc(x: seq<Event>, e: Event)
    ensures Commands(x + [e]) == Commands(x) + (if e.Query? then [e.cmd] else [])
  {
    CommandsUpToPrefix(x, [e], |x|);
  }

  /** The order inside one test is fixed: the block stops only right after
      one of its six queries; `TEST_RESONANCES` is issued only after `M400`
      was answered, preceded by the subscription, the header write and the
      writer start; and cancel, join and the analysis happen only when
      `TEST_RESONANCES` was answered, in that order. */
  lemma TryOrder(t: seq<Event>, axis: string, p: Point, sensor: string, env: Env, b: Step)
    requires b == TryOutcome(t, axis, p, sensor, env)
    ensures |b.trace| - |t| in {1, 2, 3, 4, 8, 12}
    ensures |b.trace| >= |t| + 8 ==>
      && b.trace[|t| + 3] == Query(Settle) && env.reply(|t| + 3).Answered?
      && b.trace[|t| + 4..|t| + 8] == [Subscribe(sensor), WriteHeader, StartWriter, Query(TestResonances(axis))]
    ensures |b.trace| == |t| + 12 <==> |b.trace| >= |t| + 8 && env.reply(|t| + 7).Answered?
    ensures |b.trace| == |t| + 12 ==>
      b.trace[|t| + 8..|t| + 11] == [Cancel, Join, Analyze(axis, [Capture.Header] + Capture.Written(env.frames(|t| + 4)),
        Capture.Readable([Capture.Header] + Capture.Written(env.frames(|t| + 4)), env.flushed(|t| + 10), false))]
  {
    TryFollowsPlan(t, axis, p, sensor, env);
    TryPlanEvents(t, axis, p, sensor, env);
    var plan := TryPlan(t, axis, p, sensor, env);
    var n := |b.trace| - |t|;
    assert 1 <= n <= 12;
    assert b.trace[|t| + n - 1] == plan[n - 1];
    if n >= 8 {
      assert b.trace[|t| + 3] == plan[3];
      assert b.trace[|t| + 4..|t| + 8] == plan[4..8];
    }
    if n >= 8 && env.reply(|t| + 7).Answered? {
      assert b.trace[|t| + 7] == plan[7];
    }
    if n == 12 {
      assert b.trace[|t| + 8..|t| + 11] == plan[8..11];
    }
  }

  /** The command an event issues, if any. */
  function CommandOf(e: Event): seq<Cmd>
  {
    if e.Query? then [e.cmd] else []
  }

  lemma CommandsOfFour(e0: Event, e1: Event, e2: Event, e3: Event)
    ensures Commands([e0, e1, e2, e3]) == CommandOf(e0) + CommandOf(e1) + CommandOf(e2) + CommandOf(e3)
  {
    var s := [e0, e1, e2, e3];
    assert CommandsUpTo(s, 1) == CommandOf(e0);
    assert CommandsUpTo(s, 2) == CommandOf(e0) + CommandOf(e1);
    assert CommandsUpTo(s, 3) == CommandOf(e0) + CommandOf(e1) + CommandOf(e2);
  }

  /** The commands of the last four events of the `try` block: only the
      report of the analysis output. */
  lemma CommandsOfReport(t: seq<Event>, axis: string, frames: seq<Capture.Frame>, env: Env)
    ensures Commands(ReportPlan(t, axis, frames, env)) == [Respond(CommandType, env.stdout(|t| + 2))]
  {
    var report := ReportPlan(t, axis, frames, env);
    CommandsOfFour(report[0], report[1], report[2], report[3]);
    assert report == [report[0], report[1], report[2], report[3]];
  }

  /** The commands of the first eight events of the `try` block. */
  lemma CommandsOfHead(p: Point, sensor: string, axis: string)
    ensures Commands(PreparePlan(p) + CapturePlan(sensor, axis)) ==
      [SaveState, Absolute, MoveTo(p), Settle, TestResonances(axis)]
  {
    var prepare, capture := PreparePlan(p), CapturePlan(sensor, axis);
    CommandsAppend(prepare, capture);
    CommandsOfFour(prepare[0], prepare[1], prepare[2], prepare[3]);
    assert prepare == [prepare[0], prepare[1], prepare[2], prepare[3]];
    CommandsOfFour(capture[0], capture[1], capture[2], capture[3]);
    assert capture == [capture[0], capture[1], capture[2], capture[3]];
  }

  /** The commands of the `try` block's plan. */
  lemma CommandsOfPlan(t: seq<Event>, axis: string, p: Point, sensor: string, env: Env)
    ensures Commands(TryPlan(t, axis, p, sensor, env)) ==
      [SaveState, Absolute, MoveTo(p), Settle, TestResonances(axis), Respond(CommandType, env.stdout(|t| + 10))]
  {
    var head := PreparePlan(p) + CapturePlan(sensor, axis);
    var report := ReportPlan(t + head, axis, env.frames(|t| + 4), env);
    assert TryPlan(t, axis, p, sensor, env) == head + report;
    assert |t + head| == |t| + 8;
    CommandsOfHead(p, sensor, axis);
    CommandsOfReport(t + head, axis, env.frames(|t| + 4), env);
    CommandsAppend(head, report);
  }

  /** When every command succeeds, one axis test does the whole plan and
      then restores the G-code state; the commands issued are exactly the
      seven of the test, in order. */
  lemma HappyPath(t: seq<Event>, req: Request, cfg: Resolved, env: Env)
    requires "axis" in req && |cfg.probePoints| > 0
    requires forall i :: |t| <= i <= |t| + 12 ==> env.reply(i).Answered?
    ensures TestOutcome(t, req, cfg, env) ==
      Step(t + TryPlan(t, req["axis"], cfg.probePoints[0], SensorParam(cfg.sensorX), env) + [Query(RestoreState)], Normal)
    ensures Commands(TestOutcome(t, req, cfg, env).trace) == Commands(t) +
      [ SaveState, Absolute, MoveTo(cfg.probePoints[0]), Settle, TestResonances(req["axis"]),
        Respond(CommandType, env.stdout(|t| + 10)), RestoreState ]
  {
    var axis, p, sensor := req["axis"], cfg.probePoints[0], SensorParam(cfg.sensorX);
    var plan := TryPlan(t, axis, p, sensor, env);
    assert env.reply(|t| + 7).Answered? && env.reply(|t| + 11).Answered? && env.reply(|t| + 12).Answered?;
    TryFollowsPlan(t, axis, p, sensor, env);
    TryPlanEvents(t, axis, p, sensor, env);
    CommandsAppend(t, plan);
    CommandsSnoc(t + plan, Query(RestoreState));
    CommandsOfPlan(t, axis, p, sensor, env);
  }

  /** After a `try` block that raised `Error(m)`: exactly one
      `RESPOND TYPE=error` carrying `m` follows, and then the restore,
      unless that report itself raises, in which case the restore is
      skipped and the exception is pending. */
  lemma HandledError(b: Step, m: string, env: Env)
    requires b.status == Raised(Error(m))
    ensures var report := b.trace + [Query(Respond(ErrorType, m))];
      Handled(b, env) ==
        if Check(env.reply(|b.trace|)).Raised? then Step(report, Check(env.reply(|b.trace|)))
        else Step(report + [Query(RestoreState)], Check(env.reply(|b.trace| + 1)))
    ensures ErrorReports(Handled(b, env).trace) == ErrorReports(b.trace) + [m]
    ensures Restores(Handled(b, env).trace) == Restores(b.trace) + (if Check(env.reply(|b.trace|)).Raised? then 0 else 1)
  {
    var report := b.trace + [Query(Respond(ErrorType, m))];
    assert Kprint(m, true) == Respond(ErrorType, m);
    ErrorReportsAppend(b.trace, [Query(Respond(ErrorType, m))]);
    RestoresAppend(b.trace, [Query(Respond(ErrorType, m))]);
    SingleCounts(Query(Respond(ErrorType, m)));
    if Check(env.reply(|b.trace|)).Normal? {
      ErrorReportsAppend(report, [Query(RestoreState)]);
      RestoresAppend(report, [Query(RestoreState)]);
      SingleCounts(Query(RestoreState));
    }
  }

  /** An `Error` raised inside the `try` block: the failing command is the
      last one the block issued and no later statement of the block ran;
      the report and the restore follow as `HandledError` states, and the
      trace holds exactly one more error report. */
  lemma CaughtErrorReportedThenRestored(t: seq<Event>, req: Request, cfg: Resolved, env: Env, b: Step, m: string)
    requires "axis" in req && |cfg.probePoints| > 0
    requires b == TryOutcome(t, req["axis"], cfg.probePoints[0], SensorParam(cfg.sensorX), env)
    requires b.status == Raised(Error(m))
    ensures b.trace <= t + TryPlan(t, req["axis"], cfg.probePoints[0], SensorParam(cfg.sensorX), env)
    ensures |t| < |b.trace| && b.trace[|b.trace| - 1].Query? && env.reply(|b.trace| - 1).Errored?
    ensures TestOutcome(t, req, cfg, env) == Handled(b, env)
    ensures ErrorReports(TestOutcome(t, req, cfg, env).trace) == ErrorReports(t) + [m]
  {
    assert TestOutcome(t, req, cfg, env) == Handled(b, env);
    HandledError(b, m, env);
    TryCountsNothing(t, req["axis"], cfg.probePoints[0], SensorParam(cfg.sensorX), env);
  }

  /** An exception other than `Error` inside the `try` block is not caught:
      nothing is reported, nothing restored, and it leaves the loop. */
  lemma UncaughtEscapes(t: seq<Event>, req: Request, cfg: Resolved, env: Env, b: Step)
    requires "axis" in req && |cfg.probePoints| > 0
    requires b == TryOutcome(t, req["axis"], cfg.probePoints[0], SensorParam(cfg.sensorX), env)
    requires b.status.Raised? && !b.status.exc.Error?
    ensures TestOutcome(t, req, cfg, env) == b
    ensures Restores(b.trace) == Restores(t) && ErrorReports(b.trace) == ErrorReports(t)
  {
    TryCountsNothing(t, req["axis"], cfg.probePoints[0], SensorParam(cfg.sensorX), env);
  }

  /** What follows the `try` block only adds error reports and restores. */
  lemma HandledAddsReportsAndRestores(b: Step, env: Env)
    ensures b.trace <= Handled(b, env).trace
    ensures forall i :: |b.trace| <= i < |Handled(b, env).trace| ==>
      Handled(b, env).trace[i] == Query(RestoreState) || IsErrorReport(Handled(b, env).trace[i])
  {
    if b.status.Raised? && b.status.exc.Error? {
      assert Kprint(b.status.exc.msg, true).kind == ErrorType;
    }
  }

  /** Whatever the axis, a test subscribes to the X sensor's name (the text
      `None` when it is unset) and moves to the first probe point only. */
  lemma SensorXAndFirstPoint(t: seq<Event>, req: Request, cfg: Resolved, env: Env, r: Step)
    requires "axis" in req && |cfg.probePoints| > 0
    requires r == TestOutcome(t, req, cfg, env)
    ensures forall i :: |t| <= i < |r.trace| && r.trace[i].Subscribe? ==>
      r.trace[i].sensor == SensorParam(cfg.sensorX)
    ensures forall i :: |t| <= i < |r.trace| && r.trace[i].Query? && r.trace[i].cmd.MoveTo? ==>
      r.trace[i].cmd.p == cfg.probePoints[0]
  {
    var axis, p, sensor := req["axis"], cfg.probePoints[0], SensorParam(cfg.sensorX);
    var b := TryOutcome(t, axis, p, sensor, env);
    assert r == Handled(b, env);
    HandledAddsReportsAndRestores(b, env);
    TryCountsNothing(t, axis, p, sensor, env);
    TryPlanEvents(t, axis, p, sensor, env);
    var plan := TryPlan(t, axis, p, sensor, env);
    forall i | |t| <= i < |r.trace|
      ensures r.trace[i].Subscribe? ==> r.trace[i].sensor == sensor
      ensures r.trace[i].Query? && r.trace[i].cmd.MoveTo? ==> r.trace[i].cmd.p == p
    {
      if i < |b.trace| {
        assert r.trace[i] == plan[i - |t|];
      }
    }
  }

  /** One pass of the loop extends the trace and issues at most one restore;
      a pass that ends normally ends with the restore. */
  lemma TestRestoresAtMostOnce(t: seq<Event>, req: Request, cfg: Resolved, env: Env, r: Step)
    requires r == TestOutcome(t, req, cfg, env)
    ensures t <= r.trace
    ensures Restores(t) <= Restores(r.trace) <= Restores(t) + 1
    ensures r.status.Normal? ==> r.trace[|r.trace| - 1] == Query(RestoreState) && Restores(r.trace) == Restores(t) + 1
  {
    if "axis" in req && |cfg.probePoints| > 0 {
      var axis, p, sensor := req["axis"], cfg.probePoints[0], SensorParam(cfg.sensorX);
      var b := TryOutcome(t, axis, p, sensor, env);
      TryCountsNothing(t, axis, p, sensor, env);
      if b.status.Raised? && b.status.exc.Error? {
        HandledError(b, b.status.exc.msg, env);
      } else if b.status.Normal? {
        RestoresAppend(b.trace, [Query(RestoreState)]);
        SingleCounts(Query(RestoreState));
      }
    }
  }

  /** Over a run of requests, the loop issues at most one restore per
      request, and exactly one per request while no exception escapes. */
  lemma {:induction false} ServeRestoresOncePerRequest(t: seq<Event>, reqs: seq<Request>, cfg: Resolved, env: Env)
    ensures t <= ServeOutcome(t, reqs, cfg, env).trace
    ensures Restores(ServeOutcome(t, reqs, cfg, env).trace) <= Restores(t) + |reqs|
    ensures ServeOutcome(t, reqs, cfg, env).status.Normal? ==>
      Restores(ServeOutcome(t, reqs, cfg, env).trace) == Restores(t) + |reqs|
    decreases |reqs|
  {
    if reqs != [] {
      var s := TestOutcome(t, reqs[0], cfg, env);
      TestRestoresAtMostOnce(t, reqs[0], cfg, env, s);
      if !s.status.Raised? {
        ServeRestoresOncePerRequest(s.trace, reqs[1..], cfg, env);
      }
    }
  }
}
