# Resonance graph service — a Dafny model of its control logic

`graph-gen-service.py` is a small client of a 3D-printer controller (Klipper,
reached through an RPC shim). It waits for the controller to be ready, checks
the controller's configuration, and then serves `test_resonances` requests:
for each requested axis it saves the G-code state, moves to the first probe
point, captures the accelerometer stream to a CSV file while the controller
runs `TEST_RESONANCES`, runs the shaper-calibration script on the capture,
reports the script's output to the operator with `RESPOND`, and restores the
G-code state.

The project models the sequential logic inside that plumbing:

- `Gcode` (gcode.dfy): the commands the service sends as `gcode/script`
  queries and their exact script text; `gcmd_run`'s verdict on the
  controller's reply (`Check`); and the `RESPOND` command `kprint` builds
  (`Kprint`).
- `Config` (config.dfy): startup. It checks that `configfile` is among the
  objects and that `resonance_tester` is among the settings. It then
  resolves the X and Y accelerometer names from `accel_chip`,
  `accel_chip_x` and `accel_chip_y`, checks that `respond` is among the
  settings, and reads `probe_points` last.
- `Capture` (capture.dfy): the writer thread `_bg_writer`. `BgWriter` is a
  method with nested loops appending lines to the file contents. It is
  proved against the function `Written`, and `Written` is proved against a
  reference definition, `Rows`.
- `Readiness` (readiness.dfy): the `info` polling loop, run over a finite
  prefix of the controller's answers.
- `Service` (service.dfy): the request loop. Everything it does to the
  outside world is an `Event` appended to a trace:
  - queries;
  - the subscription;
  - opening the capture file and writing its header;
  - starting, cancelling and joining the writer;
  - running the analysis.

  The controller's replies, the subscription's frames and the analysis
  output form an oracle (`Env`), indexed by trace position. The class
  `Orchestrator` holds the trace, and its methods are proved equal to
  specification functions: `RunPlan` of each piece of the `try` block for
  `Prepare`, `StartCapture` and `FinishCapture`, `TryOutcome` for
  `TryBlock`, `TestOutcome` for `HandleRequest` (which does the
  `except Error` clause and the restore itself; the function `Handled`
  states that part), and `ServeOutcome` for `Serve`.
  `RunService` is `main` after the readiness gate.
- `ServiceProperties` (properties.dfy): lemmas about those functions. They
  cover the command sequence when everything succeeds, the order of events
  inside a test, where the `try` block stops, what follows a caught `Error`,
  the exceptions that are not caught, and how many restores the loop issues.

In these places one would expect more of the service than the code does
(a guaranteed restore, a stopped capture, a closed file), and the model
follows the code:

- The restore sits after the `try`/`except` (graph-gen-service.py:117-119),
  not in a `finally`. If the `RESPOND TYPE=error` report itself fails, the
  restore is skipped and the exception ends the loop. The model proves at
  most one restore per request, and exactly one for each request that ends
  normally (`TestRestoresAtMostOnce`, `ServeRestoresOncePerRequest`). It
  does not prove exactly one in every case, because the code does not
  guarantee that.
- Only `Error` is caught (graph-gen-service.py:117). A request without
  `axis` (line 79), an empty `probe_points` (line 80), and an error reply
  whose `error` mapping has no `message` (line 61) raise `KeyError` or
  `IndexError`. These leave the loop with no report and no restore: the
  first two by the definition of `TestOutcome` (see also
  `TestRestoresAtMostOnce`), the last inside the `try` block by
  `UncaughtEscapes`.
- When `TEST_RESONANCES` fails, `cancel()` and `join()` are skipped
  (lines 103-105). The subscription and the writer are left running
  (`TryOrder`).
- The capture file is never flushed or closed before `calibrate_shaper.py`
  reads it (lines 91-111). The `Analyze` event therefore records both what
  the writer wrote and what the script can read: a prefix of it, as long as
  the oracle `flushed` says (`Capture.Readable`). This is listed under
  "## Findings".
- The subscription always names `sensor_name_x`, whatever the axis
  (line 88). When that name is unset, the text sent is `None`
  (`SensorXAndFirstPoint`, `Config.SensorParam`).

## Model

| member | source | states |
|---|---|---|
| Gcode.Check | graph-gen-service.py:57-62 | a reply raises exactly when it carries an `error` mapping; the exception is `Error` with the mapping's `message`, or `KeyError` when `message` is missing; any other reply returns normally |
| Gcode.Kprint | graph-gen-service.py:68-72 | the command is a `RESPOND` carrying `msg` unchanged; its script starts with `RESPOND TYPE=error ` exactly when `error` is set and with `RESPOND TYPE=command ` exactly when it is not |
| Config.ResolveSensors | graph-gen-service.py:51-55 | with `accel_chip` set, both names equal it; otherwise X is set exactly when `accel_chip_x` is, with its value, and Y likewise with `accel_chip_y`; either may stay unset |
| Config.CombinedChipOverrides | graph-gen-service.py:51-55 | with `accel_chip` set, removing `accel_chip_x`/`accel_chip_y` changes neither name |
| Config.PerAxisIndependent | graph-gen-service.py:51-55 | without `accel_chip`, changing `accel_chip_y` leaves the X name unchanged, and changing `accel_chip_x` leaves the Y name unchanged |
| Config.SensorParam | graph-gen-service.py:88 | the subscription's `sensor` text is the name when set and `None` when unset |
| Config.Startup | graph-gen-service.py:40-74 | startup succeeds exactly when `configfile`, `resonance_tester`, `respond` and `probe_points` are all present; a missing one fails with `Error(...)` and its exact message, checked in that order; `probe_points` missing gives `KeyError`; on success the names are `ResolveSensors` of the tester section and the probe points are the section's |
| Capture.WriteRows | graph-gen-service.py:99-100 | the inner loop appends one sample line per row of a data frame, in row order |
| Capture.BgWriter | graph-gen-service.py:93-100 | running the writer's loops over `frames` leaves the file as it was followed by `Written(frames)` |
| Capture.WrittenAppend | graph-gen-service.py:94-100 | frames arriving after a prefix whose data frames all carry `data` add their own lines after the prefix's |
| Capture.WrittenIsRowsInOrder | graph-gen-service.py:92-100 | when no frame with `params` lacks `data`, the writer writes exactly one sample line per row of every data frame, in arrival order (the reference `Rows`) |
| Capture.ControlFrameSkipped | graph-gen-service.py:95-97 | a frame without `params`, wherever it arrives, changes nothing in the capture |
| Capture.WrittenStopsAtMissingData | graph-gen-service.py:98 | a frame with `params` but without `data` ends the writer: the capture holds exactly the rows that arrived before it |
| Capture.Readable | graph-gen-service.py:91-111 | what the analysis reads is a prefix of what the writer wrote: all of it when the file was closed first, otherwise the first `flushed` lines |
| Capture.UnflushedCaptureUnread | graph-gen-service.py:91-111 | as written, one data frame of two rows with nothing flushed: the capture holds the header and both rows, the analysis reads an empty file |
| Capture.ClosedCaptureHoldsEveryRow | graph-gen-service.py:91-111 | with the file closed before the analysis, the analysis reads the header and every row of every data frame exactly once, in arrival order |
| Readiness.AwaitReady | graph-gen-service.py:27-33 | every poll before the one the loop stops on was well formed and not `ready`; the loop stops as `Ready` exactly on a poll whose state is `ready`, crashes with `KeyError("result")` or `KeyError("state")` on a malformed poll, and is still waiting only after all polls |
| Service.RunPlanAppend | graph-gen-service.py:81-116 | running two pieces of the `try` block one after the other is running them together; the second runs only if the first ended normally |
| Service.Orchestrator.GcmdRun | graph-gen-service.py:57-62 | the query is appended to the trace and the method ends as `Check` says of the reply |
| Service.Orchestrator.Kprint | graph-gen-service.py:68-72 | issues `Gcode.Kprint(msg, error)` through `GcmdRun` |
| Service.Orchestrator.Prepare | graph-gen-service.py:82-85 | issues SAVE, G90, G0, M400 and stops at the first that raises (`PreparePlan`) |
| Service.Orchestrator.StartCapture | graph-gen-service.py:87-103 | subscribes with the X sensor name, writes the header, starts the writer, issues `TEST_RESONANCES`; returns the frames of the subscription it opened |
| Service.Orchestrator.FinishCapture | graph-gen-service.py:104-116 | cancel, join (the writer has then written the header and `Written(frames)`), analyse the still-open file, which shows only its first `flushed` lines, and report the output as `RESPOND TYPE=command` |
| Service.Orchestrator.TryBlock | graph-gen-service.py:81-116 | the new trace and status are `TryOutcome`: the block's events in order, up to and including the first query that raises |
| Service.Orchestrator.HandleRequest | graph-gen-service.py:78-119 | one pass of the loop is `TestOutcome`: axis lookup, first probe point, `try` block, `except Error` report, restore |
| Service.Orchestrator.Serve | graph-gen-service.py:77-119 | the loop is `ServeOutcome`: requests in turn until an exception escapes |
| Service.RunService | graph-gen-service.py:35-119 | `main` aborts exactly when startup fails, with startup's exception; otherwise it runs the loop from an empty trace with the resolved configuration |
| ServiceProperties.TryPlanEvents | graph-gen-service.py:82-116 | the twelve events of the `try` block, in source order |
| ServiceProperties.RunPlanFollows | graph-gen-service.py:81-116 | running a block does a prefix of it, all of it when it ends normally; when it raises, the last event is the query that raised, and every earlier query was answered |
| ServiceProperties.TryFollowsPlan | graph-gen-service.py:81-117 | the `try` block does a prefix of its plan, stops right after the first failing command, and always ends with a query |
| ServiceProperties.NoReportOrRestoreInPlan | graph-gen-service.py:81-116 | no part of the `try` block restores the G-code state or sends `RESPOND TYPE=error` |
| ServiceProperties.TryCountsNothing | graph-gen-service.py:81-116 | the `try` block extends the trace, stays within its plan, ends as its last query's reply says, and adds no restore and no error report |
| ServiceProperties.TryOrder | graph-gen-service.py:85-111 | the block stops only after one of its six queries; `TEST_RESONANCES` is issued only after `M400` was answered, preceded by subscribe, header, writer start; cancel, join and analysis happen exactly when `TEST_RESONANCES` was answered, in that order, and the analysis reads only the flushed prefix of the capture |
| ServiceProperties.CommandsOfPlan | graph-gen-service.py:82-116 | the commands of the `try` block are SAVE, G90, G0 at the point, M400, TEST with the axis, `RESPOND TYPE=command` with the analysis output |
| ServiceProperties.HappyPath | graph-gen-service.py:80-119 | when every reply is answered, a pass does the whole block and then the restore, ends normally, and issues exactly the seven commands in order |
| ServiceProperties.HandledError | graph-gen-service.py:117-119 | after `Error(m)`, exactly one `RESPOND TYPE=error` carrying `m` follows; the restore follows unless that report raises, in which case the report's exception is pending |
| ServiceProperties.CaughtErrorReportedThenRestored | graph-gen-service.py:81-119 | when the block raises `Error(m)`, the failing command is the last it issued and no later statement ran; the pass continues as `HandledError`; the trace gains exactly the error report `m` |
| ServiceProperties.UncaughtEscapes | graph-gen-service.py:117 | an exception other than `Error` in the block ends the pass as the block did: nothing reported, nothing restored |
| ServiceProperties.HandledAddsReportsAndRestores | graph-gen-service.py:117-119 | the `except` clause and the restore only append error reports and restores to the trace |
| ServiceProperties.SensorXAndFirstPoint | graph-gen-service.py:80-88 | in every pass, each subscription names the X sensor and each `G0` goes to the first probe point, whatever the axis |
| ServiceProperties.TestRestoresAtMostOnce | graph-gen-service.py:77-119 | a pass extends the trace with at most one restore; a pass that ends normally ends with the restore, and issues exactly one |
| ServiceProperties.ServeRestoresOncePerRequest | graph-gen-service.py:77-119 | over a run of requests, at most one restore per request, and exactly one per request when no exception escaped |

## Left out

- The RPC transport (`KlippyRPCShim`: `query`, `subscribe`, `register_remote_method`; graph-gen-service.py:9, 24, 76, 90): it is a foreign library. Replies, frames and requests are inputs of the model (`Env`, `reqs`).
- The `objects/list` and `configfile` queries themselves (lines 35-37, 44-45): the object list and the settings are inputs of `Config.Startup`. A malformed reply to them is not modelled.
- The `info` announcement after the readiness gate (line 33) and `sleep(2)` (line 32): the clock is not modelled. `Readiness.AwaitReady` runs over a finite prefix of polls, because the real loop has no bound.
- The `Queue(1)` relay and the writer `Thread` (lines 75-78, 101-105): concurrency is not modelled. The writer runs to the end of the subscription between `cancel()` and `join()`, so which frames arrive before cancellation is up to the oracle. The loop waits for requests forever and never ends normally; `Service.Orchestrator.Serve` runs over a finite list of requests, and a final `Normal` status there means the service is still waiting on `params_q.get()` (line 78).
- `subprocess.run` of `calibrate_shaper.py` (lines 107-116): the analysis is an event carrying the lines written to the capture and the prefix of them the script can read. How much of the write buffer reached the file is an oracle (`flushed`), and so is the script's stdout. A last line cut in half by the buffer is not modelled: the prefix is whole lines.
- A writer left running after a failed `TEST_RESONANCES` (lines 93-105): `_bg_writer` refers to `main`'s variable `f`, not to the file it held. Once the next request rebinds `f` (line 91), the old writer's rows go into the new capture file, possibly before its header. The model gives each request's capture as its header plus its own frames only.
- Exceptions other than `Error` raised by the environment inside the `try` block: `subprocess.run` raising `OSError` (line 111) and `os.environ["USER"]` raising `KeyError` (lines 89, 107, 109). Like every exception other than `Error`, they would leave the loop with no report and no restore; the model does not produce them.
- File names built from `os.environ["USER"]` and `time.strftime` (lines 89, 107-109): environment and clock.
- The `%.6f` text of each row (line 100): floating-point formatting. Rows are kept as values.
- Failures of `subscribe`, `open` and file writes, and of unpacking a probe point that is not three values (line 80): not modelled. A probe point's coordinates are kept as the text `str()` gives them.
- The commented-out statistics block (lines 123-142): dead code.

## Findings

| source | as written | input that shows it | evidently intended | confidence | as-written member | corrected member |
|---|---|---|---|---|---|---|
| graph-gen-service.py:91-111 | the capture file `f` is opened at line 91 and neither flushed nor closed before `subprocess.run` starts the analysis at line 111, so the script reads only what the write buffer already passed on | one request, every reply answered, one data frame of two rows, nothing flushed yet: the capture holds the header and two rows, the script reads an empty file | close `f` after `wth.join()`, so the analysis reads the header and every row | not executed | Capture.UnflushedCaptureUnread | Capture.ClosedCaptureHoldsEveryRow |

The request loop keeps the behaviour as written (`Capture.Readable` with the
file open), so that its trace matches the code; the corrected reading is
stated and proved on its own.
