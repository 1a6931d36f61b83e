/**
 * Startup configuration: the presence checks `main` makes on the
 * controller's object list and `configfile` settings, and the resolution of
 * the accelerometer names from the `resonance_tester` section.
 */
module Config {
  import opened Wrappers
  import opened Gcode

  /** One section of the `configfile` settings: its string-valued options
      (such as `accel_chip`), and `probe_points` when it is set. */
  datatype Section = Section(options: map<string, string>, probePoints: Option<seq<Point>>)

  /** What startup hands to the request loop. */
  datatype Resolved = Resolved(sensorX: Option<string>, sensorY: Option<string>, probePoints: seq<Point>)

  const NoConfig := "Well, we are not ready to live without config"
  const NoTester := "Nothing to do without resonance tester"
  const NoFeedback := "No way to give user feedback"

  /** Sensor names for the X and Y axes. Both start from `accel_chip`; each
      one that is still unset then falls back to its own per-axis option. */
  function ResolveSensors(options: map<string, string>): (r: (Option<string>, Option<string>))
    ensures "accel_chip" in options ==> r.0 == r.1 == Some(options["accel_chip"])
    ensures "accel_chip" !in options ==> (r.0.Some? <==> "accel_chip_x" in options)
    ensures "accel_chip" !in options ==> (r.1.Some? <==> "accel_chip_y" in options)
    ensures "accel_chip" !in options && r.0.Some? ==> r.0.value == options["accel_chip_x"]
    ensures "accel_chip" !in options && r.1.Some? ==> r.1.value == options["accel_chip_y"]
  {
    var x := Get(options, "accel_chip");
    var y := x;
    var x := if x.None? then Get(options, "accel_chip_x") else x;
    var y := if y.None? then Get(options, "accel_chip_y") else y;
    (x, y)
  }

  /** The text `f"{name}"` gives for a sensor name: Python renders `None` as
      the word `None`. */
  function SensorParam(name: Option<string>): (s: string)
    ensures name.Some? ==> s == name.value
    ensures name.None? ==> s == "None"
  {
    match name
    case Some(v) => v
    case None => "None"
  }

  /** Startup: `configfile` must be among the objects, and `resonance_tester`
      and `respond` among the settings, checked in that order, each missing
      one raising `Error`; a missing `probe_points` option then raises
      `KeyError`. */
  function Startup(objects: seq<string>, settings: map<string, Section>): (r: Result<Resolved, Exc>)
    ensures r.Success? <==>
      && "configfile" in objects
      && "resonance_tester" in settings
      && "respond" in settings
      && settings["resonance_tester"].probePoints.Some?
    ensures "configfile" !in objects ==> r == Failure(Error(NoConfig))
    ensures "configfile" in objects && "resonance_tester" !in settings ==> r == Failure(Error(NoTester))
    ensures "configfile" in objects && "resonance_tester" in settings && "respond" !in settings ==>
      r == Failure(Error(NoFeedback))
    ensures
      && "configfile" in objects && "resonance_tester" in settings && "respond" in settings
      && settings["resonance_tester"].probePoints.None?
      ==> r == Failure(KeyError("probe_points"))
    ensures r.Success? ==>
      && (r.value.sensorX, r.value.sensorY) == ResolveSensors(settings["resonance_tester"].options)
      && Some(r.value.probePoints) == settings["resonance_tester"].probePoints
  {
    if "configfile" !in objects then Failure(Error(NoConfig))
    else if "resonance_tester" !in settings then Failure(Error(NoTester))
    else
      var tester := settings["resonance_tester"];
      var (x, y) := ResolveSensors(tester.options);
      if "respond" !in settings then Failure(Error(NoFeedback))
      else if tester.probePoints.None? then Failure(KeyError("probe_points"))
      else Success(Resolved(x, y, tester.probePoints.value))
  }

  /** With `accel_chip` set, the per-axis options make no difference. */
  lemma CombinedChipOverrides(options: map<string, string>, other: map<string, string>)
    requires "accel_chip" in options
    requires other == options - {"accel_chip_x", "accel_chip_y"}
    ensures ResolveSensors(options) == ResolveSensors(other)
  {
  }

  /** Without `accel_chip`, the X name does not depend on `accel_chip_y`, nor
      the Y name on `accel_chip_x`. */
  lemma PerAxisIndependent(options: map<string, string>, value: string)
    requires "accel_chip" !in options
    ensures ResolveSensors(options["accel_chip_y" := value]).0 == ResolveSensors(options).0
    ensures ResolveSensors(options["accel_chip_x" := value]).1 == ResolveSensors(options).1
  {
  }
}
