/**
 * The capture writer `_bg_writer`: it walks the frames the accelerometer
 * subscription yields, skips control frames (no `params`), and appends one
 * line per data row to the capture file, which already holds the header.
 * Rows are kept as values; their `%.6f` text is not modelled.
 */
module Capture {
  import opened Wrappers

  /** One accelerometer sample `(t, accel_x, accel_y, accel_z)`. */
  datatype Row = Row(t: real, x: real, y: real, z: real)

  /** The `params` of a frame; `data` is absent when the mapping lacks it. */
  datatype Params = Params(data: Option<seq<Row>>)

  /** A frame of the subscription; control frames carry no `params`. */
  datatype Frame = Frame(params: Option<Params>)

  /** A line of the capture file. */
  datatype Line = Header | Sample(row: Row)

  /** One `Sample` line per row, in row order. */
  function Samples(rows: seq<Row>): (r: seq<Line>)
    ensures |r| == |rows|
    ensures forall i :: 0 <= i < |rows| ==> r[i] == Sample(rows[i])
  {
    seq(|rows|, i requires 0 <= i < |rows| => Sample(rows[i]))
  }

  /** The lines the writer appends for `frames`. A frame whose `params` lack
      `data` raises `KeyError` inside the writer thread, which ends the
      thread: nothing after it is written. */
  function Written(frames: seq<Frame>): seq<Line>
  {
    if frames == [] then []
    else match frames[0].params
      case None => Written(frames[1..])
      case Some(p) =>
        match p.data
        case None => []
        case Some(rows) => Samples(rows) + Written(frames[1..])
  }

  /** Every frame that has `params` also has `data`. */
  predicate Complete(frames: seq<Frame>)
  {
    forall i :: 0 <= i < |frames| && frames[i].params.Some? ==> frames[i].params.value.data.Some?
  }

  /** Reference definition: the rows of every data frame, concatenated in
      arrival order; control frames contribute nothing. */
  function Rows(frames: seq<Frame>): seq<Row>
  {
    if frames == [] then []
    else
      var last := frames[|frames| - 1];
      var rows := if last.params.Some? && last.params.value.data.Some? then last.params.value.data.value else [];
      Rows(frames[..|frames| - 1]) + rows
  }

  /** The inner loop of `_bg_writer`: one line per row of a data frame. */
  method WriteRows(file: seq<Line>, rows: seq<Row>) returns (out: seq<Line>)
    ensures out == file + Samples(rows)
  {
    out := file;
    var j := 0;
    while j < |rows|
      invariant 0 <= j <= |rows|
      invariant out + Samples(rows[j..]) == file + Samples(rows)
    {
      assert Samples(rows[j..]) == [Sample(rows[j])] + Samples(rows[j + 1..]);
      out := out + [Sample(rows[j])];
      j := j + 1;
    }
    assert Samples(rows[j..]) == [];
  }

  /** `_bg_writer`, run to the end of the subscription: `file` is what the
      file holds when the writer starts. */
  method BgWriter(file: seq<Line>, frames: seq<Frame>) returns (out: seq<Line>)
    ensures out == file + Written(frames)
  {
    out := file;
    var i := 0;
    while i < |frames|
      invariant 0 <= i <= |frames|
      invariant out + Written(frames[i..]) == file + Written(frames)
    {
      assert frames[i..][0] == frames[i] && frames[i..][1..] == frames[i + 1..];
      var params := frames[i].params;
      if params.None? {
        i := i + 1;
        continue;
      }
      if params.value.data.None? {
        return;
      }
      out := WriteRows(out, params.value.data.value);
      i := i + 1;
    }
  }

  lemma SamplesAppend(a: seq<Row>, b: seq<Row>)
    ensures Samples(a + b) == Samples(a) + Samples(b)
  {
  }

  /** Appending frames after a complete prefix appends their lines. */
  lemma {:induction false} WrittenAppend(a: seq<Frame>, b: seq<Frame>)
    requires Complete(a)
    ensures Written(a + b) == Written(a) + Written(b)
  {
    if a != [] {
      assert (a + b)[0] == a[0] && (a + b)[1..] == a[1..] + b;
      assert a[0].params.Some? ==> a[0].params.value.data.Some?;
      assert Complete(a[1..]) by {
        forall i | 0 <= i < |a[1..]| && a[1..][i].params.Some?
          ensures a[1..][i].params.value.data.Some?
        {
          assert a[1..][i] == a[i + 1];
        }
      }
      WrittenAppend(a[1..], b);
      match a[0].params
      case None =>
      case Some(p) =>
        assert Written(a + b) == Samples(p.data.value) + Written(a[1..] + b);
    } else {
      assert a + b == b;
    }
  }

  /** The capture holds every row of every data frame exactly once, in
      arrival order, when no frame with `params` lacks `data`. */
  lemma {:induction false} WrittenIsRowsInOrder(frames: seq<Frame>)
    requires Complete(frames)
    ensures Written(frames) == Samples(Rows(frames))
  {
    if frames != [] {
      var init, last := frames[..|frames| - 1], frames[|frames| - 1];
      assert frames == init + [last];
      assert Complete(init) by {
        forall i | 0 <= i < |init| && init[i].params.Some?
          ensures init[i].params.value.data.Some?
        {
          assert init[i] == frames[i];
        }
      }
      WrittenAppend(init, [last]);
      WrittenIsRowsInOrder(init);
      assert [last][1..] == [];
      var rows := if last.params.Some? then last.params.value.data.value else [];
      assert Written([last]) == Samples(rows);
      SamplesAppend(Rows(init), rows);
    }
  }

  /** A frame without `params` contributes nothing, wherever it arrives. */
  lemma {:induction false} ControlFrameSkipped(a: seq<Frame>, f: Frame, b: seq<Frame>)
    requires f.params.None?
    ensures Written(a + [f] + b) == Written(a + b)
  {
    if a == [] {
      assert a + [f] + b == [f] + b && a + b == b;
      assert ([f] + b)[0] == f && ([f] + b)[1..] == b;
    } else {
      assert (a + [f] + b)[0] == a[0] && (a + [f] + b)[1..] == a[1..] + [f] + b;
      assert (a + b)[0] == a[0] && (a + b)[1..] == a[1..] + b;
      ControlFrameSkipped(a[1..], f, b);
    }
  }

  /** A frame with `params` but no `data` stops the writer: the capture
      holds exactly the rows that arrived before it. */
  lemma WrittenStopsAtMissingData(frames: seq<Frame>, k: nat)
    requires k < |frames| && frames[k].params.Some? && frames[k].params.value.data.None?
    requires Complete(frames[..k])
    ensures Written(frames) == Samples(Rows(frames[..k]))
  {
    assert frames == frames[..k] + frames[k..];
    WrittenAppend(frames[..k], frames[k..]);
    WrittenIsRowsInOrder(frames[..k]);
    assert frames[k..][0] == frames[k];
  }

  /** What another process reads from the capture file `file`: all of it
      when the file was closed first; while it is still open, only the
      first `flushed` lines, the ones the write buffer has already passed
      to the operating system. */
  function Readable(file: seq<Line>, flushed: nat, closed: bool): (r: seq<Line>)
    ensures r <= file
    ensures closed ==> r == file
    ensures !closed ==> |r| == if flushed < |file| then flushed else |file|
  {
    if closed || |file| <= flushed then file else file[..flushed]
  }

  /** As written, the analysis runs while the capture file is still open
      and unflushed: for one data frame of two rows, with nothing flushed
      yet, it reads an empty file although the capture holds the header
      and both rows. */
  lemma UnflushedCaptureUnread(r1: Row, r2: Row)
    ensures var file := [Header] + Written([Frame(Some(Params(Some([r1, r2]))))]);
      file == [Header, Sample(r1), Sample(r2)] && Readable(file, 0, false) == []
  {
    var frames := [Frame(Some(Params(Some([r1, r2]))))];
    assert frames[1..] == [];
    assert Samples([r1, r2]) == [Sample(r1), Sample(r2)];
  }

  /** Closing the capture file before the analysis, whatever was flushed,
      hands the analysis the header and every row of every data frame
      exactly once, in arrival order. */
  lemma ClosedCaptureHoldsEveryRow(frames: seq<Frame>, flushed: nat)
    requires Complete(frames)
    ensures Readable([Header] + Written(frames), flushed, true) == [Header] + Samples(Rows(frames))
  {
    WrittenIsRowsInOrder(frames);
  }
}
