/**
 The script's top level (main.py, lines 103-109): build the path table for
 a circle and turn it into the ReplayMod document. Copying the text to the
 clipboard and printing it are not modelled.
 */
module Script {
  import opened Wrappers
  import opened Timing
  import opened CameraPath
  import opened ReplayDocument

  /** The parameters the script is run with. */
  const ExampleCentre := Centre(37899.0, 35.0, 28566.0)
  const ExampleRadius := 200.0
  const ExamplePositions := 32
  const ExampleMillisec := 20000
  const ExampleName := "Circle32_new"

  /** The document the script builds for a circle, or the exception it raises. */
  function DocumentSpec(lib: MathLib, c: Centre, radius: real, n: int, millisec: int, name: string): (res: Result<Json, Error>)
    ensures res.Success? <==> PathSpec(lib, c, radius, n, millisec).Success?
    ensures res.Failure? ==> res.error == PathSpec(lib, c, radius, n, millisec).error
  {
    match PathSpec(lib, c, radius, n, millisec)
    case Failure(e) => Failure(e)
    case Success(rows) => Success(ReplayJson(rows, name, millisec))
  }

  /** create_camera_path_dataframe followed by dataframe_to_replaymod_json. */
  method CircleDocument(lib: MathLib, c: Centre, radius: real, n: int, millisec: int, name: string) returns (res: Result<Json, Error>)
    ensures res == DocumentSpec(lib, c, radius, n, millisec, name)
  {
    var table := CameraPathTable(lib, c, radius, n, millisec);
    if table.Failure? {
      return Failure(table.error);
    }
    var doc := ToReplayDocument(table.value, name, millisec);
    res := Success(doc);
  }

  /**
   With a sound maths library, the camera track of a built document reads
   back as n + 1 rows: row k is at point k of the circle (point 0 again at
   the end), level with the centre, at time round(k * millisec / n), with
   pitch and roll 0.
   */
  lemma DocumentTrack(lib: MathLib, c: Centre, radius: real, n: int, millisec: int, name: string)
    requires Sound(lib)
    requires DocumentSpec(lib, c, radius, n, millisec, name).Success?
    ensures ReadRows(DocumentSpec(lib, c, radius, n, millisec, name).value, name).Some?
    ensures var rows := ReadRows(DocumentSpec(lib, c, radius, n, millisec, name).value, name).value;
      && |rows| == n + 1
      && (forall k :: 0 <= k <= n ==> rows[k].time == RowTime(k, n, millisec))
      && (forall k :: 0 <= k < n ==>
            rows[k].x == CirclePoint(lib, c, radius, n, k).x && rows[k].z == CirclePoint(lib, c, radius, n, k).z)
      && rows[n].x == rows[0].x && rows[n].z == rows[0].z
      && (forall k :: 0 <= k <= n ==> rows[k].y == c.y && rows[k].pitch == 0.0 && rows[k].roll == 0)
  {
    var table := PathSpec(lib, c, radius, n, millisec).value;
    PathTableShape(lib, c, radius, n, millisec);
    DocumentRoundTrip(table, name, millisec);
  }

  /**
   For the script's own parameters, keyframe k of the camera track sits at
   time 625 * k: 32 positions share 20000 ms evenly.
   */
  lemma ExampleKeyframeTimes(lib: MathLib)
    requires Sound(lib)
    requires DocumentSpec(lib, ExampleCentre, ExampleRadius, ExamplePositions, ExampleMillisec, ExampleName).Success?
    ensures ReadRows(DocumentSpec(lib, ExampleCentre, ExampleRadius, ExamplePositions, ExampleMillisec, ExampleName).value, ExampleName).Some?
    ensures var rows := ReadRows(DocumentSpec(lib, ExampleCentre, ExampleRadius, ExamplePositions, ExampleMillisec, ExampleName).value, ExampleName).value;
      |rows| == 33 && forall k :: 0 <= k < |rows| ==> rows[k].time == 625 * k
  {
    DocumentTrack(lib, ExampleCentre, ExampleRadius, ExamplePositions, ExampleMillisec, ExampleName);
    forall k | 0 <= k <= ExamplePositions
      ensures RowTime(k, ExamplePositions, ExampleMillisec) == 625 * k
    {
      RowTimeWholeInterval(k, ExamplePositions, ExampleMillisec);
    }
  }
}
