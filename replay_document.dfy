/**
 The ReplayMod camera-path document (main.py, lines 43-100).

 The document is modelled as the JSON value `json.dumps` is given, not as
 its text: objects keep their members in insertion order, as Python dicts
 do. A small reader (`Follow`, `ReadRows`) navigates the value by key and
 index, and the round-trip lemmas say that reading
 the camera track back yields exactly the table rows that were written.
 */
module ReplayDocument {
  import opened Wrappers
  import opened Timing
  import opened CameraPath

  /** A JSON value. Python ints become JInt, Python floats JFloat. */
  datatype Json =
    | JInt(n: int)
    | JFloat(r: real)
    | JString(s: string)
    | JArray(items: seq<Json>)
    | JObject(members: seq<(string, Json)>)

  // ---------------------------------------------------------------------------
  // Reading a document back

  /** The value stored under key in an object's members: the first one with that key. */
  function Lookup(members: seq<(string, Json)>, key: string): (r: Option<Json>)
    ensures r.None? <==> forall k :: 0 <= k < |members| ==> members[k].0 != key
    ensures r.Some? ==> (exists k :: 0 <= k < |members| && members[k] == (key, r.value) &&
                                    (forall l :: 0 <= l < k ==> members[l].0 != key))
  {
    if members == [] then None
    else if members[0].0 == key then Some(members[0].1)
    else
      var r := Lookup(members[1..], key);
      assert r.Some? ==> (exists k :: 0 <= k < |members[1..]| && members[1..][k] == (key, r.value) &&
                                     (forall l :: 0 <= l < k ==> members[1..][l].0 != key));
      assert r.Some? ==> (exists k :: 1 <= k < |members| && members[k] == (key, r.value) &&
                                     (forall l :: 1 <= l < k ==> members[l].0 != key));
      r
  }

  /** A key found at index k, and at no earlier index, is what the lookup returns. */
  lemma {:induction false} LookupFinds(members: seq<(string, Json)>, k: int, key: string)
    requires 0 <= k < |members| && members[k].0 == key
    requires forall l :: 0 <= l < k ==> members[l].0 != key
    ensures Lookup(members, key) == Some(members[k].1)
  {
    if k > 0 {
      LookupFinds(members[1..], k - 1, key);
    }
  }

  /** One step into a document: an object key or an array index. */
  datatype Step = Key(key: string) | Index(index: int)

  /** The value one step leads to from j, or None when the step does not apply. */
  function Enter(j: Json, step: Step): (r: Option<Json>)
    ensures step.Key? && !j.JObject? ==> r.None?
    ensures step.Index? && !(j.JArray? && 0 <= step.index < |j.items|) ==> r.None?
  {
    match step
    case Key(key) => if j.JObject? then Lookup(j.members, key) else None
    case Index(i) => if j.JArray? && 0 <= i < |j.items| then Some(j.items[i]) else None
  }

  /** The value reached from j along the steps, or None when a step does not apply. */
  function Follow(j: Json, steps: seq<Step>): (r: Option<Json>)
    ensures steps == [] ==> r == Some(j)
    ensures |steps| == 1 ==> r == Enter(j, steps[0])
    decreases |steps|
  {
    if steps == [] then Some(j)
    else
      var next := Enter(j, steps[0]);
      if next.None? then None else Follow(next.value, steps[1..])
  }

  /** Following a path in two parts is following the first part, then the second from where it ends. */
  lemma {:induction false} FollowAppend(j: Json, first: seq<Step>, second: seq<Step>)
    ensures Follow(j, first + second) ==
      if Follow(j, first).None? then None else Follow(Follow(j, first).value, second)
    decreases |first|
  {
    if first == [] {
      assert first + second == second;
    } else {
      assert (first + second)[1..] == first[1..] + second;
      var next := Enter(j, first[0]);
      if next.Some? {
        FollowAppend(next.value, first[1..], second);
      }
    }
  }

  /** The int a document stores as a whole number, or None. */
  function WholeNumber(j: Json): (r: Option<int>)
    ensures r.Some? ==> (j.JInt? && r.value == j.n) || (j.JFloat? && r.value as real == j.r)
  {
    match j
    case JInt(n) => Some(n)
    case JFloat(x) => if x.Floor as real == x then Some(x.Floor) else None
    case _ => None
  }

  /** The number a document stores, as a real. */
  function Number(j: Json): (r: Option<real>)
    ensures r.Some? <==> j.JInt? || j.JFloat?
  {
    match j
    case JInt(n) => Some(n as real)
    case JFloat(x) => Some(x)
    case _ => None
  }

  /** The table row a camera keyframe encodes, or None when the keyframe is malformed. */
  function ReadRow(j: Json): (r: Option<Row>)
    ensures r.Some? ==> Follow(j, [Key("time")]) == Some(JInt(r.value.time))
  {
    var time := Follow(j, [Key("time")]);
    var rot := Follow(j, [Key("properties"), Key("camera:rotation")]);
    var pos := Follow(j, [Key("properties"), Key("camera:position")]);
    if time.None? || !time.value.JInt? then None
    else if rot.None? || !rot.value.JArray? || |rot.value.items| != 3 then None
    else if pos.None? || !pos.value.JArray? || |pos.value.items| != 3 then None
    else
      var yaw, pitch, roll := Number(rot.value.items[0]), Number(rot.value.items[1]), WholeNumber(rot.value.items[2]);
      var x, y, z := WholeNumber(pos.value.items[0]), Number(pos.value.items[1]), WholeNumber(pos.value.items[2]);
      if yaw.None? || pitch.None? || roll.None? || x.None? || y.None? || z.None? then None
      else Some(Row(x.value, y.value, z.value, yaw.value, pitch.value, roll.value, time.value.n))
  }

  /** Reads each item in turn, in order; None as soon as one item cannot be read. */
  function ReadEach<A, B>(read: A -> Option<B>, items: seq<A>): (r: Option<seq<B>>)
    ensures r.Some? ==> |r.value| == |items|
  {
    if items == [] then Some([])
    else
      match read(items[0])
      case None => None
      case Some(value) =>
        match ReadEach(read, items[1..])
        case None => None
        case Some(rest) => Some([value] + rest)
  }

  /** The rows a list of camera keyframes encodes, in order, or None if any keyframe is malformed. */
  function ReadRowList(items: seq<Json>): (r: Option<seq<Row>>)
    ensures r.Some? ==> |r.value| == |items|
  {
    ReadEach(ReadRow, items)
  }

  /** The rows the camera keyframes of the path called name encode. */
  function ReadRows(doc: Json, name: string): (r: Option<seq<Row>>)
    ensures r.Some? ==> Follow(doc, [Key(name), Index(1), Key("keyframes")]).Some?
  {
    var keyframes := Follow(doc, [Key(name), Index(1), Key("keyframes")]);
    if keyframes.None? || !keyframes.value.JArray? then None
    else ReadRowList(keyframes.value.items)
  }

  // ---------------------------------------------------------------------------
  // Building a document (dataframe_to_replaymod_json)

  /** A keyframe of the timeline segment: at time, replay timestamp stamp. */
  function TimestampKeyframe(time: int, stamp: int): Json {
    JObject([("time", JInt(time)), ("properties", JObject([("timestamp", JInt(stamp))]))])
  }

  /** The fixed first segment: replay time 1000 at path time 0, 2000 at millisec, interpolated linearly. */
  function TimelineSegment(millisec: int): Json {
    JObject([
      ("keyframes", JArray([TimestampKeyframe(0, 1000), TimestampKeyframe(millisec, 2000)])),
      ("segments", JArray([JInt(0)])),
      ("interpolators", JArray([JObject([
        ("type", JString("linear")),
        ("properties", JArray([JString("timestamp")]))])]))])
  }

  /**
   The keyframe for one table row. A pandas row mixing ints and floats is
   read as floats, so rotation and position are floats; the time goes
   through int().
   */
  function CameraKeyframe(row: Row): Json {
    JObject([
      ("time", JInt(row.time)),
      ("properties", JObject([
        ("camera:rotation", JArray([JFloat(row.yaw), JFloat(row.pitch), JFloat(row.roll as real)])),
        ("camera:position", JArray([JFloat(row.x as real), JFloat(row.y), JFloat(row.z as real)]))]))])
  }

  /** The keyframes for the rows, in order. */
  function Keyframes(rows: seq<Row>): (ks: seq<Json>)
    ensures |ks| == |rows|
  {
    seq(|rows|, k requires 0 <= k < |rows| => CameraKeyframe(rows[k]))
  }

  /** k zeros: `[0] * k`. */
  function Zeros(k: nat): (zs: seq<Json>)
    ensures |zs| == k
  {
    seq(k, _ => JInt(0))
  }

  /** The camera segment: its keyframes and segments, interpolated by a catmull-rom spline. */
  function CameraSegment(keyframes: seq<Json>, segments: seq<Json>): Json {
    JObject([
      ("keyframes", JArray(keyframes)),
      ("segments", JArray(segments)),
      ("interpolators", JArray([JObject([
        ("type", JObject([("type", JString("catmull-rom-spline")), ("alpha", JFloat(0.5))])),
        ("properties", JArray([JString("camera:rotation"), JString("camera:position")]))])]))])
  }

  /** The document `dataframe_to_replaymod_json` serialises for the table rows. */
  function ReplayJson(rows: seq<Row>, name: string, millisec: int): Json {
    JObject([(name, JArray([TimelineSegment(millisec), CameraSegment(Keyframes(rows), Zeros(|rows|))]))])
  }

  /** dataframe_to_replaymod_json: the scaffold, then one keyframe appended per row. */
  method ToReplayDocument(rows: seq<Row>, name: string, millisec: int) returns (doc: Json)
    ensures doc == ReplayJson(rows, name, millisec)
  {
    var segments := Zeros(|rows|);
    var keyframes: seq<Json> := [];
    var index := 0;
    while index < |rows|
      invariant 0 <= index <= |rows|
      invariant keyframes == Keyframes(rows[..index])
    {
      keyframes := keyframes + [CameraKeyframe(rows[index])];
      index := index + 1;
    }
    assert rows[..index] == rows;
    doc := JObject([(name, JArray([TimelineSegment(millisec), CameraSegment(keyframes, segments)]))]);
  }

  // ---------------------------------------------------------------------------
  // Properties of the document

  /** A camera keyframe holds the row's time, rotation and position under their keys. */
  lemma KeyframeFields(row: Row)
    ensures Follow(CameraKeyframe(row), [Key("time")]) == Some(JInt(row.time))
    ensures Follow(CameraKeyframe(row), [Key("properties"), Key("camera:rotation")])
      == Some(JArray([JFloat(row.yaw), JFloat(row.pitch), JFloat(row.roll as real)]))
    ensures Follow(CameraKeyframe(row), [Key("properties"), Key("camera:position")])
      == Some(JArray([JFloat(row.x as real), JFloat(row.y), JFloat(row.z as real)]))
  {
    var rotation := JArray([JFloat(row.yaw), JFloat(row.pitch), JFloat(row.roll as real)]);
    var position := JArray([JFloat(row.x as real), JFloat(row.y), JFloat(row.z as real)]);
    var properties := JObject([("camera:rotation", rotation), ("camera:position", position)]);
    var j := CameraKeyframe(row);
    LookupFinds(j.members, 0, "time");
    LookupFinds(j.members, 1, "properties");
    LookupFinds(properties.members, 0, "camera:rotation");
    assert "camera:rotation"[7] != "camera:position"[7];
    LookupFinds(properties.members, 1, "camera:position");
    assert Follow(properties, [Key("camera:rotation")]) == Some(rotation);
    assert Follow(properties, [Key("camera:position")]) == Some(position);
  }

  /** A camera keyframe reads back as the row it was built from. */
  lemma KeyframeRoundTrip(row: Row)
    ensures ReadRow(CameraKeyframe(row)) == Some(row)
  {
    KeyframeFields(row);
  }

  /** A list whose every item reads back as the matching value reads back as the list of values. */
  lemma {:induction false} ReadEachAll<A, B>(read: A -> Option<B>, items: seq<A>, values: seq<B>)
    requires |items| == |values|
    requires forall k :: 0 <= k < |items| ==> read(items[k]) == Some(values[k])
    ensures ReadEach(read, items) == Some(values)
    decreases |items|
  {
    if items != [] {
      ReadEachAll(read, items[1..], values[1..]);
      assert [values[0]] + values[1..] == values;
    }
  }

  /** Reading back the camera keyframes yields exactly the rows they were built from. */
  lemma KeyframesRoundTrip(rows: seq<Row>)
    ensures ReadRowList(Keyframes(rows)) == Some(rows)
  {
    forall k | 0 <= k < |rows|
      ensures ReadRow(Keyframes(rows)[k]) == Some(rows[k])
    {
      KeyframeRoundTrip(rows[k]);
    }
    ReadEachAll(ReadRow, Keyframes(rows), rows);
  }

  /** The document has the single key name, holding a list of two segments. */
  lemma DocumentShape(rows: seq<Row>, name: string, millisec: int)
    ensures ReplayJson(rows, name, millisec).JObject?
    ensures |ReplayJson(rows, name, millisec).members| == 1
    ensures ReplayJson(rows, name, millisec).members[0].0 == name
    ensures Follow(ReplayJson(rows, name, millisec), [Key(name)]).Some?
    ensures Follow(ReplayJson(rows, name, millisec), [Key(name)]).value.JArray?
    ensures |Follow(ReplayJson(rows, name, millisec), [Key(name)]).value.items| == 2
  {
  }

  /**
   The two segments of a document, as reached by key and index: the first
   depends on millisec only, the second holds the rows' keyframes and as
   many zeros.
   */
  lemma DocumentSegments(rows: seq<Row>, name: string, millisec: int)
    ensures Follow(ReplayJson(rows, name, millisec), [Key(name), Index(0)]) == Some(TimelineSegment(millisec))
    ensures Follow(ReplayJson(rows, name, millisec), [Key(name), Index(1)]) ==
      Some(CameraSegment(Keyframes(rows), Zeros(|rows|)))
  {
    var doc := ReplayJson(rows, name, millisec);
    var track := JArray([TimelineSegment(millisec), CameraSegment(Keyframes(rows), Zeros(|rows|))]);
    LookupFinds(doc.members, 0, name);
    assert Follow(track, [Index(0)]) == Some(TimelineSegment(millisec));
    assert Follow(track, [Index(1)]) == Some(CameraSegment(Keyframes(rows), Zeros(|rows|)));
  }

  /** A field of the camera segment, reached from the top of the document. */
  lemma CameraField(rows: seq<Row>, name: string, millisec: int, field: string, steps: seq<Step>)
    ensures Follow(ReplayJson(rows, name, millisec), [Key(name), Index(1), Key(field)] + steps) ==
      Follow(CameraSegment(Keyframes(rows), Zeros(|rows|)), [Key(field)] + steps)
  {
    var doc := ReplayJson(rows, name, millisec);
    DocumentSegments(rows, name, millisec);
    assert [Key(name), Index(1), Key(field)] + steps == [Key(name), Index(1)] + ([Key(field)] + steps);
    FollowAppend(doc, [Key(name), Index(1)], [Key(field)] + steps);
  }

  /** The camera track of the document reads back as the table rows. */
  lemma DocumentRoundTrip(rows: seq<Row>, name: string, millisec: int)
    ensures ReadRows(ReplayJson(rows, name, millisec), name) == Some(rows)
  {
    var segment := CameraSegment(Keyframes(rows), Zeros(|rows|));
    CameraField(rows, name, millisec, "keyframes", []);
    assert [Key(name), Index(1), Key("keyframes")] + [] == [Key(name), Index(1), Key("keyframes")];
    LookupFinds(segment.members, 0, "keyframes");
    KeyframesRoundTrip(rows);
  }

  /** The camera track has one segment entry per keyframe, and each of them is 0. */
  lemma CameraSegmentsZero(rows: seq<Row>, name: string, millisec: int)
    ensures Follow(ReplayJson(rows, name, millisec), [Key(name), Index(1), Key("segments")]) == Some(JArray(Zeros(|rows|)))
    ensures forall k :: 0 <= k < |rows| ==> Zeros(|rows|)[k] == JInt(0)
  {
    var segment := CameraSegment(Keyframes(rows), Zeros(|rows|));
    CameraField(rows, name, millisec, "segments", []);
    assert [Key(name), Index(1), Key("segments")] + [] == [Key(name), Index(1), Key("segments")];
    LookupFinds(segment.members, 1, "segments");
  }

  /** Everything below keyframe k of the camera track is what lies below the keyframe built from row k. */
  lemma TrackKeyframe(rows: seq<Row>, name: string, millisec: int, k: int, steps: seq<Step>)
    requires 0 <= k < |rows|
    ensures Follow(ReplayJson(rows, name, millisec), [Key(name), Index(1), Key("keyframes"), Index(k)] + steps) ==
      Follow(CameraKeyframe(rows[k]), steps)
  {
    var segment := CameraSegment(Keyframes(rows), Zeros(|rows|));
    CameraField(rows, name, millisec, "keyframes", [Index(k)] + steps);
    assert [Key(name), Index(1), Key("keyframes")] + ([Index(k)] + steps) ==
      [Key(name), Index(1), Key("keyframes"), Index(k)] + steps;
    LookupFinds(segment.members, 0, "keyframes");
    FollowAppend(segment, [Key("keyframes"), Index(k)], steps);
    assert [Key("keyframes")] + ([Index(k)] + steps) == [Key("keyframes"), Index(k)] + steps;
  }

  /** Keyframe k of the camera track carries row k's time, rotation and position. */
  lemma CameraKeyframeContents(rows: seq<Row>, name: string, millisec: int, k: int)
    requires 0 <= k < |rows|
    ensures Follow(ReplayJson(rows, name, millisec), [Key(name), Index(1), Key("keyframes"), Index(k), Key("time")])
      == Some(JInt(rows[k].time))
    ensures Follow(ReplayJson(rows, name, millisec), [Key(name), Index(1), Key("keyframes"), Index(k), Key("properties"), Key("camera:rotation")])
      == Some(JArray([JFloat(rows[k].yaw), JFloat(rows[k].pitch), JFloat(rows[k].roll as real)]))
    ensures Follow(ReplayJson(rows, name, millisec), [Key(name), Index(1), Key("keyframes"), Index(k), Key("properties"), Key("camera:position")])
      == Some(JArray([JFloat(rows[k].x as real), JFloat(rows[k].y), JFloat(rows[k].z as real)]))
  {
    var path := [Key(name), Index(1), Key("keyframes"), Index(k)];
    KeyframeFields(rows[k]);
    TrackKeyframe(rows, name, millisec, k, [Key("time")]);
    TrackKeyframe(rows, name, millisec, k, [Key("properties"), Key("camera:rotation")]);
    TrackKeyframe(rows, name, millisec, k, [Key("properties"), Key("camera:position")]);
    assert path + [Key("time")] == [Key(name), Index(1), Key("keyframes"), Index(k), Key("time")];
    assert path + [Key("properties"), Key("camera:rotation")] ==
      [Key(name), Index(1), Key("keyframes"), Index(k), Key("properties"), Key("camera:rotation")];
    assert path + [Key("properties"), Key("camera:position")] ==
      [Key(name), Index(1), Key("keyframes"), Index(k), Key("properties"), Key("camera:position")];
  }

  /** A timeline keyframe holds its time and its replay timestamp under their keys. */
  lemma TimestampKeyframeFields(time: int, stamp: int)
    ensures Follow(TimestampKeyframe(time, stamp), [Key("time")]) == Some(JInt(time))
    ensures Follow(TimestampKeyframe(time, stamp), [Key("properties"), Key("timestamp")]) == Some(JInt(stamp))
  {
    var j := TimestampKeyframe(time, stamp);
    LookupFinds(j.members, 0, "time");
    LookupFinds(j.members, 1, "properties");
    assert Follow(JObject([("timestamp", JInt(stamp))]), [Key("timestamp")]) == Some(JInt(stamp));
  }

  /** Everything below timeline keyframe i is what lies below the i-th fixed keyframe. */
  lemma TimelineKeyframe(millisec: int, i: int, steps: seq<Step>)
    requires i == 0 || i == 1
    ensures Follow(TimelineSegment(millisec), [Key("keyframes"), Index(i)] + steps) ==
      Follow(if i == 0 then TimestampKeyframe(0, 1000) else TimestampKeyframe(millisec, 2000), steps)
  {
    var segment := TimelineSegment(millisec);
    LookupFinds(segment.members, 0, "keyframes");
    FollowAppend(segment, [Key("keyframes"), Index(i)], steps);
  }

  /** The first segment's keyframes are the same for every table: replay time 1000 at time 0, 2000 at millisec. */
  lemma TimelineKeyframes(millisec: int)
    ensures Follow(TimelineSegment(millisec), [Key("keyframes"), Index(0), Key("time")]) == Some(JInt(0))
    ensures Follow(TimelineSegment(millisec), [Key("keyframes"), Index(0), Key("properties"), Key("timestamp")]) == Some(JInt(1000))
    ensures Follow(TimelineSegment(millisec), [Key("keyframes"), Index(1), Key("time")]) == Some(JInt(millisec))
    ensures Follow(TimelineSegment(millisec), [Key("keyframes"), Index(1), Key("properties"), Key("timestamp")]) == Some(JInt(2000))
  {
    TimestampKeyframeFields(0, 1000);
    TimestampKeyframeFields(millisec, 2000);
    TimelineKeyframe(millisec, 0, [Key("time")]);
    TimelineKeyframe(millisec, 0, [Key("properties"), Key("timestamp")]);
    TimelineKeyframe(millisec, 1, [Key("time")]);
    TimelineKeyframe(millisec, 1, [Key("properties"), Key("timestamp")]);
    assert [Key("keyframes"), Index(0)] + [Key("time")] == [Key("keyframes"), Index(0), Key("time")];
    assert [Key("keyframes"), Index(0)] + [Key("properties"), Key("timestamp")] ==
      [Key("keyframes"), Index(0), Key("properties"), Key("timestamp")];
    assert [Key("keyframes"), Index(1)] + [Key("time")] == [Key("keyframes"), Index(1), Key("time")];
    assert [Key("keyframes"), Index(1)] + [Key("properties"), Key("timestamp")] ==
      [Key("keyframes"), Index(1), Key("properties"), Key("timestamp")];
  }

  /** The first segment has the single segment entry 0 and a linear interpolator over the timestamp. */
  lemma TimelineInterpolator(millisec: int)
    ensures Follow(TimelineSegment(millisec), [Key("segments")]) == Some(JArray([JInt(0)]))
    ensures Follow(TimelineSegment(millisec), [Key("interpolators"), Index(0), Key("type")]) == Some(JString("linear"))
    ensures Follow(TimelineSegment(millisec), [Key("interpolators"), Index(0), Key("properties")])
      == Some(JArray([JString("timestamp")]))
  {
    var segment := TimelineSegment(millisec);
    var interpolators := segment.members[2].1;
    var linear := interpolators.items[0];
    LookupFinds(segment.members, 1, "segments");
    LookupFinds(segment.members, 2, "interpolators");
    LookupFinds(linear.members, 0, "type");
    LookupFinds(linear.members, 1, "properties");
    assert Follow(interpolators, [Index(0), Key("type")]) == Some(JString("linear"));
    assert Follow(interpolators, [Index(0), Key("properties")]) == Some(JArray([JString("timestamp")]));
  }

  /** The camera segment is interpolated by a catmull-rom spline with alpha 0.5 over rotation and position. */
  lemma CameraInterpolator(keyframes: seq<Json>, segments: seq<Json>)
    ensures Follow(CameraSegment(keyframes, segments), [Key("interpolators"), Index(0), Key("type"), Key("type")])
      == Some(JString("catmull-rom-spline"))
    ensures Follow(CameraSegment(keyframes, segments), [Key("interpolators"), Index(0), Key("type"), Key("alpha")])
      == Some(JFloat(0.5))
    ensures Follow(CameraSegment(keyframes, segments), [Key("interpolators"), Index(0), Key("properties")])
      == Some(JArray([JString("camera:rotation"), JString("camera:position")]))
  {
    var segment := CameraSegment(keyframes, segments);
    var spline := segment.members[2].1.items[0];
    var kind := spline.members[0].1;
    LookupFinds(segment.members, 2, "interpolators");
    assert Follow(segment, [Key("interpolators"), Index(0)]) == Some(spline);
    LookupFinds(spline.members, 0, "type");
    LookupFinds(spline.members, 1, "properties");
    LookupFinds(kind.members, 0, "type");
    LookupFinds(kind.members, 1, "alpha");
    assert Follow(spline, [Key("type"), Key("type")]) == Some(JString("catmull-rom-spline"));
    assert Follow(spline, [Key("type"), Key("alpha")]) == Some(JFloat(0.5));
    FollowAppend(segment, [Key("interpolators"), Index(0)], [Key("type"), Key("type")]);
    FollowAppend(segment, [Key("interpolators"), Index(0)], [Key("type"), Key("alpha")]);
    FollowAppend(segment, [Key("interpolators"), Index(0)], [Key("properties")]);
    assert [Key("interpolators"), Index(0)] + [Key("type"), Key("type")] ==
      [Key("interpolators"), Index(0), Key("type"), Key("type")];
    assert [Key("interpolators"), Index(0)] + [Key("type"), Key("alpha")] ==
      [Key("interpolators"), Index(0), Key("type"), Key("alpha")];
    assert [Key("interpolators"), Index(0)] + [Key("properties")] == [Key("interpolators"), Index(0), Key("properties")];
  }
}
