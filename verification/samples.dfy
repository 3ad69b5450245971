/** Samples and the label values stored in their fields. */
module Samples {
  import opened Wrappers
  import opened NdArrays

  /** A detection with a label and a bounding box in normalised
      `[x, y, w, h]` coordinates. */
  datatype Detection = Detection(classLabel: string, boundingBox: seq<real>)

  /** A polyline label; its conversion to detections is done by the label
      classes, which are parameters of this model. */
  datatype Polyline = Polyline(classLabel: string, points: seq<seq<(real, real)>>, closed: bool, filled: bool)

  /** What a sample field can hold. `Other` covers every label class the
      pipeline does not inspect (classifications, keypoints, dicts of labels). */
  datatype Value =
    | Missing
    | DetectionValue(detection: Detection)
    | DetectionsValue(detections: seq<Detection>)
    | PolylineValue(polyline: Polyline)
    | PolylinesValue(polylines: seq<Polyline>)
    | ArrayValue(array: NdArray)
    | Other(kind: string)

  datatype Sample = Sample(id: string, filepath: string, fields: map<string, Value>)

  /** `sample[field]`; a field the sample has no value for reads as `None`. */
  function Get(s: Sample, field: string): Value
  {
    if field in s.fields then s.fields[field] else Missing
  }

  /** `sample[field] = v` followed by `sample.save()`. */
  function Store(s: Sample, field: string, v: Value): (r: Sample)
    ensures r.id == s.id && r.filepath == s.filepath
    ensures Get(r, field) == v
    ensures forall f :: f != field ==> Get(r, f) == Get(s, f)
  {
    s.(fields := s.fields[field := v])
  }

  /** Python truthiness of an optional field name: `None` and `""` are false. */
  predicate Truthy(field: Option<string>)
  {
    field.Some? && field.value != ""
  }

  /** The ids of the samples, in order. */
  function Ids(ss: seq<Sample>): seq<string>
  {
    seq(|ss|, i requires 0 <= i < |ss| => ss[i].id)
  }

  /** Two sample sequences describe the same samples, position by position. */
  predicate SameSamples(a: seq<Sample>, b: seq<Sample>)
  {
    |a| == |b| && forall i :: 0 <= i < |a| ==> a[i].id == b[i].id && a[i].filepath == b[i].filepath
  }
}
