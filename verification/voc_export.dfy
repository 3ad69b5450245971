/** Writing PASCAL VOC annotations: `VOCObject.from_detection`,
    `VOCObject.to_dict` and the geometry `VOCAnnotationWriter.write_annotation`
    hands to its template. */
module VocExport {
  import opened Wrappers
  import opened Errors
  import opened Decimal
  import opened Samples
  import opened VocParse

  /** The Python values an object's optional attributes can hold. */
  datatype PyValue = PNone | PStr(s: string) | PInt(i: int)

  /** Python truthiness is false for `None`, `""` and `0`. */
  predicate Falsy(v: PyValue)
  {
    v == PNone || v == PStr("") || v == PInt(0)
  }

  /** `v or default`. */
  function Or(v: PyValue, default: PyValue): PyValue
  {
    if Falsy(v) then default else v
  }

  datatype VocObject = VocObject(
    name: string, xmin: int, ymin: int, xmax: int, ymax: int,
    pose: PyValue, truncated: PyValue, difficult: PyValue)

  /** The dict `to_dict` returns. Its keys are always the same eight, so it
      is a record here, one field per key. */
  datatype VocDict = VocDict(
    name: PyValue, xmin: PyValue, ymin: PyValue, xmax: PyValue, ymax: PyValue,
    pose: PyValue, truncated: PyValue, difficult: PyValue)

  /** `to_dict()`: the name and corners unchanged, a falsy pose, truncated or
      difficult flag replaced by `""`. */
  function ToDict(o: VocObject): (d: VocDict)
    ensures d.name == PStr(o.name)
    ensures d.xmin == PInt(o.xmin) && d.ymin == PInt(o.ymin)
    ensures d.xmax == PInt(o.xmax) && d.ymax == PInt(o.ymax)
    ensures d.pose != PNone && d.truncated != PNone && d.difficult != PNone
    ensures Falsy(o.pose) <==> d.pose == PStr("")
    ensures Falsy(o.truncated) <==> d.truncated == PStr("")
    ensures Falsy(o.difficult) <==> d.difficult == PStr("")
    ensures !Falsy(o.pose) ==> d.pose == o.pose
    ensures !Falsy(o.truncated) ==> d.truncated == o.truncated
    ensures !Falsy(o.difficult) ==> d.difficult == o.difficult
  {
    VocDict(PStr(o.name), PInt(o.xmin), PInt(o.ymin), PInt(o.xmax), PInt(o.ymax),
            Or(o.pose, PStr("")), Or(o.truncated, PStr("")), Or(o.difficult, PStr("")))
  }

  /** The object a `to_dict` result describes. */
  function FromDict(d: VocDict): Option<VocObject>
  {
    if d.name.PStr? && d.xmin.PInt? && d.ymin.PInt? && d.xmax.PInt? && d.ymax.PInt?
    then Some(VocObject(d.name.s, d.xmin.i, d.ymin.i, d.xmax.i, d.ymax.i, d.pose, d.truncated, d.difficult))
    else None
  }

  /** `to_dict` loses nothing but the difference between the falsy values of
      the optional attributes, and applying it again changes nothing. */
  lemma ToDictRoundTrip(o: VocObject)
    ensures FromDict(ToDict(o)) == Some(o.(pose := Or(o.pose, PStr("")),
                                           truncated := Or(o.truncated, PStr("")),
                                           difficult := Or(o.difficult, PStr(""))))
    ensures ToDict(FromDict(ToDict(o)).value) == ToDict(o)
  {
  }

  /** A rounding function that never reverses the order of its arguments;
      Python's `round` on floats is one. */
  ghost predicate Monotone(round: real -> int)
  {
    forall a: real, b: real :: a <= b ==> round(a) <= round(b)
  }

  /** `int(round(v * size))`: a normalised coordinate in pixels. */
  function Pixel(v: real, size: nat, round: real -> int): int
  {
    round(v * size as real)
  }

  /** `VOCObject.from_detection(detection, (width, height))`: the normalised
      box `[x, y, w, h]` scaled to pixel corners, x by the width and y by the
      height; the optional attributes stay `None`. */
  function FromDetection(d: Detection, width: nat, height: nat, round: real -> int): (r: Result<VocObject, Error>)
    ensures r.Success? <==> |d.boundingBox| == 4
    ensures r.Success? ==> r.value.name == d.classLabel
    ensures r.Success? ==> r.value.pose == PNone && r.value.truncated == PNone && r.value.difficult == PNone
  {
    if |d.boundingBox| < 4 then Failure(ValueError("not enough values to unpack (expected 4)"))
    else if |d.boundingBox| > 4 then Failure(ValueError("too many values to unpack (expected 4)"))
    else
      // x, y, w, h = detection.bounding_box
      var box := d.boundingBox;
      Success(VocObject(d.classLabel,
        Pixel(box[0], width, round), Pixel(box[1], height, round),
        Pixel(box[0] + box[2], width, round), Pixel(box[1] + box[3], height, round),
        PNone, PNone, PNone))
  }

  lemma ScaleOrdered(a: real, b: real, k: nat)
    requires a <= b
    ensures a * k as real <= b * k as real
  {
    assert b * k as real - a * k as real == (b - a) * k as real;
  }

  /** With a monotone rounding, a box of non-negative size gives ordered
      corners, and a box of zero width (height) gives equal x (y) corners. */
  lemma {:induction false} FromDetectionCorners(d: Detection, width: nat, height: nat, round: real -> int)
    requires Monotone(round)
    requires |d.boundingBox| == 4
    ensures var o := FromDetection(d, width, height, round).value;
      && (d.boundingBox[2] >= 0.0 ==> o.xmin <= o.xmax)
      && (d.boundingBox[3] >= 0.0 ==> o.ymin <= o.ymax)
      && (d.boundingBox[2] == 0.0 ==> o.xmin == o.xmax)
      && (d.boundingBox[3] == 0.0 ==> o.ymin == o.ymax)
      && (width == 0 ==> o.xmin == o.xmax == round(0.0))
      && (height == 0 ==> o.ymin == o.ymax == round(0.0))
  {
    var x, y, w, h := d.boundingBox[0], d.boundingBox[1], d.boundingBox[2], d.boundingBox[3];
    if w >= 0.0 {
      ScaleOrdered(x, x + w, width);
    }
    if h >= 0.0 {
      ScaleOrdered(y, y + h, height);
    }
  }

  /** The pixel corners of a four-value box. */
  lemma FromDetectionValues(d: Detection, width: nat, height: nat, round: real -> int)
    requires |d.boundingBox| == 4
    ensures var o, box := FromDetection(d, width, height, round).value, d.boundingBox;
      && o.xmin == Pixel(box[0], width, round)
      && o.ymin == Pixel(box[1], height, round)
      && o.xmax == Pixel(box[0] + box[2], width, round)
      && o.ymax == Pixel(box[1] + box[3], height, round)
  {
  }

  /** The x corners depend on the width only, the y corners on the height
      only: changing the other dimension leaves them as they are. */
  lemma FromDetectionAxes(d: Detection, width: nat, height: nat, otherWidth: nat, otherHeight: nat, round: real -> int)
    requires |d.boundingBox| == 4
    ensures var o, tall, wide := FromDetection(d, width, height, round).value,
        FromDetection(d, width, otherHeight, round).value, FromDetection(d, otherWidth, height, round).value;
      && o.xmin == tall.xmin && o.xmax == tall.xmax
      && o.ymin == wide.ymin && o.ymax == wide.ymax
  {
    FromDetectionValues(d, width, height, round);
    FromDetectionValues(d, width, otherHeight, round);
    FromDetectionValues(d, otherWidth, height, round);
  }

  /** What `write_annotation` hands to the template besides the paths. */
  datatype Annotation = Annotation(width: nat, height: nat, depth: nat, objects: seq<VocDict>)

  /** `write_annotation(img, detections, ...)` for an image of shape `shape`:
      height and width are the first two dimensions, the depth the third when
      there is one and 1 otherwise, and each detection becomes one object dict. */
  function WriteAnnotation(shape: seq<nat>, detections: seq<Detection>, round: real -> int): (r: Result<Annotation, Error>)
  {
    if |shape| < 2 then Failure(ValueError("not enough values to unpack (expected 2)"))
    else
      var height, width := shape[0], shape[1];
      var depth := if |shape| > 2 then shape[2] else 1;
      var objects :- TryMap((det: Detection) => DetectionDict(det, width, height, round), detections);
      Success(Annotation(width, height, depth, objects))
  }

  /** `VOCObject.from_detection(detection, frame_size).to_dict()`. */
  function DetectionDict(det: Detection, width: nat, height: nat, round: real -> int): Result<VocDict, Error>
  {
    var o :- FromDetection(det, width, height, round);
    Success(ToDict(o))
  }

  /** The geometry of the written annotation: `(width, height)` is the frame
      size passed to every object, the depth defaults to 1 for 2-d images,
      and there is one object per detection, in order, each with `""` for
      pose, truncated and difficult. */
  lemma WriteAnnotationGeometry(shape: seq<nat>, detections: seq<Detection>, round: real -> int)
    ensures var r := WriteAnnotation(shape, detections, round);
      && (r.Success? <==> |shape| >= 2 && forall i :: 0 <= i < |detections| ==> |detections[i].boundingBox| == 4)
      && (r.Success? ==>
            && r.value.width == shape[1] && r.value.height == shape[0]
            && r.value.depth == (if |shape| > 2 then shape[2] else 1)
            && |r.value.objects| == |detections|
            && forall i :: 0 <= i < |detections| ==>
                 && r.value.objects[i] == ToDict(FromDetection(detections[i], shape[1], shape[0], round).value)
                 && r.value.objects[i].pose == PStr("")
                 && r.value.objects[i].truncated == PStr("")
                 && r.value.objects[i].difficult == PStr(""))
  {
  }

  /** How jinja2 renders a value into the XML text. */
  function Text(v: PyValue): string
  {
    match v
    case PNone => "None"
    case PStr(t) => t
    case PInt(i) => DecimalString(i)
  }

  /** How `load_xml_as_json_dict` reads the text of a leaf element back: an
      empty element reads as `None`. */
  function Element(text: string): Json
  {
    if text == "" then JNull else JStr(text)
  }

  /** One `<object>` element of the written file, read back. */
  function ObjectJson(d: VocDict): Json
  {
    JObject(map[
      "name" := Element(Text(d.name)),
      "pose" := Element(Text(d.pose)),
      "truncated" := Element(Text(d.truncated)),
      "difficult" := Element(Text(d.difficult)),
      "bndbox" := BoxJson(d.xmin, d.ymin, d.xmax, d.ymax)])
  }

  /** The `<bndbox>` element of a written object, read back. */
  function BoxJson(xmin: PyValue, ymin: PyValue, xmax: PyValue, ymax: PyValue): Json
  {
    JObject(map[
      "xmin" := Element(Text(xmin)), "ymin" := Element(Text(ymin)),
      "xmax" := Element(Text(xmax)), "ymax" := Element(Text(ymax))])
  }

  /** The `<object>` elements of a written file, read back, in order. */
  function ObjectsJson(objects: seq<VocDict>): (r: seq<Json>)
    ensures |r| == |objects|
    ensures forall i :: 0 <= i < |objects| ==> r[i] == ObjectJson(objects[i])
  {
    seq(|objects|, i requires 0 <= i < |objects| => ObjectJson(objects[i]))
  }

  /** An annotation document holding the `<object>` elements `objects`, as
      `load_xml_as_json_dict` reads it: repeated elements read as a list, a
      single one as a dict, and none as a missing key. */
  function AnnotationJson(size: Json, objects: seq<Json>): Json
  {
    var fields := map["size" := size];
    JObject(map["annotation" := JObject(
      if |objects| == 0 then fields
      else if |objects| == 1 then fields["object" := objects[0]]
      else fields["object" := JList(objects)])])
  }

  /** The written annotation file read back. The XML template is not part of
      this model: this assumes it writes each entry of an object dict as the
      like-named element, the corners inside `<bndbox>`, and the size inside
      `<size>`. */
  function ReadBack(a: Annotation): Json
  {
    var size := JObject(map[
      "width" := JStr(DecimalString(a.width)),
      "height" := JStr(DecimalString(a.height)),
      "depth" := JStr(DecimalString(a.depth))]);
    AnnotationJson(size, ObjectsJson(a.objects))
  }

  /** What reading back a written object yields. */
  function WrittenLabel(o: VocObject): LabelObject
  {
    LabelObject(Element(o.name), [o.xmin, o.ymin, o.xmax - o.xmin, o.ymax - o.ymin])
  }

  /** A written integer field reads back as itself. */
  lemma ReadsInt(box: Json, key: string, n: int)
    requires box.JObject? && key in box.fields && box.fields[key] == Element(Text(PInt(n)))
    ensures IntField(box, key) == Success(n)
  {
    ParseDecimal(n);
  }

  /** The `<bndbox>` element of a written object holds its four corners. */
  lemma BoxWritten(o: VocObject)
    ensures ObjectJson(ToDict(o)).fields["bndbox"] == BoxJson(PInt(o.xmin), PInt(o.ymin), PInt(o.xmax), PInt(o.ymax))
  {
  }

  /** The `<name>` element of a written object holds its name. */
  lemma NameWritten(o: VocObject)
    ensures var j := ObjectJson(ToDict(o)); j.JObject? && "name" in j.fields && j.fields["name"] == Element(o.name)
  {
  }

  /** An object element with the written name and readable corners. */
  lemma ConvertReadWritten(o: VocObject, j: Json)
    requires j.JObject? && "name" in j.fields && j.fields["name"] == Element(o.name)
    requires Corners(j) == Success((o.xmin, o.ymin, o.xmax, o.ymax))
    ensures ConvertObject(j) == Success(WrittenLabel(o))
  {
    ConvertRead(j, Element(o.name), o.xmin, o.ymin, o.xmax, o.ymax);
  }

  /** The box of a written object reads back with the written corners. */
  lemma CornersWritten(o: VocObject)
    ensures Corners(ObjectJson(ToDict(o))) == Success((o.xmin, o.ymin, o.xmax, o.ymax))
  {
    var box := BoxJson(PInt(o.xmin), PInt(o.ymin), PInt(o.xmax), PInt(o.ymax));
    BoxWritten(o);
    ReadsInt(box, "xmin", o.xmin);
    ReadsInt(box, "ymin", o.ymin);
    ReadsInt(box, "xmax", o.xmax);
    ReadsInt(box, "ymax", o.ymax);
    CornersRead(ObjectJson(ToDict(o)), o.xmin, o.ymin, o.xmax, o.ymax);
  }

  /** Reading back one written object gives its corners and name. */
  lemma ConvertWritten(o: VocObject, j: Json)
    requires j == ObjectJson(ToDict(o))
    ensures ConvertObject(j) == Success(WrittenLabel(o))
  {
    NameWritten(o);
    CornersWritten(o);
    ConvertReadWritten(o, j);
  }

  /** Whichever shape the reader gives the object list, the parser sees
      the written elements, in order. */
  lemma AnnotationObjects(size: Json, objects: seq<Json>)
    requires forall i :: 0 <= i < |objects| ==> objects[i].JObject?
    ensures Objects(AnnotationJson(size, objects)) == Success(objects)
  {
    if |objects| == 1 {
      assert objects == [objects[0]];
    }
  }

  /** A document whose object elements each convert parses to their
      conversions, in order. */
  lemma ParseDocument(size: Json, objects: seq<Json>, expected: seq<LabelObject>, load: string -> Result<Json, Error>)
    requires |objects| == |expected|
    requires forall i :: 0 <= i < |objects| ==> objects[i].JObject? && ConvertObject(objects[i]) == Success(expected[i])
    ensures ParseLabel(load, AnnotationJson(size, objects)) == Success(expected)
  {
    AnnotationObjects(size, objects);
    ParseLabelObjects(load, AnnotationJson(size, objects));
    var r := TryMap(ConvertObject, objects);
    assert r.Success? && r.value == expected;
  }

  /** An annotation whose object dicts are `to_dict` results parses back to
      one label object per dict, in order, each with the written name and
      corners. */
  lemma ParseWritten(os: seq<VocObject>, a: Annotation, load: string -> Result<Json, Error>)
    requires |a.objects| == |os|
    requires forall i :: 0 <= i < |os| ==> a.objects[i] == ToDict(os[i])
    ensures ParseLabel(load, ReadBack(a)) == Success(seq(|os|, i requires 0 <= i < |os| => WrittenLabel(os[i])))
  {
    var objs := ObjectsJson(a.objects);
    var expected := seq(|os|, i requires 0 <= i < |os| => WrittenLabel(os[i]));
    forall i | 0 <= i < |os|
      ensures objs[i].JObject? && ConvertObject(objs[i]) == Success(expected[i])
    {
      ConvertWritten(os[i], objs[i]);
    }
    ParseDocument(ReadBack(a).fields["annotation"].fields["size"], objs, expected, load);
  }

  /** The objects `from_detection` makes of detections that all have
      four-number boxes. */
  function VocObjects(detections: seq<Detection>, width: nat, height: nat, round: real -> int): (os: seq<VocObject>)
    requires forall i :: 0 <= i < |detections| ==> |detections[i].boundingBox| == 4
    ensures |os| == |detections|
    ensures forall i :: 0 <= i < |detections| ==> Success(os[i]) == FromDetection(detections[i], width, height, round)
  {
    seq(|detections|, i requires 0 <= i < |detections| => FromDetection(detections[i], width, height, round).value)
  }

  /** A written annotation parses back to one object per detection, in
      order, with the detection's label and the corners `from_detection`
      computed for it (`FromDetectionCorners` says when those are ordered). */
  lemma AnnotationRoundTrip(shape: seq<nat>, detections: seq<Detection>, round: real -> int,
                            a: Annotation, load: string -> Result<Json, Error>)
    requires WriteAnnotation(shape, detections, round) == Success(a)
    ensures |shape| >= 2 && forall i :: 0 <= i < |detections| ==> |detections[i].boundingBox| == 4
    ensures var os := VocObjects(detections, shape[1], shape[0], round);
      ParseLabel(load, ReadBack(a)) == Success(seq(|os|, i requires 0 <= i < |os| => WrittenLabel(os[i])))
  {
    WriteAnnotationGeometry(shape, detections, round);
    ParseWritten(VocObjects(detections, shape[1], shape[0], round), a, load);
  }
}
