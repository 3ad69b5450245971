/** Reading PASCAL VOC annotations (`VOCDetectionSampleParser._parse_label`):
    the XML file, already turned into nested dicts, lists and strings, becomes
    a list of objects with a label and an `[x, y, w, h]` box in pixels. */
module VocParse {
  import opened Wrappers
  import opened Errors
  import opened Decimal

  /** The JSON-like value `load_xml_as_json_dict` produces. */
  datatype Json =
    | JNull
    | JInt(i: int)
    | JStr(s: string)
    | JList(items: seq<Json>)
    | JObject(fields: map<string, Json>)

  /** One parsed object: `{"label": ..., "bounding_box": [x, y, w, h]}`. */
  datatype LabelObject = LabelObject(classLabel: Json, boundingBox: seq<int>)

  /** `j[key]` for a string key. */
  function Subscript(j: Json, key: string): (r: Result<Json, Error>)
    ensures r.Success? <==> j.JObject? && key in j.fields
    ensures r.Success? ==> r.value == j.fields[key]
    ensures j.JObject? && key !in j.fields ==> r == Failure(KeyError(key))
  {
    match j
    case JObject(fields) => if key in fields then Success(fields[key]) else Failure(KeyError(key))
    case JList(_) => Failure(TypeError("list indices must be integers or slices, not str"))
    case JStr(_) => Failure(TypeError("string indices must be integers"))
    case JInt(_) => Failure(TypeError("'int' object is not subscriptable"))
    case JNull => Failure(TypeError("'NoneType' object is not subscriptable"))
  }

  /** `int(j)`: integers pass through, strings are read as decimal text. */
  function ToInt(j: Json): (r: Result<int, Error>)
    ensures r.Success? <==> j.JInt? || (j.JStr? && ParseInt(j.s).Some?)
    ensures j.JInt? ==> r == Success(j.i)
    ensures j.JStr? && r.Success? ==> Some(r.value) == ParseInt(j.s)
  {
    match j
    case JInt(i) => Success(i)
    case JStr(s) =>
      (match ParseInt(s)
       case Some(n) => Success(n)
       case None => Failure(ValueError("invalid literal for int() with base 10")))
    case _ => Failure(TypeError("int() argument must be a string or a number"))
  }

  /** `annotation.get("object", [])`, with a lone object wrapped in a list. */
  function ObjectList(annotation: Json): (r: Result<seq<Json>, Error>)
    ensures r.Success? <==> annotation.JObject?
    ensures r.Success? && "object" !in annotation.fields ==> r.value == []
    ensures r.Success? && "object" in annotation.fields ==>
      var o := annotation.fields["object"];
      r.value == if o.JList? then o.items else [o]
  {
    match annotation
    case JObject(fields) =>
      var o := if "object" in fields then fields["object"] else JList([]);
      Success(if o.JList? then o.items else [o])
    case _ => Failure(AttributeError("object has no attribute 'get'"))
  }

  /** `int(box[key])`. */
  function IntField(box: Json, key: string): Result<int, Error>
  {
    var v :- Subscript(box, key);
    ToInt(v)
  }

  /** The box corners `(xmin, ymin, xmax, ymax)` of one object, read in the
      order the source reads them. */
  function Corners(obj: Json): Result<(int, int, int, int), Error>
  {
    var box :- Subscript(obj, "bndbox");
    var xmin :- IntField(box, "xmin");
    var ymin :- IntField(box, "ymin");
    var xmax :- IntField(box, "xmax");
    var ymax :- IntField(box, "ymax");
    Success((xmin, ymin, xmax, ymax))
  }

  /** The corners are the four integer fields of the `bndbox` entry. */
  lemma CornersRead(obj: Json, xmin: int, ymin: int, xmax: int, ymax: int)
    requires obj.JObject? && "bndbox" in obj.fields
    requires IntField(obj.fields["bndbox"], "xmin") == Success(xmin)
    requires IntField(obj.fields["bndbox"], "ymin") == Success(ymin)
    requires IntField(obj.fields["bndbox"], "xmax") == Success(xmax)
    requires IntField(obj.fields["bndbox"], "ymax") == Success(ymax)
    ensures Corners(obj) == Success((xmin, ymin, xmax, ymax))
  {
  }

  /** The corners of an `[x, y, w, h]` box. */
  function BoxCorners(box: seq<int>): (int, int, int, int)
    requires |box| == 4
  {
    (box[0], box[1], box[0] + box[2], box[1] + box[3])
  }

  /** One object of the list: its corners become `[xmin, ymin, xmax - xmin,
      ymax - ymin]` and its `name` becomes the label. */
  function ConvertObject(obj: Json): (r: Result<LabelObject, Error>)
    ensures r.Success? <==> Corners(obj).Success? && Subscript(obj, "name").Success?
    ensures Corners(obj).Failure? ==> r == Failure(Corners(obj).error)
    ensures r.Success? ==> |r.value.boundingBox| == 4 && BoxCorners(r.value.boundingBox) == Corners(obj).value
    ensures r.Success? ==> r.value.classLabel == obj.fields["name"]
  {
    var c :- Corners(obj);
    var name :- Subscript(obj, "name");
    Success(LabelObject(name, [c.0, c.1, c.2 - c.0, c.3 - c.1]))
  }

  /** An object with readable corners and a name converts to exactly that
      label and the box the corners span. */
  lemma ConvertRead(obj: Json, name: Json, xmin: int, ymin: int, xmax: int, ymax: int)
    requires obj.JObject? && "name" in obj.fields && obj.fields["name"] == name
    requires Corners(obj) == Success((xmin, ymin, xmax, ymax))
    ensures ConvertObject(obj) == Success(LabelObject(name, [xmin, ymin, xmax - xmin, ymax - ymin]))
  {
  }

  /** `_parse_label(target)`: a string target is a path, read with `load`
      (`load_xml_as_json_dict`); then every object of the annotation is
      converted, in order, and the first failure propagates. */
  function ParseLabel(load: string -> Result<Json, Error>, target: Json): Result<seq<LabelObject>, Error>
  {
    var t :- if target.JStr? then load(target.s) else Success(target);
    var objects :- Objects(t);
    TryMap(ConvertObject, objects)
  }

  /** `target["annotation"].get("object", [])` as a list. */
  function Objects(t: Json): Result<seq<Json>, Error>
  {
    var annotation :- Subscript(t, "annotation");
    ObjectList(annotation)
  }

  /** A target that is already a dict is parsed by converting its object
      list. */
  lemma ParseLabelObjects(load: string -> Result<Json, Error>, t: Json)
    requires !t.JStr? && Objects(t).Success?
    ensures ParseLabel(load, t) == TryMap(ConvertObject, Objects(t).value)
  {
  }

  /** Parsing yields one object per entry of the object list, in order, each
      with its box converted; it fails exactly when some entry does not
      convert. */
  lemma ParseLabelConverts(load: string -> Result<Json, Error>, t: Json)
    requires !t.JStr?
    requires Objects(t).Success?
    ensures var objs := Objects(t).value;
      var r := ParseLabel(load, t);
      && (r.Success? <==> forall i :: 0 <= i < |objs| ==> ConvertObject(objs[i]).Success?)
      && (r.Success? ==> |r.value| == |objs| && forall i :: 0 <= i < |objs| ==>
            && r.value[i].classLabel == objs[i].fields["name"]
            && |r.value[i].boundingBox| == 4
            && BoxCorners(r.value[i].boundingBox) == Corners(objs[i]).value)
  {
  }

  /** An annotation without objects parses to no objects. */
  lemma MissingObjectsEmpty(load: string -> Result<Json, Error>, annotation: map<string, Json>)
    requires "object" !in annotation
    ensures ParseLabel(load, JObject(map["annotation" := JObject(annotation)])) == Success([])
  {
  }

  /** A lone object parses as the one-element list holding it. */
  lemma SingleObjectWrapped(load: string -> Result<Json, Error>, annotation: map<string, Json>, o: Json)
    requires !o.JList?
    ensures ParseLabel(load, JObject(map["annotation" := JObject(annotation["object" := o])]))
         == ParseLabel(load, JObject(map["annotation" := JObject(annotation["object" := JList([o])])]))
  {
  }
}
