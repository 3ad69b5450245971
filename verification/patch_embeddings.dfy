/** `compute_patch_embeddings`: embeddings of the image patches that the
    detections or polylines of one field of each sample cut out. */
module PatchEmbeddings {
  import opened Wrappers
  import opened Errors
  import opened Batching
  import opened NdArrays
  import opened Samples
  import opened Capabilities
  import opened SampleLoops

  /** `_parse_patches`: the detections that define a sample's patches, or
      `None` when the field holds no detection-like label. */
  function ParsePatches(env: Env, s: Sample, patchesField: string): Option<seq<Detection>>
  {
    match Get(s, patchesField)
    case DetectionsValue(ds) => Some(ds)
    case DetectionValue(d) => Some([d])
    case PolylineValue(pl) => Some([env.polylineToDetection(pl)])
    case PolylinesValue(pls) => Some(env.polylinesToDetections(pls))
    case _ => None
  }

  /** The sample has at least one patch; the loop skips the others. */
  predicate HasPatches(env: Env, s: Sample, patchesField: string)
  {
    ParsePatches(env, s, patchesField).Some? && ParsePatches(env, s, patchesField).value != []
  }

  /** Detections are their own patches; a lone detection, a polyline or
      polylines define the same patches as the detections they convert to,
      so only the converted list matters. */
  lemma ParsePatchesConverts(env: Env, s: Sample, patchesField: string)
    ensures ParsePatches(env, s, patchesField).Some? <==>
      Get(s, patchesField).DetectionsValue? || Get(s, patchesField).DetectionValue? ||
      Get(s, patchesField).PolylineValue? || Get(s, patchesField).PolylinesValue?
    ensures Get(s, patchesField).DetectionsValue? ==>
      ParsePatches(env, s, patchesField) == Some(Get(s, patchesField).detections)
    ensures Get(s, patchesField).DetectionValue? ==>
      ParsePatches(env, s, patchesField) == Some([Get(s, patchesField).detection])
    ensures Get(s, patchesField).PolylineValue? ==>
      ParsePatches(env, s, patchesField) == Some([env.polylineToDetection(Get(s, patchesField).polyline)])
    ensures Get(s, patchesField).PolylinesValue? ==>
      ParsePatches(env, s, patchesField) == Some(env.polylinesToDetections(Get(s, patchesField).polylines))
    ensures ParsePatches(env, s, patchesField).Some? ==>
      var ds := ParsePatches(env, s, patchesField).value;
      ParsePatches(env, Store(s, patchesField, DetectionsValue(ds)), patchesField) == Some(ds)
    ensures Get(s, patchesField).DetectionValue? ==>
      ParsePatches(env, s, patchesField) ==
      ParsePatches(env, Store(s, patchesField, DetectionsValue([Get(s, patchesField).detection])), patchesField)
  {
  }

  /** `_extract_patch` for each detection, in order. */
  function Patches(env: Env, img: NdArray, dets: seq<Detection>, square: bool, alpha: Option<real>): (r: seq<Input>)
    ensures |r| == |dets|
  {
    seq(|dets|, i requires 0 <= i < |dets| => Pixels(env.extractPatch(img, dets[i], square, alpha)))
  }

  lemma PatchesAppend(env: Env, img: NdArray, a: seq<Detection>, b: seq<Detection>, square: bool, alpha: Option<real>)
    ensures Patches(env, img, a + b, square, alpha) == Patches(env, img, a, square, alpha) + Patches(env, img, b, square, alpha)
  {
  }

  /** `_embed_patches_single`: `embed` on each patch, then `np.concatenate`. */
  function EmbedPatchesSingle(m: Model, env: Env, img: NdArray, dets: seq<Detection>, square: bool, alpha: Option<real>): (r: Result<NdArray, Error>)
  {
    var es :- TryMap(m.embed, Patches(env, img, dets, square, alpha));
    Concatenate(es)
  }

  function ChunkEmbedder(m: Model, env: Env, img: NdArray, square: bool, alpha: Option<real>): seq<Detection> -> Result<NdArray, Error>
  {
    chunk => m.embedAll(Patches(env, img, chunk, square, alpha))
  }

  /** `_embed_patches_batch`: `embed_all` on the patches of each batch of
      detections, then `np.concatenate` of the batch arrays. */
  function EmbedPatchesBatch(m: Model, env: Env, img: NdArray, dets: seq<Detection>, n: nat, square: bool, alpha: Option<real>): (r: Result<NdArray, Error>)
    requires n >= 1
  {
    var arrays :- TryMap(ChunkEmbedder(m, env, img, square, alpha), Chunks(dets, n));
    Concatenate(arrays)
  }

  /** The single-item patch path succeeds exactly when every patch embeds to
      an array with a dimension and there is at least one patch, and then
      returns all their rows in detection order. */
  lemma EmbedPatchesSingleRows(m: Model, env: Env, img: NdArray, dets: seq<Detection>, square: bool, alpha: Option<real>)
    ensures var es := TryMap(m.embed, Patches(env, img, dets, square, alpha));
      var r := EmbedPatchesSingle(m, env, img, dets, square, alpha);
      && (r.Success? <==> |dets| > 0 && es.Success? && AllAxes(es.value))
      && (r.Success? ==> r.value == Axis(JoinRows(es.value)))
      && (dets == [] ==> r == Failure(ValueError("need at least one array to concatenate")))
  {
  }

  /** With a concatenating `embed_all`, one batch of patches yields the rows
      of their embeddings. */
  lemma ChunkArray(m: Model, env: Env, img: NdArray, c: seq<Detection>, square: bool, alpha: Option<real>)
    requires HasConcatenatingEmbedAll(m) && |c| > 0
    ensures var a := ChunkEmbedder(m, env, img, square, alpha)(c);
      var es := TryMap(m.embed, Patches(env, img, c, square, alpha));
      && (a.Success? <==> es.Success? && AllAxes(es.value))
      && (a.Success? ==> a.value == Axis(JoinRows(es.value)))
  {
    assert ChunkEmbedder(m, env, img, square, alpha)(c) == ConcatenatedEmbeddings(m.embed, Patches(env, img, c, square, alpha));
  }

  /** The embeddings of the patches of two consecutive stretches of detections. */
  lemma PatchEmbeddingsAppend(m: Model, env: Env, img: NdArray, a: seq<Detection>, b: seq<Detection>, square: bool, alpha: Option<real>)
    ensures var ea := TryMap(m.embed, Patches(env, img, a, square, alpha));
      var eb := TryMap(m.embed, Patches(env, img, b, square, alpha));
      var e := TryMap(m.embed, Patches(env, img, a + b, square, alpha));
      && (e.Success? <==> ea.Success? && eb.Success?)
      && (e.Success? ==> e.value == ea.value + eb.value)
  {
    PatchesAppend(env, img, a, b, square, alpha);
    TryMapAppend(m.embed, Patches(env, img, a, square, alpha), Patches(env, img, b, square, alpha));
  }

  /** With a concatenating `embed_all`, the batch arrays of consecutive
      non-empty batches hold, in order, the rows of every patch embedding. */
  lemma {:induction false} ChunkRows(m: Model, env: Env, img: NdArray, cs: seq<seq<Detection>>, square: bool, alpha: Option<real>)
    requires HasConcatenatingEmbedAll(m)
    requires forall g :: 0 <= g < |cs| ==> |cs[g]| > 0
    ensures var arrays := TryMap(ChunkEmbedder(m, env, img, square, alpha), cs);
      var es := TryMap(m.embed, Patches(env, img, Flatten(cs), square, alpha));
      && (arrays.Success? <==> es.Success? && AllAxes(es.value))
      && (arrays.Success? ==> AllAxes(arrays.value) && JoinRows(arrays.value) == JoinRows(es.value))
    decreases |cs|
  {
    var f := ChunkEmbedder(m, env, img, square, alpha);
    if cs != [] {
      var c := cs[0];
      var rest := Flatten(cs[1..]);
      assert Flatten(cs) == c + rest;
      ChunkArray(m, env, img, c, square, alpha);
      PatchEmbeddingsAppend(m, env, img, c, rest, square, alpha);
      ChunkRows(m, env, img, cs[1..], square, alpha);
      var ec := TryMap(m.embed, Patches(env, img, c, square, alpha));
      var er := TryMap(m.embed, Patches(env, img, rest, square, alpha));
      if ec.Success? && er.Success? {
        AllAxesAppend(ec.value, er.value);
      }
      var arrays := TryMap(f, cs);
      if arrays.Success? {
        var tail := TryMap(f, cs[1..]).value;
        assert arrays.value == [f(c).value] + tail;
        JoinRowsAppend([f(c).value], tail);
        JoinRowsAppend(ec.value, er.value);
        JoinRowsOne(f(c).value);
      }
    }
  }

  /** Batch-size invariance for patches: with a concatenating `embed_all`,
      the batched patch path succeeds exactly when the single-item one does,
      and returns the same array. */
  lemma PatchBatchMatchesSingle(m: Model, env: Env, img: NdArray, dets: seq<Detection>, n: nat, square: bool, alpha: Option<real>)
    requires n >= 1 && HasConcatenatingEmbedAll(m)
    ensures EmbedPatchesBatch(m, env, img, dets, n, square, alpha).Success? <==>
      EmbedPatchesSingle(m, env, img, dets, square, alpha).Success?
    ensures EmbedPatchesSingle(m, env, img, dets, square, alpha).Success? ==>
      EmbedPatchesBatch(m, env, img, dets, n, square, alpha) == EmbedPatchesSingle(m, env, img, dets, square, alpha)
  {
    ChunkRows(m, env, img, Chunks(dets, n), square, alpha);
    EmbedPatchesSingleRows(m, env, img, dets, square, alpha);
  }

  /** The patch embeddings of one sample, by the path the batch size selects. */
  function SampleEmbedding(m: Model, env: Env, s: Sample, dets: seq<Detection>, n: Option<int>, square: bool, alpha: Option<real>): Result<NdArray, Error>
    requires n.None? || n.value >= 1
  {
    var img :- env.readImage(s.filepath);
    if n.None? then EmbedPatchesSingle(m, env, img, dets, square, alpha)
    else EmbedPatchesBatch(m, env, img, dets, n.value, square, alpha)
  }

  /** The patch embeddings of a sample that has patches. */
  function PatchEmbedding(m: Model, env: Env, s: Sample, patchesField: string, n: Option<int>, square: bool, alpha: Option<real>): Result<NdArray, Error>
    requires n.None? || n.value >= 1
    requires HasPatches(env, s, patchesField)
  {
    SampleEmbedding(m, env, s, ParsePatches(env, s, patchesField).value, n, square, alpha)
  }

  /** The model calls the patches of one image take: `embed` once per patch
      on the single-item path, `embed_all` once per batch otherwise. */
  function PatchCalls(dets: seq<Detection>, n: Option<int>): (r: seq<Event>)
    requires n.None? || n.value >= 1
    ensures Saved(r) == []
    ensures n.None? ==> |r| == |dets| && forall i :: 0 <= i < |dets| ==> r[i] == Infer(1)
    ensures n.Some? ==> var cs := Chunks(dets, n.value);
      |r| == |cs| && forall g :: 0 <= g < |cs| ==> r[g] == Infer(|cs[g]|)
  {
    if n.None? then Inferences(seq(|dets|, _ => 1))
    else
      var cs := Chunks(dets, n.value);
      Inferences(seq(|cs|, g requires 0 <= g < |cs| => |cs[g]|))
  }

  /** One iteration of the loop of `compute_patch_embeddings`: samples without
      patches are skipped before their image is read; the others get their
      patch embeddings written (and are saved) or kept for the dict. */
  function PatchStep(m: Model, env: Env, s: Sample, patchesField: string, field: Option<string>, n: Option<int>,
                     square: bool, alpha: Option<real>): (r: Result<Step, Error>)
    requires n.None? || n.value >= 1
    ensures !HasPatches(env, s, patchesField) ==> r == Success(Step(s, [], []))
    ensures HasPatches(env, s, patchesField) ==>
      var e := PatchEmbedding(m, env, s, patchesField, n, square, alpha);
      var calls := PatchCalls(ParsePatches(env, s, patchesField).value, n);
      && (r.Success? <==> e.Success?)
      && (r.Failure? ==> r.error == e.error)
      && (r.Success? && Truthy(field) ==> r.value == Step(Store(s, field.value, ArrayValue(e.value)), calls + [Save(s.id)], []))
      && (r.Success? && !Truthy(field) ==> r.value == Step(s, calls, [e.value]))
    ensures r.Success? ==> Saved(r.value.trace) == (if Truthy(field) && HasPatches(env, s, patchesField) then [s.id] else [])
  {
    match ParsePatches(env, s, patchesField)
    case None => Success(Step(s, [], []))
    case Some(dets) =>
      if dets == [] then Success(Step(s, [], []))
      else
        var e :- SampleEmbedding(m, env, s, dets, n, square, alpha);
        var calls := PatchCalls(dets, n);
        if Truthy(field) then
          SavedAppend(calls, [Save(s.id)]);
          SavedCons(Save(s.id), []);
          Success(Step(Store(s, field.value, ArrayValue(e)), calls + [Save(s.id)], []))
        else Success(Step(s, calls, [e]))
  }

  function PatchSteps(m: Model, env: Env, patchesField: string, field: Option<string>, n: Option<int>,
                      square: bool, alpha: Option<real>): Sample -> Result<Step, Error>
    requires n.None? || n.value >= 1
  {
    s => PatchStep(m, env, s, patchesField, field, n, square, alpha)
  }

  /** A sample whose iteration raised has saved nothing; which of its patch
      calls ran before the exception is not recorded. */
  function NoEvents(): Sample -> seq<Event>
  {
    s => []
  }

  /** The loop of `compute_patch_embeddings`. */
  function PatchEach(m: Model, env: Env, ss: seq<Sample>, patchesField: string, field: Option<string>, n: Option<int>,
                     square: bool, alpha: Option<real>): (p: Progress)
    requires n.None? || n.value >= 1
    ensures |p.samples| == |ss| && p.processed <= |ss|
    ensures p.error.None? <==> p.processed == |ss|
  {
    EachSample(PatchSteps(m, env, patchesField, field, n, square, alpha), NoEvents(), ss)
  }

  /** `embeddings_dict`: for each sample with patches, in order, its id maps
      to its patch embeddings; a later sample with the same id overwrites. */
  function PatchDict(m: Model, env: Env, ss: seq<Sample>, patchesField: string, n: Option<int>,
                     square: bool, alpha: Option<real>): map<string, NdArray>
    requires n.None? || n.value >= 1
    requires forall i :: 0 <= i < |ss| && HasPatches(env, ss[i], patchesField) ==>
      PatchEmbedding(m, env, ss[i], patchesField, n, square, alpha).Success?
    decreases |ss|
  {
    if ss == [] then map[]
    else
      var head := if HasPatches(env, ss[0], patchesField)
        then map[ss[0].id := PatchEmbedding(m, env, ss[0], patchesField, n, square, alpha).value]
        else map[];
      head + PatchDict(m, env, ss[1..], patchesField, n, square, alpha)
  }

  /** The dict has an entry exactly for the ids of samples with patches. */
  lemma {:induction false} PatchDictKeys(m: Model, env: Env, ss: seq<Sample>, patchesField: string, n: Option<int>,
                                         square: bool, alpha: Option<real>)
    requires n.None? || n.value >= 1
    requires forall i :: 0 <= i < |ss| && HasPatches(env, ss[i], patchesField) ==>
      PatchEmbedding(m, env, ss[i], patchesField, n, square, alpha).Success?
    ensures forall id :: id in PatchDict(m, env, ss, patchesField, n, square, alpha) <==>
      exists i :: 0 <= i < |ss| && HasPatches(env, ss[i], patchesField) && ss[i].id == id
    decreases |ss|
  {
    if ss != [] {
      PatchDictKeys(m, env, ss[1..], patchesField, n, square, alpha);
      var d := PatchDict(m, env, ss, patchesField, n, square, alpha);
      var rest := PatchDict(m, env, ss[1..], patchesField, n, square, alpha);
      assert d.Keys == (if HasPatches(env, ss[0], patchesField) then {ss[0].id} else {}) + rest.Keys;
      forall id
        ensures id in d <==> exists i :: 0 <= i < |ss| && HasPatches(env, ss[i], patchesField) && ss[i].id == id
      {
        if id in rest {
          var i :| 0 <= i < |ss[1..]| && HasPatches(env, ss[1..][i], patchesField) && ss[1..][i].id == id;
          assert ss[i + 1] == ss[1..][i];
        }
        if exists i :: 0 <= i < |ss| && HasPatches(env, ss[i], patchesField) && ss[i].id == id {
          var i :| 0 <= i < |ss| && HasPatches(env, ss[i], patchesField) && ss[i].id == id;
          if i > 0 {
            assert ss[1..][i - 1] == ss[i];
          }
        }
      }
    }
  }

  /** The entry of an id is the patch embeddings of its last sample with
      patches: with distinct ids, of its only one. */
  lemma {:induction false} PatchDictValues(m: Model, env: Env, ss: seq<Sample>, patchesField: string, n: Option<int>,
                                           square: bool, alpha: Option<real>, i: nat)
    requires n.None? || n.value >= 1
    requires forall i :: 0 <= i < |ss| && HasPatches(env, ss[i], patchesField) ==>
      PatchEmbedding(m, env, ss[i], patchesField, n, square, alpha).Success?
    requires i < |ss| && HasPatches(env, ss[i], patchesField)
    requires forall j :: i < j < |ss| && HasPatches(env, ss[j], patchesField) ==> ss[j].id != ss[i].id
    ensures ss[i].id in PatchDict(m, env, ss, patchesField, n, square, alpha)
    ensures PatchDict(m, env, ss, patchesField, n, square, alpha)[ss[i].id] ==
      PatchEmbedding(m, env, ss[i], patchesField, n, square, alpha).value
    decreases i
  {
    if i == 0 {
      PatchDictFirst(m, env, ss, patchesField, n, square, alpha);
    } else {
      assert ss[i] == ss[1..][i - 1];
      forall j | i - 1 < j < |ss[1..]| && HasPatches(env, ss[1..][j], patchesField)
        ensures ss[1..][j].id != ss[1..][i - 1].id
      {
        assert ss[1..][j] == ss[j + 1];
      }
      PatchDictValues(m, env, ss[1..], patchesField, n, square, alpha, i - 1);
    }
  }

  /** The first sample's entry survives when no later sample with patches
      shares its id. */
  lemma PatchDictFirst(m: Model, env: Env, ss: seq<Sample>, patchesField: string, n: Option<int>,
                       square: bool, alpha: Option<real>)
    requires n.None? || n.value >= 1
    requires forall i :: 0 <= i < |ss| && HasPatches(env, ss[i], patchesField) ==>
      PatchEmbedding(m, env, ss[i], patchesField, n, square, alpha).Success?
    requires 0 < |ss| && HasPatches(env, ss[0], patchesField)
    requires forall j :: 0 < j < |ss| && HasPatches(env, ss[j], patchesField) ==> ss[j].id != ss[0].id
    ensures ss[0].id in PatchDict(m, env, ss, patchesField, n, square, alpha)
    ensures PatchDict(m, env, ss, patchesField, n, square, alpha)[ss[0].id] ==
      PatchEmbedding(m, env, ss[0], patchesField, n, square, alpha).value
  {
    var tail := ss[1..];
    PatchDictKeys(m, env, tail, patchesField, n, square, alpha);
    assert ss[0].id !in PatchDict(m, env, tail, patchesField, n, square, alpha) by {
      forall k | 0 <= k < |tail| && HasPatches(env, tail[k], patchesField)
        ensures tail[k].id != ss[0].id
      {
        assert tail[k] == ss[k + 1];
      }
    }
  }

  /** The value `compute_patch_embeddings` returns after its loop. */
  function PatchResult(m: Model, env: Env, ss: seq<Sample>, p: Progress, patchesField: string, field: Option<string>,
                       n: Option<int>, square: bool, alpha: Option<real>): (r: Result<Option<map<string, NdArray>>, Error>)
    requires n.None? || n.value >= 1
    requires p == PatchEach(m, env, ss, patchesField, field, n, square, alpha)
  {
    if p.error.Some? then Failure(p.error.value)
    else if Truthy(field) then Success(None)
    else
      PatchEachSucceeds(m, env, ss, patchesField, field, n, square, alpha);
      Success(Some(PatchDict(m, env, ss, patchesField, n, square, alpha)))
  }

  /** The loop gets through every sample exactly when every sample with
      patches embeds them, and otherwise stops at the first that does not. */
  lemma PatchEachSucceeds(m: Model, env: Env, ss: seq<Sample>, patchesField: string, field: Option<string>, n: Option<int>,
                          square: bool, alpha: Option<real>)
    requires n.None? || n.value >= 1
    ensures var p := PatchEach(m, env, ss, patchesField, field, n, square, alpha);
      && (p.error.None? <==> forall i :: 0 <= i < |ss| && HasPatches(env, ss[i], patchesField) ==>
            PatchEmbedding(m, env, ss[i], patchesField, n, square, alpha).Success?)
      && (p.error.Some? ==>
            && HasPatches(env, ss[p.processed], patchesField)
            && PatchEmbedding(m, env, ss[p.processed], patchesField, n, square, alpha) == Failure(p.error.value))
  {
    EachSampleSteps(PatchSteps(m, env, patchesField, field, n, square, alpha), NoEvents(), ss);
  }

  /** What a completed iteration writes back for one sample. */
  function Written(m: Model, env: Env, s: Sample, patchesField: string, field: Option<string>, n: Option<int>,
                   square: bool, alpha: Option<real>): Sample
    requires n.None? || n.value >= 1
    requires HasPatches(env, s, patchesField) ==> PatchEmbedding(m, env, s, patchesField, n, square, alpha).Success?
  {
    if HasPatches(env, s, patchesField) && Truthy(field)
    then Store(s, field.value, ArrayValue(PatchEmbedding(m, env, s, patchesField, n, square, alpha).value))
    else s
  }

  /** With a field, the loop writes the patch embeddings of every sample with
      patches it gets through and leaves every other sample as it was;
      without one it writes nothing. */
  lemma PatchEachWrites(m: Model, env: Env, ss: seq<Sample>, patchesField: string, field: Option<string>, n: Option<int>,
                        square: bool, alpha: Option<real>)
    requires n.None? || n.value >= 1
    ensures var p := PatchEach(m, env, ss, patchesField, field, n, square, alpha);
      && SameSamples(p.samples, ss)
      && p.samples[p.processed..] == ss[p.processed..]
      && forall i :: 0 <= i < p.processed ==>
           && (HasPatches(env, ss[i], patchesField) ==> PatchEmbedding(m, env, ss[i], patchesField, n, square, alpha).Success?)
           && p.samples[i] == Written(m, env, ss[i], patchesField, field, n, square, alpha)
  {
    var step := PatchSteps(m, env, patchesField, field, n, square, alpha);
    var p := PatchEach(m, env, ss, patchesField, field, n, square, alpha);
    forall s | step(s).Success?
      ensures step(s).value.sample.id == s.id && step(s).value.sample.filepath == s.filepath
    {
      PatchStepWritten(m, env, s, patchesField, field, n, square, alpha);
    }
    EachSampleSteps(step, NoEvents(), ss);
    EachSampleSame(step, NoEvents(), ss);
    forall i | 0 <= i < p.processed
      ensures HasPatches(env, ss[i], patchesField) ==> PatchEmbedding(m, env, ss[i], patchesField, n, square, alpha).Success?
      ensures p.samples[i] == Written(m, env, ss[i], patchesField, field, n, square, alpha)
    {
      PatchStepWritten(m, env, ss[i], patchesField, field, n, square, alpha);
    }
  }

  lemma PatchStepWritten(m: Model, env: Env, s: Sample, patchesField: string, field: Option<string>, n: Option<int>,
                         square: bool, alpha: Option<real>)
    requires n.None? || n.value >= 1
    ensures var r := PatchSteps(m, env, patchesField, field, n, square, alpha)(s);
      r.Success? ==>
        && (HasPatches(env, s, patchesField) ==> PatchEmbedding(m, env, s, patchesField, n, square, alpha).Success?)
        && r.value.sample == Written(m, env, s, patchesField, field, n, square, alpha)
        && r.value.sample.id == s.id && r.value.sample.filepath == s.filepath
  {
    assert PatchSteps(m, env, patchesField, field, n, square, alpha)(s) == PatchStep(m, env, s, patchesField, field, n, square, alpha);
  }

  /** `compute_patch_embeddings` for the patch embeddings it computes itself. */
  function PatchRun(m: Model, env: Env, ss: seq<Sample>, patchesField: string, field: Option<string>, n: Option<int>,
                    square: bool, alpha: Option<real>): Run<Option<map<string, NdArray>>>
    requires n.None? || n.value >= 1
  {
    var p := PatchEach(m, env, ss, patchesField, field, n, square, alpha);
    Run(p.samples, InContext(p.trace), PatchResult(m, env, ss, p, patchesField, field, n, square, alpha))
  }

  /** `compute_patch_embeddings`: only image collections are accepted, then
      the model's embeddings capability is checked, Torch models go to their
      data-loader path, and the patches field must hold detection-like labels
      (`schemaError` is what validating it raises, if anything). */
  function ComputePatchEmbeddings(media: MediaType, ss: seq<Sample>, m: Model, env: Env, patchesField: string,
                                  field: Option<string>, batchSize: Option<int>, square: bool, alpha: Option<real>,
                                  schemaError: Option<Error>): (d: Dispatch<Option<map<string, NdArray>>>)
    ensures media == Video ==> d == Rejected(ValueError("This method only supports image samples"))
    ensures media == Image && EmbeddingsCheck(m).Some? ==> d == Rejected(EmbeddingsCheck(m).value)
    ensures d.Rejected? <==> media == Video || EmbeddingsCheck(m).Some? || (!m.torch && schemaError.Some?)
    ensures d.External? <==> (media == Image && EmbeddingsCheck(m).None? &&
      (m.torch || (schemaError.None? && ParseBatchSize(batchSize, env.defaultBatchSize, m.raggedBatches).Some? &&
                   ParseBatchSize(batchSize, env.defaultBatchSize, m.raggedBatches).value < 1)))
    ensures d.Ran? ==> var n := ParseBatchSize(batchSize, env.defaultBatchSize, m.raggedBatches);
      (n.None? || n.value >= 1) && d.run == PatchRun(m, env, ss, patchesField, field, n, square, alpha)
  {
    match media
    case Video => Rejected(ValueError("This method only supports image samples"))
    case Image =>
      match EmbeddingsCheck(m)
      case Some(e) => Rejected(e)
      case None =>
        if m.torch then External(TorchPath)
        else match schemaError
          case Some(e) => Rejected(e)
          case None =>
            var n := ParseBatchSize(batchSize, env.defaultBatchSize, m.raggedBatches);
            if n.Some? && n.value < 1 then External(BatchPath(n.value))
            else Ran(PatchRun(m, env, ss, patchesField, field, n, square, alpha))
  }
}
