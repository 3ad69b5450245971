/** `apply_model` and its three executors: one sample at a time for images,
    in batches for images, and one reader at a time for videos. */
module ApplyModel {
  import opened Wrappers
  import opened Errors
  import opened Batching
  import opened Samples
  import opened Capabilities
  import opened SampleLoops

  /** The label a sample receives when it is predicted on its own. */
  function PredictOne(m: Model, env: Env, media: MediaType, s: Sample): Result<Value, Error>
  {
    var x :- LoadInput(env, media, s);
    m.predict(x)
  }

  /** `sample.add_labels(label, label_field, confidence_thresh=...)`. */
  function Labelled(env: Env, s: Sample, prediction: Value, field: string, thresh: Option<real>): (r: Sample)
    ensures r.id == s.id && r.filepath == s.filepath
  {
    s.(fields := env.addLabels(s.fields, prediction, field, thresh))
  }

  /** The first `k` samples of `out` are those of `ss`, each labelled with the
      prediction it gets on its own. */
  ghost predicate LabelledUpTo(m: Model, env: Env, media: MediaType, ss: seq<Sample>, out: seq<Sample>, k: nat,
                               field: string, thresh: Option<real>)
  {
    && k <= |ss| <= |out|
    && forall i :: 0 <= i < k ==>
         PredictOne(m, env, media, ss[i]).Success? &&
         out[i] == Labelled(env, ss[i], PredictOne(m, env, media, ss[i]).value, field, thresh)
  }

  /** One iteration of the single-item loop: load, predict, label, save. */
  function PredictStep(m: Model, env: Env, media: MediaType, s: Sample, field: string, thresh: Option<real>): (r: Result<Step, Error>)
    ensures r.Success? <==> PredictOne(m, env, media, s).Success?
    ensures r.Success? ==>
      r.value == Step(Labelled(env, s, PredictOne(m, env, media, s).value, field, thresh), [Infer(1), Save(s.id)], [])
    ensures r.Failure? ==> r.error == PredictOne(m, env, media, s).error
  {
    var prediction :- PredictOne(m, env, media, s);
    Success(Step(Labelled(env, s, prediction, field, thresh), [Infer(1), Save(s.id)], []))
  }

  function PredictSteps(m: Model, env: Env, media: MediaType, field: string, thresh: Option<real>): Sample -> Result<Step, Error>
  {
    s => PredictStep(m, env, media, s, field, thresh)
  }

  /** `_apply_image_model_single` (images) and `_apply_video_model` (videos):
      each sample is loaded, predicted and labelled before the next one; the
      first exception stops the loop with the earlier samples labelled. */
  function ApplyEach(m: Model, env: Env, media: MediaType, ss: seq<Sample>, field: string, thresh: Option<real>): (p: Progress)
    ensures |p.samples| == |ss| && p.processed <= |ss|
    ensures p.error.None? <==> p.processed == |ss|
  {
    EachSample(PredictSteps(m, env, media, field, thresh), Attempts(env, media), ss)
  }

  /** The single-item loop labels every sample it gets through with that
      sample's own prediction, leaves the others as they were, and stops
      exactly at the first sample whose loading or prediction raises. */
  lemma ApplyEachLabels(m: Model, env: Env, media: MediaType, ss: seq<Sample>, field: string, thresh: Option<real>)
    ensures var p := ApplyEach(m, env, media, ss, field, thresh);
      && SameSamples(p.samples, ss)
      && p.samples[p.processed..] == ss[p.processed..]
      && LabelledUpTo(m, env, media, ss, p.samples, p.processed, field, thresh)
      && (p.error.Some? ==> PredictOne(m, env, media, ss[p.processed]) == Failure(p.error.value))
  {
    var step := PredictSteps(m, env, media, field, thresh);
    EachSampleSteps(step, Attempts(env, media), ss);
    EachSampleSame(step, Attempts(env, media), ss);
  }

  /** The single-item loop saves the samples it gets through, once each, in
      input order. */
  lemma ApplyEachSaves(m: Model, env: Env, media: MediaType, ss: seq<Sample>, field: string, thresh: Option<real>)
    ensures var p := ApplyEach(m, env, media, ss, field, thresh);
      Saved(p.trace) == Ids(ss[..p.processed])
  {
    var step := PredictSteps(m, env, media, field, thresh);
    forall s | step(s).Success?
      ensures Saved(step(s).value.trace) == [s.id]
    {
      SavedInferSave(1, s.id);
    }
    EachSampleSaves(step, Attempts(env, media), ss, true);
  }

  /** The samples of one batch after `zip(sample_batch, label_batch)`: the
      i-th sample gets the i-th label, and samples beyond the last label
      keep their fields. */
  function ZipLabels(env: Env, b: seq<Sample>, labels: seq<Value>, field: string, thresh: Option<real>): (r: seq<Sample>)
    ensures |r| == |b|
    ensures forall i :: 0 <= i < |b| ==>
      r[i] == if i < |labels| then Labelled(env, b[i], labels[i], field, thresh) else b[i]
    decreases |b|
  {
    if b == [] || labels == [] then b
    else [Labelled(env, b[0], labels[0], field, thresh)] + ZipLabels(env, b[1..], labels[1..], field, thresh)
  }

  /** The saves `zip` performs for one batch. */
  function ZipSaves(b: seq<Sample>, labels: seq<Value>): (r: seq<Event>)
    ensures Saved(r) == Ids(b[..if |labels| < |b| then |labels| else |b|])
  {
    SaveEvents(b[..if |labels| < |b| then |labels| else |b|])
  }

  /** One iteration of `_apply_image_model_batch`: decode the whole batch,
      call `predict_all` once, then label the samples by position. */
  function ApplyBatch(m: Model, env: Env, b: seq<Sample>, field: string, thresh: Option<real>): (p: Progress)
    ensures |p.samples| == |b| && p.kept == []
    ensures p.error.None? ==> p.processed == |b|
    ensures p.error.Some? ==> p.processed == 0 && p.samples == b
  {
    match LoadImages(env, b)
    case Failure(e) => Progress(b, [], 0, [], Some(e))
    case Success(imgs) =>
      match m.predictAll(imgs)
      case Failure(e) => Progress(b, [Infer(|b|)], 0, [], Some(e))
      case Success(labels) =>
        Progress(ZipLabels(env, b, labels, field, thresh), [Infer(|b|)] + ZipSaves(b, labels), |b|, [], None)
  }

  /** With the default `predict_all`, a batch gives each of its samples that
      sample's own prediction, saves them in order, and raises only if one of
      its samples fails on its own. */
  lemma ApplyBatchLabels(m: Model, env: Env, b: seq<Sample>, field: string, thresh: Option<real>)
    requires HasDefaultPredictAll(m)
    ensures var p := ApplyBatch(m, env, b, field, thresh);
      && LabelledUpTo(m, env, Image, b, p.samples, p.processed, field, thresh)
      && (p.error.Some? ==> exists i :: 0 <= i < |b| && PredictOne(m, env, Image, b[i]).Failure?)
  {
    match LoadImages(env, b)
    case Failure(e) =>
      var j := FailingIndex(env, b);
    case Success(imgs) =>
      match m.predictAll(imgs)
      case Failure(e) =>
        var j := FailingPrediction(m, imgs);
        assert PredictOne(m, env, Image, b[j]).Failure?;
      case Success(labels) =>
        assert |labels| == |b|;
        forall i | 0 <= i < |b|
          ensures PredictOne(m, env, Image, b[i]) == Success(labels[i])
        {
          assert m.predict(imgs[i]) == Success(labels[i]);
        }
  }

  /** With the default `predict_all`, a completed batch saves all its
      samples, in order. */
  lemma ApplyBatchSaves(m: Model, env: Env, b: seq<Sample>, field: string, thresh: Option<real>)
    requires HasDefaultPredictAll(m)
    ensures var p := ApplyBatch(m, env, b, field, thresh);
      Saved(p.trace) == Ids(b[..p.processed])
  {
    match LoadImages(env, b)
    case Failure(e) =>
    case Success(imgs) =>
      match m.predictAll(imgs)
      case Failure(e) =>
        assert Saved([Infer(|b|)]) == [];
      case Success(labels) =>
        assert |labels| == |b|;
        assert b[..|b|] == b;
        SavedAppend([Infer(|b|)], ZipSaves(b, labels));
  }

  /** The loop of `_apply_image_model_batch` over all batches. */
  function ApplyBatches(m: Model, env: Env, batches: seq<seq<Sample>>, field: string, thresh: Option<real>): (p: Progress)
    ensures |p.samples| == |Flatten(batches)| && p.processed <= |Flatten(batches)| && p.kept == []
    ensures p.error.None? ==> p.processed == |Flatten(batches)|
    decreases |batches|
  {
    if batches == [] then Progress([], [], 0, [], None)
    else
      var head := ApplyBatch(m, env, batches[0], field, thresh);
      if head.error.Some? then
        Progress(head.samples + Flatten(batches[1..]), head.trace, 0, [], head.error)
      else
        var rest := ApplyBatches(m, env, batches[1..], field, thresh);
        Progress(head.samples + rest.samples, head.trace + rest.trace, head.processed + rest.processed, [], rest.error)
  }

  /** Batching keeps every sample at its position, and the samples after the
      last completed batch are untouched. */
  lemma {:induction false} ApplyBatchesShape(m: Model, env: Env, batches: seq<seq<Sample>>, field: string, thresh: Option<real>)
    ensures var p := ApplyBatches(m, env, batches, field, thresh);
      && SameSamples(p.samples, Flatten(batches))
      && p.samples[p.processed..] == Flatten(batches)[p.processed..]
    decreases |batches|
  {
    if batches != [] {
      var b := batches[0];
      var head := ApplyBatch(m, env, b, field, thresh);
      ZipLabelsSame(m, env, b, field, thresh);
      if head.error.None? {
        ApplyBatchesShape(m, env, batches[1..], field, thresh);
        var rest := ApplyBatches(m, env, batches[1..], field, thresh);
        ShapeAppend(b, head.samples, Flatten(batches[1..]), rest.samples, rest.processed);
      }
    }
  }

  /** A completed batch followed by the shape the later batches keep. */
  lemma ShapeAppend(b: seq<Sample>, b': seq<Sample>, later: seq<Sample>, later': seq<Sample>, k: nat)
    requires SameSamples(b', b) && SameSamples(later', later) && k <= |later|
    requires later'[k..] == later[k..]
    ensures SameSamples(b' + later', b + later)
    ensures (b' + later')[|b| + k..] == (b + later)[|b| + k..]
  {
    assert (b' + later')[|b| + k..] == later'[k..];
    assert (b + later)[|b| + k..] == later[k..];
  }

  lemma ZipLabelsSame(m: Model, env: Env, b: seq<Sample>, field: string, thresh: Option<real>)
    ensures SameSamples(ApplyBatch(m, env, b, field, thresh).samples, b)
  {
  }

  lemma LabelledUpToAppend(m: Model, env: Env, media: MediaType, a: seq<Sample>, a': seq<Sample>,
                            b: seq<Sample>, b': seq<Sample>, k: nat, field: string, thresh: Option<real>)
    requires |a'| == |a| && LabelledUpTo(m, env, media, a, a', |a|, field, thresh)
    requires LabelledUpTo(m, env, media, b, b', k, field, thresh)
    ensures LabelledUpTo(m, env, media, a + b, a' + b', |a| + k, field, thresh)
  {
    forall i | |a| <= i < |a| + k
      ensures (a + b)[i] == b[i - |a|] && (a' + b')[i] == b'[i - |a|]
    {
    }
  }

  /** With the default `predict_all`, the batched loop labels the samples it
      gets through exactly as the single-item loop would, and it stops only
      when some sample it has not got through fails on its own. */
  lemma {:induction false} ApplyBatchesLabels(m: Model, env: Env, batches: seq<seq<Sample>>, field: string, thresh: Option<real>)
    requires HasDefaultPredictAll(m)
    ensures var p := ApplyBatches(m, env, batches, field, thresh);
      && LabelledUpTo(m, env, Image, Flatten(batches), p.samples, p.processed, field, thresh)
      && (p.error.Some? ==>
            exists i :: p.processed <= i < |Flatten(batches)| && PredictOne(m, env, Image, Flatten(batches)[i]).Failure?)
    decreases |batches|
  {
    if batches != [] {
      var b := batches[0];
      var head := ApplyBatch(m, env, b, field, thresh);
      ApplyBatchLabels(m, env, b, field, thresh);
      if head.error.Some? {
        StoppedBatchFails(m, env, b, Flatten(batches[1..]));
      } else {
        ApplyBatchesLabels(m, env, batches[1..], field, thresh);
        var rest := ApplyBatches(m, env, batches[1..], field, thresh);
        LabelledUpToAppend(m, env, Image, b, head.samples, Flatten(batches[1..]), rest.samples, rest.processed, field, thresh);
        LaterBatchFails(m, env, b, Flatten(batches[1..]), rest.processed, rest.error.Some?);
      }
    }
  }

  /** A failing sample of the batch the loop stopped at is a failing sample
      past the processed prefix. */
  lemma StoppedBatchFails(m: Model, env: Env, b: seq<Sample>, later: seq<Sample>)
    requires exists i :: 0 <= i < |b| && PredictOne(m, env, Image, b[i]).Failure?
    ensures exists i :: 0 <= i < |b + later| && PredictOne(m, env, Image, (b + later)[i]).Failure?
  {
    var j :| 0 <= j < |b| && PredictOne(m, env, Image, b[j]).Failure?;
    assert (b + later)[j] == b[j];
  }

  /** A failing sample of the later batches, shifted past the completed one. */
  lemma LaterBatchFails(m: Model, env: Env, b: seq<Sample>, later: seq<Sample>, k: nat, failed: bool)
    requires failed ==> exists i :: k <= i < |later| && PredictOne(m, env, Image, later[i]).Failure?
    ensures failed ==> exists i :: |b| + k <= i < |b + later| && PredictOne(m, env, Image, (b + later)[i]).Failure?
  {
    if failed {
      var i :| k <= i < |later| && PredictOne(m, env, Image, later[i]).Failure?;
      assert (b + later)[|b| + i] == later[i];
    }
  }

  /** With the default `predict_all`, the batched loop saves the samples it
      gets through once each, in input order. */
  lemma {:induction false} ApplyBatchesSaves(m: Model, env: Env, batches: seq<seq<Sample>>, field: string, thresh: Option<real>)
    requires HasDefaultPredictAll(m)
    ensures var p := ApplyBatches(m, env, batches, field, thresh);
      Saved(p.trace) == Ids(Flatten(batches)[..p.processed])
    decreases |batches|
  {
    if batches != [] {
      var b := batches[0];
      var later := Flatten(batches[1..]);
      assert Flatten(batches) == b + later;
      var p := ApplyBatches(m, env, batches, field, thresh);
      var head := ApplyBatch(m, env, b, field, thresh);
      ApplyBatchSaves(m, env, b, field, thresh);
      if head.error.None? {
        assert b[..head.processed] == b;
        ApplyBatchesSaves(m, env, batches[1..], field, thresh);
        var rest := ApplyBatches(m, env, batches[1..], field, thresh);
        SavesAppend(b, head.trace, later, rest.trace, rest.processed);
      }
    }
  }


  /** The position of an input `predict` fails on, when `predict` applied
      to each input fails. */
  function FailingPrediction(m: Model, xs: seq<Input>): (j: nat)
    requires TryMap(m.predict, xs).Failure?
    ensures j < |xs| && m.predict(xs[j]).Failure?
  {
    if m.predict(xs[0]).Failure? then 0
    else
      assert TryMap(m.predict, xs[1..]).Failure? by {
        var j :| 0 <= j < |xs| && !m.predict(xs[j]).Success?;
        assert xs[j] == xs[1..][j - 1];
      }
      FailingPrediction(m, xs[1..]) + 1
  }

  /** The run an executor's loop makes inside `with model:`. */
  function Finish(p: Progress): (r: Run<()>)
    ensures r.samples == p.samples && r.trace == InContext(p.trace)
    ensures r.result.Success? <==> p.error.None?
  {
    Run(p.samples, InContext(p.trace), if p.error.Some? then Failure(p.error.value) else Success(()))
  }

  /** `_apply_image_model_single`. */
  function ApplyImageModelSingle(m: Model, env: Env, ss: seq<Sample>, field: string, thresh: Option<real>): Run<()>
  {
    Finish(ApplyEach(m, env, Image, ss, field, thresh))
  }

  /** `_apply_video_model`: one opened reader per `predict` call, never batched. */
  function ApplyVideoModel(m: Model, env: Env, ss: seq<Sample>, field: string, thresh: Option<real>): Run<()>
  {
    Finish(ApplyEach(m, env, Video, ss, field, thresh))
  }

  /** `_apply_image_model_batch`. */
  function ApplyImageModelBatch(m: Model, env: Env, ss: seq<Sample>, n: nat, field: string, thresh: Option<real>): Run<()>
    requires n >= 1
  {
    Finish(ApplyBatches(m, env, Chunks(ss, n), field, thresh))
  }

  /** Batch-size invariance. With the default `predict_all`, the batched path
      succeeds exactly when the single-item path does, and then leaves every
      sample with the same labels, saved in the same order. When a sample
      fails, the batched path has labelled a prefix of what the single-item
      path labelled: the samples before the failing sample's batch. */
  lemma BatchedMatchesSingle(m: Model, env: Env, ss: seq<Sample>, n: nat, field: string, thresh: Option<real>)
    requires n >= 1 && HasDefaultPredictAll(m)
    ensures var single := ApplyImageModelSingle(m, env, ss, field, thresh);
      var batched := ApplyImageModelBatch(m, env, ss, n, field, thresh);
      && (batched.result.Success? <==> single.result.Success?)
      && (single.result.Success? ==> batched.samples == single.samples)
      && (single.result.Success? ==> Saved(batched.trace) == Saved(single.trace) == Ids(ss))
      && |batched.samples| == |single.samples| == |ss|
      && forall i :: 0 <= i < |ss| ==> batched.samples[i] == single.samples[i] || batched.samples[i] == ss[i]
  {
    LoopsAgree(m, env, ss, n, field, thresh);
  }

  /** The loops behind `BatchedMatchesSingle`. */
  lemma LoopsAgree(m: Model, env: Env, ss: seq<Sample>, n: nat, field: string, thresh: Option<real>)
    requires n >= 1 && HasDefaultPredictAll(m)
    ensures var ps := ApplyEach(m, env, Image, ss, field, thresh);
      var pb := ApplyBatches(m, env, Chunks(ss, n), field, thresh);
      && (pb.error.None? <==> ps.error.None?)
      && (ps.error.None? ==> pb.samples == ps.samples && Saved(pb.trace) == Saved(ps.trace) == Ids(ss))
      && |pb.samples| == |ps.samples| == |ss|
      && forall i :: 0 <= i < |ss| ==> pb.samples[i] == ps.samples[i] || pb.samples[i] == ss[i]
  {
    var ps := ApplyEach(m, env, Image, ss, field, thresh);
    var pb := ApplyBatches(m, env, Chunks(ss, n), field, thresh);
    ApplyEachLabels(m, env, Image, ss, field, thresh);
    ApplyEachSaves(m, env, Image, ss, field, thresh);
    ApplyBatchesShape(m, env, Chunks(ss, n), field, thresh);
    ApplyBatchesLabels(m, env, Chunks(ss, n), field, thresh);
    ApplyBatchesSaves(m, env, Chunks(ss, n), field, thresh);
    ComparePrefixes(m, env, ss, ps.samples, ps.processed, pb.samples, pb.processed, field, thresh);
    assert ps.error.None? ==> ss[..ps.processed] == ss;
  }

  /** Two loops that label prefixes of the same samples, the first stopping
      exactly at a failing sample: the second cannot have got further, and
      each of its samples is either the first loop's or untouched. */
  lemma ComparePrefixes(m: Model, env: Env, ss: seq<Sample>, a: seq<Sample>, ka: nat, b: seq<Sample>, kb: nat,
                        field: string, thresh: Option<real>)
    requires |a| == |ss| && |b| == |ss|
    requires LabelledUpTo(m, env, Image, ss, a, ka, field, thresh) && a[ka..] == ss[ka..]
    requires ka < |ss| ==> PredictOne(m, env, Image, ss[ka]).Failure?
    requires LabelledUpTo(m, env, Image, ss, b, kb, field, thresh) && b[kb..] == ss[kb..]
    ensures kb <= ka
    ensures forall i :: 0 <= i < |ss| ==> b[i] == a[i] || b[i] == ss[i]
    ensures kb == |ss| ==> ka == |ss| && b == a
  {
    forall i | 0 <= i < |ss|
      ensures b[i] == a[i] || b[i] == ss[i]
    {
      if i >= kb {
        assert b[i] == b[kb..][i - kb];
      }
    }
    if kb == |ss| {
      assert ka == |ss|;
      assert b == a;
    }
  }

  /** `apply_model`: videos go to the video loop whatever the model or batch
      size; otherwise a Torch model goes to its data-loader path; otherwise
      the negotiated batch size picks the batched or the single-item loop. */
  function ApplyModelTo(media: MediaType, ss: seq<Sample>, m: Model, env: Env, labelField: string,
                        thresh: Option<real>, batchSize: Option<int>): (d: Dispatch<()>)
    ensures !d.Rejected?
    ensures d.External? <==> Route(media, m, batchSize, env.defaultBatchSize) == TorchPath ||
                             (Route(media, m, batchSize, env.defaultBatchSize).BatchPath? &&
                              Route(media, m, batchSize, env.defaultBatchSize).size < 1)
    ensures d.Ran? ==> |d.run.samples| == |ss|
    ensures d.Ran? && media == Video ==> d.run == ApplyVideoModel(m, env, ss, labelField, thresh)
    ensures d.Ran? && Route(media, m, batchSize, env.defaultBatchSize) == SinglePath ==>
      d.run == ApplyImageModelSingle(m, env, ss, labelField, thresh)
    ensures d.Ran? && Route(media, m, batchSize, env.defaultBatchSize).BatchPath? ==>
      var n := Route(media, m, batchSize, env.defaultBatchSize).size;
      n >= 1 && d.run == ApplyImageModelBatch(m, env, ss, n, labelField, thresh)
  {
    match Route(media, m, batchSize, env.defaultBatchSize)
    case VideoPath => Ran(ApplyVideoModel(m, env, ss, labelField, thresh))
    case TorchPath => External(TorchPath)
    case BatchPath(n) =>
      if n < 1 then External(BatchPath(n))
      else Ran(ApplyImageModelBatch(m, env, ss, n, labelField, thresh))
    case SinglePath => Ran(ApplyImageModelSingle(m, env, ss, labelField, thresh))
  }
}
