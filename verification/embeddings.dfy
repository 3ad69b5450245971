/** `compute_embeddings` and its executors. With an embeddings field every
    sample gets its embedding written and nothing is returned; without one the
    embeddings are concatenated, in sample order, into one array. */
module Embeddings {
  import opened Wrappers
  import opened Errors
  import opened Batching
  import opened NdArrays
  import opened Samples
  import opened Capabilities
  import opened SampleLoops

  /** The embedding `model.embed` returns for one sample. */
  function EmbedOne(m: Model, env: Env, media: MediaType, s: Sample): Result<NdArray, Error>
  {
    var x :- LoadInput(env, media, s);
    m.embed(x)
  }

  /** What the single-item and video loops store for one sample: `embedding[0]`. */
  function StoredEmbedding(m: Model, env: Env, media: MediaType, s: Sample): Result<NdArray, Error>
  {
    var e :- EmbedOne(m, env, media, s);
    First(e)
  }

  /** Every sample embeds without raising. */
  ghost predicate AllEmbed(m: Model, env: Env, media: MediaType, ss: seq<Sample>)
  {
    forall i :: 0 <= i < |ss| ==> EmbedOne(m, env, media, ss[i]).Success?
  }

  /** The per-sample embeddings, in sample order. */
  function EmbeddingsOf(m: Model, env: Env, media: MediaType, ss: seq<Sample>): (r: seq<NdArray>)
    requires AllEmbed(m, env, media, ss)
    ensures |r| == |ss| && forall i :: 0 <= i < |ss| ==> EmbedOne(m, env, media, ss[i]) == Success(r[i])
  {
    seq(|ss|, i requires 0 <= i < |ss| && AllEmbed(m, env, media, ss) => EmbedOne(m, env, media, ss[i]).value)
  }

  /** One iteration of the single-item loop. With a field the sample gets
      `embedding[0]` and is saved; without one the embedding is kept. */
  function EmbedStep(m: Model, env: Env, media: MediaType, s: Sample, field: Option<string>): (r: Result<Step, Error>)
    ensures Truthy(field) ==>
      && (r.Success? <==> StoredEmbedding(m, env, media, s).Success?)
      && (r.Success? ==> r.value == Step(Store(s, field.value, ArrayValue(StoredEmbedding(m, env, media, s).value)), [Infer(1), Save(s.id)], []))
      && (r.Failure? ==> r.error == StoredEmbedding(m, env, media, s).error)
    ensures !Truthy(field) ==>
      && (r.Success? <==> EmbedOne(m, env, media, s).Success?)
      && (r.Success? ==> r.value == Step(s, [Infer(1)], [EmbedOne(m, env, media, s).value]))
      && (r.Failure? ==> r.error == EmbedOne(m, env, media, s).error)
  {
    var x :- LoadInput(env, media, s);
    var embedding :- m.embed(x);
    if Truthy(field) then
      var row :- First(embedding);
      Success(Step(Store(s, field.value, ArrayValue(row)), [Infer(1), Save(s.id)], []))
    else
      Success(Step(s, [Infer(1)], [embedding]))
  }

  function EmbedSteps(m: Model, env: Env, media: MediaType, field: Option<string>): Sample -> Result<Step, Error>
  {
    s => EmbedStep(m, env, media, s, field)
  }

  /** The loop of `_compute_image_embeddings_single` (images) and
      `_compute_video_embeddings` (videos). */
  function EmbedEach(m: Model, env: Env, media: MediaType, ss: seq<Sample>, field: Option<string>): (p: Progress)
    ensures |p.samples| == |ss| && p.processed <= |ss|
    ensures p.error.None? <==> p.processed == |ss|
  {
    EachSample(EmbedSteps(m, env, media, field), Attempts(env, media), ss)
  }

  /** The first `k` samples of `out` are those of `ss` with `embedding[0]`
      stored in `field`. */
  ghost predicate StoredUpTo(m: Model, env: Env, media: MediaType, ss: seq<Sample>, out: seq<Sample>, k: nat, field: string)
  {
    && k <= |ss| <= |out|
    && forall i :: 0 <= i < k ==>
         StoredEmbedding(m, env, media, ss[i]).Success? &&
         out[i] == Store(ss[i], field, ArrayValue(StoredEmbedding(m, env, media, ss[i]).value))
  }

  /** With a field, the single-item loop stores `embedding[0]` on every sample
      it gets through, leaves the others as they were, keeps nothing in
      memory, and stops exactly at the first sample that raises. */
  lemma EmbedEachStores(m: Model, env: Env, media: MediaType, ss: seq<Sample>, field: Option<string>)
    requires Truthy(field)
    ensures var p := EmbedEach(m, env, media, ss, field);
      && SameSamples(p.samples, ss)
      && p.samples[p.processed..] == ss[p.processed..]
      && StoredUpTo(m, env, media, ss, p.samples, p.processed, field.value)
      && p.kept == []
      && (p.error.Some? ==> StoredEmbedding(m, env, media, ss[p.processed]) == Failure(p.error.value))
  {
    var step := EmbedSteps(m, env, media, field);
    EachSampleSteps(step, Attempts(env, media), ss);
    EachSampleSame(step, Attempts(env, media), ss);
    EachSampleKeepsNone(step, Attempts(env, media), ss);
  }

  /** The single-item loop saves, in order, exactly the samples it stores,
      and saves nothing without a field. */
  lemma EmbedEachSaves(m: Model, env: Env, media: MediaType, ss: seq<Sample>, field: Option<string>)
    ensures var p := EmbedEach(m, env, media, ss, field);
      Saved(p.trace) == if Truthy(field) then Ids(ss[..p.processed]) else []
  {
    var step := EmbedSteps(m, env, media, field);
    forall s | step(s).Success?
      ensures Saved(step(s).value.trace) == if Truthy(field) then [s.id] else []
    {
      SavedInferSave(1, s.id);
    }
    EachSampleSaves(step, Attempts(env, media), ss, Truthy(field));
  }

  /** Without a field, the single-item loop writes nothing and keeps each
      sample's embedding, in sample order, up to the first sample that raises. */
  lemma EmbedEachKeeps(m: Model, env: Env, media: MediaType, ss: seq<Sample>, field: Option<string>)
    requires !Truthy(field)
    ensures var p := EmbedEach(m, env, media, ss, field);
      && p.samples == ss
      && |p.kept| == p.processed
      && (forall i :: 0 <= i < p.processed ==> EmbedOne(m, env, media, ss[i]) == Success(p.kept[i]))
      && (p.error.Some? ==> EmbedOne(m, env, media, ss[p.processed]) == Failure(p.error.value))
  {
    var step := EmbedSteps(m, env, media, field);
    var p := EmbedEach(m, env, media, ss, field);
    EachSampleSteps(step, Attempts(env, media), ss);
    EachSampleKeepsOne(step, Attempts(env, media), ss);
    assert p.samples == ss by {
      assert p.samples == p.samples[..p.processed] + p.samples[p.processed..];
      assert ss == ss[..p.processed] + ss[p.processed..];
    }
  }

  /** The samples of one batch after
      `for sample, embedding in zip(sample_batch, embeddings_batch)`. */
  function ZipStore(b: seq<Sample>, rows: seq<NdArray>, field: string): (r: seq<Sample>)
    ensures |r| == |b|
    ensures forall i :: 0 <= i < |b| ==>
      r[i] == if i < |rows| then Store(b[i], field, ArrayValue(rows[i])) else b[i]
    decreases |b|
  {
    if b == [] || rows == [] then b
    else [Store(b[0], field, ArrayValue(rows[0]))] + ZipStore(b[1..], rows[1..], field)
  }

  /** One iteration of `_compute_image_embeddings_batch`: decode the batch,
      call `embed_all` once, then store its rows by position or keep the whole
      batch array. */
  function EmbedBatch(m: Model, env: Env, b: seq<Sample>, field: Option<string>): (p: Progress)
    ensures |p.samples| == |b|
    ensures p.error.None? ==> p.processed == |b|
    ensures p.error.Some? ==> p.processed == 0 && p.samples == b && p.kept == []
  {
    match LoadImages(env, b)
    case Failure(e) => Progress(b, [], 0, [], Some(e))
    case Success(imgs) =>
      match m.embedAll(imgs)
      case Failure(e) => Progress(b, [Infer(|b|)], 0, [], Some(e))
      case Success(batch) =>
        if Truthy(field) then
          match Rows(batch)
          case Failure(e) => Progress(b, [Infer(|b|)], 0, [], Some(e))
          case Success(rows) =>
            var n := if |rows| < |b| then |rows| else |b|;
            Progress(ZipStore(b, rows, field.value), [Infer(|b|)] + SaveEvents(b[..n]), |b|, [], None)
        else
          Progress(b, [Infer(|b|)], |b|, [batch], None)
  }

  /** The loop of `_compute_image_embeddings_batch` over all batches. */
  function EmbedBatches(m: Model, env: Env, batches: seq<seq<Sample>>, field: Option<string>): (p: Progress)
    ensures |p.samples| == |Flatten(batches)| && p.processed <= |Flatten(batches)|
    ensures p.error.None? ==> p.processed == |Flatten(batches)|
    decreases |batches|
  {
    if batches == [] then Progress([], [], 0, [], None)
    else
      var head := EmbedBatch(m, env, batches[0], field);
      if head.error.Some? then
        Progress(head.samples + Flatten(batches[1..]), head.trace, 0, [], head.error)
      else
        var rest := EmbedBatches(m, env, batches[1..], field);
        Progress(head.samples + rest.samples, head.trace + rest.trace, head.processed + rest.processed,
                 head.kept + rest.kept, rest.error)
  }

  /** The value a run returns once its loop has finished: `None` with a
      field, else `np.concatenate` of what was kept. */
  function Materialise(p: Progress, field: Option<string>): (r: Result<Option<NdArray>, Error>)
    ensures p.error.Some? ==> r == Failure(p.error.value)
    ensures p.error.None? && Truthy(field) ==> r == Success(None)
    ensures p.error.None? && !Truthy(field) ==>
      r == (match Concatenate(p.kept) case Success(a) => Success(Some(a)) case Failure(e) => Failure(e))
  {
    if p.error.Some? then Failure(p.error.value)
    else if Truthy(field) then Success(None)
    else
      var a :- Concatenate(p.kept);
      Success(Some(a))
  }

  /** `_compute_image_embeddings_single` and `_compute_video_embeddings`. */
  function EmbedSingle(m: Model, env: Env, media: MediaType, ss: seq<Sample>, field: Option<string>): Run<Option<NdArray>>
  {
    var p := EmbedEach(m, env, media, ss, field);
    Run(p.samples, InContext(p.trace), Materialise(p, field))
  }

  /** `_compute_image_embeddings_batch`. */
  function EmbedBatched(m: Model, env: Env, ss: seq<Sample>, n: nat, field: Option<string>): Run<Option<NdArray>>
    requires n >= 1
  {
    var p := EmbedBatches(m, env, Chunks(ss, n), field);
    Run(p.samples, InContext(p.trace), Materialise(p, field))
  }

  /** `compute_embeddings`: the capability checks come first and depend on
      the model alone; then the routing of `apply_model`. */
  function ComputeEmbeddings(media: MediaType, ss: seq<Sample>, m: Model, env: Env, field: Option<string>,
                             batchSize: Option<int>): (d: Dispatch<Option<NdArray>>)
    ensures d.Rejected? <==> EmbeddingsCheck(m).Some?
    ensures d.Rejected? ==> d.error == EmbeddingsCheck(m).value
    ensures d.External? <==> (EmbeddingsCheck(m).None? &&
      (Route(media, m, batchSize, env.defaultBatchSize) == TorchPath ||
       (Route(media, m, batchSize, env.defaultBatchSize).BatchPath? && Route(media, m, batchSize, env.defaultBatchSize).size < 1)))
    ensures d.Ran? && Route(media, m, batchSize, env.defaultBatchSize).BatchPath? ==>
      var n := Route(media, m, batchSize, env.defaultBatchSize).size;
      n >= 1 && d.run == EmbedBatched(m, env, ss, n, field)
    ensures d.Ran? && !Route(media, m, batchSize, env.defaultBatchSize).BatchPath? ==>
      d.run == EmbedSingle(m, env, media, ss, field)
  {
    match EmbeddingsCheck(m)
    case Some(e) => Rejected(e)
    case None =>
      match Route(media, m, batchSize, env.defaultBatchSize)
      case VideoPath => Ran(EmbedSingle(m, env, Video, ss, field))
      case TorchPath => External(TorchPath)
      case BatchPath(n) =>
        if n < 1 then External(BatchPath(n)) else Ran(EmbedBatched(m, env, ss, n, field))
      case SinglePath => Ran(EmbedSingle(m, env, Image, ss, field))
  }
}
