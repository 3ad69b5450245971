/** The model capability descriptor, the external collaborators the pipeline
    calls, the batch-size policy and the routing decision shared by the entry
    points. */
module Capabilities {
  import opened Wrappers
  import opened Errors
  import opened NdArrays
  import opened Samples

  /** The media type of a whole sample collection. */
  datatype MediaType = Image | Video

  /** An opened `FFmpegVideoReader`. */
  datatype VideoReader = VideoReader(path: string)

  /** What a model is given: a decoded image (or patch), or a video reader. */
  datatype Input = Pixels(array: NdArray) | Stream(reader: VideoReader)

  /** A model as the pipeline sees it: its capability flags and its inference
      operations, any of which may raise.
      - `torch`: the model is a `TorchModelMixin`;
      - `embeddingsMixin`: the model is an `EmbeddingsMixin`;
      - `hasEmbeddings`: the value of its `has_embeddings` property. */
  datatype Model = Model(
    raggedBatches: bool,
    torch: bool,
    embeddingsMixin: bool,
    hasEmbeddings: bool,
    predict: Input -> Result<Value, Error>,
    predictAll: seq<Input> -> Result<seq<Value>, Error>,
    embed: Input -> Result<NdArray, Error>,
    embedAll: seq<Input> -> Result<NdArray, Error>)

  /** Everything outside the pipeline that it calls: image decoding, video
      opening, `Sample.add_labels` (confidence filtering included), patch
      extraction, the polyline conversions and the configured default batch
      size. */
  datatype Env = Env(
    readImage: string -> Result<NdArray, Error>,
    openVideo: string -> Result<VideoReader, Error>,
    addLabels: (map<string, Value>, Value, string, Option<real>) -> map<string, Value>,
    extractPatch: (NdArray, Detection, bool, Option<real>) -> NdArray,
    polylineToDetection: Polyline -> Detection,
    polylinesToDetections: seq<Polyline> -> seq<Detection>,
    defaultBatchSize: Option<int>)

  /** Observable steps of a run: entering and leaving the model's context,
      one inference call on `count` inputs, and saving one sample. */
  datatype Event = Enter | Infer(count: nat) | Save(id: string) | Exit

  /** The default `Model.predict_all`: `predict` applied to each input. */
  ghost predicate HasDefaultPredictAll(m: Model)
  {
    forall xs :: m.predictAll(xs) == TryMap(m.predict, xs)
  }

  /** The default `EmbeddingsMixin.embed_all` as written: the embeddings of
      the inputs stacked along a new leading axis. */
  function StackedEmbeddings(embed: Input -> Result<NdArray, Error>, xs: seq<Input>): (r: Result<NdArray, Error>)
    ensures r.Success? <==> |xs| > 0 && TryMap(embed, xs).Success?
    ensures r.Success? ==> r.value.Axis? && r.value.items == TryMap(embed, xs).value
  {
    var es :- TryMap(embed, xs);
    Stack(es)
  }

  /** The default `embed_all` the pipeline's single-item paths agree with:
      the embeddings of the inputs concatenated along their leading axis. */
  function ConcatenatedEmbeddings(embed: Input -> Result<NdArray, Error>, xs: seq<Input>): (r: Result<NdArray, Error>)
    ensures r.Success? <==> |xs| > 0 && TryMap(embed, xs).Success? && AllAxes(TryMap(embed, xs).value)
    ensures r.Success? ==> r.value == Axis(JoinRows(TryMap(embed, xs).value))
  {
    var es :- TryMap(embed, xs);
    Concatenate(es)
  }

  /** The model keeps the default `embed_all` as written. */
  ghost predicate HasStackingEmbedAll(m: Model)
  {
    forall xs :: m.embedAll(xs) == StackedEmbeddings(m.embed, xs)
  }

  /** The model's `embed_all` concatenates its `embed` results. */
  ghost predicate HasConcatenatingEmbedAll(m: Model)
  {
    forall xs :: m.embedAll(xs) == ConcatenatedEmbeddings(m.embed, xs)
  }

  /** Every embedding `embed` returns has exactly one row, the `(1, d)`
      shape the single-item paths index with `[0]`. */
  ghost predicate EmbedsOneRow(m: Model)
  {
    forall x :: m.embed(x).Success? ==> m.embed(x).value.Axis? && |m.embed(x).value.items| == 1
  }

  /** `_parse_batch_size`: an absent request falls back to the configured
      default; a size above 1 on a model with ragged batches is dropped. */
  function ParseBatchSize(requested: Option<int>, default: Option<int>, ragged: bool): (r: Option<int>)
    ensures var resolved := if requested.Some? then requested else default;
      && (r.Some? ==> r == resolved)
      && (r.None? <==> resolved.None? || (resolved.value > 1 && ragged))
  {
    var size := if requested.None? then default else requested;
    if size.Some? && size.value > 1 && ragged then None else size
  }

  /** The execution strategy an entry point selects. */
  datatype Path = VideoPath | TorchPath | BatchPath(size: int) | SinglePath

  /** The routing shared by `apply_model` and `compute_embeddings` (and, for
      image collections, `compute_patch_embeddings`). */
  function Route(media: MediaType, m: Model, requested: Option<int>, default: Option<int>): (p: Path)
    ensures p == VideoPath <==> media == Video
    ensures p == TorchPath <==> media == Image && m.torch
    ensures p.BatchPath? <==> media == Image && !m.torch && ParseBatchSize(requested, default, m.raggedBatches).Some?
    ensures p.BatchPath? ==> ParseBatchSize(requested, default, m.raggedBatches) == Some(p.size)
  {
    match media
    case Video => VideoPath
    case Image =>
      if m.torch then TorchPath
      else
        match ParseBatchSize(requested, default, m.raggedBatches)
        case Some(n) => BatchPath(n)
        case None => SinglePath
  }

  /** The ids of the samples saved by a trace, in the order of the saves. */
  function Saved(trace: seq<Event>): seq<string>
  {
    if trace == [] then []
    else (if trace[0].Save? then [trace[0].id] else []) + Saved(trace[1..])
  }

  lemma {:induction false} SavedAppend(a: seq<Event>, b: seq<Event>)
    ensures Saved(a + b) == Saved(a) + Saved(b)
  {
    if a == [] {
      assert a + b == b;
    } else {
      assert (a + b)[0] == a[0];
      assert (a + b)[1..] == a[1..] + b;
      SavedAppend(a[1..], b);
    }
  }

  /** One save per sample, in order. */
  function SaveEvents(ss: seq<Sample>): (r: seq<Event>)
    ensures |r| == |ss|
    ensures forall i :: 0 <= i < |ss| ==> r[i] == Save(ss[i].id)
    ensures Saved(r) == Ids(ss)
  {
    if ss == [] then []
    else
      var rest := SaveEvents(ss[1..]);
      SavedCons(Save(ss[0].id), rest);
      IdsCons(ss);
      [Save(ss[0].id)] + rest
  }

  lemma SavedCons(e: Event, trace: seq<Event>)
    ensures Saved([e] + trace) == (if e.Save? then [e.id] else []) + Saved(trace)
  {
    assert ([e] + trace)[1..] == trace;
  }

  /** One inference event per model call, `sizes[i]` being the number of
      inputs of call `i`. */
  function Inferences(sizes: seq<nat>): (r: seq<Event>)
    ensures |r| == |sizes|
    ensures forall i :: 0 <= i < |sizes| ==> r[i] == Infer(sizes[i])
    ensures Saved(r) == []
  {
    if sizes == [] then []
    else
      var rest := Inferences(sizes[1..]);
      SavedCons(Infer(sizes[0]), rest);
      [Infer(sizes[0])] + rest
  }

  /** The saves of one inference followed by one save, or of one inference alone. */
  lemma SavedInferSave(n: nat, id: string)
    ensures Saved([Infer(n), Save(id)]) == [id]
    ensures Saved([Infer(n)]) == []
  {
    SavedCons(Infer(n), [Save(id)]);
    SavedCons(Save(id), []);
    SavedCons(Infer(n), []);
  }

  lemma IdsCons(ss: seq<Sample>)
    requires ss != []
    ensures Ids(ss) == [ss[0].id] + Ids(ss[1..])
  {
  }

  /** The state an executor leaves behind: every sample (updated or not), the
      events so far, how many samples it got through, the embeddings it kept
      in memory, and the exception that stopped it, if one did. */
  datatype Progress = Progress(
    samples: seq<Sample>,
    trace: seq<Event>,
    processed: nat,
    kept: seq<NdArray>,
    error: Option<Error>)

  /** A finished run inside `with model:`: the samples after it, the events
      bracketed by entering and leaving the model's context, and the value
      returned or the exception raised. */
  datatype Run<T> = Run(samples: seq<Sample>, trace: seq<Event>, result: Result<T, Error>)

  /** What an entry point does: reject the call before touching anything,
      hand it to a path outside this model, or run one of the executors. */
  datatype Dispatch<T> = Rejected(error: Error) | External(path: Path) | Ran(run: Run<T>)

  /** The context manager around an executor: `Enter` first, `Exit` last,
      also when the executor stopped with an exception. */
  function InContext(trace: seq<Event>): (r: seq<Event>)
    ensures |r| == |trace| + 2 && r[0] == Enter && r[|r| - 1] == Exit
    ensures r[1..|r| - 1] == trace
    ensures Saved(r) == Saved(trace)
  {
    SavedAppend([Enter], trace);
    SavedAppend([Enter] + trace, [Exit]);
    [Enter] + trace + [Exit]
  }

  /** The error checks of the embedding entry points, which look only at the
      model's capability flags. */
  function EmbeddingsCheck(m: Model): (r: Option<Error>)
    ensures r.None? <==> m.embeddingsMixin && m.hasEmbeddings
  {
    if !m.embeddingsMixin then Some(ValueError("Model must implement the EmbeddingsMixin mixin"))
    else if !m.hasEmbeddings then Some(ValueError("Model does not expose embeddings"))
    else None
  }

  /** The input the model gets for one sample: its decoded image, or an
      opened reader for a video. */
  function LoadInput(env: Env, media: MediaType, s: Sample): Result<Input, Error>
  {
    match media
    case Image =>
      var a :- env.readImage(s.filepath);
      Success(Pixels(a))
    case Video =>
      var r :- env.openVideo(s.filepath);
      Success(Stream(r))
  }

  /** `[etai.read(sample.filepath) for sample in sample_batch]`. */
  function LoadImages(env: Env, b: seq<Sample>): (r: Result<seq<Input>, Error>)
    ensures r.Success? <==> forall i :: 0 <= i < |b| ==> LoadInput(env, Image, b[i]).Success?
    ensures r.Success? ==> |r.value| == |b| && forall i :: 0 <= i < |b| ==> LoadInput(env, Image, b[i]) == Success(r.value[i])
  {
    TryMap((s: Sample) => LoadInput(env, Image, s), b)
  }

  /** The position of a sample whose image fails to load, when one does. */
  function FailingIndex(env: Env, b: seq<Sample>): (i: nat)
    requires LoadImages(env, b).Failure?
    ensures i < |b| && LoadInput(env, Image, b[i]).Failure?
  {
    if LoadInput(env, Image, b[0]).Failure? then 0
    else
      assert LoadImages(env, b[1..]).Failure? by {
        var j :| 0 <= j < |b| && !LoadInput(env, Image, b[j]).Success?;
        assert b[j] == b[1..][j - 1];
      }
      FailingIndex(env, b[1..]) + 1
  }

  lemma IdsAppend(a: seq<Sample>, b: seq<Sample>)
    ensures Ids(a + b) == Ids(a) + Ids(b)
  {
  }

  /** Saves of two consecutive stretches of samples. */
  lemma SavesAppend(a: seq<Sample>, ta: seq<Event>, b: seq<Sample>, tb: seq<Event>, k: nat)
    requires Saved(ta) == Ids(a) && k <= |b| && Saved(tb) == Ids(b[..k])
    ensures Saved(ta + tb) == Ids((a + b)[..|a| + k])
  {
    assert (a + b)[..|a| + k] == a + b[..k];
    IdsAppend(a, b[..k]);
    SavedAppend(ta, tb);
  }
}
