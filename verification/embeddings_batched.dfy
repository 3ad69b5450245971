/** How `_compute_image_embeddings_batch` relates to
    `_compute_image_embeddings_single`. With an `embed_all` that concatenates
    the one-row embeddings of `embed`, both give the same result; with the
    default `embed_all` as written, which stacks them, they do not. */
module EmbeddingsBatched {
  import opened Wrappers
  import opened Errors
  import opened Batching
  import opened NdArrays
  import opened Samples
  import opened Capabilities
  import opened Embeddings

  /** Every sample embeds to an array with at least one dimension. */
  ghost predicate RowEmbeds(m: Model, env: Env, ss: seq<Sample>)
  {
    forall i :: 0 <= i < |ss| ==> EmbedOne(m, env, Image, ss[i]).Success? && EmbedOne(m, env, Image, ss[i]).value.Axis?
  }

  lemma EmbeddingsOfAppend(m: Model, env: Env, a: seq<Sample>, b: seq<Sample>)
    requires AllEmbed(m, env, Image, a) && AllEmbed(m, env, Image, b)
    ensures AllEmbed(m, env, Image, a + b)
    ensures EmbeddingsOf(m, env, Image, a + b) == EmbeddingsOf(m, env, Image, a) + EmbeddingsOf(m, env, Image, b)
  {
    assert forall i :: |a| <= i < |a + b| ==> (a + b)[i] == b[i - |a|];
  }

  lemma AllEmbedAppend(m: Model, env: Env, a: seq<Sample>, b: seq<Sample>)
    ensures AllEmbed(m, env, Image, a + b) <==> AllEmbed(m, env, Image, a) && AllEmbed(m, env, Image, b)
    ensures RowEmbeds(m, env, a + b) <==> RowEmbeds(m, env, a) && RowEmbeds(m, env, b)
  {
    assert forall i :: 0 <= i < |b| ==> (a + b)[|a| + i] == b[i];
    assert forall i :: 0 <= i < |a| ==> (a + b)[i] == a[i];
  }

  /** The embeddings `embed` gives the decoded images of a batch are those of
      its samples. */
  lemma BatchEmbeddings(m: Model, env: Env, b: seq<Sample>)
    requires LoadImages(env, b).Success?
    ensures var es := TryMap(m.embed, LoadImages(env, b).value);
      && (es.Success? <==> AllEmbed(m, env, Image, b))
      && (es.Success? ==> es.value == EmbeddingsOf(m, env, Image, b))
  {
    var imgs := LoadImages(env, b).value;
    assert forall i :: 0 <= i < |b| ==> EmbedOne(m, env, Image, b[i]) == m.embed(imgs[i]);
  }

  /** A batch whose images do not all load has a sample that does not embed. */
  lemma UnloadableBatch(m: Model, env: Env, b: seq<Sample>)
    requires LoadImages(env, b).Failure?
    ensures !AllEmbed(m, env, Image, b) && !RowEmbeds(m, env, b)
  {
    var i := FailingIndex(env, b);
    assert EmbedOne(m, env, Image, b[i]).Failure?;
  }

  /** Without a field, one batch keeps the concatenation of its samples'
      embeddings, and fails exactly when one of them raises or is 0-d. */
  lemma EmbedBatchInMemory(m: Model, env: Env, b: seq<Sample>, field: Option<string>)
    requires HasConcatenatingEmbedAll(m) && !Truthy(field) && |b| > 0
    ensures var p := EmbedBatch(m, env, b, field);
      && p.samples == b
      && (p.error.None? <==> RowEmbeds(m, env, b))
      && (p.error.None? ==> AllEmbed(m, env, Image, b) && AllAxes(EmbeddingsOf(m, env, Image, b)) &&
                            p.kept == [Axis(JoinRows(EmbeddingsOf(m, env, Image, b)))])
  {
    if LoadImages(env, b).Success? {
      var imgs := LoadImages(env, b).value;
      BatchEmbeddings(m, env, b);
      assert m.embedAll(imgs) == ConcatenatedEmbeddings(m.embed, imgs);
    } else {
      UnloadableBatch(m, env, b);
    }
  }

  /** Without a field, the batches keep arrays whose rows are, in order, the
      rows of every sample's embedding. */
  lemma {:induction false} EmbedBatchesInMemory(m: Model, env: Env, batches: seq<seq<Sample>>, field: Option<string>)
    requires HasConcatenatingEmbedAll(m) && !Truthy(field)
    requires forall g :: 0 <= g < |batches| ==> |batches[g]| > 0
    ensures var p := EmbedBatches(m, env, batches, field);
      && p.samples == Flatten(batches)
      && (p.error.None? <==> RowEmbeds(m, env, Flatten(batches)))
      && (p.error.None? ==>
            && AllEmbed(m, env, Image, Flatten(batches)) && AllAxes(EmbeddingsOf(m, env, Image, Flatten(batches)))
            && AllAxes(p.kept) && |p.kept| == |batches|
            && JoinRows(p.kept) == JoinRows(EmbeddingsOf(m, env, Image, Flatten(batches))))
    decreases |batches|
  {
    if batches != [] {
      var b := batches[0];
      var rest := Flatten(batches[1..]);
      assert Flatten(batches) == b + rest;
      var head := EmbedBatch(m, env, b, field);
      EmbedBatchInMemory(m, env, b, field);
      AllEmbedAppend(m, env, b, rest);
      if head.error.None? {
        var tail := EmbedBatches(m, env, batches[1..], field);
        EmbedBatchesInMemory(m, env, batches[1..], field);
        if tail.error.None? {
          var eb := EmbeddingsOf(m, env, Image, b);
          var er := EmbeddingsOf(m, env, Image, rest);
          EmbeddingsOfAppend(m, env, b, rest);
          JoinRowsAppend(eb, er);
          JoinRowsAppend(head.kept, tail.kept);
          assert JoinRows(head.kept) == JoinRows(eb) by {
            assert head.kept[1..] == [];
          }
        }
      }
    }
  }

  /** Without a field, `_compute_image_embeddings_single` returns the
      concatenation of the embeddings in sample order and writes nothing; it
      fails when a sample raises, when an embedding is 0-d, and on an empty
      collection, since numpy cannot concatenate nothing. */
  lemma EmbedSingleInMemory(m: Model, env: Env, media: MediaType, ss: seq<Sample>, field: Option<string>)
    requires !Truthy(field)
    ensures var r := EmbedSingle(m, env, media, ss, field);
      && r.samples == ss
      && Saved(r.trace) == []
      && (r.result.Success? <==>
            |ss| > 0 && AllEmbed(m, env, media, ss) && AllAxes(EmbeddingsOf(m, env, media, ss)))
      && (r.result.Success? ==> r.result.value == Some(Axis(JoinRows(EmbeddingsOf(m, env, media, ss)))))
      && (ss == [] ==> r.result == Failure(ValueError("need at least one array to concatenate")))
  {
    var p := EmbedEach(m, env, media, ss, field);
    EmbedEachKeeps(m, env, media, ss, field);
    EmbedEachSaves(m, env, media, ss, field);
    if p.error.None? {
      assert p.kept == EmbeddingsOf(m, env, media, ss);
    }
  }

  /** Without a field and with a concatenating `embed_all`, the batched path
      returns what the single-item path returns, whatever the batch size. */
  lemma EmbedBatchedInMemory(m: Model, env: Env, ss: seq<Sample>, n: nat, field: Option<string>)
    requires n >= 1 && HasConcatenatingEmbedAll(m) && !Truthy(field)
    ensures var single := EmbedSingle(m, env, Image, ss, field);
      var batched := EmbedBatched(m, env, ss, n, field);
      && batched.samples == single.samples == ss
      && (batched.result.Success? <==> single.result.Success?)
      && (single.result.Success? ==> batched.result == single.result)
  {
    EmbedSingleInMemory(m, env, Image, ss, field);
    EmbedBatchesInMemory(m, env, Chunks(ss, n), field);
  }

  /** What `compute_embeddings` promises of an in-memory result: an array
      whose first dimension is the number of samples, row `i` being what
      the single-item loop would store on sample `i`. */
  ghost predicate RowPerSample(m: Model, env: Env, media: MediaType, ss: seq<Sample>, r: Option<NdArray>)
  {
    && r.Some? && r.value.Axis? && |r.value.items| == |ss|
    && forall i :: 0 <= i < |ss| ==> StoredEmbedding(m, env, media, ss[i]) == Success(r.value.items[i])
  }

  /** When `embed` returns one row per input, the single-item path without a
      field returns one row per sample, and does so exactly when the
      collection is not empty and every sample embeds. */
  lemma {:induction false} EmbedSingleRowPerSample(m: Model, env: Env, media: MediaType, ss: seq<Sample>, field: Option<string>)
    requires EmbedsOneRow(m) && !Truthy(field)
    ensures var r := EmbedSingle(m, env, media, ss, field).result;
      && (r.Success? <==> |ss| > 0 && AllEmbed(m, env, media, ss))
      && (r.Success? ==> RowPerSample(m, env, media, ss, r.value))
  {
    EmbedSingleInMemory(m, env, media, ss, field);
    if AllEmbed(m, env, media, ss) {
      var es := EmbeddingsOf(m, env, media, ss);
      forall i | 0 <= i < |es|
        ensures es[i].Axis? && |es[i].items| == 1
      {
        assert EmbedOne(m, env, media, ss[i]) == Success(es[i]);
      }
      JoinRowsOfSingletons(es);
    }
  }

  /** The same holds on the batched path when `embed_all` concatenates, for
      every batch size. */
  lemma EmbedBatchedRowPerSample(m: Model, env: Env, ss: seq<Sample>, n: nat, field: Option<string>)
    requires n >= 1 && HasConcatenatingEmbedAll(m) && EmbedsOneRow(m) && !Truthy(field)
    ensures var r := EmbedBatched(m, env, ss, n, field).result;
      && (r.Success? <==> |ss| > 0 && AllEmbed(m, env, Image, ss))
      && (r.Success? ==> RowPerSample(m, env, Image, ss, r.value))
  {
    EmbedBatchedInMemory(m, env, ss, n, field);
    EmbedSingleRowPerSample(m, env, Image, ss, field);
  }

  /** `compute_embeddings` without a field: whenever it runs in this model and
      succeeds, it returns an array with one row per sample, on every route
      it takes (the batched route assuming a concatenating `embed_all`). */
  lemma ComputeEmbeddingsRowPerSample(media: MediaType, ss: seq<Sample>, m: Model, env: Env, field: Option<string>,
                                      batchSize: Option<int>)
    requires EmbedsOneRow(m) && !Truthy(field)
    requires Route(media, m, batchSize, env.defaultBatchSize).BatchPath? ==> HasConcatenatingEmbedAll(m)
    ensures var d := ComputeEmbeddings(media, ss, m, env, field, batchSize);
      d.Ran? ==>
        && (d.run.result.Success? <==> |ss| > 0 && AllEmbed(m, env, media, ss))
        && (d.run.result.Success? ==> RowPerSample(m, env, media, ss, d.run.result.value))
  {
    var route := Route(media, m, batchSize, env.defaultBatchSize);
    if route.BatchPath? && route.size >= 1 {
      EmbedBatchedRowPerSample(m, env, ss, route.size, field);
    } else {
      EmbedSingleRowPerSample(m, env, media, ss, field);
    }
  }

  /** The first `k` samples of `a` and `b` store the same embeddings, so they
      agree. */
  lemma StoredUpToUnique(m: Model, env: Env, ss: seq<Sample>, a: seq<Sample>, b: seq<Sample>, field: string)
    requires |a| == |b| == |ss|
    requires StoredUpTo(m, env, Image, ss, a, |ss|, field) && StoredUpTo(m, env, Image, ss, b, |ss|, field)
    ensures a == b
  {
  }

  lemma StoredUpToAppend(m: Model, env: Env, a: seq<Sample>, outA: seq<Sample>, b: seq<Sample>, outB: seq<Sample>, field: string)
    requires |outA| == |a| && StoredUpTo(m, env, Image, a, outA, |a|, field)
    requires |outB| == |b| && StoredUpTo(m, env, Image, b, outB, |b|, field)
    ensures StoredUpTo(m, env, Image, a + b, outA + outB, |a| + |b|, field)
  {
    assert forall i :: |a| <= i < |a| + |b| ==> (a + b)[i] == b[i - |a|] && (outA + outB)[i] == outB[i - |a|];
  }

  /** With a field, a concatenating `embed_all` and one-row embeddings, one
      batch stores in each sample the row the single-item path would store,
      and saves the batch in order. */
  lemma EmbedBatchStores(m: Model, env: Env, b: seq<Sample>, field: Option<string>)
    requires HasConcatenatingEmbedAll(m) && EmbedsOneRow(m) && Truthy(field) && |b| > 0
    ensures var p := EmbedBatch(m, env, b, field);
      && (p.error.None? <==> AllEmbed(m, env, Image, b))
      && (p.error.None? ==> StoredUpTo(m, env, Image, b, p.samples, |b|, field.value) && Saved(p.trace) == Ids(b))
  {
    if LoadImages(env, b).Success? {
      var imgs := LoadImages(env, b).value;
      BatchEmbeddings(m, env, b);
      assert m.embedAll(imgs) == ConcatenatedEmbeddings(m.embed, imgs);
      if AllEmbed(m, env, Image, b) {
        EmbedBatchStoresRows(m, env, b, field);
      }
    } else {
      UnloadableBatch(m, env, b);
    }
  }

  /** A batch whose samples all embed stores each sample's row and saves the
      batch in order. */
  lemma EmbedBatchStoresRows(m: Model, env: Env, b: seq<Sample>, field: Option<string>)
    requires HasConcatenatingEmbedAll(m) && EmbedsOneRow(m) && Truthy(field) && |b| > 0
    requires LoadImages(env, b).Success? && AllEmbed(m, env, Image, b)
    ensures var p := EmbedBatch(m, env, b, field);
      p.error.None? && StoredUpTo(m, env, Image, b, p.samples, |b|, field.value) && Saved(p.trace) == Ids(b)
  {
    var imgs := LoadImages(env, b).value;
    BatchEmbeddings(m, env, b);
    assert m.embedAll(imgs) == ConcatenatedEmbeddings(m.embed, imgs);
    var es := EmbeddingsOf(m, env, Image, b);
    JoinRowsOfSingletons(es);
    var rows := JoinRows(es);
    var p := EmbedBatch(m, env, b, field);
    assert p == Progress(ZipStore(b, rows, field.value), [Infer(|b|)] + SaveEvents(b[..|b|]), |b|, [], None);
    StoreRows(m, env, b, rows, field.value);
    assert b[..|b|] == b;
    SavedAppend([Infer(|b|)], SaveEvents(b));
    SavedInferSave(|b|, "");
  }

  /** Storing the first rows of the samples' one-row embeddings stores what
      the single-item path stores. */
  lemma StoreRows(m: Model, env: Env, b: seq<Sample>, rows: seq<NdArray>, field: string)
    requires EmbedsOneRow(m) && AllEmbed(m, env, Image, b)
    requires |rows| == |b| && forall i :: 0 <= i < |b| ==> rows[i] == EmbeddingsOf(m, env, Image, b)[i].items[0]
    ensures StoredUpTo(m, env, Image, b, ZipStore(b, rows, field), |b|, field)
  {
    forall i | 0 <= i < |b|
      ensures StoredEmbedding(m, env, Image, b[i]) == Success(rows[i])
    {
      assert EmbedOne(m, env, Image, b[i]).value == EmbeddingsOf(m, env, Image, b)[i];
    }
  }

  /** With a field, the batches store, sample by sample, what the single-item
      path stores, and save every sample in order. */
  lemma {:induction false} EmbedBatchesStore(m: Model, env: Env, batches: seq<seq<Sample>>, field: Option<string>)
    requires HasConcatenatingEmbedAll(m) && EmbedsOneRow(m) && Truthy(field)
    requires forall g :: 0 <= g < |batches| ==> |batches[g]| > 0
    ensures var p := EmbedBatches(m, env, batches, field);
      && (p.error.None? <==> AllEmbed(m, env, Image, Flatten(batches)))
      && (p.error.None? ==>
            && StoredUpTo(m, env, Image, Flatten(batches), p.samples, |Flatten(batches)|, field.value)
            && Saved(p.trace) == Ids(Flatten(batches)))
    decreases |batches|
  {
    if batches != [] {
      var b := batches[0];
      var rest := Flatten(batches[1..]);
      assert Flatten(batches) == b + rest;
      var head := EmbedBatch(m, env, b, field);
      EmbedBatchStores(m, env, b, field);
      AllEmbedAppend(m, env, b, rest);
      if head.error.None? {
        var tail := EmbedBatches(m, env, batches[1..], field);
        EmbedBatchesStore(m, env, batches[1..], field);
        if tail.error.None? {
          StoredUpToAppend(m, env, b, head.samples, rest, tail.samples, field.value);
          SavedAppend(head.trace, tail.trace);
          IdsAppend(b, rest);
        }
      }
    }
  }

  /** With a field, a concatenating `embed_all` and one-row embeddings, the
      batched path succeeds exactly when the single-item path does, and then
      leaves every sample with the same embedding, saved in the same order. */
  lemma EmbedBatchedStores(m: Model, env: Env, ss: seq<Sample>, n: nat, field: Option<string>)
    requires n >= 1 && HasConcatenatingEmbedAll(m) && EmbedsOneRow(m) && Truthy(field)
    ensures var single := EmbedSingle(m, env, Image, ss, field);
      var batched := EmbedBatched(m, env, ss, n, field);
      && (batched.result.Success? <==> single.result.Success?)
      && (single.result.Success? ==>
            && batched.result == single.result == Success(None)
            && batched.samples == single.samples
            && Saved(batched.trace) == Saved(single.trace) == Ids(ss))
  {
    var ps := EmbedEach(m, env, Image, ss, field);
    var pb := EmbedBatches(m, env, Chunks(ss, n), field);
    SingleStoresAll(m, env, ss, field);
    EmbedBatchesStore(m, env, Chunks(ss, n), field);
    if ps.error.None? {
      StoredUpToUnique(m, env, ss, ps.samples, pb.samples, field.value);
    }
  }

  /** With a field and one-row embeddings, the single-item loop gets through
      every sample exactly when every sample embeds. */
  lemma SingleStoresAll(m: Model, env: Env, ss: seq<Sample>, field: Option<string>)
    requires EmbedsOneRow(m) && Truthy(field)
    ensures var p := EmbedEach(m, env, Image, ss, field);
      && (p.error.None? <==> AllEmbed(m, env, Image, ss))
      && (p.error.None? ==> StoredUpTo(m, env, Image, ss, p.samples, |ss|, field.value) && Saved(p.trace) == Ids(ss))
  {
    var p := EmbedEach(m, env, Image, ss, field);
    EmbedEachStores(m, env, Image, ss, field);
    EmbedEachSaves(m, env, Image, ss, field);
    if p.error.Some? {
      assert EmbedOne(m, env, Image, ss[p.processed]).Failure?;
    } else {
      assert ss[..p.processed] == ss;
    }
  }

  /** A model whose `embed` returns the `(1, 1)` array `[[1.0]]` for every
      input and which keeps the default `embed_all` as written. */
  function UnitEmbed(x: Input): Result<NdArray, Error>
  {
    Success(Axis([Axis([Scalar(1.0)])]))
  }

  function StackingModel(): Model
  {
    Model(false, false, true, true, x => Success(Missing), xs => TryMap(x => Success(Missing), xs),
          UnitEmbed, xs => StackedEmbeddings(UnitEmbed, xs))
  }

  /** An environment in which every image decodes. */
  function DecodingEnv(): Env
  {
    Env(path => Success(Scalar(0.0)), path => Success(VideoReader(path)), (fields, v, name, thresh) => fields,
        (img, d, square, alpha) => img, (pl: Polyline) => Detection(pl.classLabel, []), pls => [], None)
  }

  /** With the default `embed_all` as written, one sample and batch size 1
      already tell the paths apart: the single-item path stores the row
      `[1.0]` and returns the `(1, 1)` array `[[1.0]]`, while the batched path
      stores the whole `(1, 1)` embedding and returns a `(1, 1, 1)` array. */
  lemma StackedEmbedAllDiverges()
    ensures HasStackingEmbedAll(StackingModel()) && EmbedsOneRow(StackingModel())
    ensures var ss := [Sample("a", "a.jpg", map[])];
      && Get(EmbedSingle(StackingModel(), DecodingEnv(), Image, ss, Some("embedding")).samples[0], "embedding")
           == ArrayValue(Axis([Scalar(1.0)]))
      && Get(EmbedBatched(StackingModel(), DecodingEnv(), ss, 1, Some("embedding")).samples[0], "embedding")
           == ArrayValue(Axis([Axis([Scalar(1.0)])]))
      && EmbedSingle(StackingModel(), DecodingEnv(), Image, ss, None).result
           == Success(Some(Axis([Axis([Scalar(1.0)])])))
      && EmbedBatched(StackingModel(), DecodingEnv(), ss, 1, None).result
           == Success(Some(Axis([Axis([Axis([Scalar(1.0)])])])))
  {
    var ss := [Sample("a", "a.jpg", map[])];
    StackedSingleStoresRow(ss);
    StackedBatchedStoresEmbedding(ss);
    StackedSingleReturnsRows(ss);
    StackedBatchedReturnsStack(ss);
  }

  lemma UnitSample(s: Sample)
    ensures LoadImages(DecodingEnv(), [s]).value == [Pixels(Scalar(0.0))]
    ensures EmbedOne(StackingModel(), DecodingEnv(), Image, s) == Success(Axis([Axis([Scalar(1.0)])]))
    ensures StackingModel().embedAll([Pixels(Scalar(0.0))]) == Success(Axis([Axis([Axis([Scalar(1.0)])])]))
  {
    var img := Pixels(Scalar(0.0));
    assert LoadInput(DecodingEnv(), Image, s) == Success(img);
    assert UnitEmbed(img) == Success(Axis([Axis([Scalar(1.0)])]));
    assert TryMap(UnitEmbed, [img]).value == [Axis([Axis([Scalar(1.0)])])];
  }

  lemma StackedSingleStoresRow(ss: seq<Sample>)
    requires ss == [Sample("a", "a.jpg", map[])]
    ensures Get(EmbedSingle(StackingModel(), DecodingEnv(), Image, ss, Some("embedding")).samples[0], "embedding")
      == ArrayValue(Axis([Scalar(1.0)]))
  {
    UnitSample(ss[0]);
    EmbedEachStores(StackingModel(), DecodingEnv(), Image, ss, Some("embedding"));
  }

  lemma StackedBatchedStoresEmbedding(ss: seq<Sample>)
    requires ss == [Sample("a", "a.jpg", map[])]
    ensures Get(EmbedBatched(StackingModel(), DecodingEnv(), ss, 1, Some("embedding")).samples[0], "embedding")
      == ArrayValue(Axis([Axis([Scalar(1.0)])]))
  {
    UnitSample(ss[0]);
    assert Chunks(ss, 1) == [ss];
    assert Flatten<Sample>([]) == [];
    var p := EmbedBatch(StackingModel(), DecodingEnv(), ss, Some("embedding"));
    assert p.samples == ZipStore(ss, [Axis([Axis([Scalar(1.0)])])], "embedding");
  }

  lemma StackedSingleReturnsRows(ss: seq<Sample>)
    requires ss == [Sample("a", "a.jpg", map[])]
    ensures EmbedSingle(StackingModel(), DecodingEnv(), Image, ss, None).result == Success(Some(Axis([Axis([Scalar(1.0)])])))
  {
    UnitSample(ss[0]);
    EmbedSingleInMemory(StackingModel(), DecodingEnv(), Image, ss, None);
    var es := EmbeddingsOf(StackingModel(), DecodingEnv(), Image, ss);
    assert es == [Axis([Axis([Scalar(1.0)])])];
    assert JoinRows(es) == [Axis([Scalar(1.0)])];
  }

  lemma StackedBatchedReturnsStack(ss: seq<Sample>)
    requires ss == [Sample("a", "a.jpg", map[])]
    ensures EmbedBatched(StackingModel(), DecodingEnv(), ss, 1, None).result == Success(Some(Axis([Axis([Axis([Scalar(1.0)])])])))
  {
    UnitSample(ss[0]);
    assert Chunks(ss, 1) == [ss];
    assert Flatten<Sample>([]) == [];
    var head := EmbedBatch(StackingModel(), DecodingEnv(), ss, None);
    assert head.kept == [Axis([Axis([Axis([Scalar(1.0)])])])] && head.error.None?;
    var batches := [ss];
    assert batches[0] == ss && batches[1..] == [];
    assert EmbedBatches(StackingModel(), DecodingEnv(), [], None).kept == [];
    var p := EmbedBatches(StackingModel(), DecodingEnv(), batches, None);
    assert p.error.None? && p.kept == head.kept + [];
    assert JoinRows(p.kept) == [Axis([Axis([Scalar(1.0)])])];
  }
}
