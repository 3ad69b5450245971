# FiftyOne model application and VOC detection I/O, in Dafny

This project models two parts of FiftyOne.

The first is how a model is run over a sample collection (`fiftyone/core/models.py`):

- `apply_model` predicts a label for every sample and stores it in a label field.
- `compute_embeddings` stores an embedding on every sample, or returns all the embeddings as one array.
- `compute_patch_embeddings` embeds the image patches that a detection or polyline field cuts out of each sample.
- These are routed through `_parse_batch_size`, the single-item and batched loops, and the default `predict_all` and `embed_all` of `Model` and `EmbeddingsMixin`. The default `embed` is abstracted to the predicate `EmbedsOneRow` (see "Left out").
- `load_model` merges keyword arguments into the model config with `_merge_config`.

The second is PASCAL VOC detection I/O (`fiftyone/utils/voc.py`):

- parsing an annotation into `[x, y, w, h]` boxes (`_parse_label`);
- building and serialising `VOCObject`s (`from_detection`, `to_dict`);
- the geometry `write_annotation` hands to its XML template;
- the file names `export_voc_detection_dataset` gives to exported images and annotations.

## How it is modelled

Everything is a pure function over immutable data.

- **Samples.** A sample is an id, a file path and a map of fields (`Samples`).
- **Results.** A Python exception is a `Failure` of the `Result` type, carrying an `Error` (`ValueError`, `TypeError`, `KeyError`, …).
- **Runs.** A run returns the samples as they are afterwards, a trace of events and the call's result. The events are entering the model context, an inference, saving sample `id`, and leaving the context. Because the trace is returned, "which samples were saved, in what order" is something the lemmas can state.
- **Models.** A model is a record holding its capability flags and its `predict`, `predict_all`, `embed` and `embed_all` as functions. The source's default `predict_all` and `embed_all` are predicates on that record: `HasDefaultPredictAll` and `HasStackingEmbedAll`.
- **The outside world.** Image decoding, video readers, `add_labels`, patch extraction, polyline conversion and `fo.config.default_batch_size` come in as the `Env` record.
- **Arrays.** numpy arrays are `NdArray`, either a scalar or an axis of sub-arrays. `np.concatenate` joins the rows of its arguments; `np.stack` adds an axis.
- **Batching.** `fou.iter_batches` is `Chunks`.

The loops of the three entry points share one generic loop, `SampleLoops.EachSample`. It stops at the first sample whose step raises.

## Model

| member | source | states |
|---|---|---|
| Capabilities.ParseBatchSize | fiftyone/core/models.py:401-409 | The requested batch size wins over the configured default. The result is `None` exactly when neither is set, or when a ragged-batch model gets a size above 1. Otherwise the size is passed on unchanged. |
| Capabilities.Route | fiftyone/core/models.py:46-70 | Video collections take the video path. Torch image models take the data-loader path. Other image models take the batched path exactly when `_parse_batch_size` gives a size, and that size is the one used. |
| Capabilities.EmbeddingsCheck | fiftyone/core/models.py:142-149 | Embedding is allowed exactly when the model implements the mixin and reports `has_embeddings`. |
| Capabilities.StackedEmbeddings | fiftyone/core/models.py:605-618 | The default `embed_all` succeeds exactly when there is an input and every `embed` succeeds. It returns one new axis holding the embeddings in input order. |
| Capabilities.ConcatenatedEmbeddings | fiftyone/core/models.py:605-618 | The corrected `embed_all` returns the rows of all the embeddings in input order. It fails on no input or on a 0-d embedding. |
| Capabilities.LoadImages | fiftyone/core/models.py:204 | Decoding a batch succeeds exactly when every image decodes, and then yields the images in order. |
| Capabilities.InContext | fiftyone/core/models.py:176-177 | The model context wraps the loop: entered before it, left after it, saving nothing itself. |
| SampleLoops.EachSampleSteps | fiftyone/core/models.py:73-83 | A per-sample loop applies its step to every sample up to the first one that raises. It leaves the rest untouched and reports that sample's error. |
| SampleLoops.EachSampleSaves | fiftyone/core/models.py:81-83 | When every successful step saves its own sample, the loop saves exactly the processed samples, in order. |
| ApplyModel.ApplyEachLabels | fiftyone/core/models.py:73-83 | The single-item loop labels each sample it gets through with its own prediction and leaves the others as they were. A failure is the first failing sample's prediction error, since `add_labels` and `save()` are taken not to raise (see "Left out"). |
| ApplyModel.ApplyEachSaves | fiftyone/core/models.py:73-83 | The single-item loop saves exactly the samples it labelled, in collection order. |
| ApplyModel.ApplyBatchLabels | fiftyone/core/models.py:86-103 | With the default `predict_all`, one batch labels every sample with its own prediction. If it raises, some sample of the batch fails to predict, since `add_labels` and `save()` are taken not to raise (see "Left out"). |
| ApplyModel.ApplyBatchesShape | fiftyone/core/models.py:89-103 | The batched loop keeps every sample's id and path and leaves the samples after the stopping point unchanged. |
| ApplyModel.ApplyBatchesLabels | fiftyone/core/models.py:86-103 | Over all batches, the samples processed are labelled with their own predictions. A failure means some sample at or after the stopping point fails to predict, since `add_labels` and `save()` are taken not to raise (see "Left out"). |
| ApplyModel.ApplyBatchesSaves | fiftyone/core/models.py:86-103 | The batched loop saves exactly the processed samples, in collection order. |
| ApplyModel.LoopsAgree | fiftyone/core/models.py:73-103 | For any batch size, the batched and single loops both finish or both stop. When they finish, the samples and saves are identical. Each sample ends either as the single loop leaves it or untouched. |
| ApplyModel.BatchedMatchesSingle | fiftyone/core/models.py:73-103 | `_apply_image_model_batch` with the default `predict_all` is observationally `_apply_image_model_single`: the same success, the same labelled samples, and the same saves, whatever the batch size. |
| ApplyModel.ApplyModelTo | fiftyone/core/models.py:31-70 | `apply_model` never rejects a model. It defers to the Torch path, or to `iter_batches` for a size below 1. Video collections run the video loop, and image collections run the batched or single loop as `_parse_batch_size` decides. |
| Embeddings.EmbedEachStores | fiftyone/core/models.py:173-191 | With a field, the single loop stores each processed sample's first embedding row, keeps nothing and stops at the first failure. |
| Embeddings.EmbedEachSaves | fiftyone/core/models.py:173-191 | The single loop saves the processed samples in order with a field, and nothing without one. |
| Embeddings.EmbedEachKeeps | fiftyone/core/models.py:173-191 | Without a field, the single loop writes nothing and keeps each sample's embedding, in order. |
| Embeddings.ComputeEmbeddings | fiftyone/core/models.py:119-170 | The capability checks reject a model before anything runs. Torch models and sizes below 1 defer. Otherwise the batched loop runs exactly when `_parse_batch_size` gives a size, and the single or video loop runs when it does not. |
| EmbeddingsBatched.EmbedSingleInMemory | fiftyone/core/models.py:173-191 | Without a field, the single path returns the rows of all embeddings in sample order and saves nothing. It fails on an empty collection with numpy's "need at least one array to concatenate". |
| EmbeddingsBatched.EmbedBatchInMemory | fiftyone/core/models.py:199-216 | With the corrected `embed_all`, one batch keeps the concatenation of its samples' embeddings. It fails exactly when one of them raises or is 0-d. |
| EmbeddingsBatched.EmbedBatchesInMemory | fiftyone/core/models.py:194-221 | Over all batches, the arrays kept hold, in order, the rows of every sample's embedding. |
| EmbeddingsBatched.EmbedBatchedInMemory | fiftyone/core/models.py:173-221 | Without a field and with the corrected `embed_all`, the batched path returns exactly what the single path returns, for every batch size. |
| EmbeddingsBatched.EmbedSingleRowPerSample | fiftyone/core/models.py:137-140 | When `embed` returns one row per input, the single path without a field returns an array whose first dimension is the number of samples. Row i is what the loop would store on sample i. This happens exactly when the collection is not empty and every sample embeds. |
| EmbeddingsBatched.EmbedBatchedRowPerSample | fiftyone/core/models.py:137-140 | The batched path with the corrected `embed_all` returns one row per sample in the same way, for every batch size. |
| EmbeddingsBatched.ComputeEmbeddingsRowPerSample | fiftyone/core/models.py:119-170 | Without a field, whenever `compute_embeddings` runs here and succeeds, it returns an array with one row per sample. This holds on the single, video and batched routes (the batched one with the corrected `embed_all`). |
| EmbeddingsBatched.EmbedBatchStores | fiftyone/core/models.py:199-213 | With a field, one batch stores on each sample the same row the single path stores, and saves the batch in order. |
| EmbeddingsBatched.EmbedBatchesStore | fiftyone/core/models.py:194-221 | Over all batches, the batched loop finishes exactly when every sample embeds, and then stores and saves as the single path does. Storing the field and `save()` are taken not to raise (see "Left out"). |
| EmbeddingsBatched.EmbedBatchedStores | fiftyone/core/models.py:173-221 | With a field, the batched path succeeds exactly when the single path does. It then leaves identical samples and identical saves. |
| EmbeddingsBatched.StackedEmbedAllDiverges | fiftyone/core/models.py:618 | With the default `embed_all` as written, one sample at batch size 1 gets a different stored value and a different returned shape on the batched path than on the single path. |
| PatchEmbeddings.ParsePatchesConverts | fiftyone/core/models.py:373-388 | Only detections, a detection, a polyline or polylines define patches. Detections give their own list, a detection the one-element list holding it, a polyline the one-element list of its `to_detection()`, and polylines their `to_detections()`. Storing the resulting list back as detections parses to the same patches. |
| PatchEmbeddings.EmbedPatchesSingleRows | fiftyone/core/models.py:348-355 | `_embed_patches_single` returns the rows of every patch embedding in detection order. It fails when there is no patch or one does not embed. |
| PatchEmbeddings.ChunkRows | fiftyone/core/models.py:358-370 | The batch arrays of `_embed_patches_batch` hold, in order, the rows of every patch embedding. |
| PatchEmbeddings.PatchBatchMatchesSingle | fiftyone/core/models.py:348-370 | With the corrected `embed_all`, the batched patch path succeeds exactly when the single one does and returns the same array, for every batch size. |
| PatchEmbeddings.PatchStep | fiftyone/core/models.py:319-343 | A sample without patches is skipped with no model call. Otherwise the iteration fails exactly when its patch embedding fails; `_extract_patch`, storing the field and `save()` are taken not to raise (see "Left out"). On success it records one inference per `embed` call (single path) or per `embed_all` batch, then stores and saves with a field or keeps the array without one. It saves exactly its own sample, and only with a field. |
| PatchEmbeddings.PatchEachSucceeds | fiftyone/core/models.py:319-343 | The loop gets through all samples exactly when every sample with patches embeds them. Otherwise it stops at one that has patches and fails. `_extract_patch`, storing the field and `save()` are taken not to raise (see "Left out"). |
| PatchEmbeddings.PatchEachWrites | fiftyone/core/models.py:319-343 | With a field, the loop stores the patch embeddings of every processed sample that has patches. It leaves samples without patches, and all samples after the stopping point, unchanged. |
| PatchEmbeddings.PatchDictKeys | fiftyone/core/models.py:319-345 | Without a field, the returned dict has exactly the ids of the samples that have patches. |
| PatchEmbeddings.PatchDictValues | fiftyone/core/models.py:319-345 | Without a field, each id maps to the patch embeddings of the sample holding it. |
| PatchEmbeddings.ComputePatchEmbeddings | fiftyone/core/models.py:245-345 | The checks run in the source's order. Video collections are rejected first, then models without the mixin or without embeddings. Torch models then defer, before the patches field is validated. A patches field that fails validation is rejected next, and a size below 1 defers after that. Otherwise the patch loop runs with the size `_parse_batch_size` gives. |
| ModelConfigs.MergeEntry | fiftyone/core/models.py:468-473 | A keyword updates an existing dict entry, with incoming keys winning and other keys kept. Any other entry is replaced. Updating a dict from a non-dict raises. |
| ModelConfigs.MergeKeepsOthers | fiftyone/core/models.py:468-473 | Names that are not keywords keep their entries, even when the merge raises part-way. |
| ModelConfigs.MergeSucceeds | fiftyone/core/models.py:468-473 | With distinct keywords, the merge succeeds exactly when every single keyword merges. |
| ModelConfigs.MergeEntries | fiftyone/core/models.py:468-473 | After a successful merge, each keyword's name holds what that keyword makes of the original entry. |
| ModelConfigs.MergeIdempotent | fiftyone/core/models.py:468-473 | Merging the same keywords a second time changes nothing. |
| ModelConfigs.MergeInto | fiftyone/core/models.py:429-433 | Merging into `parent[key]` raises `KeyError` when the key is missing. It changes nothing outside `key`, and leaves the merged dict under `key`. |
| ModelConfigs.InjectKwargs | fiftyone/core/models.py:429-433 | Without keywords the config is untouched. Non-ETA models merge into `config`, and nothing outside `config` changes. |
| Decimal.ParseDecimal | fiftyone/utils/voc.py:115-118 | `int()` reads back exactly the number `"%d"` wrote. |
| Decimal.DecimalInjective | fiftyone/utils/voc.py:254-257 | Distinct counts give distinct `"-%d"` suffixes. |
| VocParse.Subscript | fiftyone/utils/voc.py:106 | `target["annotation"]` succeeds exactly on a dict holding the key, and is `KeyError` on a dict without it. |
| VocParse.ToInt | fiftyone/utils/voc.py:115-118 | `int()` passes integers through and reads signed decimal text. It fails on anything else. |
| VocParse.ObjectList | fiftyone/utils/voc.py:106-110 | A missing `object` entry is the empty list, and a lone object is wrapped in a list. |
| VocParse.ConvertObject | fiftyone/utils/voc.py:113-124 | An object converts exactly when its four corners and name read. It then gives its name as label and the box whose corners are the ones read. |
| VocParse.ParseLabelConverts | fiftyone/utils/voc.py:102-128 | Parsing yields one object per entry of the object list, in order, each with its name and converted box. It fails exactly when an entry does not convert. |
| VocParse.MissingObjectsEmpty | fiftyone/utils/voc.py:106 | An annotation without objects parses to no objects. |
| VocParse.SingleObjectWrapped | fiftyone/utils/voc.py:108-110 | A lone object parses exactly as the one-element list holding it. |
| VocExport.ToDict | fiftyone/utils/voc.py:188-203 | The name and corners are kept. Each falsy pose, truncated or difficult becomes `""`, and any other value is kept. |
| VocExport.ToDictRoundTrip | fiftyone/utils/voc.py:188-203 | `to_dict` loses only the difference between falsy flags, and is idempotent. |
| VocExport.FromDetection | fiftyone/utils/voc.py:166-186 | A detection converts exactly when its box has four values. It keeps its label, and the optional flags stay `None`. |
| VocExport.FromDetectionCorners | fiftyone/utils/voc.py:179-184 | With a monotone rounding, boxes of non-negative size give ordered corners and zero-size boxes give equal corners. A zero width (height) puts both x (y) corners at `round(0)`. |
| VocExport.FromDetectionAxes | fiftyone/utils/voc.py:179-184 | The x corners scale by the width alone and the y corners by the height alone: changing the other dimension leaves them unchanged. |
| VocExport.WriteAnnotationGeometry | fiftyone/utils/voc.py:224-231 | Height and width are the first two image dimensions, and depth defaults to 1. Every detection becomes one object dict, in order, with the `(width, height)` frame size. |
| VocExport.AnnotationRoundTrip | fiftyone/utils/voc.py:215-231 | An annotation written by `write_annotation` parses back to one object per detection, with the detection's label and the pixel box `from_detection` computed. |
| VocNames.SplitExt | fiftyone/utils/voc.py:281 | `splitext` splits a base name into a stem and an extension that concatenate back to it. A non-empty extension is a dot followed by no other dot, and the stem then has a character other than a dot. |
| VocNames.SplitExtAtLastDot | fiftyone/utils/voc.py:281 | There is an extension exactly when the last dot comes after the leading dots, and the name is then cut at that last dot. So a name whose only dots are leading has no extension, and `.tar.gz` gives `.tar` and `.gz`. |
| VocNames.ExportNamesAsWrittenAgrees | fiftyone/utils/voc.py:278-287 | The loop visits the paths only up to the number of labels, as `zip` stops at the shorter input. The export naming as written succeeds exactly when no stem (base name without extension) repeats among the visited paths. It then agrees with the intended naming, and otherwise raises `TypeError`. |
| VocNames.OneLabelNeverRaises | fiftyone/utils/voc.py:280 | With at most one label, the loop visits at most one image, so repeated stems among later paths never raise. |
| VocNames.RepeatedNameRaises | fiftyone/utils/voc.py:286 | Two images named `a.jpg` make the loop as written raise, where the intended names are `a.jpg` and `a-2.jpg`. Since the counter is keyed by the stem, `a.jpg` followed by `a.png` raises too. |
| VocNames.ExportNamesIntended | fiftyone/utils/voc.py:254-257 | Among the images that have a label, the k-th one with a given stem gets the suffix `-k` for k above 1, and keeps its stem for k = 1. |
| VocNames.FirstKeepsName | fiftyone/utils/voc.py:254-257 | A file keeps its stem exactly when no earlier file has the same stem. |
| VocNames.CountsIncrease | fiftyone/utils/voc.py:280-283 | Later files with the same stem get strictly larger counts. |
| VocNames.SameNameDistinctFiles | fiftyone/utils/voc.py:254-287 | Two exported files with the same stem get different annotation names, and different image names when their extensions agree. |
| VocNames.SuffixCanCollide | fiftyone/utils/voc.py:254-257 | Even the intended scheme gives the second `a.jpg` and a file already called `a-2.jpg` the same exported name. |

## Findings

| source | as written | input that shows it | evidently intended | confidence | as-written member | corrected member |
|---|---|---|---|---|---|---|
| fiftyone/utils/voc.py:286 | `name += "-%d" + count` adds a `str` to an `int`, so the second image with an already-seen stem (base name without extension) raises `TypeError` | image paths `a.jpg`, `a.jpg` with two labels | the docstring's `"-%d" % count` suffix: `a.jpg`, `a-2.jpg` | not executed; high | VocNames.ExportNamesAsWritten | VocNames.ExportNames |
| fiftyone/core/models.py:618 | the default `embed_all` uses `np.stack`, so an `embed` result of shape `(1, d)` becomes `(n, 1, d)`. The batched path then stores the whole `(1, d)` array where the single path stores row 0, and returns shape `(N, 1, d)` where the single path returns `(N, d)` | one sample, batch size 1, `embed` returning `[[1.0]]` | the batched embedding path agrees with the single path for every batch size: `embed_all` concatenates the per-input embeddings | not executed; medium | EmbeddingsBatched.StackedEmbedAllDiverges | EmbeddingsBatched.EmbedBatchedStores |

Notes on the findings:

- **First finding.** The lemmas are:
  - `VocNames.ExportNamesAsWrittenAgrees` describes the code as written.
  - `VocNames.RepeatedNameRaises` is the concrete counterexample.
  - `VocNames.ExportNamesIntended` and `VocNames.SameNameDistinctFiles` prove the intended scheme.
- **Second finding.** The stacking behaviour is `Capabilities.StackedEmbeddings`, and `Capabilities.ConcatenatedEmbeddings` is the corrected one.
  - The batched lemmas assume the corrected behaviour: `EmbedBatchedStores`, `EmbedBatchedInMemory` and `PatchBatchMatchesSingle`.
  - The finding is marked medium because the docstring of `embed_all` does say "stacked along axis 0". The mismatch only shows for models whose `embed` returns a leading axis of length 1, which is the shape `_compute_image_embeddings_single` expects when it stores `embedding[0]`.

## Left out

- Everything outside the model:
  - progress bars and the `with model:` context are reduced to trace events;
  - image and video decoding, `etai.read`, `add_labels`, `_extract_patch` and the polyline conversions are parameters in `Env`. Decoding and reading can fail; `add_labels`, `_extract_patch` and the polyline conversions are total functions here, so the model cannot express them raising;
  - `sample.save()` is a trace event and not a database write.
- The Torch data-loader paths (`fiftyone.utils.torch`) are not part of this model. `apply_model`, `compute_embeddings` and `compute_patch_embeddings` report `External(TorchPath)` there.
- A batch size below 1 is passed to `iter_batches`, whose behaviour is not part of this model. It is reported as `External(BatchPath(n))`. For `compute_patch_embeddings` this is coarser than the source: there `iter_batches` is reached only for samples that have patches, so a collection with no patches finishes normally, while the model still reports `External(BatchPath(n))`.
- `compute_patch_embeddings` validates the patches field against the collection's schema. The outcome of that validation (`validate_collection_label_fields`) is the `schemaError` parameter.
- `load_model`:
  - building the model from the config (`ModelConfig.from_dict`, `build`) is left out;
  - the `model_path` injection and its download (lines 436-465) are left out;
  - only the keyword injection and `_merge_config` are modelled.
- ModelConfigs.MergeEntry: `dict.update` also accepts an iterable of key/value pairs. The model raises `TypeError` for every non-dict instead, because configs hold JSON values, where a list of pairs does not occur.
- ModelConfigs.InjectKwargs: the ETA branch is modelled, but its contract states only what happens outside `config`. The nested result is stated by `MergeInto`.
- VocExport.FromDetectionCorners: Python's `round` on floats is the parameter `round`, assumed monotone. Float arithmetic is exact real arithmetic here.
- VocExport.FromDetection: a detection's label is a string, so a `None` label, which `from_detection` would pass through as the object name, cannot be represented.
- The default `EmbeddingsMixin.embed` (`predict` followed by `get_embeddings`) is not modelled. `get_embeddings` reads model state that is not part of this model. The lemmas that need `embed` to return one row per input assume it through the predicate `EmbedsOneRow`.
- Capabilities.StackedEmbeddings, Capabilities.ConcatenatedEmbeddings, EmbeddingsBatched.EmbedSingleInMemory and EmbeddingsBatched.EmbedBatchInMemory: their if-and-only-if holds only for embeddings of consistent shape. numpy's shape-mismatch errors in `np.stack` and `np.concatenate` are not modelled, so the model lets arrays of differing shapes join.
- PatchEmbeddings.PatchStep: for an iteration that raises, the trace does not record which of its model calls ran before the exception. `_extract_patch`, the polyline conversions, the field assignment `sample[embeddings_field] = ...` and `sample.save()` are taken not to raise, so "fails exactly when its patch embedding fails" holds only under that assumption.
- ApplyModel.ApplyEachLabels: `sample.add_labels` and `sample.save()` are taken not to raise. In the source they can (for example a validation error when the label field already holds another label type), and that error would stop the loop. So "a failure is the first failing sample's prediction error" holds only under that assumption.
- ApplyModel.ApplyBatchLabels: `add_labels` and `save()` are taken not to raise, so "if it raises, some sample fails to predict" holds only under that assumption.
- ApplyModel.ApplyBatchesLabels: `add_labels` and `save()` are taken not to raise, so the failure clause holds only under that assumption.
- EmbeddingsBatched.EmbedBatchesStore: the field assignment `sample[embeddings_field] = ...` and `sample.save()` are taken not to raise, so "finishes exactly when every sample embeds" holds only under that assumption. The same holds for every other embedding loop lemma that stores and saves.
- PatchEmbeddings.PatchEachSucceeds: `_extract_patch`, the polyline conversions, the field assignment and `save()` are taken not to raise, so the if-and-only-if holds only under that assumption.
- VocParse.ToInt:
  - `int()` on a string does not accept surrounding whitespace, underscores or non-ASCII decimal digits here;
  - `int()` of a float value is left out, since the XML loader yields strings;
  - error messages are abbreviated.
- Reading XML: `load_xml_as_json_dict` is the `load` parameter of `ParseLabel`. The jinja2 template is described by `VocExport.ReadBack`, which is this model's reading of what the template writes. The template file is not part of this model.
- The superclass `_parse_label` that turns pixel boxes into `Detections` is not part of this model. `VocParse.ParseLabel` returns the list it receives.
- `write_annotation`'s `path`, `filename`, `folder`, `database` and `segmented` template fields are not modelled, and neither is the file it writes.
- `export_voc_detection_dataset`: copying the images and writing the annotations are left out. Only the names chosen for them are modelled.
- Video samples and `_apply_video_model` (frame labels):
  - the frame loop is one `predict` call on the video reader;
  - releasing the reader is not modelled.
