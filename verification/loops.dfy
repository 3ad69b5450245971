/** The loop shared by the single-item and video executors: each sample is
    handled completely before the next, and the first exception ends the loop
    with the earlier samples already written. */
module SampleLoops {
  import opened Wrappers
  import opened Errors
  import opened NdArrays
  import opened Samples
  import opened Capabilities

  /** What one sample contributes once its iteration completes: the sample as
      written back, its events, and what is kept in memory. */
  datatype Step = Step(sample: Sample, trace: seq<Event>, kept: seq<NdArray>)

  /** The events of a sample whose iteration raised: an inference was
      attempted only once its input had loaded. */
  function Attempted(env: Env, media: MediaType, s: Sample): (r: seq<Event>)
    ensures Saved(r) == []
    ensures LoadInput(env, media, s).Failure? ==> r == []
  {
    if LoadInput(env, media, s).Success? then [Infer(1)] else []
  }

  function Attempts(env: Env, media: MediaType): Sample -> seq<Event>
  {
    s => Attempted(env, media, s)
  }

  /** Runs `step` on each sample in order until one raises. */
  function EachSample(step: Sample -> Result<Step, Error>, attempted: Sample -> seq<Event>, ss: seq<Sample>): (p: Progress)
    ensures |p.samples| == |ss| && p.processed <= |ss|
    ensures p.error.None? <==> p.processed == |ss|
    decreases |ss|
  {
    if ss == [] then Progress([], [], 0, [], None)
    else
      match step(ss[0])
      case Failure(e) => Progress(ss, attempted(ss[0]), 0, [], Some(e))
      case Success(st) =>
        var rest := EachSample(step, attempted, ss[1..]);
        Progress([st.sample] + rest.samples, st.trace + rest.trace, rest.processed + 1, st.kept + rest.kept, rest.error)
  }

  /** The loop writes back what each completed step produced, leaves the
      remaining samples as they were, and stops at the first step that
      raises, with that step's exception. */
  lemma {:induction false} EachSampleSteps(step: Sample -> Result<Step, Error>, attempted: Sample -> seq<Event>, ss: seq<Sample>)
    ensures var p := EachSample(step, attempted, ss);
      && (forall i :: 0 <= i < p.processed ==> step(ss[i]).Success? && p.samples[i] == step(ss[i]).value.sample)
      && p.samples[p.processed..] == ss[p.processed..]
      && (p.error.Some? ==> step(ss[p.processed]) == Failure(p.error.value))
    decreases |ss|
  {
    if ss != [] && step(ss[0]).Success? {
      var p := EachSample(step, attempted, ss);
      var rest := EachSample(step, attempted, ss[1..]);
      EachSampleSteps(step, attempted, ss[1..]);
      assert p.samples == [step(ss[0]).value.sample] + rest.samples;
      forall i | 1 <= i < p.processed
        ensures step(ss[i]).Success? && p.samples[i] == step(ss[i]).value.sample
      {
        assert ss[i] == ss[1..][i - 1];
      }
      assert ss[rest.processed + 1..] == ss[1..][rest.processed..];
    }
  }

  /** A loop whose steps keep each sample's identity keeps the samples in place. */
  lemma {:induction false} EachSampleSame(step: Sample -> Result<Step, Error>, attempted: Sample -> seq<Event>, ss: seq<Sample>)
    requires forall s :: step(s).Success? ==> step(s).value.sample.id == s.id && step(s).value.sample.filepath == s.filepath
    ensures SameSamples(EachSample(step, attempted, ss).samples, ss)
  {
    var p := EachSample(step, attempted, ss);
    EachSampleSteps(step, attempted, ss);
    forall i | p.processed <= i < |ss|
      ensures p.samples[i] == ss[i]
    {
      assert p.samples[i] == p.samples[p.processed..][i - p.processed];
    }
  }

  /** A loop whose steps keep one array each keeps them in sample order. */
  lemma {:induction false} EachSampleKeepsOne(step: Sample -> Result<Step, Error>, attempted: Sample -> seq<Event>, ss: seq<Sample>)
    requires forall s :: step(s).Success? ==> |step(s).value.kept| == 1
    ensures var p := EachSample(step, attempted, ss);
      |p.kept| == p.processed &&
      forall i :: 0 <= i < p.processed ==> step(ss[i]).Success? && p.kept[i] == step(ss[i]).value.kept[0]
    decreases |ss|
  {
    if ss != [] && step(ss[0]).Success? {
      var p := EachSample(step, attempted, ss);
      var rest := EachSample(step, attempted, ss[1..]);
      EachSampleKeepsOne(step, attempted, ss[1..]);
      assert p.kept == step(ss[0]).value.kept + rest.kept;
      forall i | 1 <= i < p.processed
        ensures step(ss[i]).Success? && p.kept[i] == step(ss[i]).value.kept[0]
      {
        assert ss[i] == ss[1..][i - 1];
      }
    }
  }

  /** A loop whose steps keep nothing keeps nothing. */
  lemma {:induction false} EachSampleKeepsNone(step: Sample -> Result<Step, Error>, attempted: Sample -> seq<Event>, ss: seq<Sample>)
    requires forall s :: step(s).Success? ==> step(s).value.kept == []
    ensures EachSample(step, attempted, ss).kept == []
    decreases |ss|
  {
    if ss != [] && step(ss[0]).Success? {
      EachSampleKeepsNone(step, attempted, ss[1..]);
    }
  }

  /** When every completed step saves its own sample (or, with `saves` off,
      nothing) and a raising step saves nothing, the loop saves exactly the
      samples it got through, in order. */
  lemma {:induction false} EachSampleSaves(step: Sample -> Result<Step, Error>, attempted: Sample -> seq<Event>, ss: seq<Sample>, saves: bool)
    requires forall s :: step(s).Success? ==> Saved(step(s).value.trace) == if saves then [s.id] else []
    requires forall s :: Saved(attempted(s)) == []
    ensures var p := EachSample(step, attempted, ss);
      Saved(p.trace) == if saves then Ids(ss[..p.processed]) else []
    decreases |ss|
  {
    if ss != [] && step(ss[0]).Success? {
      var p := EachSample(step, attempted, ss);
      var rest := EachSample(step, attempted, ss[1..]);
      var tr := step(ss[0]).value.trace;
      EachSampleSaves(step, attempted, ss[1..], saves);
      SavedAppend(tr, rest.trace);
      if saves {
        IdsCons(ss[..p.processed]);
        assert ss[..p.processed][1..] == ss[1..][..rest.processed];
      }
    }
  }
}
