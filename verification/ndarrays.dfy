/** The part of numpy the pipeline relies on. An array is either 0-dimensional
    or a sequence of sub-arrays along axis 0; shapes beyond that are not
    tracked, so shape-mismatch errors of numpy are outside this model. */
module NdArrays {
  import opened Wrappers
  import opened Errors
  import opened Batching

  datatype NdArray = Scalar(x: real) | Axis(items: seq<NdArray>)

  /** Every array has at least one dimension. */
  predicate AllAxes(arrays: seq<NdArray>)
  {
    forall i :: 0 <= i < |arrays| ==> arrays[i].Axis?
  }

  lemma AllAxesAppend(a: seq<NdArray>, b: seq<NdArray>)
    ensures AllAxes(a + b) <==> AllAxes(a) && AllAxes(b)
  {
    assert forall i :: 0 <= i < |b| ==> (a + b)[|a| + i] == b[i];
    assert forall i :: 0 <= i < |a| ==> (a + b)[i] == a[i];
  }

  /** The rows along axis 0 of every array, in order. */
  function JoinRows(arrays: seq<NdArray>): seq<NdArray>
    requires AllAxes(arrays)
  {
    if arrays == [] then [] else arrays[0].items + JoinRows(arrays[1..])
  }

  lemma {:induction false} JoinRowsAppend(a: seq<NdArray>, b: seq<NdArray>)
    requires AllAxes(a) && AllAxes(b)
    ensures AllAxes(a + b)
    ensures JoinRows(a + b) == JoinRows(a) + JoinRows(b)
  {
    if a == [] {
      assert a + b == b;
    } else {
      assert (a + b)[0] == a[0];
      assert (a + b)[1..] == a[1..] + b;
      JoinRowsAppend(a[1..], b);
    }
  }

  /** Joining a single array yields its rows. */
  lemma JoinRowsOne(a: NdArray)
    requires a.Axis?
    ensures JoinRows([a]) == a.items
  {
    assert [a][1..] == [];
  }

  /** When every array holds exactly one row, joining yields row i from array i. */
  lemma {:induction false} JoinRowsOfSingletons(arrays: seq<NdArray>)
    requires forall i :: 0 <= i < |arrays| ==> arrays[i].Axis? && |arrays[i].items| == 1
    ensures AllAxes(arrays)
    ensures |JoinRows(arrays)| == |arrays|
    ensures forall i :: 0 <= i < |arrays| ==> JoinRows(arrays)[i] == arrays[i].items[0]
  {
    if arrays != [] {
      JoinRowsOfSingletons(arrays[1..]);
    }
  }

  /** `np.concatenate(arrays)` along axis 0. */
  function Concatenate(arrays: seq<NdArray>): (r: Result<NdArray, Error>)
    ensures r.Success? <==> |arrays| > 0 && AllAxes(arrays)
    ensures r.Success? ==> r.value.Axis?
    ensures r.Success? ==> forall i :: 0 <= i < |arrays| ==> |arrays[i].items| <= |r.value.items|
  {
    if |arrays| == 0 then
      Failure(ValueError("need at least one array to concatenate"))
    else if !AllAxes(arrays) then
      Failure(ValueError("zero-dimensional arrays cannot be concatenated"))
    else
      JoinRowsBound(arrays);
      Success(Axis(JoinRows(arrays)))
  }

  lemma {:induction false} JoinRowsBound(arrays: seq<NdArray>)
    requires AllAxes(arrays)
    ensures forall i :: 0 <= i < |arrays| ==> |arrays[i].items| <= |JoinRows(arrays)|
  {
    if arrays != [] {
      JoinRowsBound(arrays[1..]);
      forall i | 0 < i < |arrays|
        ensures |arrays[i].items| <= |JoinRows(arrays)|
      {
        assert arrays[i] == arrays[1..][i - 1];
      }
    }
  }

  /** Concatenating per-group concatenations equals concatenating all the
      groups' arrays at once: batching before `np.concatenate` is invisible. */
  lemma {:induction false} ConcatenateGroups(groups: seq<seq<NdArray>>, joined: seq<NdArray>)
    requires forall g :: 0 <= g < |groups| ==> AllAxes(groups[g])
    requires |joined| == |groups|
    requires forall g :: 0 <= g < |groups| ==> joined[g] == Axis(JoinRows(groups[g]))
    ensures AllAxes(joined)
    ensures AllAxes(Flatten(groups))
    ensures JoinRows(joined) == JoinRows(Flatten(groups))
  {
    if groups != [] {
      ConcatenateGroups(groups[1..], joined[1..]);
      JoinRowsAppend(groups[0], Flatten(groups[1..]));
    }
  }

  /** `np.stack(arrays, axis=0)`: a new leading axis whose rows are the arrays
      themselves (numpy's equal-shape check is not modelled). */
  function Stack(arrays: seq<NdArray>): (r: Result<NdArray, Error>)
    ensures r.Success? <==> |arrays| > 0
    ensures r.Success? ==> r.value.Axis? && r.value.items == arrays
  {
    if |arrays| == 0 then Failure(ValueError("need at least one array to stack"))
    else Success(Axis(arrays))
  }

  /** `a[0]`. */
  function First(a: NdArray): (r: Result<NdArray, Error>)
    ensures r.Success? <==> a.Axis? && |a.items| > 0
    ensures r.Success? ==> r.value == a.items[0]
  {
    match a
    case Scalar(_) => Failure(IndexError("too many indices for array"))
    case Axis(items) =>
      if |items| == 0 then Failure(IndexError("index 0 is out of bounds for axis 0"))
      else Success(items[0])
  }

  /** The rows produced by iterating `for row in a`. */
  function Rows(a: NdArray): (r: Result<seq<NdArray>, Error>)
    ensures r.Success? <==> a.Axis?
    ensures r.Success? ==> r.value == a.items
  {
    match a
    case Scalar(_) => Failure(TypeError("iteration over a 0-d array"))
    case Axis(items) => Success(items)
  }
}
