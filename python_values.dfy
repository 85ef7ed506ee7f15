/** Values as the prediction script sees them: the object deserialised from
    the feature-order artifact, and the outcome of a step that may raise. */
module PyValues {

  /** The shapes of Python object the feature-order artifact can hold that the
      script distinguishes: a `str`, a `list`, a `tuple` (a sequence that is not
      a list), and anything else (numbers, `None`, arrays, ...). */
  datatype PyObject =
    | PyStr(s: string)
    | PyList(items: seq<PyObject>)
    | PyTuple(elements: seq<PyObject>)
    | PyOther

  datatype Option<+T> = None | Some(value: T)

  datatype Result<+T, +E> = Success(value: T) | Failure(error: E)

  /** Why the script stops before a prediction can be made. */
  datatype ScriptError =
    /** The feature-order artifact did not hold a `list`. */
    | FeatureOrderNotList
    /** The element at `index` of the feature order is not a `str`; the
        initialisation loop stops there. */
    | ElementNotStr(index: nat)

  /** Every element of `order` is a `str`. */
  predicate AllStrings(order: seq<PyObject>)
  {
    forall i :: 0 <= i < |order| ==> order[i].PyStr?
  }

  /** The column names of an all-string feature order, in order. */
  function Names(order: seq<PyObject>): (names: seq<string>)
    requires AllStrings(order)
    ensures |names| == |order|
    ensures forall i :: 0 <= i < |order| ==> order[i] == PyStr(names[i])
  {
    seq(|order|, i requires 0 <= i < |order| => order[i].s)
  }

  /** The index of the first element that is not a `str`, or `|order|` when
      there is none: the point at which iterating with `startswith` raises. */
  function FirstNonString(order: seq<PyObject>): (k: nat)
    ensures k <= |order|
    ensures forall i :: 0 <= i < k ==> order[i].PyStr?
    ensures k < |order| ==> !order[k].PyStr?
  {
    if order == [] || !order[0].PyStr? then 0
    else 1 + FirstNonString(order[1..])
  }
}
