/**
  The pipeline builder `Reactor` and its combinators (src/lib.rs, lines 141-253).

  A reactor holds one slot, the result so far. Every combinator moves the slot
  out of the reactor (the library writes a placeholder back with
  `mem::replace`), and installs the new result in a freshly built reactor. The
  placeholder is modelled by the flag `consumed`: a consumed reactor must not
  be used again, which every operation requires.

  The specification of each combinator is a function from the old slot to the
  new one; the class methods are proved to produce exactly that slot.
 */
module Pipeline {
  import opened Act

  /** The output of `if_else`: which branch ran, with that branch's output. */
  datatype Either<+L, +R> = Left(left: L) | Right(right: R)

  // ---------------------------------------------------------------------------
  // if_else

  /**
    The slot after `if_else`. From `Ok(v)` the condition picks a branch; a
    success of the branch taken is tagged `Left` for the true branch and
    `Right` for the false branch, and its failure is passed on unchanged.
    From `Err(e)` nothing is evaluated and `Err(e)` is kept.
   */
  function IfElseOutcome<I, O1, O2, E>(
    slot: Out<I, E>, condition: I -> bool,
    whenTrue: I -> Out<O1, E>, whenFalse: I -> Out<O2, E>): (r: Out<Either<O1, O2>, E>)
    ensures slot.Err? ==> r == Err(slot.error)
    ensures slot.Ok? && r.Ok? ==> (r.value.Left? <==> condition(slot.value))
    ensures slot.Ok? && condition(slot.value) ==>
              (r.Ok? <==> whenTrue(slot.value).Ok?) &&
              (r.Ok? ==> r.value.left == whenTrue(slot.value).value) &&
              (r.Err? ==> r.error == whenTrue(slot.value).error)
    ensures slot.Ok? && !condition(slot.value) ==>
              (r.Ok? <==> whenFalse(slot.value).Ok?) &&
              (r.Ok? ==> r.value.right == whenFalse(slot.value).value) &&
              (r.Err? ==> r.error == whenFalse(slot.value).error)
  {
    match slot
    case Err(e) => Err(e)
    case Ok(v) =>
      if condition(v) then MapValue(whenTrue(v), o => Left(o))
      else MapValue(whenFalse(v), o => Right(o))
  }

  // ---------------------------------------------------------------------------
  // for_each

  /**
    The index of the first element on which `transform` fails, or `|xs|` when
    it succeeds on every element.
   */
  function FirstFailure<X, O, E>(xs: seq<X>, transform: X -> Out<O, E>): (k: nat)
    ensures k <= |xs|
    ensures forall j :: 0 <= j < k ==> transform(xs[j]).Ok?
    ensures k < |xs| ==> transform(xs[k]).Err?
    decreases |xs|
  {
    if xs == [] then 0
    else if transform(xs[0]).Err? then 0
    else 1 + FirstFailure(xs[1..], transform)
  }

  /** How many elements a left-to-right walk that stops at the first failure hands to `transform`. */
  function Processed<X, O, E>(xs: seq<X>, transform: X -> Out<O, E>): (n: nat)
    ensures n <= |xs|
  {
    var k := FirstFailure(xs, transform);
    if k < |xs| then k + 1 else k
  }

  /**
    Collecting an iterator of results into a result of a vector: the outputs of
    all elements, in order, when every element succeeds; otherwise the error of
    the first element that fails.
   */
  function CollectAll<X, O, E>(xs: seq<X>, transform: X -> Out<O, E>): (r: Out<seq<O>, E>)
    ensures r.Ok? <==> FirstFailure(xs, transform) == |xs|
    ensures r.Ok? ==> |r.value| == |xs| &&
                      forall k :: 0 <= k < |xs| ==> r.value[k] == transform(xs[k]).value
    ensures r.Err? ==> r.error == transform(xs[FirstFailure(xs, transform)]).error
    decreases |xs|
  {
    if xs == [] then Ok([])
    else
      match transform(xs[0])
      case Err(e) => Err(e)
      case Ok(y) =>
        match CollectAll(xs[1..], transform)
        case Err(e) => Err(e)
        case Ok(ys) => Ok([y] + ys)
  }

  /** The slot after `for_each`, where `intoIter` lists the items of the held collection. */
  function ForEachOutcome<I, X, O, E>(slot: Out<I, E>, intoIter: I -> seq<X>, transform: X -> Out<O, E>): (r: Out<seq<O>, E>)
    ensures slot.Err? ==> r == Err(slot.error)
    ensures slot.Ok? ==> r == CollectAll(intoIter(slot.value), transform)
  {
    match slot
    case Err(e) => Err(e)
    case Ok(v) => CollectAll(intoIter(v), transform)
  }

  /**
    The iterator walk inside `for_each`: apply `transform` to the elements in
    order and stop at the first failure. `visited` records the elements that
    were handed to `transform`: exactly those up to and including the first
    one that fails.
   */
  method Collect<X, O, E>(xs: seq<X>, transform: X -> Out<O, E>) returns (r: Out<seq<O>, E>, ghost visited: seq<X>)
    ensures r == CollectAll(xs, transform)
    ensures visited == xs[..Processed(xs, transform)]
  {
    var outputs: seq<O> := [];
    var k := 0;
    visited := [];
    while k < |xs|
      invariant k <= FirstFailure(xs, transform)
      invariant |outputs| == k <= |xs|
      invariant forall j :: 0 <= j < k ==> outputs[j] == transform(xs[j]).value
      invariant visited == xs[..k]
    {
      visited := visited + [xs[k]];
      var out := transform(xs[k]);
      match out {
        case Err(e) =>
          assert FirstFailure(xs, transform) == k;
          assert visited == xs[..k + 1];
          return Err(e), visited;
        case Ok(y) =>
          outputs := outputs + [y];
          k := k + 1;
      }
    }
    assert outputs == CollectAll(xs, transform).value;
    r := Ok(outputs);
  }

  /**
    Elements after the first failing one have no influence: appending any
    items behind a collection whose element at `FirstFailure` fails leaves the
    outcome unchanged.
   */
  lemma {:induction false} CollectStopsAtFirstFailure<X, O, E>(xs: seq<X>, rest: seq<X>, transform: X -> Out<O, E>)
    requires FirstFailure(xs, transform) < |xs|
    ensures FirstFailure(xs + rest, transform) == FirstFailure(xs, transform)
    ensures CollectAll(xs + rest, transform) == CollectAll(xs, transform)
    decreases |xs|
  {
    assert (xs + rest)[0] == xs[0];
    if transform(xs[0]).Ok? {
      assert (xs + rest)[1..] == xs[1..] + rest;
      CollectStopsAtFirstFailure(xs[1..], rest, transform);
    }
  }

  // ---------------------------------------------------------------------------
  // merge

  /**
    The slot after `merge`. The library panics when the collection holds
    fewer than two items; that is a precondition here.
   */
  function MergeOutcome<I, X, O, E>(slot: Out<I, E>, intoIter: I -> seq<X>, f: (X, X) -> O): (r: Out<O, E>)
    requires slot.Ok? ==> |intoIter(slot.value)| >= 2
    ensures slot.Err? ==> r == Err(slot.error)
    ensures slot.Ok? ==> r == Ok(f(intoIter(slot.value)[0], intoIter(slot.value)[1]))
  {
    match slot
    case Err(e) => Err(e)
    case Ok(v) => Ok(f(intoIter(v)[0], intoIter(v)[1]))
  }

  /** Only the first two items matter: two collections that agree on them merge alike, whatever follows. */
  lemma MergeIgnoresRest<I, X, O, E>(slot: Out<I, E>, other: Out<I, E>, intoIter: I -> seq<X>, f: (X, X) -> O)
    requires slot.Ok? && other.Ok?
    requires |intoIter(slot.value)| >= 2 && |intoIter(other.value)| >= 2
    requires intoIter(slot.value)[..2] == intoIter(other.value)[..2]
    ensures MergeOutcome(slot, intoIter, f) == MergeOutcome(other, intoIter, f)
  {
    assert intoIter(slot.value)[0] == intoIter(slot.value)[..2][0];
    assert intoIter(slot.value)[1] == intoIter(slot.value)[..2][1];
  }

  // ---------------------------------------------------------------------------
  // Failure is carried through every combinator

  /**
    From a failed slot every combinator yields the identical failure, whatever
    function arguments it is given: none of them is consulted.
   */
  lemma FailurePassesThrough<I, X, O, O1, O2, E>(
    e: E, transform: I -> Out<O, E>, f: I -> O, condition: I -> bool,
    whenTrue: I -> Out<O1, E>, whenFalse: I -> Out<O2, E>,
    intoIter: I -> seq<X>, each: X -> Out<O, E>, combine: (X, X) -> O)
    ensures Bind(Err(e), transform) == Err(e)
    ensures MapValue(Err(e), f) == Err(e)
    ensures IfElseOutcome(Err(e), condition, whenTrue, whenFalse) == Err(e)
    ensures ForEachOutcome(Err(e), intoIter, each) == Err(e)
    ensures MergeOutcome(Err(e), intoIter, combine) == Err(e)
  {
  }

  // ---------------------------------------------------------------------------
  // The reactor

  class Reactor<I, E> {
    /** The result so far. */
    var input: Out<I, E>
    /** Set once the slot has been moved out; a consumed reactor must not be used. */
    var consumed: bool

    /** `Reactor::input`: a pipeline always starts from a success. */
    constructor Input(v: I)
      ensures input == Ok(v) && !consumed
    {
      input := Ok(v);
      consumed := false;
    }

    /** The struct literal each combinator returns. */
    constructor FromSlot(slot: Out<I, E>)
      ensures input == slot && !consumed
    {
      input := slot;
      consumed := false;
    }

    /** `then`: run a step on a held success; a held failure is passed on. */
    method Then<O>(transform: I -> Out<O, E>) returns (next: Reactor<O, E>)
      requires !consumed
      modifies this`consumed
      ensures consumed && fresh(next) && !next.consumed
      ensures next.input == Bind(old(input), transform)
    {
      var slot := input;
      consumed := true;
      next := new Reactor<O, E>.FromSlot(Bind(slot, transform));
    }

    /** `if_else`: run one of two steps, chosen by `condition`, tagging the success. */
    method IfElse<O1, O2>(condition: I -> bool, whenTrue: I -> Out<O1, E>, whenFalse: I -> Out<O2, E>)
      returns (next: Reactor<Either<O1, O2>, E>)
      requires !consumed
      modifies this`consumed
      ensures consumed && fresh(next) && !next.consumed
      ensures next.input == IfElseOutcome(old(input), condition, whenTrue, whenFalse)
    {
      var slot := input;
      consumed := true;
      var out: Out<Either<O1, O2>, E>;
      match slot {
        case Err(e) =>
          out := Err(e);
        case Ok(v) =>
          if condition(v) {
            out := MapValue(whenTrue(v), o => Left(o));
          } else {
            out := MapValue(whenFalse(v), o => Right(o));
          }
      }
      next := new Reactor<Either<O1, O2>, E>.FromSlot(out);
    }

    /**
      `for_each`: run a step on every item of the held collection, stopping at
      the first failure. `visited` records the items handed to `transform`:
      none from a failed slot, otherwise those up to and including the first
      one that fails.
     */
    method ForEach<X, O>(intoIter: I -> seq<X>, transform: X -> Out<O, E>)
      returns (next: Reactor<seq<O>, E>, ghost visited: seq<X>)
      requires !consumed
      modifies this`consumed
      ensures consumed && fresh(next) && !next.consumed
      ensures next.input == ForEachOutcome(old(input), intoIter, transform)
      ensures old(input).Err? ==> visited == []
      ensures old(input).Ok? ==>
                visited == intoIter(old(input).value)[..Processed(intoIter(old(input).value), transform)]
    {
      var slot := input;
      consumed := true;
      var out: Out<seq<O>, E>;
      match slot {
        case Err(e) =>
          out := Err(e);
          visited := [];
        case Ok(v) =>
          out, visited := Collect(intoIter(v), transform);
      }
      next := new Reactor<seq<O>, E>.FromSlot(out);
    }

    /** `map`: apply a function that cannot fail to a held success. */
    method Map<O>(f: I -> O) returns (next: Reactor<O, E>)
      requires !consumed
      modifies this`consumed
      ensures consumed && fresh(next) && !next.consumed
      ensures next.input == MapValue(old(input), f)
    {
      var slot := input;
      consumed := true;
      next := new Reactor<O, E>.FromSlot(MapValue(slot, f));
    }

    /** `and_then`: like `then`, with a bare function in place of a step. */
    method AndThen<O>(f: I -> Out<O, E>) returns (next: Reactor<O, E>)
      requires !consumed
      modifies this`consumed
      ensures consumed && fresh(next) && !next.consumed
      ensures next.input == Bind(old(input), f)
    {
      var slot := input;
      consumed := true;
      next := new Reactor<O, E>.FromSlot(Bind(slot, f));
    }

    /** `merge`: combine the first two items of the held collection. */
    method Merge<X, O>(intoIter: I -> seq<X>, f: (X, X) -> O) returns (next: Reactor<O, E>)
      requires !consumed
      requires input.Ok? ==> |intoIter(input.value)| >= 2
      modifies this`consumed
      ensures consumed && fresh(next) && !next.consumed
      ensures next.input == MergeOutcome(old(input), intoIter, f)
    {
      var slot := input;
      consumed := true;
      var out: Out<O, E>;
      match slot {
        case Err(e) =>
          out := Err(e);
        case Ok(v) =>
          var items := intoIter(v);
          out := Ok(f(items[0], items[1]));
      }
      next := new Reactor<O, E>.FromSlot(out);
    }

    /** `run`: hand back the result so far and leave the reactor consumed. */
    method Run() returns (result: Out<I, E>)
      requires !consumed
      modifies this`consumed
      ensures consumed && result == old(input)
    {
      result := input;
      consumed := true;
    }
  }
}
