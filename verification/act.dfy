/**
  Steps and their composition (src/lib.rs, traits `Act` and `ChainableAct`,
  struct `Chain`).

  A step turns an input into either an output or an error. In the library any
  closure `Fn(I) -> Out<O, E>` is a step (the blanket `impl Act for F`), so a
  step is modelled here as a total Dafny function value `I -> Out<O, E>`.
 */
module Act {

  /** The library's `Out<O, E>`, an alias of Rust's `Result<O, E>`. */
  datatype Out<+O, +E> = Ok(value: O) | Err(error: E)

  /** Rust's `Result::and_then`: feeds a success into `f`, passes an error through. */
  function Bind<O, O2, E>(slot: Out<O, E>, f: O -> Out<O2, E>): (r: Out<O2, E>)
    ensures slot.Err? ==> r == Err(slot.error)
    ensures slot.Ok? ==> r == f(slot.value)
  {
    match slot
    case Ok(v) => f(v)
    case Err(e) => Err(e)
  }

  /** Rust's `Result::map`: applies a total `f` to a success, passes an error through. */
  function MapValue<O, O2, E>(slot: Out<O, E>, f: O -> O2): (r: Out<O2, E>)
    ensures r.Ok? <==> slot.Ok?
    ensures slot.Ok? ==> r.value == f(slot.value)
    ensures slot.Err? ==> r.error == slot.error
  {
    match slot
    case Ok(v) => Ok(f(v))
    case Err(e) => Err(e)
  }

  /**
    `Chain::act`: run `first`; only when it succeeds, run `second` on its output.
    A failure of `first` is returned unchanged and whatever `second` is has no
    influence on the result.
   */
  function ChainAct<I, O1, O2, E>(first: I -> Out<O1, E>, second: O1 -> Out<O2, E>, input: I): (r: Out<O2, E>)
    ensures first(input).Err? ==> r == Err(first(input).error)
    ensures first(input).Ok? ==> r == second(first(input).value)
  {
    Bind(first(input), second)
  }

  /** `ChainableAct::then`: joins two steps into the step that `Chain` implements. */
  function Then<I(!new), O1, O2, E>(first: I -> Out<O1, E>, second: O1 -> Out<O2, E>): (chain: I -> Out<O2, E>)
    ensures forall i :: chain(i) == ChainAct(first, second, i)
  {
    i => ChainAct(first, second, i)
  }

  /**
    `Act::run`: the output of a step that succeeds. The library panics when the
    step fails; here that is a precondition.
   */
  function Run<I, O, E>(step: I -> Out<O, E>, input: I): (output: O)
    requires step(input).Ok?
    ensures step(input) == Ok(output)
  {
    step(input).value
  }

  /** Short-circuit law: a joined step fails exactly when `first` fails or `second` fails on its output. */
  lemma ThenShortCircuits<I(!new), O1, O2, E>(first: I -> Out<O1, E>, second: O1 -> Out<O2, E>, input: I)
    ensures Then(first, second)(input).Ok? <==> first(input).Ok? && second(first(input).value).Ok?
    ensures first(input).Err? ==> Then(first, second)(input) == Err(first(input).error)
  {
  }

  /** On a failing `first`, the joined step's result is the same whatever `second` is: `second` is never consulted. */
  lemma ChainIgnoresSecondOnFailure<I, O1, O2, E>(first: I -> Out<O1, E>, second: O1 -> Out<O2, E>, other: O1 -> Out<O2, E>, input: I)
    requires first(input).Err?
    ensures ChainAct(first, second, input) == ChainAct(first, other, input) == Err(first(input).error)
  {
  }

  /** Associativity law: grouping three steps either way gives the same result on every input. */
  lemma ThenAssociative<I(!new), A(!new), B, C, E>(f: I -> Out<A, E>, g: A -> Out<B, E>, h: B -> Out<C, E>, input: I)
    ensures Then(Then(f, g), h)(input) == Then(f, Then(g, h))(input)
  {
    match f(input)
    case Err(e) =>
    case Ok(a) =>
      assert Then(Then(f, g), h)(input) == Bind(g(a), h);
  }
}
