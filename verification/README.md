# chain_reaction in Dafny

This is a model of the `chain_reaction` crate, a small engine that chains fallible steps. A step turns an input into `Ok(output)` or `Err(error)`. Two steps can be joined into one, and the joined step stops at the first failure. A `Reactor` is a pipeline builder that holds one slot, the result so far. It threads that slot through combinators:
- `then` and `and_then` run a step or a fallible function;
- `map` runs a function that cannot fail;
- `if_else` branches on a condition and tags the output `Left` or `Right`;
- `for_each` runs a step on every item and stops at the first failure;
- `merge` combines the first two items;
- `run` hands back the final result.

A failed slot passes through every combinator unchanged, and none of the combinator's function arguments is applied to it.

Layout:

- `act.dfy` (module `Act`) covers the `Out` result type, steps and their composition, and `Act::run`. A step is a total function value `I -> Out<O, E>`, because the library makes every closure of that shape a step. The module also holds the short-circuit and associativity laws.
- `failures.dfy` (module `Failures`) covers the `Failure` error type and its `Display` rendering.
- `pipeline.dfy` (module `Pipeline`) covers `Either` and the `Reactor` class. The class has a mutable `input` slot and a `consumed` flag. The slot is "moved out" by setting the flag, which models `mem::replace`. Each combinator returns a fresh reactor. Each combinator is specified by a function from the old slot to the new one (`Bind`, `MapValue`, `IfElseOutcome`, `ForEachOutcome`, `MergeOutcome`). The walk inside `for_each` is a loop (`Collect`) with a ghost log of the items it visited.
- `steps.dfy` (module `Steps`) covers the example steps of `src/main.rs` (`add`, `square`, `to_string`, `double`, `divide`) and the pipeline built in `main`, which turns 5 into `"98"`. It also has further scenarios for `if_else`, `for_each` and `merge`.

The library's `IntoIterator` bound on `for_each` and `merge` is modelled by an explicit `intoIter: I -> seq<X>` argument that lists the items of the held value.

The comment in `main` lists the steps as add, square, to_string, double. The code runs `double` before `to_string`, which is the only order that type-checks. The model follows the code. A timing-instrumented pipeline wrapper is not present in `src/lib.rs`, so it is not part of this model.

## Model

| member | source | states |
|---|---|---|
| `Act.ChainAct` | src/lib.rs:118-127 | A joined step returns the first step's error unchanged when that step fails; otherwise it returns exactly what the second step gives on the first step's output |
| `Act.ChainIgnoresSecondOnFailure` | src/lib.rs:124-126 | When the first step fails, the joined step's result is the same whatever the second step is, so the second step is never consulted |
| `Act.Then` | src/lib.rs:95-104 | `then` builds the step that acts, on every input, as `Chain::act` of the two steps |
| `Act.ThenShortCircuits` | src/lib.rs:118-127 | A joined step succeeds exactly when the first step succeeds and the second succeeds on its output; a failure of the first step is the joined step's result |
| `Act.ThenAssociative` | src/lib.rs:95-127 | `(f.then(g)).then(h)` and `f.then(g.then(h))` give the same result on every input |
| `Act.Run` | src/lib.rs:80-85 | On a step that succeeds, `run` returns exactly the success value; a failing step (a panic in the source) is excluded by the precondition |
| `Act.Bind` | src/lib.rs:222-230 | `Result::and_then` as used by `then` and `and_then`: an `Err` passes through as the same `Err`; `Ok(v)` becomes `f(v)` |
| `Act.MapValue` | src/lib.rs:212-220 | `Result::map` as used by `map`: a success stays a success (carrying `f(v)`) and never becomes a failure; a failure keeps its error |
| `Failures.Display` | src/lib.rs:262-270 | The text starts with the variant's prefix (`Invalid input: `, `Arithmetic error: `, `Custom error: `) and ends with the message verbatim, with nothing else; its first character distinguishes the three variants |
| `Failures.DisplayInjective` | src/lib.rs:262-270 | Two failures that render to the same text are equal |
| `Pipeline.IfElseOutcome` | src/lib.rs:174-195 | From `Ok(v)`, a success is tagged `Left` exactly when `condition(v)` holds. The payload is the chosen branch's output, and that branch's error propagates unchanged. From `Err(e)` the result is `Err(e)` |
| `Pipeline.FirstFailure` | src/lib.rs:204-208 | The index of the first item whose step fails (every earlier item succeeds), or the length when all succeed |
| `Pipeline.CollectAll` | src/lib.rs:204-208 | Collecting per-item results succeeds exactly when every item succeeds. It then gives the outputs in order, one per item. Otherwise it gives the error of the first failing item |
| `Pipeline.ForEachOutcome` | src/lib.rs:197-210 | The slot after `for_each` is `Err(e)` from `Err(e)`, and otherwise the collected outcome of the held items |
| `Pipeline.Collect` | src/lib.rs:205-207 | The loop that walks the items yields exactly `CollectAll`. The items it hands to the step are exactly those up to and including the first failing one |
| `Pipeline.CollectStopsAtFirstFailure` | src/lib.rs:205-207 | Items after the first failing one have no influence: appending anything after it changes neither the first failure nor the outcome |
| `Pipeline.MergeOutcome` | src/lib.rs:232-248 | From `Ok`, the result is `Ok(f(first item, second item))`; fewer than two items (a panic in the source) is excluded by the precondition. From `Err(e)` the result is `Err(e)` |
| `Pipeline.MergeIgnoresRest` | src/lib.rs:240-245 | Two collections that agree on their first two items merge to the same result, whatever follows |
| `Pipeline.FailurePassesThrough` | src/lib.rs:161-248 | From `Err(e)`, every combinator's slot function gives the same `Err(e)` for arbitrary function arguments |
| `Pipeline.Reactor.Input` | src/lib.rs:157-159 | A new reactor holds `Ok(v)` and is not consumed |
| `Pipeline.Reactor.FromSlot` | src/lib.rs:166-168 | The reactor each combinator returns holds the given slot and is not consumed |
| `Pipeline.Reactor.Then` | src/lib.rs:161-169 | Marks this reactor consumed and returns a fresh reactor holding `Bind(old slot, transform)` |
| `Pipeline.Reactor.IfElse` | src/lib.rs:174-195 | Marks this reactor consumed and returns a fresh reactor holding `IfElseOutcome` of the old slot |
| `Pipeline.Reactor.ForEach` | src/lib.rs:197-210 | Marks this reactor consumed and returns a fresh reactor holding `ForEachOutcome` of the old slot, computed by the `Collect` loop. The items handed to the step are none from a failed slot, and otherwise exactly those up to and including the first failing one |
| `Pipeline.Reactor.Map` | src/lib.rs:212-220 | Marks this reactor consumed and returns a fresh reactor holding `MapValue(old slot, f)` |
| `Pipeline.Reactor.AndThen` | src/lib.rs:222-230 | Marks this reactor consumed and returns a fresh reactor holding `Bind(old slot, f)` |
| `Pipeline.Reactor.Merge` | src/lib.rs:232-248 | Requires at least two items when the slot is `Ok`. Marks this reactor consumed and returns a fresh reactor holding `MergeOutcome` of the old slot |
| `Pipeline.Reactor.Run` | src/lib.rs:250-252 | Returns the held result and leaves the reactor consumed |
| `Steps.AddStep` | src/main.rs:4-6 | `add(y)` never fails and its output exceeds the input by `y` |
| `Steps.SquareStep` | src/main.rs:9-18 | `square` fails, with `InvalidInput("Negative input for square function")`, exactly when the input is negative; otherwise it gives the non-negative square |
| `Steps.DoubleStep` | src/main.rs:27-29 | `double` never fails and its output is the input added to itself |
| `Steps.DivideStep` | src/main.rs:32-39 | `divide(y)` fails, with `ArithmeticError("Division by zero")`, exactly when `y` is zero; otherwise it gives the quotient rounded toward zero |
| `Steps.TruncDivRemainder` | src/main.rs:37 | The quotient leaves a remainder smaller than the divisor in magnitude that is zero or has the dividend's sign, which is Rust's integer division |
| `Steps.TruncDivIsNotEuclidean` | src/main.rs:37 | -7 divided by 2 is -3 under Rust's rounding toward zero (Dafny's own Euclidean division would give -4) |
| `Steps.NatDigits` | src/main.rs:22-24 | The digits of a natural number: non-empty, all decimal digits, and with no leading zero |
| `Steps.Decimal` | src/main.rs:22-24 | The text of an integer is a canonical numeral, beginning with a minus sign exactly when the integer is negative |
| `Steps.NatDigitsRoundTrip` | src/main.rs:22-24 | Reading back the digits of `n` gives `n` |
| `Steps.DecimalRoundTrip` | src/main.rs:22-24 | Reading back the text of `x` gives `x`, so distinct integers render differently |
| `Steps.ToStringStep` | src/main.rs:22-24 | `to_string` never fails and gives a canonical numeral that reads back as the input |
| `Steps.Example` | src/main.rs:43-54 | The pipeline 5 → `add(2)` → `square()` → `double()` → `to_string()` → `run()` yields `Ok("98")` |
| `Steps.NegativeExample` | src/main.rs:9-18 | The pipeline -3 → `square()` → `double()` → `to_string()` yields the `InvalidInput` failure of `square` |
| `Steps.BranchExample` | src/lib.rs:174-195 | `if_else` on parity doubles an even input into `Left` and renders an odd one into `Right` (4 gives `Left(8)`, 5 gives `Right("5")`) |
| `Steps.ForEachExample` | src/lib.rs:197-210 | A reactor's `for_each` with `square` over [1, 2, -1, 3] yields the failure for -1, and the items handed to the step are exactly 1, 2 and -1 (3 never is) |
| `Steps.MergeExample` | src/lib.rs:232-248 | `merge` with addition over [100, 200, 300, 400] yields `Ok(300)` |

## Left out

- Panics: the `panic!` in `Act::run` (src/lib.rs:83) and in `merge` on fewer than two items (src/lib.rs:244) are preconditions of `Act.Run`, `Pipeline.MergeOutcome` and `Pipeline.Reactor.Merge`, not behaviour.
- The placeholder each combinator writes back with `mem::replace(…, Err(unsafe { std::mem::zeroed() }))` is not modelled as a value. The `consumed` flag stands for it, and every operation requires an unconsumed reactor. The slot field itself is left as it was, and no operation reads it again.
- User steps with side effects: steps are pure functions. "Not invoked" is stated as independence: on a failure, the result is the same whatever the function arguments are. The `for_each` walk additionally records the items it handed to the step.
- Trait machinery: `ChainableAct`, the blanket `Act` impl for closures, `PhantomData`, the `Debug` and `Clone` bounds and the empty `std::error::Error` impl have no content beyond the function types used here.
- Steps.AddStep: does not model `i32` overflow (a panic in debug builds, wrap-around in release builds), because arithmetic here is on unbounded integers. This agrees with Rust whenever the result fits in 32 bits.
- Steps.SquareStep: does not model `i32` overflow of the square, for the same reason.
- Steps.DoubleStep: does not model `i32` overflow of the doubling, for the same reason.
- Steps.DivideStep: does not model the overflow of `i32::MIN / -1`, for the same reason.
- Only finite collections are modelled. `IntoIterator` (src/lib.rs:199, 234) also admits infinite or lazy iterators such as `0..` or `iter::repeat(x)`, but `intoIter` yields a finite `seq`. The model therefore does not capture two behaviours. `for_each` on an infinite iterator returns the first failing item's error as soon as it reaches it, and never returns when every item succeeds. `merge` on an infinite iterator returns `Ok(f(a, b))` after pulling two items.
- Printing the result in `main` (src/main.rs:56) is output and is not modelled.
- A timing-instrumented pipeline is not part of src/lib.rs and so is not modelled.
