# Middleware chains: a Dafny model

This project models the Ruby `middleware` library. The library has two parts.

- **`Middleware::Runner`** (`runner.dfy`, module `Runner`) compiles an ordered stack of middleware into one nested callable. It folds the stack from the right, starting from `EMPTY_MIDDLEWARE`, a middleware that does nothing.
  - A *class* target is instantiated with the next middleware first, then its arguments, then its block. The instance decides whether to call on.
  - A *callable* target is wrapped so that it runs and then always calls the next middleware.
  - Any other target makes the runner's construction fail.
- **`Middleware::Builder`** (`builder.dfy`, module `Builder`) is a class that holds a mutable stack of `[target, args, block]` entries.
  - `use` appends one entry, or splices in another builder's entries.
  - `insert`/`insert_before`, `insert_after`, `replace` and `delete` edit the stack. Each takes an integer position or a target. A target resolves to the first entry whose target is `==` to it.
  - `call` compiles a fresh runner from the current stack on every call.

Ruby's open-ended targets become a closed datatype:
- `Unit(id, script, classCall)` is a class. Its instances follow a script: steps before, then stop / forward / forward with a rescue (re-raising or not), then steps after. `classCall` is present when the class object itself also responds to `call`.
- `Fn(id, effect)` is a callable that records some steps and then returns a value or raises.
- `Invalid(id)` is any other target.

Identity is the `id`. What a run does is observed as a trace of recorded values, standing in for the `data` array that the library's specs append to, together with how the run ends: `Done(trace, result)` or `Raised(trace)`.

`runner_specs.dfy` and `builder_specs.dfy` restate the library's own spec scenarios over the model. They are derived from the general laws.

The run semantics are `Runner.Run` (one compiled node at a time) and `Runner.BuildCallChain` (the `reverse.inject` fold, which peels the last entry first). An invalid target is reported for the entry the fold reaches first, which is the last invalid one in the stack. The builder's editing methods are specified against the sequence functions `InsertAt`, `RemoveAt` and `s[i := e]`, and against `FirstMatch`, which is `index`.

Behaviours of the code worth knowing, all stated by the model:
- Deleting by a target that is not in the stack raises because `delete_at nil` fails. The model's error for this is `NilIndex`, which is distinct from the `NoSuchToInsertBefore` that `insert` raises for an unknown target.
- `replace` by target inserts the new entry in front of the first match and then deletes the first match. If the new entry has the same target as the one replaced, the new entry is the one deleted and the stack is left unchanged. `Builder.Builder.Replace` states this.
- An insert-after by position is only defined for existing positions.
- A failed construction reports the entry at which the fold raised, which is the last invalid entry of the stack. The `InvalidMiddleware(id)` error records that entry's target.

## Model

| member | source | states |
|---|---|---|
| Runner.EmptyMiddleware | lib/middleware/runner.rb:9 | `EMPTY_MIDDLEWARE`: called with any environment, it records nothing, does not raise and returns nil |
| Runner.UnpackArguments | lib/middleware/runner.rb:47-48 | unpacking an item keeps its target and block; an argument array is passed as it is, a single value as the only argument, and nil or a bare item as no argument at all |
| Runner.Wrap | lib/middleware/runner.rb:50-58 | one step of the fold raises exactly for a target that is neither a class nor callable, naming it; otherwise the node it builds calls exactly the next middleware, as an instance for a class (even one that responds to `call`) and as a wrapper for a callable |
| Runner.EmptyStackDoesNothing | lib/middleware/runner.rb:9 | an empty stack compiles to the empty middleware, which records nothing, does not raise and returns nil |
| Runner.BuildAppend | lib/middleware/runner.rb:45-61 | folding `p + u` from the right folds `u` first and continues with `p` from its result; an error in `u` is raised before `p` is looked at |
| Runner.BuildLayers | lib/middleware/runner.rb:45-61 | a successful fold turns each entry into exactly one layer around what it was folded onto |
| Runner.BuildCons | lib/middleware/runner.rb:46-60 | the first entry of the stack wraps exactly the chain compiled from the rest (the nesting the right fold produces) |
| Runner.BuildOkIffValid | lib/middleware/runner.rb:50-59 | the fold succeeds if and only if every target is a class or a callable |
| Runner.BuildReportsLastInvalid | lib/middleware/runner.rb:57-58 | a failed fold names an invalid target, and no later entry is invalid (the fold meets the last one first) |
| Runner.NewFailsOnInvalid | lib/middleware/runner.rb:19-22 | constructing a runner fails exactly when some target is neither a class nor callable, naming the last such target; nothing runs first |
| Runner.Invoke | lib/middleware/runner.rb:19-31 | `Runner.new(stack).call(env)` fails, before anything runs, exactly when some target is neither a class nor callable |
| Runner.RunOnlyAppends | lib/middleware/runner.rb:28-31 | calling a compiled chain only appends to what was recorded before the call; nothing recorded earlier is rewritten or dropped |
| Runner.UnitInstantiatedWithNext | lib/middleware/runner.rb:47-51 | a class target becomes an instance holding the rest of the chain, then its args in order (none for a bare item or a nil slot, `[v]` for a single value), then its block; this holds even when the class also responds to `call` |
| Runner.CallableThenNext | lib/middleware/runner.rb:52-56 | a callable records its effect and then runs the rest of the chain unless it raised; the chain's result is the rest's, so the callable's own return value is dropped |
| Runner.WrapTransparent | lib/middleware/runner.rb:50-56 | one forwarding entry records its way in, runs the inner chain, and records its way out only if the inner chain did not raise; the inner chain's exception passes through |
| Runner.OnionLaw | lib/middleware/runner.rb:39-46 | a stack of forwarding entries records every way in front to back, then runs what it was folded onto, then (unless that raised) records every way out back to front |
| Runner.OnionStep | lib/middleware/runner.rb:46-56 | wrapping one more forwarding entry around a chain that obeys the onion law gives a chain that obeys it too: the new entry's way in comes first and its way out comes last |
| Runner.OnionOrder | lib/middleware/runner.rb:28-31 | calling a compiled stack of forwarding entries returns normally with trace = ways in in order, followed by ways out in reverse |
| Runner.CallablesInOrder | lib/middleware/runner.rb:52-56 | callables alone run once each, in stack order, and the chain returns nil |
| Runner.StopperHidesTail | lib/middleware/runner.rb:50-51 | once a stack holds a class that does not call next (or a callable that raises), the run is the same whatever the stack is folded onto |
| Runner.ShortCircuit | spec/middleware/runner.spec.rb:61-73 | after a non-forwarding class or a raising callable, no later entry runs: the run of `p + u` is the run of `p` |
| Runner.FaultUnwinds | lib/middleware/runner.rb:53-56 | a callable that raises behind forwarding entries makes the whole call raise; each earlier entry has recorded its way in, and none its way out |
| Runner.RescueStopsOrRethrows | spec/middleware/runner.spec.rb:76-111 | when the rest raises, a rescuing class runs its handler; the call raises again exactly when the class re-raises, and otherwise the class continues with its way out |
| RunnerSpecs.ClassesInProperOrder | spec/middleware/runner.spec.rb:10-22 | two classes A and B that record before and after next give the trace [A, B, B, A] |
| RunnerSpecs.LambdasInProperOrder | spec/middleware/runner.spec.rb:24-34 | two lambdas A and B give the trace [A, B] |
| RunnerSpecs.PassesArguments | spec/middleware/runner.spec.rb:43-47 | the item `[with_argument, 42]` constructs its instance with the argument 42 |
| RunnerSpecs.PassesBlock | spec/middleware/runner.spec.rb:49-54 | the item `[with_block, nil, block]` constructs its instance with no arguments and the block |
| RunnerSpecs.RejectsInvalidMiddleware | spec/middleware/runner.spec.rb:57-59 | `Runner.new [27]` fails |
| RunnerSpecs.UncalledMiddlewareDoesNotRun | spec/middleware/runner.spec.rb:61-73 | a class that does not call next keeps the lambda after it from running: trace [A] |
| RunnerSpecs.ExceptionPropagates | spec/middleware/runner.spec.rb:76-93 | a raise in C passes through B into A, which records E and re-raises: the call raises with trace [A, B, E] |
| RunnerSpecs.RescueStopsPropagation | spec/middleware/runner.spec.rb:95-111 | B rescues C's raise without re-raising: the call returns with trace [IN_A, IN_B, IN_C, OUT_B, OUT_A] |
| Builder.FirstMatch | lib/middleware/builder.rb:121-123 | `index`: the position of an entry with the given target, with no earlier entry having it; none exactly when no entry has it |
| Builder.Resolve | lib/middleware/builder.rb:79 | an integer is taken as the position; a target resolves to the first in-range position holding that target (no earlier entry holds it), or to nothing exactly when no entry has it |
| Builder.InsertAt | lib/middleware/builder.rb:81 | `Array#insert` within range: one longer, the new entry at `i`, earlier entries in place, later ones shifted right by one |
| Builder.RemoveAt | lib/middleware/builder.rb:112 | `Array#delete_at` within range: one shorter, earlier entries in place, later ones shifted left by one |
| Builder.RemoveInserted | lib/middleware/builder.rb:102-103 | deleting the entry just inserted at `i` gives back the original stack |
| Builder.RemoveAfterInserted | lib/middleware/builder.rb:102-103 | inserting in front of entry `i` and then deleting that entry leaves the new entry in slot `i`, with everything else unchanged |
| Builder.InsertIntoRemoved | lib/middleware/builder.rb:99-100 | deleting entry `i` and then inserting at `i` leaves the new entry in slot `i`, with everything else unchanged |
| Builder.FirstMatchIs | lib/middleware/builder.rb:121-123 | a position holding the target, with no earlier position holding it, is exactly what `index` returns |
| Builder.FirstMatchAfterInsert | lib/middleware/builder.rb:102-103 | after inserting in front of the first entry with a target, the first match is the new entry if it has that target, and otherwise the old entry one place on |
| Builder.Items | lib/middleware/builder.rb:137-139 | the runner sees each builder entry as a `[target, args, block]` item that unpacks to that same entry |
| Builder.Builder.constructor | lib/middleware/builder.rb:130-132 | a new builder's stack is empty |
| Builder.Builder.Use | lib/middleware/builder.rb:47-55 | appends exactly one entry `[target, args, block]`, leaves the earlier ones as they were, and returns the builder |
| Builder.Builder.UseBuilder | lib/middleware/builder.rb:48-49 | appends the other builder's current entries in order (a snapshot, also when it is the same builder), ignores the args and block, and returns the builder |
| Builder.Builder.Insert | lib/middleware/builder.rb:78-83 | puts the new entry at the resolved position and shifts later entries; an unknown target raises "insert before" and changes nothing |
| Builder.Builder.InsertBefore | lib/middleware/builder.rb:83 | `insert_before` is `insert`: the same new stack and the same error for an unknown target |
| Builder.Builder.InsertAfter | lib/middleware/builder.rb:88-92 | puts the new entry just after the resolved position; an unknown target raises "insert after" and changes nothing |
| Builder.Builder.Replace | lib/middleware/builder.rb:97-105 | by position: the new entry takes that slot, with the length and all other entries unchanged. By target: the same at the first match, unless the new target equals the ref, in which case the stack is unchanged. An unknown target raises and changes nothing |
| Builder.Builder.Delete | lib/middleware/builder.rb:110-113 | removes exactly the resolved entry and keeps the order of the rest; an unknown target raises (nil index) and changes nothing |
| Builder.Builder.ToApp | lib/middleware/builder.rb:137-139 | the runner built from the current stack is constructed successfully exactly when every target is a class or callable |
| Builder.Builder.Call | lib/middleware/builder.rb:58-60 | compiles the current stack afresh and calls it with the environment, or nil when none is given; it fails exactly when some target is invalid |
| BuilderSpecs.UseAddsItem | spec/middleware/builder.spec.rb:14-22 | a single used proc runs when the builder is called |
| BuilderSpecs.UseAddsItems | spec/middleware/builder.spec.rb:24-35 | two used procs both run, in order |
| BuilderSpecs.UseAddsBuilder | spec/middleware/builder.spec.rb:37-48 | using a builder runs that builder's entries |
| BuilderSpecs.UseEach | lib/middleware/builder.rb:47-55 | using given entries one by one, as plain middleware, appends exactly those entries in order |
| BuilderSpecs.UseBuilderSplices | lib/middleware/builder.rb:48-51 | for any two builders with the same stack and any sub-builder, using the sub-builder in one and its entries one by one in the other gives both the same stack: the old stack followed by the sub-builder's entries |
| BuilderSpecs.DefaultsEnvToNil | spec/middleware/builder.spec.rb:50-58 | `call` with no environment passes nil |
| BuilderSpecs.InsertAtIndex | spec/middleware/builder.spec.rb:62-68 | inserting at 0 in front of 1 gives [2, 1] |
| BuilderSpecs.InsertBeforeIndex | spec/middleware/builder.spec.rb:86-94 | `insert_before` at 0 in front of 1 gives [2, 1] |
| BuilderSpecs.InsertNextToObject | spec/middleware/builder.spec.rb:70-79 | inserting before proc2 gives [1, 3, 2] |
| BuilderSpecs.InsertBeforeMissing | spec/middleware/builder.spec.rb:81-83 | inserting before an unknown object raises |
| BuilderSpecs.InsertAfterIndex | spec/middleware/builder.spec.rb:96-104 | inserting after position 0 gives [1, 2, 3] |
| BuilderSpecs.InsertAfterMissing | spec/middleware/builder.spec.rb:106-108 | inserting after an unknown object raises |
| BuilderSpecs.ReplaceObject | spec/middleware/builder.spec.rb:112-121 | replacing proc1 by proc2 gives [2] |
| BuilderSpecs.ReplaceIndex | spec/middleware/builder.spec.rb:123-132 | replacing position 0 by proc2 gives [2] |
| BuilderSpecs.DeleteObject | spec/middleware/builder.spec.rb:136-145 | deleting proc1 leaves [2] |
| BuilderSpecs.DeleteIndex | spec/middleware/builder.spec.rb:147-156 | deleting position 0 leaves [2] |
| BuilderSpecs.EditsAffectLaterCalls | lib/middleware/builder.rb:137-139 | a call made before an insert sees [1]; a call made after it sees [2, 1] |

## Left out

- The `initialize` setup block (`instance_eval`) and the `:runner_class` option (lib/middleware/builder.rb:32-36). These are metaprogramming; the model always uses the default runner.
- `flatten` (lib/middleware/builder.rb:68-70). Its lambda late-binds to the builder and can call itself recursively, which a fixed `Effect` cannot express.
- Ruby's dynamic dispatch (`is_a? Class`, `respond_to? :call`) and arbitrary closures. These are replaced by the closed `Target` datatype and finite scripts.
- Side effects on the environment. The environment is an opaque value that steps can record; effects are recorded in the trace instead of being written into `env`.
- Exceptions are outcome values. Only callables raise. The steps of a class's script never raise by themselves. The rescue of a script covers only the call of next, as in `@app.call(env) rescue nil`: when it does not re-raise, the steps after it still run. Steps placed between the call of next and the `rescue`, which Ruby skips when the rescue fires, can be expressed only when the handler re-raises.
- Error message texts. At lib/middleware/runner.rb:58 the message refers to an undefined `action`, so Ruby actually raises NameError. At lib/middleware/builder.rb:80 and :90 the message prints nil. The model has no message text. `InvalidMiddleware(id)` records the target of the entry at which the fold raised, and the builder's errors only tell the operations apart.
- Integer positions that are negative or out of range. Ruby pads with nil, counts from the end, or returns nil for these. The model states them as preconditions: insert needs 0 ≤ i ≤ |stack|; insert_after, replace and delete need 0 ≤ i < |stack|.
- Return values of `insert`, `insert_after`, `replace` and `delete`. Ruby returns the array or the deleted entry; the model returns only whether the call raised.
- The lazy `@stack ||= []`. It is not observable, so the constructor starts with an empty stack.
- Construction errors inside a class's own `initialize`, such as an arity mismatch. The model does not include them.
- A `MarkBlock` step when no block was given. The model records nil, where Ruby would raise NoMethodError on `nil.call`.
- Splatting a single non-array argument value. The model treats it as a one-element argument list; Ruby's `to_a` conversion of hashes and similar values is not modelled.
- A class instance's return value. The model restricts it to either the next middleware's result or a fixed value.
- A builder passed to `insert`, `insert_after` or `replace` (lib/middleware/builder.rb:81, 91, 100 and 102). Ruby stores it as a single entry, without splicing. The runner then calls it through `Builder#call` (lib/middleware/builder.rb:58), bound late like `flatten`'s lambda. `Target` has no variant for a builder, so the model cannot express such an entry.
