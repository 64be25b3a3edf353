/**
  * The chain compiler (`Middleware::Runner`): an ordered stack of middleware
  * entries is folded from the right, starting at a middleware that does
  * nothing, into one nested callable; calling it runs the entries in order,
  * each one deciding whether and when the rest of the chain runs.
  *
  * Ruby's open world of classes and callables is closed here: a target is a
  * middleware class whose instances follow a small script, a callable with a
  * fixed effect, or something that is neither. What a running chain does is
  * observed through the values its steps record, in order (the `data` array
  * of the original specs), and through how it ends: normally with a value,
  * or with an exception still unwinding.
  */
module Runner {
  import opened Wrappers

  /** Identity of a middleware object: what Ruby's `==` compares for classes and procs. */
  type Id = nat

  /** Opaque values: recorded tags, construction arguments, block results, the environment. */
  datatype Value = Nil | Int(n: int) | Str(s: string)

  /** Everything recorded so far by the steps of a chain, oldest first. */
  type Trace = seq<Value>

  /** One observable action of a step: record a value, or record the environment it was given. */
  datatype Step = Mark(v: Value) | MarkEnv

  /**
    * One action of a middleware instance, which may also record what it was
    * constructed with: its extra arguments, or what its block returns.
    */
  datatype UnitStep = Do(step: Step) | MarkArgs | MarkBlock

  /** What a middleware instance does when the rest of the chain raises. */
  datatype Rescue =
    | Propagate                                    // no rescue clause: the exception passes through
    | Handle(handler: seq<UnitStep>, reraise: bool) // rescue, run the handler, then `raise` again or carry on

  /** Whether a middleware instance calls the next middleware. */
  datatype Forwarding = Stop | Pass(rescue: Rescue)

  /** What a middleware instance's `call` returns. */
  datatype Answer =
    | NextResult     // the value the next middleware returned (nil when it did not return one)
    | Fixed(v: Value)

  /**
    * The `call` method of a middleware class: record `before`, call the next
    * middleware or not, then record `after`.
    */
  datatype Script = Script(before: seq<UnitStep>, forward: Forwarding, after: seq<UnitStep>, answer: Answer)

  /** A plain callable: records its steps, then returns `result` or raises. */
  datatype Effect = Effect(steps: seq<Step>, raises: bool, result: Value)

  /**
    * The target of a stack entry. A `Unit` is a Ruby Class; `classCall` is
    * present when the class object itself also responds to `call`.
    */
  datatype Target =
    | Unit(id: Id, script: Script, classCall: Option<Effect>)
    | Fn(id: Id, effect: Effect)
    | Invalid(id: Id)

  /**
    * The second slot of a stack item: an array of arguments, or a single
    * value that Ruby's splat turns into arguments (nil into none at all).
    */
  datatype ArgsSlot = ArgList(list: seq<Value>) | ArgValue(v: Value)

  /** An item of the stack given to the runner: a bare target, or `[target, args, block]`. */
  datatype RawEntry =
    | Bare(target: Target)
    | Listed(target: Target, slot: ArgsSlot, block: Option<Value>)

  /**
    * An unpacked item. A block is represented by the value it returns when
    * it is called.
    */
  datatype Entry = Entry(target: Target, args: seq<Value>, block: Option<Value>)

  /** A compiled chain: each node holds the node it calls next. */
  datatype Chain =
    | Terminal
    | Instance(unit: Id, script: Script, app: Chain, args: seq<Value>, block: Option<Value>)
    | Wrapped(fn: Id, effect: Effect, next: Chain)

  /** The middleware a compiled node calls next, if any. */
  function Inner(c: Chain): Option<Chain> {
    match c
    case Terminal => None
    case Instance(_, _, app, _, _) => Some(app)
    case Wrapped(_, _, next) => Some(next)
  }

  /** How many layers a compiled chain has in front of its terminal. */
  function Depth(c: Chain): nat {
    match c
    case Terminal => 0
    case Instance(_, _, app, _, _) => 1 + Depth(app)
    case Wrapped(_, _, next) => 1 + Depth(next)
  }

  /** Raised while the runner is constructed, for the target the fold was processing. */
  datatype ConfigError = InvalidMiddleware(id: Id)

  /** How a call of a chain ends. */
  datatype Outcome = Done(trace: Trace, result: Value) | Raised(trace: Trace)

  /** `EMPTY_MIDDLEWARE`, the middleware that ends every chain: called, it records nothing and returns nil. */
  function EmptyMiddleware(): (c: Chain)
    ensures forall env, log :: Run(c, env, log) == Done(log, Nil)
  {
    Terminal
  }

  /** `klass, args, block = item` followed by `args ||= []` and the splat `*args`. */
  function Unpack(item: RawEntry): Entry
  {
    match item
    case Bare(t) => Entry(t, [], None)
    case Listed(t, ArgList(list), b) => Entry(t, list, b)
    case Listed(t, ArgValue(v), b) => Entry(t, if v == Nil then [] else [v], b)
  }

  /**
    * Unpacking keeps the target and the block, passes an argument list as it
    * is, a single value as the only argument, and nil as no argument at all.
    */
  lemma UnpackArguments(item: RawEntry)
    ensures Unpack(item).target == item.target
    ensures Unpack(item).block == if item.Listed? then item.block else None
    ensures item.Bare? || item.slot == ArgValue(Nil) ==> Unpack(item).args == []
    ensures item.Listed? && item.slot.ArgList? ==> Unpack(item).args == item.slot.list
    ensures item.Listed? && item.slot.ArgValue? && item.slot.v != Nil ==> Unpack(item).args == [item.slot.v]
  {
  }

  /**
    * One step of the fold: the three-way dispatch on the entry's target. A
    * class is instantiated around `next` (the class test comes first, so
    * this holds even when the class responds to `call`), a callable is
    * wrapped around `next`, and anything else raises, naming that target.
    */
  function Wrap(e: Entry, next: Chain): (r: Result<Chain, ConfigError>)
    ensures r.Err? <==> e.target.Invalid?
    ensures r.Err? ==> r.error == InvalidMiddleware(e.target.id)
    ensures r.Ok? ==> Inner(r.value) == Some(next)
    ensures e.target.Unit? ==> r == Ok(Instance(e.target.id, e.target.script, next, e.args, e.block))
    ensures e.target.Fn? ==> r == Ok(Wrapped(e.target.id, e.target.effect, next))
  {
    match e.target
    case Unit(id, script, _) => Ok(Instance(id, script, next, e.args, e.block))
    case Fn(id, effect) => Ok(Wrapped(id, effect, next))
    case Invalid(id) => Err(InvalidMiddleware(id))
  }

  /** `stack.reverse.inject(next) { ... }`: wraps the last entry first. */
  function BuildCallChain(stack: seq<RawEntry>, next: Chain): Result<Chain, ConfigError>
    decreases |stack|
  {
    if stack == [] then Ok(next)
    else
      match Wrap(Unpack(stack[|stack| - 1]), next)
      case Err(err) => Err(err)
      case Ok(wrapped) => BuildCallChain(stack[..|stack| - 1], wrapped)
  }

  /** `Runner.new(stack)`: the kickoff middleware, or the error construction raises. */
  function New(stack: seq<RawEntry>): Result<Chain, ConfigError> {
    BuildCallChain(stack, EmptyMiddleware())
  }

  /** What a callable's steps record, given the environment. */
  function Perform(steps: seq<Step>, env: Value): Trace {
    if steps == [] then []
    else
      (match steps[0] case Mark(v) => [v] case MarkEnv => [env]) + Perform(steps[1..], env)
  }

  /** What a middleware instance's steps record, given the environment and its construction payload. */
  function PerformUnit(steps: seq<UnitStep>, env: Value, args: seq<Value>, block: Option<Value>): Trace {
    if steps == [] then []
    else
      var head :=
        match steps[0]
        case Do(s) => Perform([s], env)
        case MarkArgs => args
        case MarkBlock => [block.GetOr(Nil)];
      head + PerformUnit(steps[1..], env, args, block)
  }

  /** The value a middleware instance returns, given what the next middleware returned, if anything. */
  function Answered(answer: Answer, fromNext: Option<Value>): Value {
    match answer
    case NextResult => fromNext.GetOr(Nil)
    case Fixed(v) => v
  }

  /** `chain.call(env)`, starting from what has been recorded so far. */
  function Run(c: Chain, env: Value, log: Trace): Outcome
    decreases c
  {
    match c
    case Terminal => Done(log, Nil)
    case Wrapped(_, effect, next) =>
      var t := log + Perform(effect.steps, env);
      if effect.raises then Raised(t) else Run(next, env, t)
    case Instance(_, script, app, args, block) =>
      var t := log + PerformUnit(script.before, env, args, block);
      match script.forward
      case Stop =>
        Done(t + PerformUnit(script.after, env, args, block), Answered(script.answer, None))
      case Pass(rescue) =>
        match Run(app, env, t)
        case Done(t', v) =>
          Done(t' + PerformUnit(script.after, env, args, block), Answered(script.answer, Some(v)))
        case Raised(t') =>
          match rescue
          case Propagate => Raised(t')
          case Handle(handler, reraise) =>
            var t'' := t' + PerformUnit(handler, env, args, block);
            if reraise then Raised(t'')
            else Done(t'' + PerformUnit(script.after, env, args, block), Answered(script.answer, None))
  }

  /** A call only appends to what was recorded before it: nothing recorded is ever rewritten or dropped. */
  lemma {:induction false} RunOnlyAppends(c: Chain, env: Value, log: Trace)
    ensures log <= Run(c, env, log).trace
    decreases c
  {
    match c
    case Terminal =>
    case Wrapped(_, effect, next) =>
      var t := log + Perform(effect.steps, env);
      if !effect.raises {
        RunOnlyAppends(next, env, t);
      }
    case Instance(_, script, app, args, block) =>
      var t := log + PerformUnit(script.before, env, args, block);
      if script.forward.Pass? {
        RunOnlyAppends(app, env, t);
      }
  }

  /**
    * `Runner.new(stack).call(env)`: it fails, before anything runs, exactly
    * when some target is neither a class nor callable.
    */
  function Invoke(stack: seq<RawEntry>, env: Value, log: Trace): (r: Result<Outcome, ConfigError>)
    ensures r.Err? <==> !AllValid(stack)
  {
    NewFailsOnInvalid(stack);
    match New(stack)
    case Err(err) => Err(err)
    case Ok(kickoff) => Ok(Run(kickoff, env, log))
  }

  // ---------------------------------------------------------------------------
  // Classification of entries used by the laws below

  /** No entry of the stack has a target that is neither a class nor callable. */
  ghost predicate AllValid(stack: seq<RawEntry>) {
    forall i :: 0 <= i < |stack| ==> !stack[i].target.Invalid?
  }

  /** An entry that lets control and exceptions pass straight through to the rest of the chain. */
  predicate Transparent(t: Target) {
    (t.Unit? && t.script.forward == Pass(Propagate)) || (t.Fn? && !t.effect.raises)
  }

  /** An entry after which nothing runs: a class that does not call next, or a callable that raises. */
  predicate Stopper(t: Target) {
    (t.Unit? && t.script.forward == Stop) || (t.Fn? && t.effect.raises)
  }

  /** What one entry records on the way in. */
  function EnteringOne(item: RawEntry, env: Value): Trace {
    var e := Unpack(item);
    match e.target
    case Unit(_, script, _) => PerformUnit(script.before, env, e.args, e.block)
    case Fn(_, effect) => Perform(effect.steps, env)
    case Invalid(_) => []
  }

  /** What one entry records on the way out. */
  function LeavingOne(item: RawEntry, env: Value): Trace {
    var e := Unpack(item);
    if e.target.Unit? then PerformUnit(e.target.script.after, env, e.args, e.block) else []
  }

  /** What the entries record on the way in, front to back. */
  function Entering(stack: seq<RawEntry>, env: Value): Trace {
    if stack == [] then [] else EnteringOne(stack[0], env) + Entering(stack[1..], env)
  }

  /** What the entries record on the way out, back to front. */
  function Leaving(stack: seq<RawEntry>, env: Value): Trace {
    if stack == [] then [] else Leaving(stack[1..], env) + LeavingOne(stack[0], env)
  }

  // ---------------------------------------------------------------------------
  // The fold

  /** Folding a concatenation folds the back part first and continues from its result. */
  lemma {:induction false} BuildAppend(p: seq<RawEntry>, u: seq<RawEntry>, next: Chain)
    ensures BuildCallChain(p + u, next) ==
      match BuildCallChain(u, next)
      case Err(err) => Err(err)
      case Ok(c) => BuildCallChain(p, c)
    decreases |u|
  {
    if u == [] {
      assert p + u == p;
    } else {
      var last := u[|u| - 1];
      var u' := u[..|u| - 1];
      assert (p + u)[|p + u| - 1] == last;
      assert (p + u)[..|p + u| - 1] == p + u';
      match Wrap(Unpack(last), next)
      case Err(_) =>
      case Ok(w) =>
        BuildAppend(p, u', w);
    }
  }

  /** The first entry wraps the chain compiled from the rest. */
  lemma BuildCons(e: RawEntry, s: seq<RawEntry>, next: Chain)
    ensures BuildCallChain([e] + s, next) ==
      match BuildCallChain(s, next)
      case Err(err) => Err(err)
      case Ok(c) => Wrap(Unpack(e), c)
  {
    BuildAppend([e], s, next);
  }

  /** Construction succeeds exactly when every target is a class or callable. */
  lemma {:induction false} BuildOkIffValid(stack: seq<RawEntry>, next: Chain)
    ensures BuildCallChain(stack, next).Ok? <==> AllValid(stack)
    decreases |stack|
  {
    if stack != [] {
      var last := stack[|stack| - 1];
      var s' := stack[..|stack| - 1];
      assert forall i :: 0 <= i < |s'| ==> s'[i] == stack[i];
      match Wrap(Unpack(last), next)
      case Err(_) =>
      case Ok(w) =>
        BuildOkIffValid(s', w);
        if AllValid(s') {
          forall i | 0 <= i < |stack| ensures !stack[i].target.Invalid? {
            if i < |s'| { assert stack[i] == s'[i]; }
          }
        }
    }
  }

  /** A successful fold turns every entry into exactly one layer around what it was folded onto. */
  lemma {:induction false} BuildLayers(stack: seq<RawEntry>, next: Chain)
    requires BuildCallChain(stack, next).Ok?
    ensures Depth(BuildCallChain(stack, next).value) == Depth(next) + |stack|
    decreases |stack|
  {
    if stack != [] {
      var w := Wrap(Unpack(stack[|stack| - 1]), next);
      BuildLayers(stack[..|stack| - 1], w.value);
    }
  }

  /** When construction fails, it names the last invalid target, the first one the fold meets. */
  lemma {:induction false} BuildReportsLastInvalid(stack: seq<RawEntry>, next: Chain)
    requires BuildCallChain(stack, next).Err?
    ensures exists j ::
      && 0 <= j < |stack| && stack[j].target.Invalid?
      && BuildCallChain(stack, next).error == InvalidMiddleware(stack[j].target.id)
      && forall k :: j < k < |stack| ==> !stack[k].target.Invalid?
    decreases |stack|
  {
    var last := stack[|stack| - 1];
    var s' := stack[..|stack| - 1];
    match Wrap(Unpack(last), next)
    case Err(_) =>
      assert stack[|stack| - 1].target.Invalid?;
    case Ok(w) =>
      BuildReportsLastInvalid(s', w);
      var j :| 0 <= j < |s'| && s'[j].target.Invalid? &&
        BuildCallChain(s', w).error == InvalidMiddleware(s'[j].target.id) &&
        forall k :: j < k < |s'| ==> !s'[k].target.Invalid?;
      assert stack[j] == s'[j];
      forall k | j < k < |stack| ensures !stack[k].target.Invalid? {
        if k < |s'| { assert stack[k] == s'[k]; }
      }
  }

  /** An empty stack compiles to the empty middleware, which records nothing, raises nothing and returns nil. */
  lemma EmptyStackDoesNothing(env: Value, log: Trace)
    ensures New([]) == Ok(EmptyMiddleware())
    ensures Run(EmptyMiddleware(), env, log) == Done(log, Nil)
  {
  }

  /** Runner construction fails exactly when some target is neither a class nor callable, naming the last such one. */
  lemma NewFailsOnInvalid(stack: seq<RawEntry>)
    ensures New(stack).Ok? <==> AllValid(stack)
    ensures New(stack).Err? ==> exists j ::
      && 0 <= j < |stack| && stack[j].target.Invalid?
      && New(stack).error == InvalidMiddleware(stack[j].target.id)
      && forall k :: j < k < |stack| ==> !stack[k].target.Invalid?
  {
    BuildOkIffValid(stack, EmptyMiddleware());
    if New(stack).Err? {
      BuildReportsLastInvalid(stack, EmptyMiddleware());
    }
  }

  /**
    * A class is instantiated, never called, even when it responds to `call`:
    * with the rest of the chain first, then its arguments (none for a bare
    * item or a nil slot), then its block.
    */
  lemma UnitInstantiatedWithNext(e: RawEntry, s: seq<RawEntry>, c: Chain)
    requires New(s) == Ok(c) && e.target.Unit?
    ensures New([e] + s).Ok? && New([e] + s).value.Instance?
    ensures e.Bare? ==>
      New([e] + s) == Ok(Instance(e.target.id, e.target.script, c, [], None))
    ensures e.Listed? && e.slot.ArgList? ==>
      New([e] + s) == Ok(Instance(e.target.id, e.target.script, c, e.slot.list, e.block))
    ensures e.Listed? && e.slot == ArgValue(Nil) ==>
      New([e] + s) == Ok(Instance(e.target.id, e.target.script, c, [], e.block))
    ensures e.Listed? && e.slot.ArgValue? && e.slot.v != Nil ==>
      New([e] + s) == Ok(Instance(e.target.id, e.target.script, c, [e.slot.v], e.block))
  {
    BuildCons(e, s, EmptyMiddleware());
  }

  /**
    * A callable runs, then always calls the rest of the chain unless it
    * raised; its own return value is dropped.
    */
  lemma CallableThenNext(e: RawEntry, s: seq<RawEntry>, c: Chain, env: Value, log: Trace)
    requires New(s) == Ok(c) && e.target.Fn?
    ensures New([e] + s).Ok?
    ensures var t := log + Perform(e.target.effect.steps, env);
      Run(New([e] + s).value, env, log) == if e.target.effect.raises then Raised(t) else Run(c, env, t)
  {
    BuildCons(e, s, EmptyMiddleware());
  }

  // ---------------------------------------------------------------------------
  // Running compiled chains

  /**
    * `outer` is what a call running `inner` inside it produced: it raised
    * exactly when `inner` did, and recorded `out` after `inner` only when
    * `inner` returned.
    */
  predicate Encloses(outer: Outcome, inner: Outcome, out: Trace) {
    outer.Raised? == inner.Raised? &&
    outer.trace == inner.trace + (if inner.Done? then out else [])
  }

  /** One transparent entry in front of a chain: its way in, the chain, then its way out unless the chain raised. */
  lemma WrapTransparent(item: RawEntry, c: Chain, env: Value, log: Trace)
    requires Transparent(item.target)
    ensures Wrap(Unpack(item), c).Ok?
    ensures Encloses(Run(Wrap(Unpack(item), c).value, env, log),
                     Run(c, env, log + EnteringOne(item, env)), LeavingOne(item, env))
  {
    if item.target.Fn? {
      var inner := Run(c, env, log + EnteringOne(item, env));
      assert inner.trace + [] == inner.trace;
    }
  }

  /** Nesting two enclosing calls: the outer one encloses the innermost run, both ways out in order. */
  lemma EnclosesNest(r: Outcome, mid: Outcome, inner: Outcome, out1: Trace, out2: Trace)
    requires Encloses(mid, inner, out1) && Encloses(r, mid, out2)
    ensures Encloses(r, inner, out1 + out2)
  {
    if inner.Done? {
      assert inner.trace + out1 + out2 == inner.trace + (out1 + out2);
    } else {
      assert inner.trace + [] + [] == inner.trace;
    }
  }

  /** What a stack with one more entry in front records on the way in and out. */
  lemma ConsTraces(e: RawEntry, s: seq<RawEntry>, env: Value, log: Trace)
    ensures Entering([e] + s, env) == EnteringOne(e, env) + Entering(s, env)
    ensures log + Entering([e] + s, env) == log + EnteringOne(e, env) + Entering(s, env)
    ensures Leaving([e] + s, env) == Leaving(s, env) + LeavingOne(e, env)
  {
    var stack := [e] + s;
    assert stack[0] == e && stack[1..] == s;
    assert log + (EnteringOne(e, env) + Entering(s, env)) == log + EnteringOne(e, env) + Entering(s, env);
  }

  /**
    * The inductive step of the onion law, on compiled chains: when `c`
    * encloses `x`, one transparent entry wrapped around `c` encloses `x`
    * too, its way in first and its way out last.
    */
  lemma OnionStep(e: RawEntry, c: Chain, w: Chain, x: Chain, sIn: Trace, sOut: Trace, env: Value, log: Trace)
    requires Transparent(e.target) && Wrap(Unpack(e), c) == Ok(w)
    requires Encloses(Run(c, env, log + EnteringOne(e, env)), Run(x, env, log + EnteringOne(e, env) + sIn), sOut)
    ensures Encloses(Run(w, env, log), Run(x, env, log + EnteringOne(e, env) + sIn), sOut + LeavingOne(e, env))
  {
    WrapTransparent(e, c, env, log);
    EnclosesNest(Run(w, env, log), Run(c, env, log + EnteringOne(e, env)),
                 Run(x, env, log + EnteringOne(e, env) + sIn), sOut, LeavingOne(e, env));
  }

  /**
    * Onion law: a stack of transparent entries records its way in, runs what
    * it was folded onto, and, unless that raised, records its way out in
    * reverse; an exception passes through untouched.
    */
  lemma {:induction false} OnionLaw(stack: seq<RawEntry>, x: Chain, env: Value, log: Trace)
    requires forall i :: 0 <= i < |stack| ==> Transparent(stack[i].target)
    ensures BuildCallChain(stack, x).Ok?
    ensures Encloses(Run(BuildCallChain(stack, x).value, env, log),
                     Run(x, env, log + Entering(stack, env)), Leaving(stack, env))
    decreases |stack|
  {
    if stack == [] {
      assert log + [] == log;
      assert Run(x, env, log).trace + [] == Run(x, env, log).trace;
    } else {
      var e := stack[0];
      var s' := stack[1..];
      assert stack == [e] + s';
      OnionLaw(s', x, env, log + EnteringOne(e, env));
      BuildCons(e, s', x);
      ConsTraces(e, s', env, log);
      var c := BuildCallChain(s', x).value;
      OnionStep(e, c, BuildCallChain(stack, x).value, x, Entering(s', env), Leaving(s', env), env, log);
    }
  }

  /**
    * Onion order: a stack of transparent entries runs every entry's way in,
    * front to back, then every way out, back to front.
    */
  lemma OnionOrder(stack: seq<RawEntry>, env: Value, log: Trace)
    requires forall i :: 0 <= i < |stack| ==> Transparent(stack[i].target)
    ensures New(stack).Ok?
    ensures Run(New(stack).value, env, log).Done?
    ensures Run(New(stack).value, env, log).trace == log + Entering(stack, env) + Leaving(stack, env)
  {
    OnionLaw(stack, EmptyMiddleware(), env, log);
  }

  /** Callables alone run in order, each once, and the chain returns nil. */
  lemma {:induction false} CallablesInOrder(stack: seq<RawEntry>, env: Value, log: Trace)
    requires forall i :: 0 <= i < |stack| ==> stack[i].target.Fn? && !stack[i].target.effect.raises
    ensures New(stack).Ok?
    ensures Run(New(stack).value, env, log) == Done(log + Entering(stack, env), Nil)
    decreases |stack|
  {
    if stack == [] {
      assert log + [] == log;
    } else {
      var e := stack[0];
      var s' := stack[1..];
      assert stack == [e] + s';
      var steps := Perform(e.target.effect.steps, env);
      CallablesInOrder(s', env, log + steps);
      CallableThenNext(e, s', New(s').value, env, log);
      ConsTraces(e, s', env, log);
      assert EnteringOne(e, env) == steps;
    }
  }

  /**
    * Once a stack holds a stopper, what it is folded onto never runs: the
    * result is the same whatever follows.
    */
  lemma {:induction false} StopperHidesTail(stack: seq<RawEntry>, k: nat, x: Chain, y: Chain, env: Value, log: Trace)
    requires k < |stack| && Stopper(stack[k].target)
    requires BuildCallChain(stack, x).Ok? && BuildCallChain(stack, y).Ok?
    ensures Run(BuildCallChain(stack, x).value, env, log) == Run(BuildCallChain(stack, y).value, env, log)
    decreases |stack|
  {
    var e := stack[0];
    var s' := stack[1..];
    assert stack == [e] + s';
    BuildCons(e, s', x);
    BuildCons(e, s', y);
    if k > 0 {
      var u := Unpack(e);
      match u.target
      case Unit(_, script, _) =>
        StopperHidesTail(s', k - 1, x, y, env, log + PerformUnit(script.before, env, u.args, u.block));
      case Fn(_, effect) =>
        StopperHidesTail(s', k - 1, x, y, env, log + Perform(effect.steps, env));
    }
  }

  /**
    * Short-circuit: after a class that does not call next, or a callable
    * that raises, no later entry runs.
    */
  lemma ShortCircuit(p: seq<RawEntry>, u: seq<RawEntry>, k: nat, env: Value, log: Trace)
    requires k < |p| && Stopper(p[k].target)
    requires New(p + u).Ok?
    ensures New(p).Ok?
    ensures Run(New(p + u).value, env, log) == Run(New(p).value, env, log)
  {
    BuildAppend(p, u, EmptyMiddleware());
    var tail := New(u).value;
    BuildOkIffValid(p + u, EmptyMiddleware());
    assert forall i :: 0 <= i < |p| ==> p[i] == (p + u)[i];
    BuildOkIffValid(p, tail);
    BuildOkIffValid(p, EmptyMiddleware());
    StopperHidesTail(p, k, tail, EmptyMiddleware(), env, log);
  }

  /**
    * Fault propagation: a callable that raises behind transparent entries
    * makes the whole chain raise, after each entry in front of it recorded
    * its way in and none recorded its way out.
    */
  lemma FaultUnwinds(stack: seq<RawEntry>, k: nat, env: Value, log: Trace)
    requires k < |stack| && AllValid(stack)
    requires forall i :: 0 <= i < k ==> Transparent(stack[i].target)
    requires stack[k].target.Fn? && stack[k].target.effect.raises
    ensures New(stack).Ok?
    ensures Run(New(stack).value, env, log) ==
      Raised(log + Entering(stack[..k], env) + Perform(stack[k].target.effect.steps, env))
  {
    var p, u := stack[..k], stack[k..];
    assert stack == p + u;
    assert u == [stack[k]] + u[1..];
    BuildOkIffValid(stack, EmptyMiddleware());
    BuildOkIffValid(u[1..], EmptyMiddleware());
    BuildAppend(p, u, EmptyMiddleware());
    CallableThenNext(stack[k], u[1..], New(u[1..]).value, env, log + Entering(p, env));
    OnionLaw(p, New(u).value, env, log);
  }

  /**
    * Rescue: when the rest of the chain raises, a class that rescues runs its
    * handler; it raises again only if it re-raises, and otherwise carries on
    * with its way out.
    */
  lemma RescueStopsOrRethrows(e: RawEntry, s: seq<RawEntry>, c: Chain, env: Value, log: Trace)
    requires New(s) == Ok(c) && e.target.Unit? && e.target.script.forward.Pass?
    requires e.target.script.forward.rescue.Handle?
    requires
      var u := Unpack(e);
      Run(c, env, log + PerformUnit(e.target.script.before, env, u.args, u.block)).Raised?
    ensures New([e] + s).Ok?
    ensures
      var u := Unpack(e);
      var script := e.target.script;
      var handled := Run(c, env, log + PerformUnit(script.before, env, u.args, u.block)).trace +
        PerformUnit(script.forward.rescue.handler, env, u.args, u.block);
      var r := Run(New([e] + s).value, env, log);
      (r.Raised? <==> script.forward.rescue.reraise) &&
      r.trace == handled + (if r.Raised? then [] else PerformUnit(script.after, env, u.args, u.block))
  {
    BuildCons(e, s, EmptyMiddleware());
  }
}
