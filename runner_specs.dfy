/**
  * The scenarios of the runner's own specification, stated over the model
  * and derived from the general laws of `Runner`.
  */
module RunnerSpecs {
  import opened Wrappers
  import opened Runner

  function Tag(s: string): UnitStep { Do(Mark(Str(s))) }

  /** A middleware class that records `name`, calls next, and records `name` again. */
  function Around(id: Id, name: string): Target {
    Unit(id, Script([Tag(name)], Pass(Propagate), [Tag(name)], NextResult), None)
  }

  /** A lambda that records `name`. */
  function Recorder(id: Id, name: string): Target {
    Fn(id, Effect([Mark(Str(name))], false, Nil))
  }

  lemma TagRecords(name: string, env: Value, args: seq<Value>, block: Option<Value>)
    ensures Perform([Mark(Str(name))], env) == [Str(name)]
    ensures PerformUnit([Tag(name)], env, args, block) == [Str(name)]
  {
    assert [Mark(Str(name))][1..] == [];
    assert [Tag(name)][1..] == [];
  }

  lemma OneEntry(y: RawEntry, env: Value)
    ensures Entering([y], env) == EnteringOne(y, env)
    ensures Leaving([y], env) == LeavingOne(y, env)
  {
    assert [y][1..] == [];
    assert EnteringOne(y, env) + [] == EnteringOne(y, env);
    assert [] + LeavingOne(y, env) == LeavingOne(y, env);
  }

  lemma TwoEntries(x: RawEntry, y: RawEntry, env: Value)
    ensures Entering([x, y], env) == EnteringOne(x, env) + EnteringOne(y, env)
    ensures Leaving([x, y], env) == LeavingOne(y, env) + LeavingOne(x, env)
  {
    assert [x, y][1..] == [y];
    OneEntry(y, env);
  }

  /** Two classes that each record before and after calling next nest like an onion. */
  lemma ClassesInProperOrder(env: Value)
    ensures Invoke([Bare(Around(1, "A")), Bare(Around(2, "B"))], env, []).Ok?
    ensures Invoke([Bare(Around(1, "A")), Bare(Around(2, "B"))], env, []).value ==
      Done([Str("A"), Str("B"), Str("B"), Str("A")], Nil)
  {
    var stack := [Bare(Around(1, "A")), Bare(Around(2, "B"))];
    OnionOrder(stack, env, []);
    TwoEntries(stack[0], stack[1], env);
    TagRecords("A", env, [], None);
    TagRecords("B", env, [], None);
    var b := New([Bare(Around(2, "B"))]).value;
    UnitInstantiatedWithNext(Bare(Around(2, "B")), [], EmptyMiddleware());
    assert [Bare(Around(2, "B"))] + [] == [Bare(Around(2, "B"))];
    UnitInstantiatedWithNext(Bare(Around(1, "A")), [Bare(Around(2, "B"))], b);
    assert [Bare(Around(1, "A"))] + [Bare(Around(2, "B"))] == stack;
  }

  /** Two lambdas run in order. */
  lemma LambdasInProperOrder(env: Value)
    ensures Invoke([Bare(Recorder(1, "A")), Bare(Recorder(2, "B"))], env, []) ==
      Ok(Done([Str("A"), Str("B")], Nil))
  {
    var stack := [Bare(Recorder(1, "A")), Bare(Recorder(2, "B"))];
    CallablesInOrder(stack, env, []);
    TwoEntries(stack[0], stack[1], env);
    TagRecords("A", env, [], None);
    TagRecords("B", env, [], None);
    assert EnteringOne(stack[0], env) == [Str("A")];
    assert EnteringOne(stack[1], env) == [Str("B")];
    assert [] + Entering(stack, env) == [Str("A"), Str("B")];
  }

  /** `[[with_argument, 42]]`: the single value in the argument slot reaches the instance. */
  lemma PassesArguments(env: Value)
    ensures
      var withArgument := Unit(1, Script([MarkArgs], Stop, [], NextResult), None);
      Invoke([Listed(withArgument, ArgValue(Int(42)), None)], env, []) == Ok(Done([Int(42)], Nil))
  {
    var withArgument := Unit(1, Script([MarkArgs], Stop, [], NextResult), None);
    var item := Listed(withArgument, ArgValue(Int(42)), None);
    UnitInstantiatedWithNext(item, [], EmptyMiddleware());
    assert [item] + [] == [item];
    assert [MarkArgs][1..] == [];
    assert PerformUnit([MarkArgs], env, [Int(42)], None) == [Int(42)] + [];
    var c := Instance(1, withArgument.script, EmptyMiddleware(), [Int(42)], None);
    assert New([item]) == Ok(c);
    assert Run(c, env, []) == Done([] + [Int(42)] + [], Nil);
    assert [] + [Int(42)] + [] == [Int(42)];
  }

  /** `[[with_block, nil, block]]`: a nil argument slot and a block that returns 42. */
  lemma PassesBlock(env: Value)
    ensures
      var withBlock := Unit(1, Script([MarkBlock], Stop, [], NextResult), None);
      Invoke([Listed(withBlock, ArgValue(Nil), Some(Int(42)))], env, []) == Ok(Done([Int(42)], Nil))
  {
    var withBlock := Unit(1, Script([MarkBlock], Stop, [], NextResult), None);
    var item := Listed(withBlock, ArgValue(Nil), Some(Int(42)));
    UnitInstantiatedWithNext(item, [], EmptyMiddleware());
    assert [item] + [] == [item];
    assert [MarkBlock][1..] == [];
    assert PerformUnit([MarkBlock], env, [], Some(Int(42))) == [Int(42)] + [];
    var c := Instance(1, withBlock.script, EmptyMiddleware(), [], Some(Int(42)));
    assert New([item]) == Ok(c);
    assert Run(c, env, []) == Done([] + [Int(42)] + [], Nil);
    assert [] + [Int(42)] + [] == [Int(42)];
  }

  /** `Runner.new [27]` fails when constructed. */
  lemma RejectsInvalidMiddleware()
    ensures New([Bare(Invalid(27))]) == Err(InvalidMiddleware(27))
  {
    NewFailsOnInvalid([Bare(Invalid(27))]);
  }

  /** A class that does not call next keeps the lambda after it from running. */
  lemma UncalledMiddlewareDoesNotRun(env: Value)
    ensures
      var a := Unit(1, Script([Tag("A")], Stop, [], NextResult), None);
      Invoke([Bare(a), Bare(Recorder(2, "B"))], env, []) == Ok(Done([Str("A")], Nil))
  {
    var a := Unit(1, Script([Tag("A")], Stop, [], NextResult), None);
    var p := [Bare(a)];
    var u := [Bare(Recorder(2, "B"))];
    assert p + u == [Bare(a), Bare(Recorder(2, "B"))];
    NewFailsOnInvalid(p + u);
    ShortCircuit(p, u, 0, env, []);
    UnitInstantiatedWithNext(Bare(a), [], EmptyMiddleware());
    assert [Bare(a)] + [] == p;
    TagRecords("A", env, [], None);
    assert [] + [Str("A")] + [] == [Str("A")];
  }

  /** A of the exception scenarios: records A, rescues, records E and re-raises; NEVER is skipped. */
  function RethrowingA(): Target {
    Unit(1, Script([Tag("A")], Pass(Handle([Tag("E")], true)), [Tag("NEVER")], NextResult), None)
  }

  /** B of the exception scenarios: records B and calls next without a rescue. */
  function ForwardingB(): Target {
    Unit(2, Script([Tag("B")], Pass(Propagate), [], NextResult), None)
  }

  /** C of the exception scenarios: raises at once. */
  function RaisingC(): Target {
    Fn(3, Effect([], true, Nil))
  }

  /** Behind A, the chain of B and C raises after B has recorded. */
  lemma BThenCRaises(env: Value)
    ensures New([Bare(ForwardingB()), Bare(RaisingC())]).Ok?
    ensures Run(New([Bare(ForwardingB()), Bare(RaisingC())]).value, env, [Str("A")]) ==
      Raised([Str("A"), Str("B")])
  {
    var inner := [Bare(ForwardingB()), Bare(RaisingC())];
    NewFailsOnInvalid(inner);
    FaultUnwinds(inner, 1, env, [Str("A")]);
    assert inner[..1] == [Bare(ForwardingB())];
    OneEntry(Bare(ForwardingB()), env);
    TagRecords("B", env, [], None);
    assert [Str("A")] + Entering(inner[..1], env) + Perform([], env) == [Str("A"), Str("B")];
  }

  /** C raises through B into A, which records its handler and re-raises. */
  lemma ExceptionPropagates(env: Value)
    ensures Invoke([Bare(RethrowingA()), Bare(ForwardingB()), Bare(RaisingC())], env, []) ==
      Ok(Raised([Str("A"), Str("B"), Str("E")]))
  {
    var a := RethrowingA();
    var inner := [Bare(ForwardingB()), Bare(RaisingC())];
    BThenCRaises(env);
    TagRecords("A", env, [], None);
    TagRecords("E", env, [], None);
    assert [] + PerformUnit(a.script.before, env, [], None) == [Str("A")];
    RescueStopsOrRethrows(Bare(a), inner, New(inner).value, env, []);
    assert [Bare(a)] + inner == [Bare(a), Bare(ForwardingB()), Bare(RaisingC())];
    var r := Run(New([Bare(a)] + inner).value, env, []);
    assert r.Raised?;
    assert r.trace == [Str("A"), Str("B")] + [Str("E")] + [];
    assert [Str("A"), Str("B")] + [Str("E")] + [] == [Str("A"), Str("B"), Str("E")];
  }

  /** A of the rescue scenario: records IN_A, calls next, records OUT_A. */
  function OuterA(): Target {
    Unit(1, Script([Tag("IN_A")], Pass(Propagate), [Tag("OUT_A")], NextResult), None)
  }

  /** B of the rescue scenario: records IN_B, calls next with `rescue nil`, records OUT_B. */
  function RescuingB(): Target {
    Unit(2, Script([Tag("IN_B")], Pass(Handle([], false)), [Tag("OUT_B")], NextResult), None)
  }

  /** C of the rescue scenario: records IN_C and raises. */
  function BadC(): Target {
    Fn(3, Effect([Mark(Str("IN_C"))], true, Nil))
  }

  /** B rescues what C raises and finishes normally. */
  lemma RescuingBFinishes(env: Value)
    ensures New([Bare(RescuingB()), Bare(BadC())]).Ok?
    ensures Run(New([Bare(RescuingB()), Bare(BadC())]).value, env, [Str("IN_A")]).Done?
    ensures Run(New([Bare(RescuingB()), Bare(BadC())]).value, env, [Str("IN_A")]).trace ==
      [Str("IN_A"), Str("IN_B"), Str("IN_C"), Str("OUT_B")]
  {
    var b := RescuingB();
    var inner := [Bare(BadC())];
    NewFailsOnInvalid(inner);
    TagRecords("IN_B", env, [], None);
    TagRecords("IN_C", env, [], None);
    TagRecords("OUT_B", env, [], None);
    CallableThenNext(Bare(BadC()), [], EmptyMiddleware(), env, [Str("IN_A"), Str("IN_B")]);
    assert [Bare(BadC())] + [] == inner;
    assert [Str("IN_A")] + PerformUnit(b.script.before, env, [], None) == [Str("IN_A"), Str("IN_B")];
    assert Run(New(inner).value, env, [Str("IN_A"), Str("IN_B")]) == Raised([Str("IN_A"), Str("IN_B"), Str("IN_C")]);
    RescueStopsOrRethrows(Bare(b), inner, New(inner).value, env, [Str("IN_A")]);
    assert [Bare(b)] + inner == [Bare(RescuingB()), Bare(BadC())];
    assert [Str("IN_A"), Str("IN_B"), Str("IN_C")] + [] + [Str("OUT_B")] ==
      [Str("IN_A"), Str("IN_B"), Str("IN_C"), Str("OUT_B")];
  }

  /** C raises, B rescues without re-raising, and both B and A finish normally. */
  lemma RescueStopsPropagation(env: Value)
    ensures Invoke([Bare(OuterA()), Bare(RescuingB()), Bare(BadC())], env, []).Ok?
    ensures Invoke([Bare(OuterA()), Bare(RescuingB()), Bare(BadC())], env, []).value.Done?
    ensures Invoke([Bare(OuterA()), Bare(RescuingB()), Bare(BadC())], env, []).value.trace ==
      [Str("IN_A"), Str("IN_B"), Str("IN_C"), Str("OUT_B"), Str("OUT_A")]
  {
    var a := OuterA();
    var middle := [Bare(RescuingB()), Bare(BadC())];
    RescuingBFinishes(env);
    TagRecords("IN_A", env, [], None);
    TagRecords("OUT_A", env, [], None);
    var mc := New(middle).value;
    UnitInstantiatedWithNext(Bare(a), middle, mc);
    assert [Bare(a)] + middle == [Bare(OuterA()), Bare(RescuingB()), Bare(BadC())];
    assert [] + PerformUnit(a.script.before, env, [], None) == [Str("IN_A")];
  }
}
