/**
  * The scenarios of the builder's own specification: builders edited through
  * their methods and then called, with `appender_proc(n)`, a proc that
  * records `n`, as the middleware.
  */
module BuilderSpecs {
  import opened Wrappers
  import opened Runner
  import opened Builder

  const Env: Value := Str("env")

  /** `appender_proc(n)`, a distinct proc object identified by `id`. */
  function Appender(id: Id, n: int): Target {
    Fn(id, Effect([Mark(Int(n))], false, Nil))
  }

  function Ints(ns: seq<int>): (r: Trace)
    ensures |r| == |ns| && forall i :: 0 <= i < |ns| ==> r[i] == Int(ns[i])
  {
    seq(|ns|, i requires 0 <= i < |ns| => Int(ns[i]))
  }

  /** One appender records its number on the way in. */
  lemma AppenderEnters(e: Entry, n: int, env: Value)
    requires e.target.Fn? && e.target.effect == Effect([Mark(Int(n))], false, Nil)
    ensures EnteringOne(Listed(e.target, ArgList(e.args), e.block), env) == [Int(n)]
  {
    assert [Mark(Int(n))][1..] == [];
    assert Perform([Mark(Int(n))], env) == [Int(n)] + [];
  }

  /** The runner's view of a non-empty stack: its first item, then the view of the rest. */
  lemma ItemsCons(stack: seq<Entry>)
    requires stack != []
    ensures Items(stack)[0] == Listed(stack[0].target, ArgList(stack[0].args), stack[0].block)
    ensures Items(stack)[1..] == Items(stack[1..])
  {
  }

  /** A stack of appenders records their numbers in stack order. */
  lemma {:induction false} AppendersEnter(stack: seq<Entry>, ns: seq<int>, env: Value)
    requires |stack| == |ns|
    requires forall i :: 0 <= i < |stack| ==> stack[i].target.Fn? && stack[i].target.effect == Effect([Mark(Int(ns[i]))], false, Nil)
    ensures Entering(Items(stack), env) == Ints(ns)
    decreases |stack|
  {
    if stack != [] {
      ItemsCons(stack);
      AppendersEnter(stack[1..], ns[1..], env);
      AppenderEnters(stack[0], ns[0], env);
      assert Ints(ns) == [Int(ns[0])] + Ints(ns[1..]);
    }
  }

  /** Calling a builder whose stack holds only appenders records their numbers in stack order. */
  lemma AppendersRun(stack: seq<Entry>, ns: seq<int>, env: Value)
    requires |stack| == |ns|
    requires forall i :: 0 <= i < |stack| ==> stack[i].target.Fn? && stack[i].target.effect == Effect([Mark(Int(ns[i]))], false, Nil)
    ensures Invoke(Items(stack), env, []) == Ok(Done(Ints(ns), Nil))
  {
    CallablesInOrder(Items(stack), env, []);
    AppendersEnter(stack, ns, env);
    assert [] + Ints(ns) == Ints(ns);
  }

  /** Calling a builder whose stack holds only appenders. */
  method CallAppenders(b: Builder, ns: seq<int>) returns (r: Result<Outcome, ConfigError>)
    requires |b.stack| == |ns|
    requires forall i :: 0 <= i < |b.stack| ==> b.stack[i].target.Fn? && b.stack[i].target.effect == Effect([Mark(Int(ns[i]))], false, Nil)
    ensures r == Ok(Done(Ints(ns), Nil))
  {
    r := b.Call(Some(Env), []);
    AppendersRun(b.stack, ns, Env);
  }

  /** "adds multiple items": both procs run, in the order they were used. */
  method UseAddsItems() returns (r: Result<Outcome, ConfigError>)
    ensures r == Ok(Done([Int(1), Int(2)], Nil))
  {
    var b := new Builder();
    var self := b.Use(Appender(1, 1), [], None);
    self := b.Use(Appender(2, 2), [], None);
    r := CallAppenders(b, [1, 2]);
    assert Ints([1, 2]) == [Int(1), Int(2)];
  }

  /** "adds another builder": using a builder runs its entries. */
  method UseAddsBuilder() returns (r: Result<Outcome, ConfigError>)
    ensures r == Ok(Done([Int(1)], Nil))
  {
    var one := new Builder();
    var self := one.Use(Appender(1, 1), [], None);
    var two := new Builder();
    self := two.UseBuilder(one, [], None);
    r := CallAppenders(two, [1]);
    assert Ints([1]) == [Int(1)];
  }

  /** `use` of each given entry in turn, one plain middleware at a time. */
  method UseEach(b: Builder, entries: seq<Entry>)
    modifies b
    ensures b.stack == old(b.stack) + entries
  {
    var k := 0;
    while k < |entries|
      invariant 0 <= k <= |entries|
      invariant b.stack == old(b.stack) + entries[..k]
    {
      var self := b.Use(entries[k].target, entries[k].args, entries[k].block);
      assert entries[..k + 1] == entries[..k] + [entries[k]];
      k := k + 1;
    }
    assert entries[..k] == entries;
  }

  /**
    * Using a builder gives the same stack, so the same runs, as using its
    * entries one by one, whatever either stack held before and whatever
    * arguments and block come with the builder.
    */
  method UseBuilderSplices(spliced: Builder, individually: Builder, sub: Builder, args: seq<Value>, block: Option<Value>)
    requires spliced != individually && spliced.stack == individually.stack
    modifies spliced, individually
    ensures spliced.stack == individually.stack == old(spliced.stack) + old(sub.stack)
  {
    var entries := sub.stack;
    var self := spliced.UseBuilder(sub, args, block);
    UseEach(individually, entries);
  }

  /** "adds items to the stack and make them callable": a single used proc runs. */
  method UseAddsItem() returns (r: Result<Outcome, ConfigError>)
    ensures r == Ok(Done([Int(1)], Nil))
  {
    var b := new Builder();
    var self := b.Use(Appender(1, 1), [], None);
    r := CallAppenders(b, [1]);
    assert Ints([1]) == [Int(1)];
  }

  /** "defaults the env to nil if not given". */
  method DefaultsEnvToNil() returns (r: Result<Outcome, ConfigError>)
    ensures r == Ok(Done([Nil], Nil))
  {
    var b := new Builder();
    var self := b.Use(Fn(1, Effect([MarkEnv], false, Nil)), [], None);
    r := b.Call(None, []);
    var items := Items(b.stack);
    assert [MarkEnv][1..] == [];
    assert Perform([MarkEnv], Nil) == [Nil] + [];
    CallableThenNext(items[0], [], EmptyMiddleware(), Nil, []);
    assert [items[0]] + [] == items;
    assert [] + [Nil] == [Nil];
    assert Run(New(items).value, Nil, []) == Done([Nil], Nil);
  }

  /** "can insert at an index". */
  method InsertAtIndex() returns (r: Result<Outcome, ConfigError>)
    ensures r == Ok(Done([Int(2), Int(1)], Nil))
  {
    var b := new Builder();
    var self := b.Use(Appender(1, 1), [], None);
    var _ := b.Insert(At(0), Appender(2, 2), [], None);
    r := CallAppenders(b, [2, 1]);
    assert Ints([2, 1]) == [Int(2), Int(1)];
  }

  /** "can insert before": through the `insert_before` alias. */
  method InsertBeforeIndex() returns (r: Result<Outcome, ConfigError>)
    ensures r == Ok(Done([Int(2), Int(1)], Nil))
  {
    var b := new Builder();
    var self := b.Use(Appender(1, 1), [], None);
    var _ := b.InsertBefore(At(0), Appender(2, 2), [], None);
    r := CallAppenders(b, [2, 1]);
    assert Ints([2, 1]) == [Int(2), Int(1)];
  }

  /** "can insert next to a previous object": in front of the first entry whose target is proc2. */
  method InsertNextToObject() returns (r: Result<Outcome, ConfigError>)
    ensures r == Ok(Done([Int(1), Int(3), Int(2)], Nil))
  {
    var b := new Builder();
    var self := b.Use(Appender(1, 1), [], None);
    self := b.Use(Appender(2, 2), [], None);
    FirstMatchIs(b.stack, 2, 1);
    var _ := b.Insert(Named(2), Appender(3, 3), [], None);
    r := CallAppenders(b, [1, 3, 2]);
    assert Ints([1, 3, 2]) == [Int(1), Int(3), Int(2)];
  }

  /** "raises an exception if attempting to insert before an invalid object". */
  method InsertBeforeMissing() returns (r: Result<(), LookupError>)
    ensures r == Err(NoSuchToInsertBefore)
  {
    var b := new Builder();
    r := b.Insert(Named(99), Appender(1, 1), [], None);
  }

  /** "can insert after". */
  method InsertAfterIndex() returns (r: Result<Outcome, ConfigError>)
    ensures r == Ok(Done([Int(1), Int(2), Int(3)], Nil))
  {
    var b := new Builder();
    var self := b.Use(Appender(1, 1), [], None);
    self := b.Use(Appender(3, 3), [], None);
    var _ := b.InsertAfter(At(0), Appender(2, 2), [], None);
    r := CallAppenders(b, [1, 2, 3]);
    assert Ints([1, 2, 3]) == [Int(1), Int(2), Int(3)];
  }

  /** "raises an exception if attempting to insert after an invalid object". */
  method InsertAfterMissing() returns (r: Result<(), LookupError>)
    ensures r == Err(NoSuchToInsertAfter)
  {
    var b := new Builder();
    r := b.InsertAfter(Named(99), Appender(1, 1), [], None);
  }

  /** "can replace an object". */
  method ReplaceObject() returns (r: Result<Outcome, ConfigError>)
    ensures r == Ok(Done([Int(2)], Nil))
  {
    var b := new Builder();
    var self := b.Use(Appender(1, 1), [], None);
    var _ := b.Replace(Named(1), Appender(2, 2), [], None);
    r := CallAppenders(b, [2]);
    assert Ints([2]) == [Int(2)];
  }

  /** "can replace by index". */
  method ReplaceIndex() returns (r: Result<Outcome, ConfigError>)
    ensures r == Ok(Done([Int(2)], Nil))
  {
    var b := new Builder();
    var self := b.Use(Appender(1, 1), [], None);
    var _ := b.Replace(At(0), Appender(2, 2), [], None);
    r := CallAppenders(b, [2]);
    assert Ints([2]) == [Int(2)];
  }

  /** "can delete by object". */
  method DeleteObject() returns (r: Result<Outcome, ConfigError>)
    ensures r == Ok(Done([Int(2)], Nil))
  {
    var b := new Builder();
    var self := b.Use(Appender(1, 1), [], None);
    self := b.Use(Appender(2, 2), [], None);
    var _ := b.Delete(Named(1));
    r := CallAppenders(b, [2]);
    assert Ints([2]) == [Int(2)];
  }

  /** "can delete by index". */
  method DeleteIndex() returns (r: Result<Outcome, ConfigError>)
    ensures r == Ok(Done([Int(2)], Nil))
  {
    var b := new Builder();
    var self := b.Use(Appender(1, 1), [], None);
    self := b.Use(Appender(2, 2), [], None);
    var _ := b.Delete(At(0));
    r := CallAppenders(b, [2]);
    assert Ints([2]) == [Int(2)];
  }

  /** A call compiles the stack as it is then: an edit made after a call shows only in later calls. */
  method EditsAffectLaterCalls() returns (before: Result<Outcome, ConfigError>, after: Result<Outcome, ConfigError>)
    ensures before == Ok(Done([Int(1)], Nil))
    ensures after == Ok(Done([Int(2), Int(1)], Nil))
  {
    var b := new Builder();
    var self := b.Use(Appender(1, 1), [], None);
    before := CallAppenders(b, [1]);
    assert Ints([1]) == [Int(1)];
    var _ := b.Insert(At(0), Appender(2, 2), [], None);
    after := CallAppenders(b, [2, 1]);
    assert Ints([2, 1]) == [Int(2), Int(1)];
  }
}
