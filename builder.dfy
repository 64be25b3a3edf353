/**
  * The stack builder (`Middleware::Builder`): a mutable, ordered stack of
  * `[target, args, block]` entries with editing operations by position or by
  * target, compiled into a fresh runner every time it is called.
  */
module Builder {
  import opened Wrappers
  import opened Runner

  /** Where an edit applies: an integer position, or the first entry whose target is `==` to a given one. */
  datatype Ref = At(i: int) | Named(id: Id)

  /** The errors the editing operations raise when a target is not in the stack. */
  datatype LookupError =
    | NoSuchToInsertBefore   // `insert` / `insert_before`, and `replace` by target
    | NoSuchToInsertAfter    // `insert_after`
    | NilIndex               // `delete` by target: `delete_at nil`

  /** `stack.index { |item| item[0] == object }`: the first entry whose target is the given one. */
  function FirstMatch(stack: seq<Entry>, id: Id): (r: Option<nat>)
    ensures r.Some? ==> r.value < |stack| && stack[r.value].target.id == id
    ensures r.Some? ==> forall j :: 0 <= j < r.value ==> stack[j].target.id != id
    ensures r.None? <==> forall j :: 0 <= j < |stack| ==> stack[j].target.id != id
  {
    if stack == [] then None
    else if stack[0].target.id == id then Some(0)
    else
      match FirstMatch(stack[1..], id)
      case None => None
      case Some(p) => Some(p + 1)
  }

  /** The position an edit applies to: an integer as given, a target through `index` (its first match). */
  function Resolve(stack: seq<Entry>, ref: Ref): (r: Option<int>)
    ensures ref.At? ==> r == Some(ref.i)
    ensures ref.Named? && r.Some? ==> 0 <= r.value < |stack| && stack[r.value].target.id == ref.id
    ensures ref.Named? && r.Some? ==> forall j :: 0 <= j < r.value ==> stack[j].target.id != ref.id
    ensures ref.Named? ==> (r.None? <==> forall j :: 0 <= j < |stack| ==> stack[j].target.id != ref.id)
  {
    match ref
    case At(i) => Some(i)
    case Named(id) => FirstMatch(stack, id)
  }

  /** `Array#insert` at a position within the array: later entries shift right. */
  function InsertAt(s: seq<Entry>, i: int, e: Entry): (r: seq<Entry>)
    requires 0 <= i <= |s|
    ensures |r| == |s| + 1 && r[i] == e
    ensures forall j :: 0 <= j < i ==> r[j] == s[j]
    ensures forall j :: i < j < |r| ==> r[j] == s[j - 1]
  {
    s[..i] + [e] + s[i..]
  }

  /** `Array#delete_at` a position within the array: later entries shift left. */
  function RemoveAt(s: seq<Entry>, i: int): (r: seq<Entry>)
    requires 0 <= i < |s|
    ensures |r| == |s| - 1
    ensures forall j :: 0 <= j < i ==> r[j] == s[j]
    ensures forall j :: i <= j < |r| ==> r[j] == s[j + 1]
  {
    s[..i] + s[i + 1..]
  }

  /** Deleting what was just inserted gives back the original stack. */
  lemma RemoveInserted(s: seq<Entry>, i: int, e: Entry)
    requires 0 <= i <= |s|
    ensures RemoveAt(InsertAt(s, i, e), i) == s
  {
    var r := RemoveAt(InsertAt(s, i, e), i);
    assert |r| == |s|;
    forall j | 0 <= j < |s| ensures r[j] == s[j] { }
  }

  /** Inserting in front of an entry and then deleting that entry puts the new entry in its slot. */
  lemma RemoveAfterInserted(s: seq<Entry>, i: int, e: Entry)
    requires 0 <= i < |s|
    ensures RemoveAt(InsertAt(s, i, e), i + 1) == s[i := e]
  {
    var r := RemoveAt(InsertAt(s, i, e), i + 1);
    assert |r| == |s|;
    forall j | 0 <= j < |s| ensures r[j] == s[i := e][j] { }
  }

  /** Deleting an entry and inserting at its position puts the new entry in its slot. */
  lemma InsertIntoRemoved(s: seq<Entry>, i: int, e: Entry)
    requires 0 <= i < |s|
    ensures InsertAt(RemoveAt(s, i), i, e) == s[i := e]
  {
    var r := InsertAt(RemoveAt(s, i), i, e);
    assert |r| == |s|;
    forall j | 0 <= j < |s| ensures r[j] == s[i := e][j] { }
  }

  /** A position holding the target, with no earlier one holding it, is what `index` finds. */
  lemma FirstMatchIs(s: seq<Entry>, id: Id, q: nat)
    requires q < |s| && s[q].target.id == id
    requires forall j :: 0 <= j < q ==> s[j].target.id != id
    ensures FirstMatch(s, id) == Some(q)
  {
  }

  /**
    * After inserting in front of the first entry with a given target, the
    * first entry with that target is the new one if it has that target, and
    * otherwise still the old one, one place further on.
    */
  lemma FirstMatchAfterInsert(s: seq<Entry>, p: nat, e: Entry, id: Id)
    requires FirstMatch(s, id) == Some(p)
    ensures FirstMatch(InsertAt(s, p, e), id) == Some(if e.target.id == id then p else p + 1)
  {
    var s' := InsertAt(s, p, e);
    if e.target.id == id {
      forall j | 0 <= j < p ensures s'[j].target.id != id {
        assert s'[j] == s[j];
      }
      FirstMatchIs(s', id, p);
    } else {
      forall j | 0 <= j < p + 1 ensures s'[j].target.id != id {
        if j < p { assert s'[j] == s[j]; }
      }
      assert s'[p + 1] == s[p];
      FirstMatchIs(s', id, p + 1);
    }
  }

  /** The runner's view of the builder's entries: each one as `[target, args, block]`. */
  function Items(stack: seq<Entry>): (r: seq<RawEntry>)
    ensures |r| == |stack|
    ensures forall i :: 0 <= i < |stack| ==> Unpack(r[i]) == stack[i] && r[i].target == stack[i].target
  {
    seq(|stack|, i requires 0 <= i < |stack| => Listed(stack[i].target, ArgList(stack[i].args), stack[i].block))
  }

  class Builder {
    /** `@stack`, once initialised; the entries in execution order. */
    var stack: seq<Entry>

    /** A builder with an empty stack (the default runner, no setup block). */
    constructor ()
      ensures stack == []
    {
      stack := [];
    }

    /** `use` of a middleware that is not a builder: append one entry; returns the builder. */
    method Use(middleware: Target, args: seq<Value>, block: Option<Value>) returns (self: Builder)
      modifies this
      ensures self == this
      ensures stack == old(stack) + [Entry(middleware, args, block)]
    {
      stack := stack + [Entry(middleware, args, block)];
      self := this;
    }

    /**
      * `use` of another builder: append that builder's current entries, in
      * order; the arguments and block given with it are ignored.
      */
    method UseBuilder(other: Builder, args: seq<Value>, block: Option<Value>) returns (self: Builder)
      modifies this
      ensures self == this
      ensures stack == old(stack) + old(other.stack)
    {
      stack := stack + other.stack;
      self := this;
    }

    /**
      * `insert` (alias `insert_before`): put a new entry at a position, or in
      * front of the first entry with the given target; raise, changing
      * nothing, when there is none.
      */
    method Insert(ref: Ref, middleware: Target, args: seq<Value>, block: Option<Value>)
      returns (r: Result<(), LookupError>)
      requires ref.At? ==> 0 <= ref.i <= |stack|
      modifies this
      ensures Resolve(old(stack), ref).None? ==> r == Err(NoSuchToInsertBefore) && stack == old(stack)
      ensures Resolve(old(stack), ref).Some? ==>
        r.Ok? && stack == InsertAt(old(stack), Resolve(old(stack), ref).value, Entry(middleware, args, block))
    {
      var index := Resolve(stack, ref);
      if index.None? {
        return Err(NoSuchToInsertBefore);
      }
      stack := InsertAt(stack, index.value, Entry(middleware, args, block));
      r := Ok(());
    }

    /** `insert_before`, an alias of `insert`. */
    method InsertBefore(ref: Ref, middleware: Target, args: seq<Value>, block: Option<Value>)
      returns (r: Result<(), LookupError>)
      requires ref.At? ==> 0 <= ref.i <= |stack|
      modifies this
      ensures Resolve(old(stack), ref).None? ==> r == Err(NoSuchToInsertBefore) && stack == old(stack)
      ensures Resolve(old(stack), ref).Some? ==>
        r.Ok? && stack == InsertAt(old(stack), Resolve(old(stack), ref).value, Entry(middleware, args, block))
    {
      r := Insert(ref, middleware, args, block);
    }

    /**
      * `insert_after`: put a new entry just after a position, or just after
      * the first entry with the given target; raise, changing nothing, when
      * there is none.
      */
    method InsertAfter(ref: Ref, middleware: Target, args: seq<Value>, block: Option<Value>)
      returns (r: Result<(), LookupError>)
      requires ref.At? ==> 0 <= ref.i < |stack|
      modifies this
      ensures Resolve(old(stack), ref).None? ==> r == Err(NoSuchToInsertAfter) && stack == old(stack)
      ensures Resolve(old(stack), ref).Some? ==>
        r.Ok? && stack == InsertAt(old(stack), Resolve(old(stack), ref).value + 1, Entry(middleware, args, block))
    {
      var index := Resolve(stack, ref);
      if index.None? {
        return Err(NoSuchToInsertAfter);
      }
      r := Insert(At(index.value + 1), middleware, args, block);
    }

    /**
      * `replace`. By position: delete there, then insert there, so the new
      * entry takes the old one's slot. By target: insert in front of the first
      * entry with that target, then delete the first entry with that target;
      * this takes the old entry's slot unless the new entry has the same
      * target, which is then the one deleted, leaving the stack as it was.
      */
    method Replace(ref: Ref, middleware: Target, args: seq<Value>, block: Option<Value>)
      returns (r: Result<(), LookupError>)
      requires ref.At? ==> 0 <= ref.i < |stack|
      modifies this
      ensures ref.At? ==> r.Ok? && stack == old(stack)[ref.i := Entry(middleware, args, block)]
      ensures ref.Named? && FirstMatch(old(stack), ref.id).None? ==>
        r == Err(NoSuchToInsertBefore) && stack == old(stack)
      ensures ref.Named? && FirstMatch(old(stack), ref.id).Some? ==>
        r.Ok? &&
        stack == if middleware.id == ref.id then old(stack)
                 else old(stack)[FirstMatch(old(stack), ref.id).value := Entry(middleware, args, block)]
    {
      var e := Entry(middleware, args, block);
      if ref.At? {
        var _ := Delete(ref);
        r := Insert(ref, middleware, args, block);
        InsertIntoRemoved(old(stack), ref.i, e);
      } else {
        r := Insert(ref, middleware, args, block);
        if r.Ok? {
          var p := FirstMatch(old(stack), ref.id).value;
          FirstMatchAfterInsert(old(stack), p, e, ref.id);
          var _ := Delete(ref);
          if middleware.id == ref.id {
            RemoveInserted(old(stack), p, e);
          } else {
            RemoveAfterInserted(old(stack), p, e);
          }
        }
      }
    }

    /**
      * `delete`: remove the entry at a position, or the first entry with the
      * given target; raise, changing nothing, when there is none.
      */
    method Delete(ref: Ref) returns (r: Result<(), LookupError>)
      requires ref.At? ==> 0 <= ref.i < |stack|
      modifies this
      ensures Resolve(old(stack), ref).None? ==> r == Err(NilIndex) && stack == old(stack)
      ensures Resolve(old(stack), ref).Some? ==>
        r.Ok? && stack == RemoveAt(old(stack), Resolve(old(stack), ref).value)
    {
      var index := Resolve(stack, ref);
      if index.None? {
        return Err(NilIndex);
      }
      stack := RemoveAt(stack, index.value);
      r := Ok(());
    }

    /**
      * `to_app`: a new runner over a copy of the current stack; constructing
      * it fails exactly when some entry's target is neither a class nor callable.
      */
    function ToApp(): (r: Result<Chain, ConfigError>)
      reads this
      ensures r.Ok? <==> forall i :: 0 <= i < |stack| ==> !stack[i].target.Invalid?
    {
      NewFailsOnInvalid(Items(stack));
      New(Items(stack))
    }

    /**
      * `call`: compile the current stack afresh and call it, with nil when no
      * environment is given. It fails, before running anything, exactly when
      * some entry's target is neither a class nor callable.
      */
    method Call(env: Option<Value>, log: Trace) returns (r: Result<Outcome, ConfigError>)
      ensures r.Err? <==> exists i :: 0 <= i < |stack| && stack[i].target.Invalid?
      ensures r == Invoke(Items(stack), env.GetOr(Nil), log)
    {
      var app := ToApp();
      NewFailsOnInvalid(Items(stack));
      match app
      case Err(err) =>
        r := Err(err);
      case Ok(kickoff) =>
        r := Ok(Run(kickoff, env.GetOr(Nil), log));
    }
  }
}
