/**
 The all-or-nothing update engine: an append-only set of changes, a
 transaction that applies them in order to a copy of the caller's object and
 overwrites the original only when every change succeeded, and the proxy
 behind `atomic_change_to(obj)(c1, ..., cn)`.
 */
module Transactions {
  import opened Records
  import opened Changes

  // ---------------------------------------------------------------------------
  // The meaning of running a batch of changes, as pure functions
  // ---------------------------------------------------------------------------

  /** Applies `cs` in order to `obj`, stopping at the first change that fails. */
  function Run(cs: seq<Change>, obj: Record): (res: Applied)
    // an empty batch succeeds and leaves the object as it was; only a change can fail
    ensures cs == [] ==> res.ok && res.obj == obj
    ensures !res.ok ==> cs != []
  {
    if cs == [] then Applied(true, obj)
    else
      var first := Apply(cs[0], obj);
      if !first.ok then first else Run(cs[1..], first.obj)
  }

  /**
   A run invents no values: every field of its result is the starting
   object's, or the value captured by some change of the batch that writes
   that field.
   */
  lemma {:induction false} RunFieldsComeFromBatch(cs: seq<Change>, obj: Record)
    ensures var r := Run(cs, obj).obj;
            r.name == obj.name || BoolMethodChange(SetNameMethod, r.name) in cs
    ensures var r := Run(cs, obj).obj;
            r.age == obj.age || VoidMethodChange(AgeMethod, r.age) in cs
    ensures var r := Run(cs, obj).obj;
            r.position == obj.position || FieldAssignmentChange(Position, r.position) in cs
  {
    if cs != [] {
      var first := Apply(cs[0], obj);
      if first.ok {
        RunFieldsComeFromBatch(cs[1..], first.obj);
        assert forall c :: c in cs[1..] ==> c in cs;
        match cs[0]
        case FieldAssignmentChange(Position, v) =>
          assert first.obj == obj.(position := v);
        case BoolMethodChange(SetNameMethod, v) =>
          assert first.obj == obj.(name := v);
        case VoidMethodChange(AgeMethod, v) =>
          assert first.obj == obj.(age := v);
      }
    }
  }

  /** How many changes `Run` applies: all of them, or up to and including the first failing one. */
  function Attempted(cs: seq<Change>, obj: Record): (n: nat)
    ensures n <= |cs|
    ensures cs != [] ==> 1 <= n
  {
    if cs == [] then 0
    else
      var first := Apply(cs[0], obj);
      if !first.ok then 1 else 1 + Attempted(cs[1..], first.obj)
  }

  /** One step of a left fold: once a change has failed, every later change is skipped. */
  function Step(acc: Applied, c: Change): Applied
  {
    if acc.ok then Apply(c, acc.obj) else acc
  }

  /** The plain left fold of `Step` over `cs`. */
  function FoldSteps(acc: Applied, cs: seq<Change>): Applied
    decreases cs
  {
    if cs == [] then acc else FoldSteps(Step(acc, cs[0]), cs[1..])
  }

  /** A failed accumulator passes through the fold untouched. */
  lemma {:induction false} FoldAfterFailure(acc: Applied, cs: seq<Change>)
    requires !acc.ok
    ensures FoldSteps(acc, cs) == acc
  {
    if cs != [] {
      FoldAfterFailure(Step(acc, cs[0]), cs[1..]);
    }
  }

  /** Running a batch is the left fold with short-circuit, started from a successful copy. */
  lemma {:induction false} RunIsShortCircuitFold(cs: seq<Change>, obj: Record)
    ensures Run(cs, obj) == FoldSteps(Applied(true, obj), cs)
  {
    if cs != [] {
      var first := Apply(cs[0], obj);
      assert Step(Applied(true, obj), cs[0]) == first;
      if first.ok {
        RunIsShortCircuitFold(cs[1..], first.obj);
      } else {
        FoldAfterFailure(first, cs[1..]);
      }
    }
  }

  /**
   Running `a + b` runs `a` and, only if all of `a` succeeded, then runs `b`
   on the result. A failure in `a` hides every effect of `b`.
   */
  lemma {:induction false} RunAppend(a: seq<Change>, b: seq<Change>, obj: Record)
    ensures Run(a + b, obj) == if Run(a, obj).ok then Run(b, Run(a, obj).obj) else Run(a, obj)
  {
    if a == [] {
      assert a + b == b;
    } else {
      var first := Apply(a[0], obj);
      assert (a + b)[0] == a[0];
      assert (a + b)[1..] == a[1..] + b;
      if first.ok {
        RunAppend(a[1..], b, first.obj);
      }
    }
  }

  /**
   The changes `Run` applies stop at the first failure: when the run succeeds
   every change was applied; when it fails, all changes before the last one
   applied succeeded and the last one failed; and the run's result is decided
   by the applied prefix alone.
   */
  lemma {:induction false} RunStopsAtFirstFailure(cs: seq<Change>, obj: Record)
    ensures Run(cs, obj).ok ==> Attempted(cs, obj) == |cs|
    ensures !Run(cs, obj).ok ==>
              var n := Attempted(cs, obj);
              1 <= n && Run(cs[..n - 1], obj).ok && !Apply(cs[n - 1], Run(cs[..n - 1], obj).obj).ok
    ensures Run(cs[..Attempted(cs, obj)], obj) == Run(cs, obj)
  {
    if cs == [] {
      assert cs[..0] == [];
    } else {
      var first := Apply(cs[0], obj);
      var n := Attempted(cs, obj);
      if !first.ok {
        assert cs[..0] == [];
        assert cs[..1] == [cs[0]];
      } else {
        var rest := cs[1..];
        var m := Attempted(rest, first.obj);
        RunStopsAtFirstFailure(rest, first.obj);
        assert n == m + 1;
        assert cs[..n] == [cs[0]] + rest[..m];
        RunAppend([cs[0]], rest[..m], obj);
        assert Run([cs[0]], obj) == Applied(true, first.obj) by {
          assert [cs[0]][1..] == [];
        }
        if !Run(cs, obj).ok {
          assert cs[..n - 1] == [cs[0]] + rest[..m - 1];
          RunAppend([cs[0]], rest[..m - 1], obj);
          assert cs[n - 1] == rest[m - 1];
        }
      }
    }
  }

  // ---------------------------------------------------------------------------
  // The engine's objects
  // ---------------------------------------------------------------------------

  /** The caller's Record variable, which the engine reaches through a `Record&`. */
  class RecordVar {
    var value: Record

    constructor (v: Record)
      ensures value == v
    {
      value := v;
    }
  }

  /** `UpdateSet<Record>`: an ordered list of changes that can only grow at the end. */
  class UpdateSet {
    var changes: seq<Change>

    constructor ()
      ensures changes == []
    {
      changes := [];
    }

    /** `add`: appends one change; earlier entries keep their positions. */
    method Add(c: Change)
      modifies this
      ensures changes == old(changes) + [c]
      // a corollary of the line above, stated because the source's callers rely on it
      ensures changes[..|old(changes)|] == old(changes)
    {
      changes := changes + [c];
    }

    /** `get`: the changes in insertion order, read-only. */
    method Get() returns (cs: seq<Change>)
      ensures cs == changes
    {
      cs := changes;
    }
  }

  /**
   `AtomicTransaction<Record>`: holds a reference to the original and a working
   copy taken when the transaction is created. `applied` is a ghost log of the
   changes that have been applied to the copy.
   */
  class AtomicTransaction {
    const original: RecordVar
    var copy: Record
    ghost var applied: seq<Change>

    constructor (obj: RecordVar)
      ensures original == obj && copy == obj.value && applied == []
    {
      original := obj;
      copy := obj.value;
      applied := [];
    }

    /**
     `execute`: applies the changes to the copy in order and returns at the
     first failure with the original untouched; when all succeed it
     overwrites the original with the copy.
     */
    method Execute(updates: UpdateSet) returns (ok: bool)
      modifies this, original
      ensures ok == Run(updates.changes, old(copy)).ok
      ensures copy == Run(updates.changes, old(copy)).obj
      ensures original.value == if ok then copy else old(original.value)
      ensures applied == old(applied) + updates.changes[..Attempted(updates.changes, old(copy))]
    {
      var cs := updates.Get();
      ghost var start := copy;
      for i := 0 to |cs|
        invariant Run(cs, start) == Run(cs[i..], copy)
        invariant Attempted(cs, start) == i + Attempted(cs[i..], copy)
        invariant applied == old(applied) + cs[..i]
        invariant original.value == old(original.value)
      {
        assert cs[i..][0] == cs[i] && cs[i..][1..] == cs[i + 1..];
        var result := Apply(cs[i], copy);
        copy := result.obj;
        applied := applied + [cs[i]];
        assert cs[..i + 1] == cs[..i] + [cs[i]];
        if !result.ok {
          return false;
        }
      }
      assert cs[..|cs|] == cs;
      original.value := copy;
      return true;
    }
  }

  /** `AtomicChangeProxy<Record>`: remembers the caller's object; calling it runs one transaction. */
  class AtomicChangeProxy {
    const obj: RecordVar

    constructor (o: RecordVar)
      ensures obj == o
    {
      obj := o;
    }

    /**
     `operator()(c1, ..., cn)`: adds the changes to a fresh set in argument
     order and executes one transaction over a copy of the object taken now.
     */
    method Call(changes: seq<Change>) returns (ok: bool)
      modifies obj
      ensures ok == Run(changes, old(obj.value)).ok
      ensures obj.value == if ok then Run(changes, old(obj.value)).obj else old(obj.value)
      ensures changes == [] ==> ok && obj.value == old(obj.value)
    {
      var updates := new UpdateSet();
      for i := 0 to |changes|
        invariant updates.changes == changes[..i]
        invariant obj.value == old(obj.value)
      {
        updates.Add(changes[i]);
      }
      assert updates.changes == changes;
      var tx := new AtomicTransaction(obj);
      ok := tx.Execute(updates);
    }
  }

  /** `atomic_change_to(obj)`: a proxy bound to `obj`. */
  method AtomicChangeTo(obj: RecordVar) returns (p: AtomicChangeProxy)
    ensures fresh(p) && p.obj == obj
  {
    p := new AtomicChangeProxy(obj);
  }

  /**
   The demonstration driver: a default Record, then one call with an empty
   name, age 22 and a position. The empty name fails, so nothing is committed.
   Returns the success flag and the record it would print.
   */
  method Demo() returns (success: bool, person: Record)
    ensures !success && person == Default
  {
    var target := new RecordVar(Default);
    var position := FieldProxy(Position);
    var name := BoolMethodProxy(SetNameMethod);
    var age := VoidMethodProxy(AgeMethod);
    var proxy := AtomicChangeTo(target);
    success := proxy.Call([name.Assign(""), age.Assign(22), position.Assign("Best Developer")]);
    person := target.value;
  }
}
