/**
 * The grouping aggregator that merges `;`-delimited attribute-name lists into
 * one set and reads it back out as a `;`-delimited string.
 */
module AttributeSetAggregation {
  import opened Wrappers
  import opened PropertyValues
  import JavaStrings

  const Separator: char := ';'

  /** The attribute names one `;`-delimited string contributes. */
  function NamesOf(s: string): (r: set<string>)
    ensures forall n :: n in r ==> Separator !in n
    ensures s == "" ==> r == {""}
  {
    set n | n in JavaStrings.Split(s, Separator)
  }

  /** The set after a sequence of strings has been merged into `names`, one after the other. */
  function Fold(names: set<string>, inputs: seq<string>): set<string>
    decreases |inputs|
  {
    if inputs == [] then names else Fold(names + NamesOf(inputs[0]), inputs[1..])
  }

  /** Every name any of `inputs` contributes. */
  function AllNames(inputs: seq<string>): set<string>
  {
    set i, n | 0 <= i < |inputs| && n in NamesOf(inputs[i]) :: n
  }

  /** Merging a sequence of strings adds exactly the names they contain. */
  lemma {:induction false} FoldIsUnion(names: set<string>, inputs: seq<string>)
    ensures Fold(names, inputs) == names + AllNames(inputs)
    decreases |inputs|
  {
    if inputs != [] {
      FoldIsUnion(names + NamesOf(inputs[0]), inputs[1..]);
      assert AllNames(inputs) == NamesOf(inputs[0]) + AllNames(inputs[1..]) by {
        forall n | n in AllNames(inputs) ensures n in NamesOf(inputs[0]) + AllNames(inputs[1..]) {
          var i :| 0 <= i < |inputs| && n in NamesOf(inputs[i]);
          if i > 0 {
            assert inputs[1..][i - 1] == inputs[i];
          }
        }
        forall n | n in AllNames(inputs[1..]) ensures n in AllNames(inputs) {
          var i :| 0 <= i < |inputs[1..]| && n in NamesOf(inputs[1..][i]);
          assert inputs[1..][i] == inputs[i + 1];
        }
      }
    }
  }

  /**
   * Merging is insensitive to order and repetition: two sequences of the same
   * strings, in any order and with any repeats, give the same set.
   */
  lemma OrderAndRepeatsIrrelevant(names: set<string>, inputs: seq<string>, others: seq<string>)
    requires forall x :: x in inputs <==> x in others
    ensures Fold(names, inputs) == Fold(names, others)
  {
    FoldIsUnion(names, inputs);
    FoldIsUnion(names, others);
    forall n | n in AllNames(inputs) ensures n in AllNames(others) {
      var i :| 0 <= i < |inputs| && n in NamesOf(inputs[i]);
      assert inputs[i] in others;
      var j :| 0 <= j < |others| && others[j] == inputs[i];
    }
    forall n | n in AllNames(others) ensures n in AllNames(inputs) {
      var j :| 0 <= j < |others| && n in NamesOf(others[j]);
      assert others[j] in inputs;
      var i :| 0 <= i < |inputs| && inputs[i] == others[j];
    }
  }

  /** `order` lists each member of `s` exactly once. */
  predicate Enumerates(order: seq<string>, s: set<string>)
  {
    && (forall i, j :: 0 <= i < j < |order| ==> order[i] != order[j])
    && (forall i :: 0 <= i < |order| ==> order[i] in s)
    && (forall x :: x in s ==> x in order)
  }

  /**
   * Collects attribute names per group. `attributeSet` is `None` before the
   * first value is seen (the Java field is `null`).
   */
  class AttributeSetAggregator {
    var attributeSet: Option<set<string>>

    /** No stored name contains the separator. */
    ghost predicate Valid()
      reads this
    {
      attributeSet.Some? ==> forall n :: n in attributeSet.value ==> Separator !in n
    }

    /** An aggregator that has seen nothing yet. */
    constructor ()
      ensures Valid() && attributeSet == None
    {
      attributeSet := None;
    }

    /** Whether a set is present: the Java field is not `null`. */
    predicate IsInitialized()
      reads this
    {
      attributeSet != None
    }

    /**
     * Starts over with the names of `v`, discarding whatever was there; a
     * value that is not a string throws and changes nothing.
     */
    method InitializeAggregate(v: Value) returns (r: Outcome<AccessError>)
      requires Valid()
      modifies this
      ensures Valid()
      ensures r == Pass <==> v.Str?
      ensures r.Fail? ==> r.error == TypeMismatch && attributeSet == old(attributeSet)
      ensures v.Str? ==> attributeSet == Some(NamesOf(v.str))
    {
      if !v.Str? {
        return Fail(TypeMismatch);
      }
      attributeSet := Some(NamesOf(v.str));
      return Pass;
    }

    /**
     * Adds the names of `v` to the set; nothing already there is lost. A value
     * that is not a string throws and changes nothing.
     */
    method AggregateInternal(v: Value) returns (r: Outcome<AccessError>)
      requires Valid() && IsInitialized()
      modifies this
      ensures Valid() && IsInitialized()
      ensures r == Pass <==> v.Str?
      ensures r.Fail? ==> r.error == TypeMismatch && attributeSet == old(attributeSet)
      ensures v.Str? ==> attributeSet == Some(Fold(old(attributeSet.value), [v.str]))
      ensures old(attributeSet.value) <= attributeSet.value
    {
      if !v.Str? {
        return Fail(TypeMismatch);
      }
      attributeSet := Some(attributeSet.value + NamesOf(v.str));
      return Pass;
    }

    /**
     * The names joined by `;` in the order some enumeration of the set gives
     * them. A non-empty set of non-empty names splits back into itself.
     */
    method GetAggregateInternal() returns (r: Value)
      requires Valid() && IsInitialized()
      ensures r.Str?
      ensures exists order :: Enumerates(order, attributeSet.value) && r.str == JavaStrings.Join(order, [Separator])
      ensures attributeSet.value != {} && "" !in attributeSet.value ==> NamesOf(r.str) == attributeSet.value
    {
      var names := attributeSet.value;
      var rest := names;
      var order: seq<string> := [];
      var joined := "";
      while rest != {}
        invariant rest <= names
        invariant forall i, j :: 0 <= i < j < |order| ==> order[i] != order[j]
        invariant forall i :: 0 <= i < |order| ==> order[i] in names && order[i] !in rest
        invariant forall x :: x in names && x !in rest ==> x in order
        invariant joined == JavaStrings.Join(order, [Separator])
        decreases rest
      {
        var x :| x in rest;
        JavaStrings.JoinAppend(order, [Separator], x);
        joined := if order == [] then x else joined + [Separator] + x;
        order := order + [x];
        rest := rest - {x};
      }
      assert Enumerates(order, names);
      if names != {} && "" !in names {
        JavaStrings.SplitJoin(order, Separator);
      }
      return Str(joined);
    }

    /** Empties the set but stays initialized; does nothing before initialization. */
    method ResetAggregate()
      requires Valid()
      modifies this
      ensures Valid()
      ensures old(attributeSet).Some? ==> attributeSet == Some({})
      ensures old(attributeSet).None? ==> attributeSet == None
    {
      if IsInitialized() {
        attributeSet := Some({});
      }
    }
  }

  /** One call made on an initialized aggregator. */
  datatype Op = Aggregate(v: Value) | Reset

  /**
   * The life cycle of the `null` check: a new aggregator is uninitialized, a
   * string passed to `InitializeAggregate` initializes it, and no sequence of
   * later `AggregateInternal` and `ResetAggregate` calls makes it
   * uninitialized again.
   */
  method Lifecycle(first: string, ops: seq<Op>) returns (atStart: bool, afterInit: bool, atEnd: bool)
    ensures !atStart && afterInit && atEnd
  {
    var agg := new AttributeSetAggregator();
    atStart := agg.IsInitialized();
    var _ := agg.InitializeAggregate(Str(first));
    afterInit := agg.IsInitialized();
    var i := 0;
    while i < |ops|
      invariant 0 <= i <= |ops|
      invariant agg.Valid() && agg.IsInitialized()
    {
      match ops[i] {
        case Aggregate(v) =>
          var _ := agg.AggregateInternal(v);
        case Reset =>
          agg.ResetAggregate();
      }
      i := i + 1;
    }
    atEnd := agg.IsInitialized();
  }
}
