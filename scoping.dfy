/** The part of `ActiveRecord::Relation` the join builder reads: the filter
    conditions of a relation (`rel.arel.constraints`) and `merge`, which
    combines two relations' filters. */
module Scoping {
  import opened Wrappers
  import opened Arel

  /** A relation, reduced to its filter conditions. */
  datatype Relation = Relation(constraints: seq<Pred>)

  /** One entry of a reflection's scope chain: a relation that is already built,
      or a scope block (identified by number) still to be evaluated against the
      class and table alias of the hop it belongs to. */
  datatype ScopeItem = Built(relation: Relation) | Deferred(block: nat)

  /** `left.merge(right)`, as far as filters go: both sets of conditions hold. */
  function Merge(left: Relation, right: Relation): Relation {
    Relation(left.constraints + right.constraints)
  }

  /** `rest.inject(acc) { |left, right| left.merge right }`. */
  function Inject(acc: Relation, rest: seq<Relation>): Relation
    decreases |rest|
  {
    if rest == [] then acc else Inject(Merge(acc, rest[0]), rest[1..])
  }

  /** `items.inject(items.shift) { ... }`: the left fold of `merge` over the
      items, seeded by the first; `nil` (None) when there are no items. */
  function MergeAll(items: seq<Relation>): Option<Relation> {
    if items == [] then None else Some(Inject(items[0], items[1..]))
  }

  /** All filter conditions of a list of relations, in order. */
  function Flatten(items: seq<Relation>): seq<Pred>
    decreases |items|
  {
    if items == [] then [] else items[0].constraints + Flatten(items[1..])
  }

  lemma {:induction false} FlattenAppend(a: seq<Relation>, b: seq<Relation>)
    ensures Flatten(a + b) == Flatten(a) + Flatten(b)
    decreases |a|
  {
    if a != [] {
      assert (a + b)[1..] == a[1..] + b;
      FlattenAppend(a[1..], b);
    } else {
      assert a + b == b;
    }
  }

  /** Folding `merge` from the left keeps every condition, in order. */
  lemma {:induction false} InjectConstraints(acc: Relation, rest: seq<Relation>)
    ensures Inject(acc, rest).constraints == acc.constraints + Flatten(rest)
    decreases |rest|
  {
    if rest != [] {
      InjectConstraints(Merge(acc, rest[0]), rest[1..]);
    }
  }

  /** The merged relation is nil exactly when there is nothing to merge, and
      otherwise its conditions are those of all items, in order. */
  lemma MergeAllConstraints(items: seq<Relation>)
    ensures MergeAll(items).None? <==> items == []
    ensures items != [] ==> MergeAll(items).value.constraints == Flatten(items)
  {
    if items != [] {
      InjectConstraints(items[0], items[1..]);
    }
  }

  /** A relation whose filter is `pred` appears in the list, so `pred` is among
      the merged conditions. */
  lemma {:induction false} FlattenContains(items: seq<Relation>, k: nat, pred: Pred)
    requires k < |items| && pred in items[k].constraints
    ensures pred in Flatten(items)
    decreases k
  {
    if k > 0 {
      FlattenContains(items[1..], k - 1, pred);
    }
  }
}
