/** The join-clause builder for one association join (`JoinAssociation`):
    it turns an association's reflection chain into the ordered JOIN nodes
    that attach the association to its parent in a query. */
module JoinDependency {
  import opened Wrappers
  import opened Arel
  import opened Scoping
  import opened Reflections
  import Decimal

  /** The scope blocks of the application, evaluated against a fresh relation
      for a class and the table alias of the hop (`instance_exec`). */
  type ScopeBlocks = (nat, Klass, Table) -> Relation

  /** What `join_constraints` reads of its parent join part: `base_klass`, and
      `table`, which is nil when the parent has no table yet. */
  datatype JoinParent = JoinParent(baseKlass: Klass, table: Option<Table>)

  /** The exceptions `join_constraints` raises on inconsistent input. */
  datatype JoinError =
    | NilTable(step: nat)             // `tables.shift` gave nil: NoMethodError on `nil[key]`
    | NilForeignTable                 // `parent.table` was nil: NoMethodError on `nil[foreign_key]`
    | ScopeChainExhausted(step: nat)  // `scope_chain_iter.next` raised StopIteration

  /** The exceptions of the table accessors. */
  datatype AccessError =
    | TablesUnassigned                // `tables` is still nil: NoMethodError on `nil.last`
    | NoTable                         // `tables` is empty: NoMethodError on `nil.table_alias`

  /** `"t#{ index }"`. */
  function AliasedPrefix(index: int): (s: string)
    ensures |s| >= 2 && s[0] == 't'
  {
    "t" + Decimal.IntToString(index)
  }

  /** Distinct planner indexes give distinct alias prefixes. */
  lemma AliasedPrefixInjective(a: int, b: int)
    requires AliasedPrefix(a) == AliasedPrefix(b)
    ensures a == b
  {
    assert AliasedPrefix(a)[1..] == Decimal.IntToString(a);
    assert AliasedPrefix(b)[1..] == Decimal.IntToString(b);
    Decimal.IntToStringInjective(a, b);
  }

  /** The `case reflection.source_macro` choice of (key, foreign_key). */
  function JoinKeys(hop: Hop): (string, string) {
    match hop.sourceMacro
    case BelongsTo => (hop.associationPrimaryKey, hop.foreignKey)
    case _ => (hop.foreignKey, hop.activeRecordPrimaryKey)
  }

  /** `build_constraint`: the column equality, together with the class's type
      condition when the class is an STI subclass that needs one. */
  function BuildConstraint(klass: Klass, table: Table, key: string, foreignTable: Table, foreignKey: string): (r: Pred)
    ensures LeadingEquality(r) == Eq(Column(table, key), Column(foreignTable, foreignKey))
    ensures r.Eq? <==> !klass.finderNeedsTypeCondition
    ensures klass.finderNeedsTypeCondition ==>
      r.And? && r.children == [Eq(Column(table, key), Column(foreignTable, foreignKey)), TypeCond(klass.name, table)]
  {
    var equality := Eq(Column(table, key), Column(foreignTable, foreignKey));
    if klass.finderNeedsTypeCondition then And([equality, TypeCond(klass.name, table)]) else equality
  }

  /** One scope-chain item in the context of a hop: a built relation as it is,
      a scope block evaluated against `Relation.create(klass, table)`. */
  function ResolveScopeItem(item: ScopeItem, klass: Klass, table: Table, exec: ScopeBlocks): Relation {
    match item
    case Built(rel) => rel
    case Deferred(block) => exec(block, klass, table)
  }

  /** `scope_chain_items = ....map do |item| ... end`. */
  function ResolveScopeItems(items: seq<ScopeItem>, klass: Klass, table: Table, exec: ScopeBlocks): (r: seq<Relation>)
    ensures |r| == |items|
  {
    seq(|items|, k requires 0 <= k < |items| => ResolveScopeItem(items[k], klass, table, exec))
  }

  /** The polymorphic filter `where(type_column => foreign_klass.base_class.name)` on the hop's table. */
  function TypeFilter(table: Table, typeColumn: string, foreignKlass: Klass): Relation {
    Relation([TypeEq(Column(table, typeColumn), foreignKlass.baseClassName)])
  }

  /** `[klass.send(:build_default_scope)].compact`. */
  function DefaultScopes(klass: Klass): seq<Relation> {
    match klass.defaultScope
    case Some(rel) => [rel]
    case None => []
  }

  /** All scope contributions of one hop, in the order the source collects them:
      the scope-chain items, the polymorphic type filter, the default scope. */
  function ScopeContributions(hop: Hop, table: Table, items: seq<ScopeItem>, foreignKlass: Klass, exec: ScopeBlocks): seq<Relation> {
    ResolveScopeItems(items, hop.klass, table, exec)
      + (if hop.typeColumn.Some? then [TypeFilter(table, hop.typeColumn.value, foreignKlass)] else [])
      + DefaultScopes(hop.klass)
  }

  /** `constraint.and(rel.arel.constraints)` when the merged scope has filters. */
  function AndScope(constraint: Pred, rel: Option<Relation>): Pred {
    if rel.Some? && rel.value.constraints != [] then And([constraint] + rel.value.constraints) else constraint
  }

  /** The ON predicate of one hop. */
  function HopConstraint(hop: Hop, table: Table, items: seq<ScopeItem>, foreignTable: Table, foreignKlass: Klass, exec: ScopeBlocks): Pred {
    var keys := JoinKeys(hop);
    AndScope(BuildConstraint(hop.klass, table, keys.0, foreignTable, keys.1),
             MergeAll(ScopeContributions(hop, table, items, foreignKlass, exec)))
  }

  /** The foreign table of step `i` of the walk: the parent's table first, then
      the table of the step before. */
  function ForeignTable(parent: JoinParent, tables: seq<Table>, i: nat): Table
    requires parent.table.Some? && i <= |tables|
  {
    if i == 0 then parent.table.value else tables[i - 1]
  }

  /** The foreign class of step `i`: the parent's base class first, then the
      class of the hop of the step before, which is `chain[n - i]`. */
  function ForeignKlass(reflection: Reflection, parent: JoinParent, i: nat): Klass
    requires i < |reflection.Chain()|
  {
    if i == 0 then parent.baseKlass else reflection.Chain()[|reflection.Chain()| - i].klass
  }

  /** The join emitted at step `i` of the reverse walk: hop `chain[n-1-i]`,
      table `tables[i]`, scope items `scope_chain[|scope_chain|-1-i]`. */
  function HopJoin(reflection: Reflection, joinType: JoinKind, parent: JoinParent, tables: seq<Table>,
                   exec: ScopeBlocks, i: nat): JoinNode
    requires i < |reflection.Chain()| && i < |tables| && i < |reflection.scopeChain|
    requires parent.table.Some?
  {
    var n := |reflection.Chain()|;
    var sc := reflection.scopeChain;
    JoinNode(tables[i],
             HopConstraint(reflection.Chain()[n - 1 - i], tables[i], sc[|sc| - 1 - i],
                           ForeignTable(parent, tables, i), ForeignKlass(reflection, parent, i), exec),
             joinType)
  }

  function Min(a: nat, b: nat): nat {
    if a <= b then a else b
  }

  /** What `join_constraints(parent, tables)` returns or raises, stated step by
      step by index; the first step that cannot proceed decides the error. */
  function JoinConstraintsSpec(reflection: Reflection, joinType: JoinKind, parent: JoinParent,
                               tables: seq<Table>, exec: ScopeBlocks): Result<seq<JoinNode>, JoinError>
  {
    var n := |reflection.Chain()|;
    var m := Min(|tables|, |reflection.scopeChain|);
    if |tables| == 0 then Err(NilTable(0))
    else if parent.table.None? then Err(NilForeignTable)
    else if m < n then (if m == |tables| then Err(NilTable(m)) else Err(ScopeChainExhausted(m)))
    else Ok(seq(n, i requires 0 <= i < n => HopJoin(reflection, joinType, parent, tables, exec, i)))
  }

  class JoinAssociation {
    /** The reflection of the association represented. */
    const reflection: Reflection
    /** `JoinPart#base_klass`, set from `reflection.klass`. */
    const baseKlass: Klass
    const aliasedPrefix: string
    var joinType: JoinKind
    var tables: Option<seq<Table>>

    constructor (reflection: Reflection, index: int, joinType: JoinKind)
      ensures this.reflection == reflection && baseKlass == reflection.own.klass
      ensures aliasedPrefix == AliasedPrefix(index)
      ensures this.joinType == joinType && tables == None
    {
      this.reflection := reflection;
      this.baseKlass := reflection.own.klass;
      this.aliasedPrefix := AliasedPrefix(index);
      this.joinType := joinType;
      this.tables := None;
    }

    /** The `tables=` writer. */
    method SetTables(ts: Option<seq<Table>>)
      modifies this`tables
      ensures tables == ts
    {
      tables := ts;
    }

    /** The `join_type=` writer. */
    method SetJoinType(kind: JoinKind)
      modifies this`joinType
      ensures joinType == kind
    {
      joinType := kind;
    }

    /** `match?`: the same object, or a match by the join-part rule
        (`partMatch` on base classes) together with equal reflections. */
    function Match(other: JoinAssociation, partMatch: (Klass, Klass) -> bool): (r: bool)
      ensures this == other ==> r
      ensures this != other ==> (r <==> partMatch(baseKlass, other.baseKlass) && reflection == other.reflection)
    {
      this == other || (partMatch(baseKlass, other.baseKlass) && reflection == other.reflection)
    }

    /** `table`: the last assigned table handle, nil when none is assigned. */
    function Table(): (r: Result<Option<Table>, AccessError>)
      reads this
      ensures r.Ok? <==> tables.Some?
      ensures r.Ok? ==> (r.value.Some? <==> tables.value != [])
      ensures r.Ok? && r.value.Some? ==> r.value.value == tables.value[|tables.value| - 1]
    {
      match tables
      case None => Err(TablesUnassigned)
      case Some(ts) => Ok(if ts == [] then None else Some(ts[|ts| - 1]))
    }

    /** `aliased_table_name`: the alias of `table` if it has one, else its name. */
    function AliasedTableName(): (r: Result<string, AccessError>)
      reads this
      ensures r.Ok? <==> Table().Ok? && Table().value.Some?
      ensures r.Ok? ==> r.value == Table().value.value.tableAlias.GetOr(Table().value.value.name)
      ensures tables == Some([]) ==> r == Err(NoTable)
    {
      match Table()
      case Err(e) => Err(e)
      case Ok(None) => Err(NoTable)
      case Ok(Some(t)) => Ok(t.tableAlias.GetOr(t.name))
    }

    /** `join_constraints(parent, tables)`: walks `chain` and `scope_chain` in
        reverse, one table of (a copy of) `tables` per hop, and emits one join
        per hop. `tables` is a value, and nothing on the heap is modified. */
    method JoinConstraints(parent: JoinParent, tables: seq<Table>, exec: ScopeBlocks)
      returns (r: Result<seq<JoinNode>, JoinError>)
      ensures r == JoinConstraintsSpec(reflection, joinType, parent, tables, exec)
    {
      var kind := joinType;
      var joins: seq<JoinNode> := [];
      var rest := tables;
      var foreignTable := parent.table;
      var foreignKlass := parent.baseKlass;
      var chain := reflection.Chain();
      var n := |chain|;
      var sc := reflection.scopeChain;
      var cursor := |sc|;
      var h := n;
      while h > 0
        invariant 0 <= h <= n
        invariant n - h <= |tables| && rest == tables[n - h..]
        invariant n - h <= |sc| && cursor == |sc| - (n - h)
        invariant h < n ==> parent.table.Some? && foreignTable == Some(tables[n - h - 1])
        invariant h == n ==> foreignTable == parent.table
        invariant foreignKlass == (if h == n then parent.baseKlass else chain[h].klass)
        invariant |joins| == n - h
        invariant forall j :: 0 <= j < n - h ==> joins[j] == HopJoin(reflection, kind, parent, tables, exec, j)
      {
        var i := n - h;
        var hop := chain[h - 1];
        if rest == [] {
          return Err(NilTable(i));
        }
        var table := rest[0];
        rest := rest[1..];
        var klass := hop.klass;
        var key, foreignKey;
        if hop.sourceMacro == BelongsTo {
          key, foreignKey := hop.associationPrimaryKey, hop.foreignKey;
        } else {
          key, foreignKey := hop.foreignKey, hop.activeRecordPrimaryKey;
        }
        if foreignTable.None? {
          return Err(NilForeignTable);
        }
        var constraint := BuildConstraint(klass, table, key, foreignTable.value, foreignKey);

        if cursor == 0 {
          return Err(ScopeChainExhausted(i));
        }
        cursor := cursor - 1;
        var scopeChainItems := ResolveScopeItems(sc[cursor], klass, table, exec);
        if hop.typeColumn.Some? {
          scopeChainItems := scopeChainItems + [TypeFilter(table, hop.typeColumn.value, foreignKlass)];
        }
        scopeChainItems := scopeChainItems + DefaultScopes(klass);
        assert scopeChainItems == ScopeContributions(hop, table, sc[cursor], foreignKlass, exec);

        var rel: Option<Relation> := None;
        if scopeChainItems != [] {
          var seed := scopeChainItems[0];
          scopeChainItems := scopeChainItems[1..];
          rel := Some(Inject(seed, scopeChainItems));
        }
        if rel.Some? && rel.value.constraints != [] {
          constraint := And([constraint] + rel.value.constraints);
        }
        joins := joins + [JoinNode(table, constraint, kind)];
        assert joins[i] == HopJoin(reflection, kind, parent, tables, exec, i);

        foreignTable, foreignKlass := Some(table), klass;
        h := h - 1;
      }
      assert |tables| > 0 && parent.table.Some? && Min(|tables|, |sc|) >= n;
      assert joins == seq(n, i requires 0 <= i < n => HopJoin(reflection, kind, parent, tables, exec, i));
      return Ok(joins);
    }

    /** The last join emitted is the one for the association's own reflection,
        built on the table `table` reports, when the association's tables are
        the ones passed in and there is one per hop. */
    lemma LastJoinIsTable(parent: JoinParent, exec: ScopeBlocks)
      requires tables.Some? && |tables.value| == |reflection.Chain()|
      requires JoinConstraintsSpec(reflection, joinType, parent, tables.value, exec).Ok?
      ensures var js := JoinConstraintsSpec(reflection, joinType, parent, tables.value, exec).value;
              |js| > 0 && Table() == Ok(Some(js[|js| - 1].relation))
              && LeadingEquality(js[|js| - 1].on).left.name == JoinKeys(reflection.own).0
    {
      var n := |reflection.Chain()|;
      var js := JoinConstraintsSpec(reflection, joinType, parent, tables.value, exec).value;
      assert js[n - 1] == HopJoin(reflection, joinType, parent, tables.value, exec, n - 1);
      HopConstraintLeading(reflection.own, tables.value[n - 1], reflection.scopeChain[|reflection.scopeChain| - n],
                           ForeignTable(parent, tables.value, n - 1), ForeignKlass(reflection, parent, n - 1), exec);
    }
  }

  /** `match?` is reflexive. */
  lemma MatchReflexive(a: JoinAssociation, partMatch: (Klass, Klass) -> bool)
    ensures a.Match(a, partMatch)
  {
  }

  /** Two distinct associations with different reflections never match, and
      two with equal reflections match exactly when their join parts do. */
  lemma MatchDistinct(a: JoinAssociation, b: JoinAssociation, partMatch: (Klass, Klass) -> bool)
    requires a != b
    ensures a.reflection != b.reflection ==> !a.Match(b, partMatch)
    ensures a.reflection == b.reflection ==> (a.Match(b, partMatch) <==> partMatch(a.baseKlass, b.baseKlass))
  {
  }

  /** `match?` is symmetric when the join-part rule is. */
  lemma MatchSymmetric(a: JoinAssociation, b: JoinAssociation, partMatch: (Klass, Klass) -> bool)
    requires forall x, y :: partMatch(x, y) == partMatch(y, x)
    ensures a.Match(b, partMatch) == b.Match(a, partMatch)
  {
  }

  /** A hop collects exactly its scope-chain items, then the polymorphic type
      filter exactly when the hop's reflection has a type column (compared with
      the foreign class's base-class name), then the class's default scope. */
  lemma ScopeContributionsShape(hop: Hop, table: Table, items: seq<ScopeItem>, foreignKlass: Klass, exec: ScopeBlocks)
    ensures var cs := ScopeContributions(hop, table, items, foreignKlass, exec);
            && |cs| == |items| + (if hop.typeColumn.Some? then 1 else 0) + (if hop.klass.defaultScope.Some? then 1 else 0)
            && (forall k :: 0 <= k < |items| ==> cs[k] == ResolveScopeItem(items[k], hop.klass, table, exec))
            && (hop.typeColumn.Some? ==>
                  cs[|items|] == Relation([TypeEq(Column(table, hop.typeColumn.value), foreignKlass.baseClassName)]))
            && (hop.klass.defaultScope.Some? ==> cs[|cs| - 1] == hop.klass.defaultScope.value)
  {
  }

  /** The hop constraint is the `build_constraint` result, extended by AND with
      the merged scope's filters exactly when there are any. */
  lemma HopConstraintScoped(hop: Hop, table: Table, items: seq<ScopeItem>, foreignTable: Table, foreignKlass: Klass, exec: ScopeBlocks)
    ensures var keys := JoinKeys(hop);
            var base := BuildConstraint(hop.klass, table, keys.0, foreignTable, keys.1);
            var filters := Flatten(ScopeContributions(hop, table, items, foreignKlass, exec));
            HopConstraint(hop, table, items, foreignTable, foreignKlass, exec)
              == if filters == [] then base else And([base] + filters)
  {
    MergeAllConstraints(ScopeContributions(hop, table, items, foreignKlass, exec));
  }

  /** The hop constraint is exactly the `build_constraint` result if and only
      if the hop's scope contributions have no filters at all. */
  lemma HopConstraintPlainIff(hop: Hop, table: Table, items: seq<ScopeItem>, foreignTable: Table, foreignKlass: Klass, exec: ScopeBlocks)
    ensures var keys := JoinKeys(hop);
            var base := BuildConstraint(hop.klass, table, keys.0, foreignTable, keys.1);
            (HopConstraint(hop, table, items, foreignTable, foreignKlass, exec) == base)
              <==> (Flatten(ScopeContributions(hop, table, items, foreignKlass, exec)) == [])
  {
    var keys := JoinKeys(hop);
    var base := BuildConstraint(hop.klass, table, keys.0, foreignTable, keys.1);
    var filters := Flatten(ScopeContributions(hop, table, items, foreignKlass, exec));
    HopConstraintScoped(hop, table, items, foreignTable, foreignKlass, exec);
    if filters != [] {
      var conj := And([base] + filters);
      assert conj.children[0] == base;
      assert base != conj;
    }
  }

  /** With no scope items, no type column and no default scope, the hop
      constraint is just the `build_constraint` result. */
  lemma HopConstraintUnscoped(hop: Hop, table: Table, foreignTable: Table, foreignKlass: Klass, exec: ScopeBlocks)
    requires hop.typeColumn.None? && hop.klass.defaultScope.None?
    ensures var keys := JoinKeys(hop);
            HopConstraint(hop, table, [], foreignTable, foreignKlass, exec)
              == BuildConstraint(hop.klass, table, keys.0, foreignTable, keys.1)
  {
    assert ScopeContributions(hop, table, [], foreignKlass, exec) == [];
  }

  /** The leading equality of a hop constraint is the key pair its macro selects. */
  lemma HopConstraintLeading(hop: Hop, table: Table, items: seq<ScopeItem>, foreignTable: Table, foreignKlass: Klass, exec: ScopeBlocks)
    ensures LeadingEquality(HopConstraint(hop, table, items, foreignTable, foreignKlass, exec))
         == if hop.sourceMacro == BelongsTo
            then Eq(Column(table, hop.associationPrimaryKey), Column(foreignTable, hop.foreignKey))
            else Eq(Column(table, hop.foreignKey), Column(foreignTable, hop.activeRecordPrimaryKey))
  {
    var keys := JoinKeys(hop);
    var base := BuildConstraint(hop.klass, table, keys.0, foreignTable, keys.1);
    var rel := MergeAll(ScopeContributions(hop, table, items, foreignKlass, exec));
    if rel.Some? && rel.value.constraints != [] {
      assert LeadingEquality(And([base] + rel.value.constraints)) == LeadingEquality(base);
    }
  }

  /** `join_constraints` succeeds exactly when there is a table and a
      scope-chain entry for every hop and the parent has a table; otherwise it
      raises at the first step that cannot proceed. */
  lemma JoinConstraintsOutcome(reflection: Reflection, joinType: JoinKind, parent: JoinParent,
                               tables: seq<Table>, exec: ScopeBlocks)
    ensures var n := |reflection.Chain()|;
            var r := JoinConstraintsSpec(reflection, joinType, parent, tables, exec);
            && (r.Ok? <==> |tables| >= n && |reflection.scopeChain| >= n && parent.table.Some?)
            && (r == Err(NilForeignTable) <==> |tables| > 0 && parent.table.None?)
            && (r.Err? && r.error.NilTable? ==>
                  r.error.step == |tables| < n && |tables| <= |reflection.scopeChain|)
            && (r.Err? && r.error.ScopeChainExhausted? ==>
                  r.error.step == |reflection.scopeChain| < |tables| && r.error.step < n)
  {
  }

  /** `join_constraints` returns one join per hop; join `i` is built on
      `tables[i]` with the association's join type, so the join for the
      association's own reflection comes last. */
  lemma JoinConstraintsOrder(reflection: Reflection, joinType: JoinKind, parent: JoinParent,
                             tables: seq<Table>, exec: ScopeBlocks)
    requires JoinConstraintsSpec(reflection, joinType, parent, tables, exec).Ok?
    ensures var js := JoinConstraintsSpec(reflection, joinType, parent, tables, exec).value;
            && |js| == |reflection.Chain()|
            && (forall i :: 0 <= i < |js| ==> js[i].relation == tables[i] && js[i].kind == joinType)
  {
  }

  /** Join `i` is keyed by hop `chain[n-1-i]`: `table[association_primary_key]
      = foreign_table[foreign_key]` for `belongs_to`, `table[foreign_key] =
      foreign_table[active_record_primary_key]` otherwise, where the foreign
      table is the parent's table for the first join and the previous join's
      table after that. */
  lemma JoinConstraintsKeyPair(reflection: Reflection, joinType: JoinKind, parent: JoinParent,
                               tables: seq<Table>, exec: ScopeBlocks, i: nat)
    requires JoinConstraintsSpec(reflection, joinType, parent, tables, exec).Ok?
    requires i < |reflection.Chain()|
    ensures var js := JoinConstraintsSpec(reflection, joinType, parent, tables, exec).value;
            var hop := reflection.Chain()[|reflection.Chain()| - 1 - i];
            var foreign := if i == 0 then parent.table.value else tables[i - 1];
            LeadingEquality(js[i].on)
              == if hop.sourceMacro == BelongsTo
                 then Eq(Column(tables[i], hop.associationPrimaryKey), Column(foreign, hop.foreignKey))
                 else Eq(Column(tables[i], hop.foreignKey), Column(foreign, hop.activeRecordPrimaryKey))
  {
    var n := |reflection.Chain()|;
    var sc := reflection.scopeChain;
    HopConstraintLeading(reflection.Chain()[n - 1 - i], tables[i], sc[|sc| - 1 - i],
                         ForeignTable(parent, tables, i), ForeignKlass(reflection, parent, i), exec);
  }

  /** When the hop of join `i` has a polymorphic type column, the join's ON
      predicate is a conjunction one of whose conjuncts requires that column of
      the hop's table to equal the base-class name of the foreign class: the
      parent's base class for the first join, the previous hop's class after. */
  lemma JoinConstraintsTypeFilter(reflection: Reflection, joinType: JoinKind, parent: JoinParent,
                                  tables: seq<Table>, exec: ScopeBlocks, i: nat)
    requires JoinConstraintsSpec(reflection, joinType, parent, tables, exec).Ok?
    requires i < |reflection.Chain()|
    requires reflection.Chain()[|reflection.Chain()| - 1 - i].typeColumn.Some?
    ensures var js := JoinConstraintsSpec(reflection, joinType, parent, tables, exec).value;
            var n := |reflection.Chain()|;
            var hop := reflection.Chain()[n - 1 - i];
            var foreignKlass := if i == 0 then parent.baseKlass else reflection.Chain()[n - i].klass;
            js[i].on.And? &&
            TypeEq(Column(tables[i], hop.typeColumn.value), foreignKlass.baseClassName) in js[i].on.children
  {
    var n := |reflection.Chain()|;
    var sc := reflection.scopeChain;
    var hop := reflection.Chain()[n - 1 - i];
    var items := sc[|sc| - 1 - i];
    var fk := ForeignKlass(reflection, parent, i);
    var ft := ForeignTable(parent, tables, i);
    var cs := ScopeContributions(hop, tables[i], items, fk, exec);
    var filter := TypeEq(Column(tables[i], hop.typeColumn.value), fk.baseClassName);
    ScopeContributionsShape(hop, tables[i], items, fk, exec);
    FlattenContains(cs, |items|, filter);
    HopConstraintScoped(hop, tables[i], items, ft, fk, exec);
    var keys := JoinKeys(hop);
    var base := BuildConstraint(hop.klass, tables[i], keys.0, ft, keys.1);
    assert filter in ([base] + Flatten(cs));
  }
}
