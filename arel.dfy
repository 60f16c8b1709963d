/** The SQL syntax-tree vocabulary the join builder produces. Arel's own
    construction of these nodes is not modelled: each builder the join
    builder calls is one constructor here. */
module Arel {
  import opened Wrappers

  /** A table handle: the real table name and the alias the planner gave it, if any. */
  datatype Table = Table(name: string, tableAlias: Option<string>)

  /** `table[name]`: a column reference through one table handle. */
  datatype Column = Column(relation: Table, name: string)

  /** Predicates appearing in ON clauses. */
  datatype Pred =
    | Eq(left: Column, right: Column)        // `table[key].eq(foreign_table[foreign_key])`
    | And(children: seq<Pred>)               // `create_and` and `Node#and`
    | TypeCond(klassName: string, relation: Table)  // a class's STI `type_condition(table)`
    | TypeEq(column: Column, value: string)  // `where(column => "Name")`
    | Sql(fragment: string)                  // any other filter a scope contributes

  /** `Arel::InnerJoin` or `Arel::OuterJoin`. */
  datatype JoinKind = InnerJoin | OuterJoin

  /** `create_join(table, create_on(on), kind)`. */
  datatype JoinNode = JoinNode(relation: Table, on: Pred, kind: JoinKind)

  /** The first conjunct down the left spine of nested conjunctions. */
  function LeadingEquality(p: Pred): Pred {
    match p
    case And(cs) => if |cs| == 0 then p else LeadingEquality(cs[0])
    case _ => p
  }
}
