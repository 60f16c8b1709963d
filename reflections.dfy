/** Association metadata, read-only to the join builder: the domain classes,
    the reflection of each hop and the reflection of the whole association. */
module Reflections {
  import opened Wrappers
  import opened Scoping

  /** A domain class, reduced to what the join builder asks of it. */
  datatype Klass = Klass(
    name: string,
    baseClassName: string,            // `base_class.name`, the root of its STI hierarchy
    finderNeedsTypeCondition: bool,   // `finder_needs_type_condition?`
    defaultScope: Option<Relation>)   // `build_default_scope`, nil when there is none

  /** `source_macro`; only `belongs_to` is told apart from the rest. */
  datatype Macro = BelongsTo | HasOne | HasMany | HasAndBelongsToMany

  /** The reflection of one hop of a chain. */
  datatype Hop = Hop(
    klass: Klass,
    sourceMacro: Macro,
    foreignKey: string,
    associationPrimaryKey: string,
    activeRecordPrimaryKey: string,
    typeColumn: Option<string>)       // `reflection.type`: the polymorphic (`as:`) type column

  /** The reflection of an association: its own hop, the hops a `:through`
      adds behind it, and the parallel scope chain. */
  datatype Reflection = Reflection(
    name: string,
    own: Hop,
    through: seq<Hop>,
    scopeChain: seq<seq<ScopeItem>>)
  {
    /** `chain`: self-inclusive, the association's own reflection first. */
    function Chain(): (c: seq<Hop>)
      ensures |c| == 1 + |through| && c[0] == own
    {
      [own] + through
    }
  }
}
