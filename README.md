# JoinAssociation: join clauses for one association, in Dafny

This project models `ActiveRecord::Associations::JoinDependency::JoinAssociation`
(activerecord/lib/active_record/associations/join_dependency/join_association.rb).
For one association of a query, the class turns the association's reflection
`chain` into a list of JOIN nodes. A `has_many :through` has several hops.
The code walks the chain from the parent side towards the association's own
table. It gives each hop one table alias and picks the key pair from the
hop's macro. It adds the STI type condition, the polymorphic type filter, the
scope-chain scopes and the default scope. It then emits one JOIN per hop, and
each hop's table becomes the foreign table of the next.

Files:

- `wrappers.dfy`: `Option` (Ruby's `nil`) and `Result` (the exceptions).
- `arel.dfy`: the SQL syntax-tree vocabulary. It has table handles, columns,
  predicates (`Eq`, `And`, `TypeCond`, `TypeEq`, `Sql`), join kinds and JOIN nodes.
- `scoping.dfy`: relations reduced to their filter conditions. It defines
  `merge`, the `inject` left fold and the facts about the merged filters.
- `reflections.dfy`: domain classes, macros, hop reflections and the
  association reflection with its `chain` and `scope_chain`.
- `decimal.dfy`: `Integer#to_s`, for the alias prefix `"t#{index}"`.
- `join_association.dfy`: module `JoinDependency`. It holds the class
  `JoinAssociation`, `build_constraint`, the specification of
  `join_constraints` and the lemmas about it.
- `scenarios.dfy`: three worked cases, stated as lemmas.
  - `has_many :appointments`.
  - `has_many :patients, through: :appointments`.
  - A polymorphic `has_many :comments, as: :imageable`.

`JoinAssociation.JoinConstraints` is an imperative method, as in the source:
- it shifts a local copy of `tables`;
- it moves a reverse cursor over `scope_chain`;
- it appends, concatenates and shifts the scope items;
- it reassigns `constraint`, `foreign_table` and `foreign_klass`.

It is proved equal to `JoinConstraintsSpec`. That function states the result
by index: join `i` uses `tables[i]`, hop `chain[n-1-i]` and scope entry
`scope_chain[|scope_chain|-1-i]`. Its foreign table and class are the parent's
for `i = 0` and the previous hop's after that. The lemmas state the
source's properties about that specification.

Inputs that Ruby turns into an exception are modelled as `Err` results:
- `tables` shorter than the chain gives a nil table and NoMethodError: `NilTable(step)`.
- A nil `parent.table` gives `NilForeignTable`.
- A `scope_chain` shorter than the chain makes `next` raise StopIteration: `ScopeChainExhausted(step)`.

The first step that cannot go on decides which error is raised.

Where the code and a prose description of it disagree, the model follows the code:
- The code pairs `tables[i]` with `chain[n-1-i]`, because it shifts `tables` from the front while reversing `chain` (:45-46). So the planner's `tables` are in reverse chain order, with the association's own table last. That table is what `table` (`tables.last`) returns.
- For a macro other than `belongs_to`, the foreign-side key is the hop's own `active_record_primary_key` (:55).
- The polymorphic filter comes from `reflection.type`, the type column of an `as:` association. It is placed on the hop's own table (:68-71), not restricted to `belongs_to`.
- A `scope_chain` longer than the chain is read from its end, so the extra leading entries are ignored.

## Model

| member | source | states |
|---|---|---|
| `JoinDependency.JoinAssociation.constructor` | activerecord/lib/active_record/associations/join_dependency/join_association.rb:20-27 | base class is the reflection's class; reflection and join type are stored; the alias prefix is `"t"` followed by the index; tables start nil |
| `JoinDependency.AliasedPrefixInjective` | activerecord/lib/active_record/associations/join_dependency/join_association.rb:25 | two indexes with the same alias prefix are equal, so distinct indexes never collide |
| `Decimal.NatToStringRoundTrip` | activerecord/lib/active_record/associations/join_dependency/join_association.rb:25 | reading back the decimal digits of a natural number gives that number |
| `Decimal.IntToStringInjective` | activerecord/lib/active_record/associations/join_dependency/join_association.rb:25 | distinct integers print to distinct strings, negatives with a leading '-' |
| `JoinDependency.JoinAssociation.SetTables` | activerecord/lib/active_record/associations/join_dependency/join_association.rb:16 | the `tables=` writer sets `tables` and changes nothing else |
| `JoinDependency.JoinAssociation.SetJoinType` | activerecord/lib/active_record/associations/join_dependency/join_association.rb:11 | the `join_type=` writer sets the join type and changes nothing else |
| `JoinDependency.JoinAssociation.Match` | activerecord/lib/active_record/associations/join_dependency/join_association.rb:29-32 | the same object always matches; distinct objects match iff the join-part rule holds and the reflections are equal |
| `JoinDependency.MatchReflexive` | activerecord/lib/active_record/associations/join_dependency/join_association.rb:30 | every association matches itself |
| `JoinDependency.MatchDistinct` | activerecord/lib/active_record/associations/join_dependency/join_association.rb:31 | distinct associations with different reflections never match; with equal reflections they match exactly when their join parts do |
| `JoinDependency.MatchSymmetric` | activerecord/lib/active_record/associations/join_dependency/join_association.rb:29-32 | if the join-part rule is symmetric, so is `match?` |
| `JoinDependency.JoinAssociation.JoinConstraints` | activerecord/lib/active_record/associations/join_dependency/join_association.rb:34-91 | the reverse walk with its shifted table copy, scope cursor and threaded foreign table and class returns exactly the per-index specification, including which exception is raised |
| `JoinDependency.JoinConstraintsOutcome` | activerecord/lib/active_record/associations/join_dependency/join_association.rb:36-60 | success iff every hop has a table and a scope-chain entry and the parent has a table; otherwise the error names the first step without a table or scope entry |
| `JoinDependency.JoinConstraintsOrder` | activerecord/lib/active_record/associations/join_dependency/join_association.rb:45-46 | one join per chain element; join i is built on tables[i] and carries the association's join type |
| `JoinDependency.JoinConstraintsKeyPair` | activerecord/lib/active_record/associations/join_dependency/join_association.rb:38-58 | join i is keyed by hop chain[n-1-i]: table[association_primary_key] = foreign[foreign_key] for belongs_to, table[foreign_key] = foreign[active_record_primary_key] otherwise; foreign is the parent's table for i = 0 and tables[i-1] after |
| `JoinDependency.JoinConstraintsTypeFilter` | activerecord/lib/active_record/associations/join_dependency/join_association.rb:68-82 | when hop chain[n-1-i] has a type column, join i's ON is a conjunction containing `type = base class name` of the foreign class, which is the parent's base class for i = 0 and the previous hop's class after |
| `JoinDependency.ScopeContributionsShape` | activerecord/lib/active_record/associations/join_dependency/join_association.rb:60-74 | a hop's scope contributions are its resolved scope items, then the type filter exactly when the hop has a type column, then the default scope exactly when the class has one |
| `JoinDependency.HopConstraintScoped` | activerecord/lib/active_record/associations/join_dependency/join_association.rb:74-82 | the hop constraint is the build_constraint result, ANDed with all merged filters in order exactly when there are any |
| `JoinDependency.HopConstraintPlainIff` | activerecord/lib/active_record/associations/join_dependency/join_association.rb:80-82 | the hop constraint equals the build_constraint result iff the scope contributions have no filters |
| `JoinDependency.HopConstraintUnscoped` | activerecord/lib/active_record/associations/join_dependency/join_association.rb:60-82 | with no scope items, no type column and no default scope, the hop constraint is just the build_constraint result |
| `JoinDependency.HopConstraintLeading` | activerecord/lib/active_record/associations/join_dependency/join_association.rb:49-58 | the leading equality of a hop constraint is the key pair the hop's macro selects, whatever scopes are added |
| `JoinDependency.BuildConstraint` | activerecord/lib/active_record/associations/join_dependency/join_association.rb:108-119 | the result leads with table[key] = foreign_table[foreign_key]; it is that bare equality iff the class needs no type condition, else And of the equality and the class's type condition on the table |
| `Scoping.InjectConstraints` | activerecord/lib/active_record/associations/join_dependency/join_association.rb:76-78 | folding merge from the left keeps the seed's filters followed by every item's filters, in order |
| `Scoping.MergeAllConstraints` | activerecord/lib/active_record/associations/join_dependency/join_association.rb:76-80 | the merged relation is nil iff there are no items; otherwise its filters are all items' filters in order |
| `JoinDependency.JoinAssociation.Table` | activerecord/lib/active_record/associations/join_dependency/join_association.rb:121-123 | raises while tables is nil; otherwise the last assigned table, nil iff none is assigned |
| `JoinDependency.JoinAssociation.AliasedTableName` | activerecord/lib/active_record/associations/join_dependency/join_association.rb:125-127 | defined exactly when `table` is a table; then its alias if it has one, else its name |
| `JoinDependency.JoinAssociation.LastJoinIsTable` | activerecord/lib/active_record/associations/join_dependency/join_association.rb:84-90 | with one table per hop, the last join emitted is on the table `table` reports, keyed by the association's own reflection |
| `Scenarios.HasManyScenario` | activerecord/lib/active_record/associations/join_dependency/join_association.rb:97-106 | Physician has_many appointments gives one INNER JOIN on appointments.physician_id = physicians.id |
| `Scenarios.ThroughScenario` | activerecord/lib/active_record/associations/join_dependency/join_association.rb:45-87 | a two-hop through chain gives the appointments join, then the patients join on patients.id = appointments.patient_id |
| `Scenarios.PolymorphicScenario` | activerecord/lib/active_record/associations/join_dependency/join_association.rb:68-82 | a polymorphic `as:` hop gives comments.imageable_id = images.id AND comments.imageable_type = 'Image' |
| `Scenarios.ShortTablesScenario` | activerecord/lib/active_record/associations/join_dependency/join_association.rb:46 | a two-hop chain with one table raises at the second step |

## Left out

- The superclass `JoinPart` is not part of this model. Its `match?` criterion is a parameter predicate on base classes. The parent join part is the value `JoinParent` (its `base_klass` and the result of its `table`).
- Arel's node construction (`create_join`, `create_on`, `create_and`, `eq`, `Node#and`) is modelled by datatype constructors. `constraint.and(list)` is the flat conjunction `And([constraint] + list)`, and `create_on` is not a separate node.
- `Relation` is reduced to its filter conditions. `merge` concatenates them: the other query modifiers are never read here, and Rails' rule that a later equality on the same column replaces an earlier one is not modelled.
- Scope blocks (`instance_exec`, :64) are a given function of the block, the hop's class and its table. The `JoinAssociation` handed to the block is not passed.
- `build_default_scope`, `type_condition`, `finder_needs_type_condition?` and `base_class.name` are given per-class data. The type condition is an abstract `TypeCond(class name, table)` node.
- `chain` is `[own] + through`. How a `:through` reflection derives its chain and scope chain is not part of this model, and neither are the planner that assigns tables and join types, SQL generation and execution.
- The caller's `tables` is a Dafny sequence, which is a value, and `JoinConstraints` has no `modifies` clause. So the fact that only a `dup` is shifted holds by construction and is not a separate lemma.
- For the same reason, there is no lemma that running `JoinConstraints` twice gives the same result: it always equals the same function of its inputs.
