/** Worked instances of `join_constraints` on the classic physician /
    appointment / patient schema and on a polymorphic `as:` association. */
module Scenarios {
  import opened Wrappers
  import opened Arel
  import opened Scoping
  import opened Reflections
  import opened JoinDependency

  function PlainKlass(name: string): Klass {
    Klass(name, name, false, None)
  }

  const physicians := Table("physicians", None)
  const appointments := Table("appointments", None)
  const patients := Table("patients", None)

  /** `Physician has_many :appointments`. */
  const appointmentsHop := Hop(PlainKlass("Appointment"), HasMany, "physician_id", "id", "id", None)
  /** `Physician has_many :patients, through: :appointments`, whose source is `Appointment belongs_to :patient`. */
  const patientsHop := Hop(PlainKlass("Patient"), BelongsTo, "patient_id", "id", "id", None)

  function NoBlocks(): ScopeBlocks {
    (b: nat, k: Klass, t: Table) => Relation([])
  }

  /** `Physician.joins(:appointments)`: one INNER JOIN on
      `appointments.physician_id = physicians.id`. */
  lemma HasManyScenario()
    ensures JoinConstraintsSpec(Reflection("appointments", appointmentsHop, [], [[]]), InnerJoin,
                                JoinParent(PlainKlass("Physician"), Some(physicians)), [appointments], NoBlocks())
         == Ok([JoinNode(appointments, Eq(Column(appointments, "physician_id"), Column(physicians, "id")), InnerJoin)])
  {
    var r := Reflection("appointments", appointmentsHop, [], [[]]);
    var parent := JoinParent(PlainKlass("Physician"), Some(physicians));
    HopConstraintUnscoped(appointmentsHop, appointments, physicians, parent.baseKlass, NoBlocks());
    var j0 := JoinNode(appointments, Eq(Column(appointments, "physician_id"), Column(physicians, "id")), InnerJoin);
    assert HopJoin(r, InnerJoin, parent, [appointments], NoBlocks(), 0) == j0;
    assert seq(1, i requires 0 <= i < 1 => HopJoin(r, InnerJoin, parent, [appointments], NoBlocks(), i)) == [j0];
  }

  /** `Physician.joins(:patients)` through appointments: the appointments join
      first, then the patients join keyed on the belongs_to pair against the
      appointments table. */
  lemma ThroughScenario()
    ensures JoinConstraintsSpec(Reflection("patients", patientsHop, [appointmentsHop], [[], []]), InnerJoin,
                                JoinParent(PlainKlass("Physician"), Some(physicians)), [appointments, patients], NoBlocks())
         == Ok([JoinNode(appointments, Eq(Column(appointments, "physician_id"), Column(physicians, "id")), InnerJoin),
                JoinNode(patients, Eq(Column(patients, "id"), Column(appointments, "patient_id")), InnerJoin)])
  {
    var r := Reflection("patients", patientsHop, [appointmentsHop], [[], []]);
    var parent := JoinParent(PlainKlass("Physician"), Some(physicians));
    var ts := [appointments, patients];
    HopConstraintUnscoped(appointmentsHop, appointments, physicians, parent.baseKlass, NoBlocks());
    HopConstraintUnscoped(patientsHop, patients, appointments, appointmentsHop.klass, NoBlocks());
    var j0 := JoinNode(appointments, Eq(Column(appointments, "physician_id"), Column(physicians, "id")), InnerJoin);
    var j1 := JoinNode(patients, Eq(Column(patients, "id"), Column(appointments, "patient_id")), InnerJoin);
    assert HopJoin(r, InnerJoin, parent, ts, NoBlocks(), 0) == j0;
    assert HopJoin(r, InnerJoin, parent, ts, NoBlocks(), 1) == j1;
    assert seq(2, i requires 0 <= i < 2 => HopJoin(r, InnerJoin, parent, ts, NoBlocks(), i)) == [j0, j1];
  }

  const images := Table("images", None)
  const comments := Table("comments", None)
  /** `Image has_many :comments, as: :imageable`. */
  const commentsHop := Hop(PlainKlass("Comment"), HasMany, "imageable_id", "id", "id", Some("imageable_type"))

  /** The polymorphic type column is compared with the parent's class name:
      `comments.imageable_id = images.id AND comments.imageable_type = 'Image'`. */
  lemma PolymorphicScenario()
    ensures JoinConstraintsSpec(Reflection("comments", commentsHop, [], [[]]), OuterJoin,
                                JoinParent(PlainKlass("Image"), Some(images)), [comments], NoBlocks())
         == Ok([JoinNode(comments,
                         And([Eq(Column(comments, "imageable_id"), Column(images, "id")),
                              TypeEq(Column(comments, "imageable_type"), "Image")]),
                         OuterJoin)])
  {
    var r := Reflection("comments", commentsHop, [], [[]]);
    var parent := JoinParent(PlainKlass("Image"), Some(images));
    var filter := TypeFilter(comments, "imageable_type", parent.baseKlass);
    var cs := ScopeContributions(commentsHop, comments, [], parent.baseKlass, NoBlocks());
    assert ResolveScopeItems([], commentsHop.klass, comments, NoBlocks()) == [];
    assert cs == [filter];
    assert MergeAll(cs) == Some(filter);
    var eq := Eq(Column(comments, "imageable_id"), Column(images, "id"));
    var j0 := JoinNode(comments, And([eq, TypeEq(Column(comments, "imageable_type"), "Image")]), OuterJoin);
    assert HopConstraint(commentsHop, comments, [], images, parent.baseKlass, NoBlocks()) == AndScope(eq, Some(filter));
    assert HopJoin(r, OuterJoin, parent, [comments], NoBlocks(), 0) == j0;
    assert seq(1, i requires 0 <= i < 1 => HopJoin(r, OuterJoin, parent, [comments], NoBlocks(), i)) == [j0];
  }

  /** Too few tables for a two-hop chain: the second step finds no table. */
  lemma ShortTablesScenario()
    ensures JoinConstraintsSpec(Reflection("patients", patientsHop, [appointmentsHop], [[], []]), InnerJoin,
                                JoinParent(PlainKlass("Physician"), Some(physicians)), [appointments], NoBlocks())
         == Err(NilTable(1))
  {
  }
}
