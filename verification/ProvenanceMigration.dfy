/** The version 2 migration: derivations whose parents are unavailable are withdrawn
    (backend/finrisk/empirical_validation.py, `migrate_provenance_v2`). */
module ProvenanceMigration {
  import opened Wrappers
  import opened Ordering
  import opened Provenance

  /** The contents of a row. */
  datatype Contents = Contents(
    id: Option<string>,
    facts: map<string, Option<real>>,
    provenance: map<string, Entry>,
    unavailable: map<string, seq<Parent>>)

  datatype AuditEntry = AuditEntry(id: Option<string>, field: string, missing: seq<Parent>)

  /** A row object, updated in place. */
  class Row {
    var id: Option<string>
    var facts: map<string, Option<real>>
    var provenance: map<string, Entry>
    var unavailable: map<string, seq<Parent>>

    constructor (c: Contents)
      ensures View() == c
    {
      id, facts, provenance, unavailable := c.id, c.facts, c.provenance, c.unavailable;
    }

    function View(): Contents
      reads this
    {
      Contents(id, facts, provenance, unavailable)
    }

    /** Withdraw `field`: gone from facts and provenance, listed with its missing parents. */
    method Withdraw(field: string, missing: seq<Parent>)
      modifies this
      ensures View() == Withdrawn(old(View()), field, missing)
    {
      facts := facts - {field};
      provenance := provenance - {field};
      unavailable := unavailable[field := missing];
    }
  }

  function Withdrawn(c: Contents, field: string, missing: seq<Parent>): Contents {
    c.(facts := c.facts - {field}, provenance := c.provenance - {field}, unavailable := c.unavailable[field := missing])
  }

  predicate ParentAvailable(c: Contents, p: Parent) {
    p.Named? && p.name in c.facts && c.facts[p.name].Some? && p.name in c.provenance
  }

  function MissingParents(c: Contents, items: seq<Parent>): seq<Parent> {
    if items == [] then []
    else (if ParentAvailable(c, items[0]) then [] else [items[0]]) + MissingParents(c, items[1..])
  }

  /** The derivation of `field` in the supported form, if it has one. */
  function Derivation(c: Contents, field: string): Option<seq<Parent>> {
    if field !in c.provenance then None
    else
      var e := c.provenance[field];
      if e.derivedFrom.Some? && field == "total_debt" && e.derivedFrom.value.Listed?
         && DebtParents(e.derivedFrom.value.items) && |e.derivedFrom.value.items| == 2
         && DebtFormula(e.formula) && e.source.Absent?
      then Some(e.derivedFrom.value.items) else None
  }

  /** A supported derivation with at least one parent missing. */
  predicate Broken(c: Contents, field: string) {
    && field in c.facts
    && Derivation(c, field).Some?
    && MissingParents(c, Derivation(c, field).value) != []
  }

  function MigrateField(c: Contents, field: string): Contents {
    if Broken(c, field) then Withdrawn(c, field, MissingParents(c, Derivation(c, field).value)) else c
  }

  /** Only total debt can be affected, so the order of the fields does not matter. */
  function Migrated(c: Contents): (m: Contents)
    ensures m.id == c.id
  {
    MigrateField(c, "total_debt")
  }

  function Audit(c: Contents): seq<AuditEntry> {
    if Broken(c, "total_debt") then [AuditEntry(c.id, "total_debt", MissingParents(c, Derivation(c, "total_debt").value))] else []
  }

  function AuditAll(rows: seq<Contents>): seq<AuditEntry> {
    if rows == [] then [] else Audit(rows[0]) + AuditAll(rows[1..])
  }

  // ----- the program

  /** One field of one row; the `continue`s of the source are the branches that do nothing. */
  method VisitField(row: Row, field: string, audit: seq<AuditEntry>) returns (longer: seq<AuditEntry>)
    requires field in row.facts
    modifies row
    ensures row.View() == MigrateField(old(row.View()), field)
    ensures longer == if Broken(old(row.View()), field) then audit + Audit(old(row.View())) else audit
  {
    longer := audit;
    ghost var before := row.View();
    var derivation := Derivation(row.View(), field);
    if derivation.Some? {
      var missing := MissingParents(row.View(), derivation.value);
      if missing != [] {
        assert Broken(before, field);
        row.Withdraw(field, missing);
        longer := audit + [AuditEntry(row.id, field, missing)];
      }
    }
  }

  /** All fields the row had at the start, in any order. */
  method VisitRow(row: Row, audit: seq<AuditEntry>) returns (longer: seq<AuditEntry>)
    modifies row
    ensures row.View() == Migrated(old(row.View()))
    ensures longer == audit + Audit(old(row.View()))
  {
    ghost var before := row.View();
    longer := audit;
    var pending := row.facts.Keys;
    while pending != {}
      invariant pending <= row.facts.Keys
      invariant "total_debt" in pending || "total_debt" !in before.facts ==> row.View() == before && longer == audit
      invariant "total_debt" !in pending && "total_debt" in before.facts ==>
          row.View() == Migrated(before) && longer == audit + Audit(before)
      decreases |pending|
    {
      var field :| field in pending;
      longer := VisitField(row, field, longer);
      pending := pending - {field};
    }
  }

  function Views(rows: seq<Row>): (views: seq<Contents>)
    reads rows
    ensures |views| == |rows|
    ensures forall i | 0 <= i < |rows| :: views[i] == rows[i].View()
  {
    if rows == [] then [] else [rows[0].View()] + Views(rows[1..])
  }

  ghost predicate Apart(rows: seq<Row>) {
    forall i, j | 0 <= i < j < |rows| :: rows[i] != rows[j]
  }

  /** The first `k` rows migrated, the others as they were. */
  ghost predicate Progress(rows: seq<Row>, views: seq<Contents>, goal: seq<Contents>, k: nat)
    requires |views| == |rows| == |goal|
    reads rows
  {
    forall i | 0 <= i < |rows| :: rows[i].View() == if i < k then goal[i] else views[i]
  }

  function MigratedAll(views: seq<Contents>): (goal: seq<Contents>)
    ensures |goal| == |views|
  {
    Map(Migrated, views)
  }

  /** One row of the outer loop; the others keep their contents. */
  method VisitNext(rows: seq<Row>, k: nat, ghost views: seq<Contents>, ghost goal: seq<Contents>, audit: seq<AuditEntry>)
    returns (longer: seq<AuditEntry>)
    requires Apart(rows) && |views| == |rows| && k < |rows| && goal == MigratedAll(views) && Progress(rows, views, goal, k)
    modifies rows
    ensures Progress(rows, views, goal, k + 1)
    ensures longer + AuditAll(views[k + 1..]) == audit + AuditAll(views[k..])
  {
    assert views[k..][1..] == views[k + 1..];
    assert rows[k].View() == views[k] && goal[k] == Migrated(views[k]);
    longer := VisitRow(rows[k], audit);
  }

  /** The outer loop, over copies that nobody else holds. */
  method MigrateInPlace(rows: seq<Row>, ghost views: seq<Contents>) returns (audit: seq<AuditEntry>)
    requires Apart(rows) && |views| == |rows| && Progress(rows, views, MigratedAll(views), 0)
    modifies rows
    ensures Progress(rows, views, MigratedAll(views), |rows|)
    ensures audit == AuditAll(views)
  {
    audit := [];
    ghost var goal := MigratedAll(views);
    for k := 0 to |rows|
      invariant Progress(rows, views, goal, k)
      invariant audit + AuditAll(views[k..]) == AuditAll(views)
    {
      audit := VisitNext(rows, k, views, goal, audit);
    }
    assert views[|rows|..] == [];
  }

  /** A copy of every row, migrated one after the other. No row that was passed in changes: the method has no
      `modifies` clause. */
  method Migrate(rows: seq<Row>) returns (migrated: seq<Row>, audit: seq<AuditEntry>)
    ensures |migrated| == |rows| && fresh(migrated)
    ensures forall i | 0 <= i < |rows| :: migrated[i].View() == Migrated(rows[i].View())
    ensures audit == AuditAll(Views(rows))
  {
    ghost var views := Views(rows);
    migrated := Copy(rows);
    assert Progress(migrated, views, MigratedAll(views), 0);
    audit := MigrateInPlace(migrated, views);
  }

  /** `deepcopy`: new objects with equal contents. */
  method Copy(rows: seq<Row>) returns (copies: seq<Row>)
    ensures |copies| == |rows| && fresh(copies)
    ensures forall i | 0 <= i < |rows| :: copies[i].View() == rows[i].View()
    ensures Apart(copies)
  {
    copies := [];
    for k := 0 to |rows|
      invariant |copies| == k && fresh(copies)
      invariant forall i | 0 <= i < k :: copies[i].View() == rows[i].View()
      invariant Apart(copies)
    {
      var copy := new Row(rows[k].View());
      copies := copies + [copy];
    }
  }

  // ----- what the migration means

  /** Migrating again changes nothing and reports nothing. */
  lemma Idempotent(c: Contents)
    ensures Migrated(Migrated(c)) == Migrated(c)
    ensures Audit(Migrated(c)) == []
  {
  }

  /** Everything but the withdrawn total debt stays as it was. */
  lemma OnlyBrokenDebtGoes(c: Contents, field: string)
    requires field != "total_debt" || !Broken(c, field)
    ensures field in Migrated(c).facts <==> field in c.facts
    ensures field in c.facts ==> Migrated(c).facts[field] == c.facts[field]
    ensures field in Migrated(c).provenance <==> field in c.provenance
    ensures field in c.provenance ==> Migrated(c).provenance[field] == c.provenance[field]
  {
  }

  lemma {:induction false} NothingMissing(c: Contents, items: seq<Parent>)
    ensures MissingParents(c, items) == [] <==> forall i | 0 <= i < |items| :: ParentAvailable(c, items[i])
  {
    if items != [] {
      NothingMissing(c, items[1..]);
    }
  }

  /** After the migration a total debt still present in the supported form has both parents, with provenance. */
  lemma ParentsAreThere(c: Contents)
    requires "total_debt" in Migrated(c).facts && Derivation(Migrated(c), "total_debt").Some?
    ensures forall p | p in Derivation(Migrated(c), "total_debt").value :: ParentAvailable(Migrated(c), p)
  {
    NothingMissing(c, Derivation(c, "total_debt").value);
  }

  /** The row as the validator sees it. */
  function AsCase(c: Contents, like: Case): Case {
    like.(facts := c.facts, provenance := c.provenance)
  }

  lemma DirectUnaffected(c: Contents, like: Case, field: string)
    requires field != "total_debt" || !Broken(c, field)
    ensures DirectlyReported(AsCase(Migrated(c), like), field) <==> DirectlyReported(AsCase(c, like), field)
  {
    OnlyBrokenDebtGoes(c, field);
  }

  /** What is withdrawn was not valid, and nothing that was valid is lost: the validator accepts the same facts. */
  lemma MigrationKeepsValidity(c: Contents, like: Case, field: string)
    ensures Validate(AsCase(Migrated(c), like), field, []).valid <==> Validate(AsCase(c, like), field, []).valid
  {
    AcceptedExactly(AsCase(Migrated(c), like), field);
    AcceptedExactly(AsCase(c, like), field);
    DebtNames();
    DirectUnaffected(c, like, "short_term_debt");
    DirectUnaffected(c, like, "long_term_debt");
    if field == "total_debt" && Broken(c, field) {
      BrokenIsInvalid(c, like);
    } else {
      DirectUnaffected(c, like, field);
      OnlyBrokenDebtGoes(c, field);
      OnlyBrokenDebtGoes(c, "short_term_debt");
      OnlyBrokenDebtGoes(c, "long_term_debt");
    }
  }

  lemma BrokenIsInvalid(c: Contents, like: Case)
    requires Broken(c, "total_debt")
    ensures !DirectlyReported(AsCase(c, like), "total_debt") && !DerivedDebt(AsCase(c, like), "total_debt")
  {
    var items := Derivation(c, "total_debt").value;
    NothingMissing(c, items);
    var i :| 0 <= i < |items| && !ParentAvailable(c, items[i]);
    assert items[i] in (set p | p in items);
  }
}
