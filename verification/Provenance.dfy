/** Validating the provenance of a fact through its derived parents down to source rows
    (backend/finrisk/empirical_validation.py, `_fact_provenance_valid`). */
module Provenance {
  import opened Wrappers
  import opened Ordering

  /** An entry of `derived_from`: text, or something that is not text. */
  datatype Parent = Named(name: string) | NotText(value: int)

  datatype Parents = NotAList | Listed(items: seq<Parent>)

  /** `source_row`: key absent, not a dictionary, or one with the fields that are looked at. */
  datatype Source =
    | Absent
    | NotADictionary
    | SourceRow(adsh: Option<string>, tag: Option<string>, ddate: Option<string>, uom: Option<string>,
                coreg: Option<string>, segments: Option<string>)

  /** A non-empty provenance entry; `formula` is None when it is missing or not text. */
  datatype Entry = Entry(derivedFrom: Option<Parents>, formula: Option<string>, source: Source,
                         concept: Option<string>, unit: Option<string>)

  /** The row under validation; an empty provenance dictionary counts as absent. */
  datatype Case = Case(
    row: int,
    facts: map<string, Option<real>>,
    provenance: map<string, Entry>,
    sourceHash: Option<string>,
    sourceTime: Option<string>,
    accession: string,
    period: string)

  datatype Detail = OfField(field: string) | OfTrail(trail: seq<string>) | OfMissing(field: string, keys: seq<string>)

  datatype Error = Error(row: int, code: string, detail: Detail)

  /** The returned flag and the errors appended on the way. */
  datatype Verdict = Verdict(valid: bool, errors: seq<Error>)

  // ----- text

  predicate IsSpace(ch: char) {
    ch == ' ' || ch == '\t' || ch == '\n' || ch == '\r'
  }

  function StripLeft(s: string): string {
    if s != [] && IsSpace(s[0]) then StripLeft(s[1..]) else s
  }

  function StripRight(s: string): string {
    if s != [] && IsSpace(s[|s| - 1]) then StripRight(s[..|s| - 1]) else s
  }

  function Strip(s: string): string { StripRight(StripLeft(s)) }

  function OrEmpty(s: Option<string>): string {
    if s.Some? then s.value else ""
  }

  predicate Missing(s: Option<string>) {
    s == None || s == Some("")
  }

  // ----- the supported derivation

  predicate DebtFormula(formula: Option<string>) {
    formula.Some? && Strip(formula.value) in {"short_term_debt + long_term_debt", "current + noncurrent debt"}
  }

  predicate DebtParents(items: seq<Parent>) {
    (set p | p in items) == {Named("short_term_debt"), Named("long_term_debt")}
  }

  predicate Supported(field: string, items: seq<Parent>, formula: Option<string>) {
    field == "total_debt" && DebtParents(items) && DebtFormula(formula)
  }

  predicate WellShaped(e: Entry)
    requires e.derivedFrom.Some?
  {
    && e.derivedFrom.value.Listed?
    && e.derivedFrom.value.items != []
    && Distinct(e.derivedFrom.value.items)
    && e.formula.Some? && Strip(e.formula.value) != ""
    && e.source.Absent?
  }

  function Known(c: Case, field: string): bool {
    field in c.facts && c.facts[field].Some?
  }

  function ValueOf(c: Case, p: Parent): real {
    if p.Named? && Known(c, p.name) then c.facts[p.name].value else 0.0
  }

  function SumOf(c: Case, items: seq<Parent>): real {
    if items == [] then 0.0 else ValueOf(c, items[0]) + SumOf(c, items[1..])
  }

  function Abs(x: real): real { if x < 0.0 then -x else x }

  function Tolerance(expected: real): real {
    var relative := Abs(expected) * 0.000000001;
    if relative > 0.000001 then relative else 0.000001
  }

  predicate WithinTolerance(value: real, expected: real) {
    Abs(value - expected) <= Tolerance(expected)
  }

  // ----- a direct fact

  function MissingKeys(c: Case, e: Entry): seq<string>
    requires e.source.SourceRow?
  {
    (if Missing(e.source.adsh) then ["adsh"] else [])
    + (if Missing(e.concept) then ["concept"] else [])
    + (if Missing(e.source.ddate) then ["ddate"] else [])
    + (if Missing(c.sourceTime) then ["source_available_time"] else [])
    + (if Missing(c.sourceHash) then ["source_hash"] else [])
    + (if Missing(e.source.tag) then ["tag"] else [])
    + (if Missing(e.unit) then ["unit"] else [])
    + (if Missing(e.source.uom) then ["uom"] else [])
  }

  function Checks(c: Case, e: Entry): seq<(bool, string)>
    requires e.source.SourceRow?
  {
    [(e.source.adsh == Some(c.accession), "FACT_ACCESSION_MISMATCH"),
     (e.source.ddate == Some(c.period), "FACT_PERIOD_MISMATCH"),
     (e.concept == e.source.tag, "FACT_CONCEPT_MISMATCH"),
     (e.unit == e.source.uom && e.source.uom == Some("USD"), "FACT_UNIT_MISMATCH"),
     (Strip(OrEmpty(e.source.coreg)) == "" && Strip(OrEmpty(e.source.segments)) == "", "DIMENSIONAL_FACT_IN_CONSOLIDATED_FEATURE")]
  }

  function FailedChecks(c: Case, field: string, checks: seq<(bool, string)>): seq<Error> {
    if checks == [] then []
    else (if checks[0].0 then [] else [Error(c.row, checks[0].1, OfField(field))]) + FailedChecks(c, field, checks[1..])
  }

  function Direct(c: Case, field: string, e: Entry): Verdict {
    if !e.source.SourceRow? then Verdict(false, [Error(c.row, "FACT_PROVENANCE_INCOMPLETE", OfField(field))])
    else
      var incomplete := MissingKeys(c, e);
      var failed := FailedChecks(c, field, Checks(c, e));
      Verdict(incomplete == [] && failed == [],
              (if incomplete == [] then [] else [Error(c.row, "FACT_PROVENANCE_INCOMPLETE", OfMissing(field, incomplete))]) + failed)
  }

  // ----- the recursion

  function Names(trail: seq<string>): set<string> {
    set f | f in trail
  }

  /** Fields that can still be visited: the measure of the recursion. */
  function Unvisited(c: Case, trail: seq<string>): nat {
    |c.facts.Keys - Names(trail)|
  }

  lemma VisitShrinks(c: Case, field: string, trail: seq<string>)
    requires field in c.facts && field !in trail
    ensures Unvisited(c, trail + [field]) < Unvisited(c, trail)
  {
    var before, after := c.facts.Keys - Names(trail), c.facts.Keys - Names(trail + [field]);
    assert before == after + {field};
  }

  function Reject(c: Case, code: string, field: string): Verdict {
    Verdict(false, [Error(c.row, code, OfField(field))])
  }

  function Validate(c: Case, field: string, trail: seq<string>): Verdict
    decreases Unvisited(c, trail), 0
  {
    if field in trail then Verdict(false, [Error(c.row, "DERIVED_PROVENANCE_CYCLE", OfTrail(trail + [field]))])
    else if !Known(c, field) then Reject(c, "DERIVED_FACT_MISSING_PARENT", field)
    else if field !in c.provenance then Reject(c, "FACT_PROVENANCE_MISSING", field)
    else
      var e := c.provenance[field];
      if e.derivedFrom == None then Direct(c, field, e)
      else if !WellShaped(e) then Reject(c, "INVALID_DERIVED_PROVENANCE", field)
      else
        var items := e.derivedFrom.value.items;
        VisitShrinks(c, field, trail);
        var parents := ValidateAll(c, items, trail + [field]);
        var last := Combine(c, field, items, e.formula, parents.valid);
        Verdict(last.valid, parents.errors + last.errors)
  }

  /** `all(...)` over the parents: stops at the first that fails. */
  function ValidateAll(c: Case, items: seq<Parent>, trail: seq<string>): Verdict
    decreases Unvisited(c, trail), |items|
  {
    if items == [] then Verdict(true, [])
    else if items[0].NotText? then Verdict(false, [])
    else
      var first := Validate(c, items[0].name, trail);
      if !first.valid then first
      else
        var rest := ValidateAll(c, items[1..], trail);
        Verdict(rest.valid, first.errors + rest.errors)
  }

  /** What is checked of a derived fact after its parents. */
  function Combine(c: Case, field: string, items: seq<Parent>, formula: Option<string>, parentsValid: bool): Verdict
    requires Known(c, field)
  {
    if !parentsValid then Reject(c, "DERIVED_PARENT_PROVENANCE_INVALID", field)
    else if !Supported(field, items, formula) then Reject(c, "UNSUPPORTED_DERIVATION", field)
    else if !WithinTolerance(c.facts[field].value, SumOf(c, items)) then Reject(c, "DERIVED_VALUE_MISMATCH", field)
    else Verdict(true, [])
  }

  // ----- the program, appending to a shared list

  class ErrorLog {
    var entries: seq<Error>

    constructor ()
      ensures entries == []
    {
      entries := [];
    }

    method Append(e: Error)
      modifies this
      ensures entries == old(entries) + [e]
    {
      entries := entries + [e];
    }
  }

  method DirectFactValid(c: Case, field: string, e: Entry, log: ErrorLog) returns (valid: bool)
    modifies log
    ensures Verdict(valid, log.entries) == Verdict(Direct(c, field, e).valid, old(log.entries) + Direct(c, field, e).errors)
  {
    if !e.source.SourceRow? {
      log.Append(Error(c.row, "FACT_PROVENANCE_INCOMPLETE", OfField(field)));
      return false;
    }
    var incomplete := MissingKeys(c, e);
    valid := incomplete == [];
    if incomplete != [] {
      log.Append(Error(c.row, "FACT_PROVENANCE_INCOMPLETE", OfMissing(field, incomplete)));
    }
    var passed := RunChecks(c, field, Checks(c, e), log);
    valid := valid && passed;
  }

  method RunChecks(c: Case, field: string, checks: seq<(bool, string)>, log: ErrorLog) returns (valid: bool)
    modifies log
    ensures valid <==> FailedChecks(c, field, checks) == []
    ensures log.entries == old(log.entries) + FailedChecks(c, field, checks)
  {
    valid := true;
    ghost var failed := FailedChecks(c, field, checks);
    for i := 0 to |checks|
      invariant log.entries + FailedChecks(c, field, checks[i..]) == old(log.entries) + failed
      invariant valid && FailedChecks(c, field, checks[i..]) == [] <==> failed == []
    {
      assert checks[i..][1..] == checks[i + 1..];
      if !checks[i].0 {
        log.Append(Error(c.row, checks[i].1, OfField(field)));
        valid := false;
      }
    }
    assert checks[|checks|..] == [];
  }

  method FactProvenanceValid(c: Case, field: string, log: ErrorLog, trail: seq<string>) returns (valid: bool)
    modifies log
    ensures valid == Validate(c, field, trail).valid
    ensures log.entries == old(log.entries) + Validate(c, field, trail).errors
    decreases Unvisited(c, trail), 0
  {
    if field in trail {
      log.Append(Error(c.row, "DERIVED_PROVENANCE_CYCLE", OfTrail(trail + [field])));
      return false;
    }
    if !Known(c, field) {
      log.Append(Error(c.row, "DERIVED_FACT_MISSING_PARENT", OfField(field)));
      return false;
    }
    if field !in c.provenance {
      log.Append(Error(c.row, "FACT_PROVENANCE_MISSING", OfField(field)));
      return false;
    }
    var e := c.provenance[field];
    if e.derivedFrom == None {
      valid := DirectFactValid(c, field, e, log);
      return;
    }
    if !WellShaped(e) {
      log.Append(Error(c.row, "INVALID_DERIVED_PROVENANCE", OfField(field)));
      return false;
    }
    var items := e.derivedFrom.value.items;
    VisitShrinks(c, field, trail);
    valid := ParentsValid(c, items, log, trail + [field]);
    valid := FinishDerived(c, field, items, e.formula, valid, log);
  }

  lemma OneParent(c: Case, items: seq<Parent>, i: nat, trail: seq<string>)
    requires i < |items|
    ensures ValidateAll(c, items[i..], trail)
      == if items[i].NotText? then Verdict(false, [])
         else
           var first, rest := Validate(c, items[i].name, trail), ValidateAll(c, items[i + 1..], trail);
           if !first.valid then first else Verdict(rest.valid, first.errors + rest.errors)
  {
    assert items[i..][1..] == items[i + 1..];
  }

  /** The `all(...)` over the parents. */
  method ParentsValid(c: Case, items: seq<Parent>, log: ErrorLog, trail: seq<string>) returns (valid: bool)
    modifies log
    ensures valid == ValidateAll(c, items, trail).valid
    ensures log.entries == old(log.entries) + ValidateAll(c, items, trail).errors
    decreases Unvisited(c, trail), 1
  {
    ghost var all := ValidateAll(c, items, trail);
    ghost var logged := log.entries;
    for i := 0 to |items|
      invariant Pending(all, logged, log.entries, ValidateAll(c, items[i..], trail))
    {
      OneParent(c, items, i, trail);
      if items[i].NotText? {
        return false;
      }
      var good := FactProvenanceValid(c, items[i].name, log, trail);
      if !good {
        return false;
      }
    }
    assert items[|items|..] == [];
    valid := true;
  }

  /** What is logged so far and what is still to come make up the whole verdict. */
  ghost predicate Pending(all: Verdict, before: seq<Error>, now: seq<Error>, rest: Verdict) {
    all.valid == rest.valid && now + rest.errors == before + all.errors
  }

  method FinishDerived(c: Case, field: string, items: seq<Parent>, formula: Option<string>, parentsValid: bool, log: ErrorLog)
    returns (valid: bool)
    requires Known(c, field)
    modifies log
    ensures valid == Combine(c, field, items, formula, parentsValid).valid
    ensures log.entries == old(log.entries) + Combine(c, field, items, formula, parentsValid).errors
  {
    if !parentsValid {
      log.Append(Error(c.row, "DERIVED_PARENT_PROVENANCE_INVALID", OfField(field)));
      return false;
    }
    if !Supported(field, items, formula) {
      log.Append(Error(c.row, "UNSUPPORTED_DERIVATION", OfField(field)));
      return false;
    }
    if !WithinTolerance(c.facts[field].value, SumOf(c, items)) {
      log.Append(Error(c.row, "DERIVED_VALUE_MISMATCH", OfField(field)));
      return false;
    }
    return true;
  }

  // ----- what acceptance means

  lemma DirectSilent(c: Case, field: string, e: Entry)
    ensures Direct(c, field, e).valid <==> Direct(c, field, e).errors == []
  {
    if e.source.SourceRow? && MissingKeys(c, e) != [] {
      assert Direct(c, field, e).errors[0] == Error(c.row, "FACT_PROVENANCE_INCOMPLETE", OfMissing(field, MissingKeys(c, e)));
    }
  }

  /** Nothing was appended exactly when the answer is yes. */
  lemma {:induction false} ValidIffSilent(c: Case, field: string, trail: seq<string>)
    ensures Validate(c, field, trail).valid <==> Validate(c, field, trail).errors == []
    decreases Unvisited(c, trail), 0
  {
    if field !in trail && Known(c, field) && field in c.provenance {
      var e := c.provenance[field];
      if e.derivedFrom == None {
        DirectSilent(c, field, e);
      } else if WellShaped(e) {
        VisitShrinks(c, field, trail);
        SilentParents(c, e.derivedFrom.value.items, trail + [field]);
        var parents := ValidateAll(c, e.derivedFrom.value.items, trail + [field]);
        var last := Combine(c, field, e.derivedFrom.value.items, e.formula, parents.valid);
        assert last.valid <==> last.errors == [];
        assert Validate(c, field, trail).errors == parents.errors + last.errors;
      }
    }
  }

  lemma {:induction false} SilentParents(c: Case, items: seq<Parent>, trail: seq<string>)
    ensures ValidateAll(c, items, trail).valid ==> ValidateAll(c, items, trail).errors == []
    decreases Unvisited(c, trail), |items|
  {
    if items != [] && items[0].Named? {
      ValidIffSilent(c, items[0].name, trail);
      SilentParents(c, items[1..], trail);
    }
  }

  /** A fact taken straight from a consolidated USD row of the expected accession and period, with nothing missing. */
  predicate DirectlyReported(c: Case, field: string) {
    && Known(c, field) && field in c.provenance
    && var e := c.provenance[field];
      && e.derivedFrom == None && e.source.SourceRow?
      && e.source.adsh == Some(c.accession) && c.accession != ""
      && e.source.ddate == Some(c.period) && c.period != ""
      && e.source.uom == Some("USD") && e.unit == Some("USD")
      && !Missing(e.source.tag) && e.concept == e.source.tag
      && !Missing(c.sourceHash) && !Missing(c.sourceTime)
      && Strip(OrEmpty(e.source.coreg)) == "" && Strip(OrEmpty(e.source.segments)) == ""
  }

  /** Total debt derived from directly reported short- and long-term debt that it equals within tolerance. */
  predicate DerivedDebt(c: Case, field: string) {
    && field == "total_debt" && Known(c, field) && field in c.provenance
    && var e := c.provenance[field];
      && e.derivedFrom.Some? && e.derivedFrom.value.Listed? && e.source.Absent?
      && DebtParents(e.derivedFrom.value.items) && |e.derivedFrom.value.items| == 2
      && DebtFormula(e.formula)
      && DirectlyReported(c, "short_term_debt") && DirectlyReported(c, "long_term_debt")
      && WithinTolerance(c.facts[field].value, c.facts["short_term_debt"].value + c.facts["long_term_debt"].value)
  }

  lemma NothingMissing(c: Case, e: Entry)
    requires e.source.SourceRow?
    ensures MissingKeys(c, e) == [] <==>
        && !Missing(e.source.adsh) && !Missing(e.concept) && !Missing(e.source.ddate) && !Missing(c.sourceTime)
        && !Missing(c.sourceHash) && !Missing(e.source.tag) && !Missing(e.unit) && !Missing(e.source.uom)
  {
    assert |MissingKeys(c, e)| == Count(Missing(e.source.adsh)) + Count(Missing(e.concept)) + Count(Missing(e.source.ddate))
        + Count(Missing(c.sourceTime)) + Count(Missing(c.sourceHash)) + Count(Missing(e.source.tag)) + Count(Missing(e.unit))
        + Count(Missing(e.source.uom));
  }

  function Count(b: bool): nat { if b then 1 else 0 }

  lemma DirectMeaning(c: Case, field: string, e: Entry)
    requires Known(c, field) && field in c.provenance && c.provenance[field] == e && e.derivedFrom == None
    ensures Direct(c, field, e).valid <==> DirectlyReported(c, field)
  {
    if e.source.SourceRow? {
      var checks := Checks(c, e);
      FiveChecks(c, field, checks);
      NothingMissing(c, e);
      assert (forall i | 0 <= i < |checks| :: checks[i].0) <==>
          checks[0].0 && checks[1].0 && checks[2].0 && checks[3].0 && checks[4].0;
    }
  }

  lemma {:induction false} FiveChecks(c: Case, field: string, checks: seq<(bool, string)>)
    ensures FailedChecks(c, field, checks) == [] <==> forall i | 0 <= i < |checks| :: checks[i].0
  {
    if checks != [] {
      FiveChecks(c, field, checks[1..]);
    }
  }

  /** Only total debt is ever accepted as derived. */
  lemma OnlyDebtDerives(c: Case, field: string, trail: seq<string>)
    requires Validate(c, field, trail).valid && field != "total_debt"
    ensures DirectlyReported(c, field)
  {
    var e := c.provenance[field];
    if e.derivedFrom == None {
      DirectMeaning(c, field, e);
    }
  }

  lemma LeafAnywhere(c: Case, field: string, trail: seq<string>)
    requires field !in trail && field != "total_debt"
    ensures Validate(c, field, trail).valid <==> DirectlyReported(c, field)
  {
    if Validate(c, field, trail).valid {
      OnlyDebtDerives(c, field, trail);
    }
    if DirectlyReported(c, field) {
      DirectMeaning(c, field, c.provenance[field]);
    }
  }

  lemma PairLength(a: Parent, b: Parent)
    requires a != b
    ensures |{a, b}| == 2
  {
  }

  /** A set of two makes a list without repeats one of the two orders. */
  lemma TwoInOrder(items: seq<Parent>, a: Parent, b: Parent)
    requires Distinct(items) && a != b
    ensures (set p | p in items) == {a, b} <==> items == [a, b] || items == [b, a]
  {
    var members := set p | p in items;
    if members == {a, b} {
      DistinctLength(items);
      PairLength(a, b);
      assert items[0] in members && items[1] in members;
    }
    if items == [a, b] || items == [b, a] {
      assert a in items && b in items;
      assert members == {a, b};
    }
  }

  lemma PairVerdict(c: Case, x: string, y: string, trail: seq<string>)
    requires x !in trail && y !in trail && x != "total_debt" && y != "total_debt"
    ensures ValidateAll(c, [Named(x), Named(y)], trail).valid <==> DirectlyReported(c, x) && DirectlyReported(c, y)
    ensures DirectlyReported(c, x) && DirectlyReported(c, y) ==>
        SumOf(c, [Named(x), Named(y)]) == c.facts[x].value + c.facts[y].value
  {
    LeafAnywhere(c, x, trail);
    LeafAnywhere(c, y, trail);
    var items, tail := [Named(x), Named(y)], [Named(y)];
    assert items[1..] == tail && tail[1..] == [];
    assert ValidateAll(c, [], trail).valid && SumOf(c, []) == 0.0;
    assert ValidateAll(c, tail, trail).valid == Validate(c, y, trail).valid;
    assert SumOf(c, items) == ValueOf(c, Named(x)) + SumOf(c, tail);
  }

  lemma DebtNames()
    ensures "short_term_debt" != "long_term_debt" && "short_term_debt" != "total_debt" && "long_term_debt" != "total_debt"
  {
    assert "short_term_debt"[0] == 's' && "long_term_debt"[0] == 'l' && "total_debt"[0] == 't';
  }

  /** A debt formula is not blank. */
  lemma FormulaNotBlank(formula: Option<string>)
    requires DebtFormula(formula)
    ensures Strip(formula.value) != ""
  {
    assert |"short_term_debt + long_term_debt"| > 0 && |"current + noncurrent debt"| > 0;
  }

  lemma DerivedMeaning(c: Case, e: Entry)
    requires Known(c, "total_debt") && "total_debt" in c.provenance && c.provenance["total_debt"] == e && e.derivedFrom.Some?
    ensures Validate(c, "total_debt", []).valid <==> DerivedDebt(c, "total_debt")
  {
    DebtNames();
    if e.derivedFrom.value.Listed? && Distinct(e.derivedFrom.value.items) && DebtFormula(e.formula) {
      var items := e.derivedFrom.value.items;
      var s, l := "short_term_debt", "long_term_debt";
      FormulaNotBlank(e.formula);
      TwoInOrder(items, Named(s), Named(l));
      PairVerdict(c, s, l, ["total_debt"]);
      PairVerdict(c, l, s, ["total_debt"]);
      assert [] + ["total_debt"] == ["total_debt"];
    } else if e.derivedFrom.value.Listed? && DebtParents(e.derivedFrom.value.items) && |e.derivedFrom.value.items| == 2 {
      TwoDistinct(e.derivedFrom.value.items);
    }
  }

  lemma TwoDistinct(items: seq<Parent>)
    requires DebtParents(items) && |items| == 2
    ensures Distinct(items)
  {
    DebtNames();
    var members := set p | p in items;
    assert Named("short_term_debt") in members && Named("long_term_debt") in members;
  }

  /** The recursion, over any parent graph, accepts exactly the directly reported facts and a total debt derived from
      two of them: nothing deeper, no cycle, no other derivation. */
  lemma AcceptedExactly(c: Case, field: string)
    ensures Validate(c, field, []).valid <==> DirectlyReported(c, field) || DerivedDebt(c, field)
  {
    if field != "total_debt" {
      LeafAnywhere(c, field, []);
    } else if Known(c, field) && field in c.provenance {
      var e := c.provenance[field];
      if e.derivedFrom == None {
        DirectMeaning(c, field, e);
      } else {
        DerivedMeaning(c, e);
      }
    }
  }
}
