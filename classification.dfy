/**
 * The analyzer's `determineStatus` (src/utils/healthAnalyzer.js): critical
 * bounds first, inclusive, then the normal band. The test
 * `!paramDef.critical || !paramDef.min || !paramDef.max` treats a bound of 0
 * as missing, so a definition with a zero bound is never graded.
 */
module Classification {
  import opened Wrappers
  import opened Catalog

  datatype Status = Normal | Low | High | CriticalLow | CriticalHigh {
    /** The string the analyzer stores in a record's `status`. */
    function Name(): string {
      match this
      case Normal => "normal"
      case Low => "low"
      case High => "high"
      case CriticalLow => "critical_low"
      case CriticalHigh => "critical_high"
    }
  }

  /** The names are distinct, so a stored status string determines the status. */
  lemma NameInjective(a: Status, b: Status)
    requires a.Name() == b.Name()
    ensures a == b
  {
  }

  /** A definition is graded when it has a critical band and truthy bounds. */
  predicate Graded(d: ParamDef) {
    d.critical.Some? && d.min != 0.0 && d.max != 0.0
  }

  /** `determineStatus(value, paramDef)` for a value that is not NaN. */
  function DetermineStatus(value: real, d: ParamDef): (s: Status)
    ensures !Graded(d) ==> s == Normal
    ensures Graded(d) ==>
      && (s == CriticalLow <==> value <= d.critical.value.min)
      && (s == CriticalHigh <==> d.critical.value.min < value && d.critical.value.max <= value)
      && (s == Low <==> d.critical.value.min < value < d.critical.value.max && value < d.min)
      && (s == High <==> d.critical.value.min < value < d.critical.value.max && d.min <= value && d.max < value)
      && (s == Normal <==> d.critical.value.min < value < d.critical.value.max && d.min <= value <= d.max)
  {
    if !Graded(d) then Normal
    else if value <= d.critical.value.min || value >= d.critical.value.max then
      (if value <= d.critical.value.min then CriticalLow else CriticalHigh)
    else if value < d.min then Low
    else if value > d.max then High
    else Normal
  }

  /** A definition can yield a status other than `normal` exactly when it is graded:
      a value at its critical minimum is `critical_low`. */
  lemma GradedIffSomeValueAbnormal(d: ParamDef)
    ensures Graded(d) <==> exists v :: DetermineStatus(v, d) != Normal
  {
    if Graded(d) {
      assert DetermineStatus(d.critical.value.min, d) == CriticalLow;
    }
  }

  /** In the catalog the critical band is always present and the upper bound
      positive, so an entry is graded exactly when its lower bound is not 0,
      and every ungraded entry belongs to the lipid group. */
  lemma CatalogGrading()
    ensures forall e :: e in Definitions ==> (Graded(e.def) <==> e.def.min != 0.0)
    ensures forall e :: e in Definitions && !Graded(e.def) ==> e.def.category == "lipid"
  {
    CatalogWellFormed();
  }

  /** Which lipid keys are ungraded: every one except the two HDL keys. */
  lemma LipidGrading()
    ensures forall e :: e in LipidEntries ==> (Graded(e.def) <==> e.key == "hdl" || e.key == "hdl cholesterol")
  {
  }

  /** For a catalog entry, a value inside the normal band and strictly inside
      the critical band is `normal`; at or beyond a critical bound it is critical
      even when the normal band reaches that bound. */
  lemma CatalogBands(e: Entry, value: real)
    requires e in Definitions && Graded(e.def)
    ensures e.def.min <= value <= e.def.max && value < e.def.critical.value.max ==>
              DetermineStatus(value, e.def) == Normal
    ensures value <= e.def.critical.value.min ==> DetermineStatus(value, e.def) == CriticalLow
    ensures value >= e.def.critical.value.max ==> DetermineStatus(value, e.def) == CriticalHigh
  {
    CatalogWellFormed();
    var d := e.def;
    assert d.critical.value.min < d.min <= d.max <= d.critical.value.max by {
      assert WellFormed(e);
    }
    NestedBands(value, d);
  }

  /** With the normal band inside the critical one, the statuses fall into the bands. */
  lemma NestedBands(value: real, d: ParamDef)
    requires Graded(d) && d.critical.value.min < d.min <= d.max <= d.critical.value.max
    ensures d.min <= value <= d.max && value < d.critical.value.max ==> DetermineStatus(value, d) == Normal
    ensures value <= d.critical.value.min ==> DetermineStatus(value, d) == CriticalLow
    ensures value >= d.critical.value.max ==> DetermineStatus(value, d) == CriticalHigh
  {
  }

  /** HDL's normal band ends where its critical band starts: 200 mg/dl, the band's
      own maximum, is `critical_high`. */
  lemma HdlTopOfBandIsCritical()
    ensures LipidEntries[4].key == "hdl" && LipidEntries[4].def.max == 200.0
    ensures DetermineStatus(200.0, LipidEntries[4].def) == CriticalHigh
  {
  }

  /** A cholesterol reading is `normal` whatever its value, because its lower bound is 0. */
  lemma CholesterolAlwaysNormal(value: real)
    ensures LipidEntries[0].key == "cholesterol"
    ensures DetermineStatus(value, LipidEntries[0].def) == Normal
  {
  }

  /** Statuses of sample glucose readings against the catalog's glucose entry. */
  lemma GlucoseStatuses()
    ensures DiabetesEntries[0].key == "glucose"
    ensures DetermineStatus(50.0, DiabetesEntries[0].def) == CriticalLow
    ensures DetermineStatus(69.5, DiabetesEntries[0].def) == Low
    ensures DetermineStatus(100.0, DiabetesEntries[0].def) == Normal
    ensures DetermineStatus(250.0, DiabetesEntries[0].def) == High
    ensures DetermineStatus(400.0, DiabetesEntries[0].def) == CriticalHigh
  {
  }
}
