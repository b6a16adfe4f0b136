/**
 * The reference catalog of src/utils/healthAnalyzer.js (`PARAMETER_DEFINITIONS`)
 * and its name lookup `findParameterDefinition`.
 *
 * The catalog is an object literal, so its keys keep their declaration order
 * (`Object.entries`). Aliases such as `hb` and `hemoglobin` are separate keys
 * that carry copies of the same ranges.
 */
module Catalog {
  import opened Wrappers
  import opened JsText

  datatype Bounds = Bounds(min: real, max: real)

  /** One catalog value: normal band, unit, category and critical bounds. */
  datatype ParamDef = ParamDef(min: real, max: real, unit: string, category: string, critical: Option<Bounds>)

  datatype Entry = Entry(key: string, def: ParamDef)

  function Def(min: real, max: real, unit: string, category: string, criticalMin: real, criticalMax: real): ParamDef {
    ParamDef(min, max, unit, category, Some(Bounds(criticalMin, criticalMax)))
  }

  /** `PARAMETER_DEFINITIONS`, in declaration order: the six commented groups
      of the object literal, one after the other. */
  const Definitions: seq<Entry> :=
    DiabetesEntries + LipidEntries + BloodCountEntries + LiverEntries + KidneyEntries + ThyroidEntries

  /** Blood sugar and diabetes. */
  const DiabetesEntries: seq<Entry> := [
    Entry("glucose", Def(70.0, 100.0, "mg/dl", "diabetes", 50.0, 400.0)),
    Entry("blood glucose", Def(70.0, 100.0, "mg/dl", "diabetes", 50.0, 400.0)),
    Entry("fasting glucose", Def(70.0, 100.0, "mg/dl", "diabetes", 50.0, 400.0)),
    Entry("hba1c", Def(4.0, 5.6, "%", "diabetes", 3.0, 12.0)),
    Entry("hemoglobin a1c", Def(4.0, 5.6, "%", "diabetes", 3.0, 12.0))
  ]

  /** Lipid profile. */
  const LipidEntries: seq<Entry> := [
    Entry("cholesterol", Def(0.0, 200.0, "mg/dl", "lipid", 0.0, 400.0)),
    Entry("total cholesterol", Def(0.0, 200.0, "mg/dl", "lipid", 0.0, 400.0)),
    Entry("ldl", Def(0.0, 100.0, "mg/dl", "lipid", 0.0, 400.0)),
    Entry("ldl cholesterol", Def(0.0, 100.0, "mg/dl", "lipid", 0.0, 400.0)),
    Entry("hdl", Def(40.0, 200.0, "mg/dl", "lipid", 20.0, 200.0)),
    Entry("hdl cholesterol", Def(40.0, 200.0, "mg/dl", "lipid", 20.0, 200.0)),
    Entry("triglycerides", Def(0.0, 150.0, "mg/dl", "lipid", 0.0, 1000.0))
  ]

  /** Blood count. */
  const BloodCountEntries: seq<Entry> := [
    Entry("hemoglobin", Def(12.0, 16.0, "g/dl", "blood", 7.0, 20.0)),
    Entry("hb", Def(12.0, 16.0, "g/dl", "blood", 7.0, 20.0)),
    Entry("hematocrit", Def(36.0, 48.0, "%", "blood", 20.0, 60.0)),
    Entry("hct", Def(36.0, 48.0, "%", "blood", 20.0, 60.0)),
    Entry("wbc", Def(4000.0, 11000.0, "/ul", "blood", 1000.0, 50000.0)),
    Entry("white blood cells", Def(4000.0, 11000.0, "/ul", "blood", 1000.0, 50000.0)),
    Entry("rbc", Def(4.2, 5.4, "million/ul", "blood", 2.0, 8.0)),
    Entry("red blood cells", Def(4.2, 5.4, "million/ul", "blood", 2.0, 8.0)),
    Entry("platelets", Def(150000.0, 450000.0, "/ul", "blood", 50000.0, 1000000.0)),
    Entry("platelet count", Def(150000.0, 450000.0, "/ul", "blood", 50000.0, 1000000.0))
  ]

  /** Liver function. */
  const LiverEntries: seq<Entry> := [
    Entry("alt", Def(7.0, 40.0, "u/l", "liver", 0.0, 200.0)),
    Entry("sgpt", Def(7.0, 40.0, "u/l", "liver", 0.0, 200.0)),
    Entry("ast", Def(10.0, 40.0, "u/l", "liver", 0.0, 200.0)),
    Entry("sgot", Def(10.0, 40.0, "u/l", "liver", 0.0, 200.0)),
    Entry("bilirubin", Def(0.2, 1.2, "mg/dl", "liver", 0.0, 20.0)),
    Entry("total bilirubin", Def(0.2, 1.2, "mg/dl", "liver", 0.0, 20.0))
  ]

  /** Kidney function. */
  const KidneyEntries: seq<Entry> := [
    Entry("creatinine", Def(0.6, 1.2, "mg/dl", "kidney", 0.2, 10.0)),
    Entry("serum creatinine", Def(0.6, 1.2, "mg/dl", "kidney", 0.2, 10.0)),
    Entry("urea", Def(7.0, 20.0, "mg/dl", "kidney", 0.0, 100.0)),
    Entry("blood urea", Def(7.0, 20.0, "mg/dl", "kidney", 0.0, 100.0)),
    Entry("bun", Def(7.0, 20.0, "mg/dl", "kidney", 0.0, 100.0))
  ]

  /** Thyroid. */
  const ThyroidEntries: seq<Entry> := [
    Entry("tsh", Def(0.4, 4.0, "miu/l", "thyroid", 0.01, 50.0)),
    Entry("t3", Def(80.0, 200.0, "ng/dl", "thyroid", 50.0, 400.0)),
    Entry("t4", Def(5.0, 12.0, "ug/dl", "thyroid", 2.0, 20.0)),
    Entry("free t3", Def(2.3, 4.2, "pg/ml", "thyroid", 1.0, 10.0)),
    Entry("free t4", Def(0.8, 1.8, "ng/dl", "thyroid", 0.1, 5.0))
  ]

  /** The abbreviation table consulted last by `findParameterDefinition`. */
  const Abbreviations: map<string, string> := map[
    "hb" := "hemoglobin",
    "hct" := "hematocrit",
    "sgpt" := "alt",
    "sgot" := "ast",
    "tc" := "total cholesterol",
    "tg" := "triglycerides"
  ]

  /** `PARAMETER_DEFINITIONS[key]` for an own key: the entry declared under that key. */
  function FindKey(entries: seq<Entry>, key: string): Option<ParamDef> {
    if entries == [] then None
    else if entries[0].key == key then Some(entries[0].def)
    else FindKey(entries[1..], key)
  }

  /** The containment test of the partial-match loop. */
  predicate PartialMatch(name: string, key: string) {
    Contains(name, key) || Contains(key, name)
  }

  /** The first entry, in declaration order, that partially matches `name`. */
  function FirstPartial(entries: seq<Entry>, name: string): Option<ParamDef> {
    if entries == [] then None
    else if PartialMatch(name, entries[0].key) then Some(entries[0].def)
    else FirstPartial(entries[1..], name)
  }

  /** What `findParameterDefinition(name)` returns: a catalog value or `null` (None). */
  function Lookup(name: string): Option<ParamDef> {
    LookupClean(Trim(Lower(name)))
  }

  /** The lookup of an already cleaned name: an own key first. */
  function LookupClean(clean: string): Option<ParamDef> {
    if FindKey(Definitions, clean).Some? then FindKey(Definitions, clean) else PartialOrAbbreviation(clean)
  }

  /** Then the first partial match. */
  function PartialOrAbbreviation(clean: string): Option<ParamDef> {
    if FirstPartial(Definitions, clean).Some? then FirstPartial(Definitions, clean) else AbbreviationLookup(clean)
  }

  /** Last, the key an abbreviation stands for. */
  function AbbreviationLookup(clean: string): Option<ParamDef> {
    if clean in Abbreviations then FindKey(Definitions, Abbreviations[clean]) else None
  }

  /** `findParameterDefinition`: a direct key, then a loop over `Object.entries`
      that returns at the first partial match, then the abbreviation table. */
  method FindParameterDefinition(name: string) returns (def: Option<ParamDef>)
    ensures def == Lookup(name)
  {
    var cleanName := Trim(Lower(name));
    var direct := FindKey(Definitions, cleanName);
    if direct.Some? {
      return direct;
    }
    var i := 0;
    while i < |Definitions|
      invariant 0 <= i <= |Definitions|
      invariant FirstPartial(Definitions[i..], cleanName) == FirstPartial(Definitions, cleanName)
    {
      var entry := Definitions[i];
      assert Definitions[i..][1..] == Definitions[i + 1..];
      if Contains(cleanName, entry.key) || Contains(entry.key, cleanName) {
        return Some(entry.def);
      }
      i := i + 1;
    }
    if cleanName in Abbreviations {
      var target := FindKey(Definitions, Abbreviations[cleanName]);
      if target.Some? {
        return target;
      }
    }
    return None;
  }

  // ---- Lookup order ----

  lemma {:induction false} FindKeyAt(entries: seq<Entry>, key: string, i: nat)
    requires i < |entries| && entries[i].key == key
    requires forall e :: e in entries[..i] ==> e.key != key
    ensures FindKey(entries, key) == Some(entries[i].def)
    decreases i
  {
    if i > 0 {
      assert entries[0] in entries[..i];
      assert forall e :: e in entries[1..][..i - 1] ==> e in entries[..i];
      FindKeyAt(entries[1..], key, i - 1);
    }
  }

  lemma {:induction false} FindKeyNone(entries: seq<Entry>, key: string)
    ensures FindKey(entries, key) == None <==> forall e :: e in entries ==> e.key != key
  {
    if entries != [] {
      FindKeyNone(entries[1..], key);
      assert entries == [entries[0]] + entries[1..];
    }
  }

  lemma {:induction false} FirstPartialAt(entries: seq<Entry>, name: string, i: nat)
    requires i < |entries| && PartialMatch(name, entries[i].key)
    requires forall e :: e in entries[..i] ==> !PartialMatch(name, e.key)
    ensures FirstPartial(entries, name) == Some(entries[i].def)
    decreases i
  {
    if i > 0 {
      assert entries[0] in entries[..i];
      assert forall e :: e in entries[1..][..i - 1] ==> e in entries[..i];
      FirstPartialAt(entries[1..], name, i - 1);
    }
  }

  lemma {:induction false} FirstPartialNone(entries: seq<Entry>, name: string)
    ensures FirstPartial(entries, name) == None <==> forall e :: e in entries ==> !PartialMatch(name, e.key)
  {
    if entries != [] {
      FirstPartialNone(entries[1..], name);
      assert entries == [entries[0]] + entries[1..];
    }
  }

  /** An exact key wins: the entry declared under the cleaned name is returned. */
  lemma LookupExact(name: string, i: nat)
    requires i < |Definitions| && Definitions[i].key == Trim(Lower(name))
    requires forall e :: e in Definitions[..i] ==> e.key != Trim(Lower(name))
    ensures Lookup(name) == Some(Definitions[i].def)
  {
    FindKeyAt(Definitions, Trim(Lower(name)), i);
  }

  /** Without an exact key, the first entry in declaration order whose key
      contains, or is contained in, the cleaned name is returned. */
  lemma LookupPartial(name: string, i: nat)
    requires forall e :: e in Definitions ==> e.key != Trim(Lower(name))
    requires i < |Definitions| && PartialMatch(Trim(Lower(name)), Definitions[i].key)
    requires forall e :: e in Definitions[..i] ==> !PartialMatch(Trim(Lower(name)), e.key)
    ensures Lookup(name) == Some(Definitions[i].def)
  {
    FindKeyNone(Definitions, Trim(Lower(name)));
    FirstPartialAt(Definitions, Trim(Lower(name)), i);
  }

  /** Only when neither a key nor a partial match exists is the abbreviation
      table consulted; a name in none of the three gives `null`. */
  lemma LookupFallback(name: string)
    requires forall e :: e in Definitions ==> e.key != Trim(Lower(name))
    requires forall e :: e in Definitions ==> !PartialMatch(Trim(Lower(name)), e.key)
    ensures Trim(Lower(name)) in Abbreviations ==>
              Lookup(name) == FindKey(Definitions, Abbreviations[Trim(Lower(name))])
    ensures Trim(Lower(name)) !in Abbreviations ==> Lookup(name) == None
  {
    FindKeyNone(Definitions, Trim(Lower(name)));
    FirstPartialNone(Definitions, Trim(Lower(name)));
  }

  lemma {:induction false} FindKeyInCatalog(entries: seq<Entry>, key: string)
    requires FindKey(entries, key).Some?
    ensures exists e :: e in entries && e.key == key && FindKey(entries, key) == Some(e.def)
  {
    if entries[0].key != key {
      FindKeyInCatalog(entries[1..], key);
    }
  }

  lemma {:induction false} FirstPartialInCatalog(entries: seq<Entry>, name: string)
    requires FirstPartial(entries, name).Some?
    ensures exists e :: e in entries && PartialMatch(name, e.key) && FirstPartial(entries, name) == Some(e.def)
  {
    if !PartialMatch(name, entries[0].key) {
      FirstPartialInCatalog(entries[1..], name);
    }
  }

  /** Whatever the lookup finds is a definition declared in the catalog. */
  lemma LookupInCatalog(name: string)
    requires Lookup(name).Some?
    ensures exists e :: e in Definitions && Lookup(name) == Some(e.def)
  {
    var clean := Trim(Lower(name));
    if FindKey(Definitions, clean).Some? {
      FindKeyInCatalog(Definitions, clean);
    } else if FirstPartial(Definitions, clean).Some? {
      FirstPartialInCatalog(Definitions, clean);
    } else {
      FindKeyInCatalog(Definitions, Abbreviations[clean]);
    }
  }

  // ---- What every declared entry looks like ----

  /** Every key is at most 17 characters long and holds no `_`. */
  predicate KeyShape(key: string) {
    |key| <= 17 && '_' !in key
  }

  /** The six categories the entries are filed under. */
  const CategoryNames: set<string> := {"diabetes", "lipid", "blood", "liver", "kidney", "thyroid"}

  /** The catalog's own invariant: a key of that shape, one of the six
      categories, a critical band, the normal band inside the critical one, a
      positive upper bound, a lower bound of 0 only in the lipid group, and a
      lower bound other than 0 strictly above the critical minimum. */
  predicate WellFormed(e: Entry) {
    && KeyShape(e.key)
    && e.def.category in CategoryNames
    && e.def.critical.Some?
    && e.def.critical.value.min <= e.def.min <= e.def.max <= e.def.critical.value.max
    && e.def.max > 0.0
    && (e.def.min == 0.0 ==> e.def.category == "lipid")
    && (e.def.min != 0.0 ==> e.def.critical.value.min < e.def.min)
  }

  lemma DiabetesWellFormed()
    ensures forall e :: e in DiabetesEntries ==> WellFormed(e)
  {
  }

  lemma LipidWellFormed()
    ensures forall e :: e in LipidEntries ==> WellFormed(e)
  {
  }

  lemma BloodCountWellFormed()
    ensures forall e :: e in BloodCountEntries ==> WellFormed(e)
  {
    assert BloodCountEntries == BloodCountEntries[..5] + BloodCountEntries[5..];
    RedCellEntriesWellFormed();
    CellCountEntriesWellFormed();
  }

  lemma RedCellEntriesWellFormed()
    ensures forall e :: e in BloodCountEntries[..5] ==> WellFormed(e)
  {
  }

  lemma CellCountEntriesWellFormed()
    ensures forall e :: e in BloodCountEntries[5..] ==> WellFormed(e)
  {
  }

  lemma LiverWellFormed()
    ensures forall e :: e in LiverEntries ==> WellFormed(e)
  {
  }

  lemma KidneyWellFormed()
    ensures forall e :: e in KidneyEntries ==> WellFormed(e)
  {
  }

  lemma ThyroidWellFormed()
    ensures forall e :: e in ThyroidEntries ==> WellFormed(e)
  {
  }

  lemma CatalogWellFormed()
    ensures forall e :: e in Definitions ==> WellFormed(e)
  {
    DiabetesWellFormed();
    LipidWellFormed();
    BloodCountWellFormed();
    LiverWellFormed();
    KidneyWellFormed();
    ThyroidWellFormed();
  }

  /** A name that does not have the shape of a key is never found directly. */
  lemma NotAKey(key: string)
    requires !KeyShape(key)
    ensures FindKey(Definitions, key) == None
  {
    CatalogWellFormed();
    FindKeyNone(Definitions, key);
  }

  // ---- Keys inherited from Object.prototype ----

  /** The members every object literal inherits from `Object.prototype`. */
  const PrototypeMembers: set<string> := {
    "constructor", "__proto__", "hasOwnProperty", "isPrototypeOf", "propertyIsEnumerable",
    "toString", "toLocaleString", "valueOf",
    "__defineGetter__", "__defineSetter__", "__lookupGetter__", "__lookupSetter__"
  }

  /** What the expression `PARAMETER_DEFINITIONS[key]` yields. */
  datatype Property = OwnEntry(def: ParamDef) | InheritedMember(member: string) | NoMember

  function PropertyOf(key: string): Property {
    var own := FindKey(Definitions, key);
    if own.Some? then OwnEntry(own.value)
    else if key in PrototypeMembers then InheritedMember(key)
    else NoMember
  }

  /** `findParameterDefinition` as written: the direct step tests the truthiness
      of `PARAMETER_DEFINITIONS[cleanName]`, which an inherited member passes. */
  function LookupAsWritten(name: string): Property {
    var direct := PropertyOf(Trim(Lower(name)));
    if !direct.NoMember? then direct
    else if Lookup(name).Some? then OwnEntry(Lookup(name).value)
    else NoMember
  }

  /** The name `__proto__` (a run of `\w` characters, so the patterns can
      produce it) makes the lookup as written return `Object.prototype` itself,
      which no catalog entry is, while the lookup of the own keys returns
      nothing inherited (`LookupInCatalog`). */
  lemma PrototypeKeyLookup()
    ensures LookupAsWritten("__proto__") == InheritedMember("__proto__")
  {
    TrimLowerOfClean("__proto__");
    NotAKey("__proto__");
  }
}
