/**
 * `generateCategoryTips` (src/utils/healthAnalyzer.js): the distinct
 * categories of the parameters, in order of first appearance, each with the
 * five fixed tips of its category when the table has an entry for it, under
 * the category name with its first letter in upper case.
 */
module CategoryTips {
  import opened Wrappers
  import opened JsText
  import opened Catalog
  import opened Extraction

  datatype TipGroup = TipGroup(category: string, tips: seq<string>)

  /** `categoryTips`: five tips for each of the six categories. */
  const TipTable: map<string, seq<string>> := map[
    "diabetes" := DiabetesTips,
    "lipid" := LipidTips,
    "blood" := BloodTips,
    "liver" := LiverTips,
    "kidney" := KidneyTips,
    "thyroid" := ThyroidTips
  ]

  const DiabetesTips: seq<string> := [
    "Monitor blood sugar levels regularly as advised by your doctor",
    "Follow a balanced diet with controlled carbohydrate intake",
    "Exercise regularly to improve insulin sensitivity",
    "Take medications as prescribed and at the same time daily",
    "Stay hydrated and maintain a healthy weight"
  ]

  const LipidTips: seq<string> := [
    "Adopt a heart-healthy diet low in saturated and trans fats",
    "Increase physical activity to at least 150 minutes per week",
    "Maintain a healthy weight and waist circumference",
    "Consider omega-3 rich foods like fish and nuts",
    "Limit processed foods and added sugars"
  ]

  const BloodTips: seq<string> := [
    "Ensure adequate iron intake through diet or supplements if recommended",
    "Stay well hydrated throughout the day",
    "Get regular blood work monitoring as advised",
    "Report unusual fatigue, weakness, or unexplained bleeding",
    "Avoid unnecessary medications that may affect blood counts"
  ]

  const LiverTips: seq<string> := [
    "Limit or avoid alcohol consumption",
    "Avoid unnecessary medications and supplements",
    "Maintain a healthy weight to prevent fatty liver",
    "Get hepatitis vaccinations if recommended",
    "Eat a balanced diet rich in fruits and vegetables"
  ]

  const KidneyTips: seq<string> := [
    "Stay well hydrated with adequate water intake",
    "Monitor and control blood pressure",
    "Limit protein intake if advised by your doctor",
    "Avoid nephrotoxic medications when possible",
    "Control diabetes and blood pressure to protect kidney function"
  ]

  const ThyroidTips: seq<string> := [
    "Take thyroid medications consistently at the same time",
    "Avoid taking thyroid medication with certain foods or supplements",
    "Monitor for symptoms of hypo or hyperthyroidism",
    "Get regular follow-up testing as recommended",
    "Inform all healthcare providers about your thyroid condition"
  ]

  /** `[...new Set(parameters.map(p => p.category))]`. */
  function Categories(ps: seq<Parameter>): seq<string>
    decreases |ps|
  {
    if ps == [] then []
    else
      var cs := Categories(ps[..|ps| - 1]);
      var c := ps[|ps| - 1].category;
      if c in cs then cs else cs + [c]
  }

  /** The group one category contributes: none when the table lacks it. */
  function GroupFor(table: map<string, seq<string>>, c: string): seq<TipGroup> {
    if c in table then [TipGroup(Capitalize(c), table[c])] else []
  }

  /** The groups of `cats` under a tip table, in order. */
  function GroupsOf(table: map<string, seq<string>>, cats: seq<string>): seq<TipGroup>
    decreases |cats|
  {
    if cats == [] then [] else GroupsOf(table, cats[..|cats| - 1]) + GroupFor(table, cats[|cats| - 1])
  }

  /** The groups of `cats` under `categoryTips`. */
  function TipsFor(cats: seq<string>): seq<TipGroup> {
    GroupsOf(TipTable, cats)
  }

  /** `generateCategoryTips(parameters)`: collect the categories into a set that
      keeps insertion order, then push a group for each one the table knows. */
  method GenerateCategoryTips(parameters: seq<Parameter>) returns (tips: seq<TipGroup>)
    ensures tips == TipsFor(Categories(parameters))
  {
    var categories: seq<string> := [];
    var i := 0;
    while i < |parameters|
      invariant 0 <= i <= |parameters|
      invariant categories == Categories(parameters[..i])
    {
      assert parameters[..i + 1][..i] == parameters[..i];
      var category := parameters[i].category;
      if category !in categories {
        categories := categories + [category];
      }
      i := i + 1;
    }
    assert parameters[..i] == parameters;
    tips := [];
    var k := 0;
    while k < |categories|
      invariant 0 <= k <= |categories|
      invariant tips == GroupsOf(TipTable, categories[..k])
    {
      assert categories[..k + 1][..k] == categories[..k];
      var category := categories[k];
      if category in TipTable {
        tips := tips + [TipGroup(Capitalize(category), TipTable[category])];
      }
      k := k + 1;
    }
    assert categories[..k] == categories;
  }

  // ---- The categories ----

  /** A category is listed exactly when some parameter has it. */
  lemma {:induction false} CategoriesMembers(ps: seq<Parameter>)
    ensures forall c :: c in Categories(ps) <==> exists p :: p in ps && p.category == c
    decreases |ps|
  {
    if ps != [] {
      var init := ps[..|ps| - 1];
      CategoriesMembers(init);
      assert ps == init + [ps[|ps| - 1]];
    }
  }

  predicate Distinct(xs: seq<string>) {
    forall i, j :: 0 <= i < j < |xs| ==> xs[i] != xs[j]
  }

  /** No two groups carry the same name. */
  predicate DistinctNames(gs: seq<TipGroup>) {
    forall i, j :: 0 <= i < j < |gs| ==> gs[i].category != gs[j].category
  }

  /** No category is listed twice. */
  lemma {:induction false} CategoriesDistinct(ps: seq<Parameter>)
    ensures Distinct(Categories(ps))
    decreases |ps|
  {
    if ps != [] {
      var cs := Categories(ps[..|ps| - 1]);
      var c := ps[|ps| - 1].category;
      CategoriesDistinct(ps[..|ps| - 1]);
      if c !in cs {
        var ds := cs + [c];
        forall i, j | 0 <= i < j < |ds|
          ensures ds[i] != ds[j]
        {
          assert ds[i] == cs[i] && cs[i] in cs;
          if j < |cs| {
            assert ds[j] == cs[j];
          }
        }
      }
    }
  }

  /** First appearance decides the order: the categories of a prefix of the
      parameters are a prefix of the categories of all of them. */
  lemma {:induction false} CategoriesPrefix(ps: seq<Parameter>, k: nat)
    requires k <= |ps|
    ensures Categories(ps[..k]) <= Categories(ps)
    decreases |ps|
  {
    if k < |ps| {
      var init := ps[..|ps| - 1];
      assert init[..k] == ps[..k];
      CategoriesPrefix(init, k);
    } else {
      assert ps[..k] == ps;
    }
  }

  // ---- The groups ----

  /** A group is listed exactly when it is the group of a listed category the
      table knows. */
  lemma {:induction false} TipsForMembers(table: map<string, seq<string>>, cats: seq<string>)
    ensures forall g :: g in GroupsOf(table, cats) <==>
              exists c :: c in cats && c in table && g == TipGroup(Capitalize(c), table[c])
    decreases |cats|
  {
    if cats != [] {
      var init := cats[..|cats| - 1];
      TipsForMembers(table, init);
      assert cats == init + [cats[|cats| - 1]];
    }
  }

  /** When the table knows every category, there is one group per category, in
      the same order. */
  lemma {:induction false} TipsForAll(table: map<string, seq<string>>, cats: seq<string>)
    requires forall c :: c in cats ==> c in table
    ensures |GroupsOf(table, cats)| == |cats|
    ensures forall i :: 0 <= i < |cats| ==> GroupsOf(table, cats)[i] == TipGroup(Capitalize(cats[i]), table[cats[i]])
    decreases |cats|
  {
    if cats != [] {
      var init, last := cats[..|cats| - 1], cats[|cats| - 1];
      assert forall c :: c in init ==> c in cats;
      TipsForAll(table, init);
      var g := TipGroup(Capitalize(last), table[last]);
      assert GroupsOf(table, cats) == GroupsOf(table, init) + [g];
      forall i | 0 <= i < |cats|
        ensures GroupsOf(table, cats)[i] == TipGroup(Capitalize(cats[i]), table[cats[i]])
      {
        if i < |init| {
          assert GroupsOf(table, cats)[i] == GroupsOf(table, init)[i] && cats[i] == init[i];
        }
      }
    }
  }

  /** Capitalising keeps apart two words that start with a lower-case letter. */
  lemma CapitalizeInjective(a: string, b: string)
    requires a != [] && b != [] && 'a' <= a[0] <= 'z' && 'a' <= b[0] <= 'z' && a != b
    ensures Capitalize(a) != Capitalize(b)
  {
    if a[0] != b[0] {
      assert Capitalize(a)[0] != Capitalize(b)[0];
    } else {
      assert a == [a[0]] + a[1..] && b == [b[0]] + b[1..];
      assert Capitalize(a)[1..] == a[1..] && Capitalize(b)[1..] == b[1..];
    }
  }

  /** Every key of a table starts with a lower-case letter. */
  predicate LowerKeys(table: map<string, seq<string>>) {
    forall k :: k in table ==> k != [] && 'a' <= k[0] <= 'z'
  }

  /** The keys of `categoryTips` start with a lower-case letter. */
  lemma TipTableLowerKeys()
    ensures LowerKeys(TipTable)
  {
  }

  /** Keys that start with a lower-case letter stay apart when capitalised. */
  lemma CapitalizedKeysDistinct(table: map<string, seq<string>>, a: string, b: string)
    requires LowerKeys(table) && a in table && b in table && a != b
    ensures Capitalize(a) != Capitalize(b)
  {
    CapitalizeInjective(a, b);
  }

  /** Distinct categories give groups under distinct names. */
  lemma {:induction false} TipsForDistinct(table: map<string, seq<string>>, cats: seq<string>)
    requires LowerKeys(table) && Distinct(cats)
    ensures DistinctNames(GroupsOf(table, cats))
    decreases |cats|
  {
    if cats != [] {
      var init := cats[..|cats| - 1];
      var last := cats[|cats| - 1];
      TipsForDistinct(table, init);
      TipsForMembers(table, init);
      if last in table {
        var gs := GroupsOf(table, init);
        forall i | 0 <= i < |gs|
          ensures gs[i].category != Capitalize(last)
        {
          assert gs[i] in gs;
          var c :| c in init && c in table && gs[i] == TipGroup(Capitalize(c), table[c]);
          var j :| 0 <= j < |init| && init[j] == c;
          assert cats[j] == c;
          CapitalizedKeysDistinct(table, c, last);
        }
        var hs := gs + GroupFor(table, last);
        forall i, j | 0 <= i < j < |hs|
          ensures hs[i].category != hs[j].category
        {
          assert hs[i] == gs[i];
          if j < |gs| {
            assert hs[j] == gs[j];
          }
        }
      }
    }
  }

  // ---- Tips for an extracted report ----

  lemma TipTableKeys()
    ensures TipTable.Keys == CategoryNames
  {
  }

  /** Records built from the catalog all get their tips: one group per
      distinct category, in order of first appearance, under distinct names. */
  lemma ExtractedReportTips(ps: seq<Parameter>)
    requires forall r :: r in ps ==> ConsistentRecord(r)
    ensures var cs := Categories(ps);
            && |TipsFor(cs)| == |cs|
            && (forall i :: 0 <= i < |cs| ==> cs[i] in TipTable && TipsFor(cs)[i] == TipGroup(Capitalize(cs[i]), TipTable[cs[i]]))
            && DistinctNames(TipsFor(cs))
  {
    var cs := Categories(ps);
    CategoriesMembers(ps);
    CategoriesDistinct(ps);
    CatalogWellFormed();
    TipTableKeys();
    forall c | c in cs
      ensures c in TipTable
    {
      var p :| p in ps && p.category == c;
      LookupInCatalog(p.name);
      var e :| e in Definitions && Lookup(p.name) == Some(e.def);
      assert WellFormed(e);
    }
    TipsForAll(TipTable, cs);
    TipTableLowerKeys();
    TipsForDistinct(TipTable, cs);
  }
}
