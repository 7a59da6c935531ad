/**
 * The keyword search of `ai-search.js` and the guided chat that feeds it.
 *
 * `processAIQuery` looks every keyword of `keywordMapping` up in the
 * lower-cased query; each keyword found is recorded as a criterion and
 * narrows the listings with the test of its entry. The survivors get a
 * match score (a base of 50, 15 per matched feature, 10 under the price
 * read after "até", a random jitter, at most 99), which is written into the
 * listing objects themselves, and are sorted by that score, highest first.
 * `generateInterpretation` describes the query in one line, and the chat
 * collects button answers that `buildSearchQueryFromAnswers` turns back
 * into a query.
 */
module AISearch {

  import opened Json
  import opened Text
  import LF = ListingFilter

  // -------------------------------------------------------------- listings

  /**
   * A listing of the `properties` catalogue. The search writes only
   * `matchScore`; every other field is fixed when the listing is made.
   */
  class Listing {
    const id: int
    const kind: string
    const price: int
    const bedrooms: int
    const location: string
    const features: seq<string>
    var matchScore: int

    constructor(id: int, kind: string, price: int, bedrooms: int, location: string, features: seq<string>)
      ensures this.id == id && this.kind == kind && this.price == price && this.bedrooms == bedrooms
      ensures this.location == location && this.features == features
      ensures matchScore == 0
    {
      this.id := id;
      this.kind := kind;
      this.price := price;
      this.bedrooms := bedrooms;
      this.location := location;
      this.features := features;
      matchScore := 0;
    }
  }

  /** What a keyword stands for: one entry's `field` and its values or bounds. */
  datatype Config =
    | TypeIn(values: seq<string>)
    | Bedrooms(min: Option<int>, max: Option<int>)
    | Price(min: Option<int>, max: Option<int>)
    | Feature(value: string)
    | Location(value: string)
    | Profile(value: string)

  /** The type keywords. */
  const TypeKeywords: seq<(string, Config)> := [
    ("apartamento", TypeIn(["apartamento"])),
    ("casa", TypeIn(["casa"])),
    ("studio", TypeIn(["studio"])),
    ("cobertura", TypeIn(["cobertura"])),
    ("loft", TypeIn(["loft"]))
  ]

  /** The bedroom keywords. */
  const BedroomKeywords: seq<(string, Config)> := [
    ("1 quarto", Bedrooms(Some(1), Some(1))),
    ("2 quartos", Bedrooms(Some(2), Some(2))),
    ("3 quartos", Bedrooms(Some(3), Some(3))),
    ("4 quartos", Bedrooms(Some(4), None))
  ]

  /** The price keywords. */
  const PriceKeywords: seq<(string, Config)> := [
    ("até 300", Price(None, Some(300000))),
    ("até 400", Price(None, Some(400000))),
    ("até 500", Price(None, Some(500000))),
    ("até 600", Price(None, Some(600000))),
    ("até 700", Price(None, Some(700000))),
    ("até 800", Price(None, Some(800000))),
    ("até 1 milhão", Price(None, Some(1000000))),
    ("até 1.5 milhão", Price(None, Some(1500000))),
    ("até 2 milhões", Price(None, Some(2000000))),
    ("acima de 1 milhão", Price(Some(1000000), None)),
    ("acima de 2 milhões", Price(Some(2000000), None))
  ]

  /** The feature keywords. */
  const FeatureKeywords: seq<(string, Config)> := [
    ("pet", Feature("pet friendly")),
    ("cachorro", Feature("pet friendly")),
    ("gato", Feature("pet friendly")),
    ("animal", Feature("pet friendly")),
    ("piscina", Feature("piscina")),
    ("metrô", Feature("metrô")),
    ("transporte", Feature("metrô")),
    ("churrasqueira", Feature("churrasqueira")),
    ("quintal", Feature("quintal")),
    ("jardim", Feature("jardim")),
    ("home office", Feature("home office")),
    ("trabalhar", Feature("home office")),
    ("investimento", Feature("ideal investimento")),
    ("investir", Feature("ideal investimento")),
    ("renda", Feature("ideal investimento")),
    ("alto padrão", Feature("alto padrão")),
    ("luxo", Feature("alto padrão")),
    ("vista", Feature("vista")),
    ("segurança", Feature("segurança")),
    ("seguro", Feature("segurança")),
    ("condomínio", Feature("condomínio fechado"))
  ]

  /** The profile keywords. */
  const ProfileKeywords: seq<(string, Config)> := [
    ("família", Profile("family")),
    ("filhos", Profile("family")),
    ("crianças", Profile("family")),
    ("casal", Profile("couple")),
    ("jovem", Profile("young")),
    ("primeiro imóvel", Profile("first")),
    ("solteiro", Profile("single"))
  ]

  /** The neighbourhood keywords. */
  const LocationKeywords: seq<(string, Config)> := [
    ("pinheiros", Location("Pinheiros")),
    ("vila olímpia", Location("Vila Olímpia")),
    ("moema", Location("Moema")),
    ("jardins", Location("Jardins")),
    ("itaim", Location("Itaim Bibi")),
    ("alphaville", Location("Alphaville")),
    ("vila madalena", Location("Vila Madalena")),
    ("tatuapé", Location("Tatuapé")),
    ("ibirapuera", Location("Moema"))
  ]

  /** `keywordMapping`, in the order `Object.entries` lists it. */
  const KeywordMapping: seq<(string, Config)> :=
    TypeKeywords + BedroomKeywords + PriceKeywords + FeatureKeywords + ProfileKeywords + LocationKeywords

  // ------------------------------------------------------------- the tests

  /** `if (min && x < min) return false; if (max && x > max) return false; return true;` */
  predicate Within(x: int, min: Option<int>, max: Option<int>) {
    !(LF.On(min) && x < min.value) && !(LF.On(max) && x > max.value)
  }

  /** `property.features.some(f => f.toLowerCase().includes(value.toLowerCase()))` */
  predicate Offers(p: Listing, value: string) {
    exists k | 0 <= k < |p.features| :: LF.Mentions(p.features[k], value)
  }

  /** The profile rules; an unknown profile lets every listing through. */
  predicate ProfileFits(value: string, bedrooms: int, price: int) {
    if value == "family" then bedrooms >= 3
    else if value == "young" || value == "single" then bedrooms <= 2
    else if value == "first" then price <= 500000
    else if value == "couple" then 2 <= bedrooms <= 3
    else true
  }

  /** The callback of `matchedProperties.filter` for one keyword's entry. */
  predicate Satisfies(c: Config, p: Listing) {
    match c
    case TypeIn(values) => p.kind in values
    case Bedrooms(min, max) => Within(p.bedrooms, min, max)
    case Price(min, max) => Within(p.price, min, max)
    case Feature(value) => Offers(p, value)
    case Location(value) => Lower(p.location) == Lower(value)
    case Profile(value) => ProfileFits(value, p.bedrooms, p.price)
  }

  // ---------------------------------------------------- criteria and filter

  /** Whether the lower-cased query `ql` holds the keyword of an entry. */
  predicate Found(ql: string, e: (string, Config)) {
    Contains(ql, e.0)
  }

  /** `criteria`: the keywords the lower-cased query holds, in the table's order. */
  function Criteria(table: seq<(string, Config)>, ql: string): seq<string>
    decreases |table|
  {
    if table == [] then []
    else
      var e := table[|table| - 1];
      Criteria(table[..|table| - 1], ql) + (if Found(ql, e) then [e.0] else [])
  }

  /** `matchedProperties` after the table's entries have each narrowed it in turn. */
  function Narrowed(table: seq<(string, Config)>, ql: string, ps: seq<Listing>): (r: seq<Listing>)
    decreases |table|
    ensures |r| <= |ps|
  {
    if table == [] then ps
    else
      var e := table[|table| - 1];
      var before := Narrowed(table[..|table| - 1], ql, ps);
      if Found(ql, e) then LF.Select(p => Satisfies(e.1, p), before) else before
  }

  /** A keyword is a criterion exactly when the query holds it, and the criteria keep the table's order. */
  lemma {:induction false} CriteriaExactly(table: seq<(string, Config)>, ql: string)
    ensures Subsequence(Criteria(table, ql), Tags(table))
    ensures forall k :: k in Criteria(table, ql) <==> Contains(ql, k) && exists i | 0 <= i < |table| :: table[i].0 == k
    decreases |table|
  {
    if table != [] {
      var init := table[..|table| - 1];
      var e := table[|table| - 1];
      CriteriaExactly(init, ql);
      assert Tags(table) == Tags(init) + [e.0];
      var last: seq<string> := if Found(ql, e) then [e.0] else [];
      SubsequenceSnoc(Criteria(init, ql), Tags(init), last, e.0);
      forall k | Contains(ql, k) && exists i | 0 <= i < |table| :: table[i].0 == k
        ensures k in Criteria(table, ql)
      {
        var i :| 0 <= i < |table| && table[i].0 == k;
        if i < |init| {
          assert init[i].0 == k;
        }
      }
      forall k | k in Criteria(table, ql)
        ensures Contains(ql, k) && exists i | 0 <= i < |table| :: table[i].0 == k
      {
        if k in Criteria(init, ql) {
          var i :| 0 <= i < |init| && init[i].0 == k;
          assert table[i].0 == k;
        } else {
          assert table[|table| - 1].0 == k;
        }
      }
    }
  }

  /** The survivors keep the catalogue's order. */
  lemma {:induction false} NarrowedSubsequence(table: seq<(string, Config)>, ql: string, ps: seq<Listing>)
    ensures Subsequence(Narrowed(table, ql, ps), ps)
    decreases |table|
  {
    if table == [] {
      LF.SelectAll(ps);
      LF.SelectSubsequence(_ => true, ps);
    } else {
      var e := table[|table| - 1];
      var before := Narrowed(table[..|table| - 1], ql, ps);
      NarrowedSubsequence(table[..|table| - 1], ql, ps);
      if Found(ql, e) {
        LF.SelectSubsequence(p => Satisfies(e.1, p), before);
        SubsequenceTrans(LF.Select(p => Satisfies(e.1, p), before), before, ps);
      }
    }
  }

  /**
   * A listing survives exactly when it is in the catalogue and passes the
   * test of every entry whose keyword the query holds.
   */
  lemma {:induction false} NarrowedExactly(table: seq<(string, Config)>, ql: string, ps: seq<Listing>, p: Listing)
    ensures p in Narrowed(table, ql, ps) <==>
      p in ps && forall i | 0 <= i < |table| && Found(ql, table[i]) :: Satisfies(table[i].1, p)
    decreases |table|
  {
    if table != [] {
      var init := table[..|table| - 1];
      var e := table[|table| - 1];
      NarrowedExactly(init, ql, ps, p);
      assert forall i | 0 <= i < |init| :: init[i] == table[i];
      if p in ps && forall i | 0 <= i < |table| && Found(ql, table[i]) :: Satisfies(table[i].1, p) {
        assert forall i | 0 <= i < |init| && Found(ql, init[i]) :: Satisfies(init[i].1, p);
      }
    }
  }

  /** Holding more keywords never lets more listings through. */
  lemma MoreKeywordsNarrow(table: seq<(string, Config)>, ql: string, ql': string, ps: seq<Listing>, p: Listing)
    requires forall i | 0 <= i < |table| :: Found(ql, table[i]) ==> Found(ql', table[i])
    requires p in Narrowed(table, ql', ps)
    ensures p in Narrowed(table, ql, ps)
  {
    NarrowedExactly(table, ql', ps, p);
    NarrowedExactly(table, ql, ps, p);
  }

  /** No listing is kept twice when the catalogue holds each listing once. */
  lemma NarrowedDistinct(table: seq<(string, Config)>, ql: string, ps: seq<Listing>)
    requires Distinct(ps)
    ensures Distinct(Narrowed(table, ql, ps))
  {
    NarrowedSubsequence(table, ql, ps);
    SubsequenceDistinct(Narrowed(table, ql, ps), ps);
  }

  /**
   * "casa" is part of "casal": a query about a couple also asks for a house,
   * so only houses with two or three bedrooms survive it.
   */
  lemma CoupleQueryKeepsHouses(ql: string, ps: seq<Listing>, p: Listing)
    requires Contains(ql, "casal")
    requires p in Narrowed(KeywordMapping, ql, ps)
    ensures p.kind == "casa" && 2 <= p.bedrooms <= 3
  {
    NarrowedExactly(KeywordMapping, ql, ps, p);
    ContainsPrefix(ql, "casal", 4);
    assert "casal"[..4] == "casa";
    assert KeywordMapping[1] == ("casa", TypeIn(["casa"]));
    assert Found(ql, KeywordMapping[1]);
    assert KeywordMapping[44] == ("casal", Profile("couple"));
    assert Found(ql, KeywordMapping[44]);
  }

  /** The profile words narrow by the profile rules: family, young or single, first home, couple. */
  lemma ProfileQueriesNarrow(ql: string, ps: seq<Listing>, p: Listing)
    requires p in Narrowed(KeywordMapping, ql, ps)
    ensures Contains(ql, "família") || Contains(ql, "filhos") || Contains(ql, "crianças") ==> p.bedrooms >= 3
    ensures Contains(ql, "jovem") || Contains(ql, "solteiro") ==> p.bedrooms <= 2
    ensures Contains(ql, "primeiro imóvel") ==> p.price <= 500000
    ensures Contains(ql, "casal") ==> 2 <= p.bedrooms <= 3
  {
    NarrowedExactly(KeywordMapping, ql, ps, p);
    assert KeywordMapping[41] == ("família", Profile("family"));
    assert KeywordMapping[42] == ("filhos", Profile("family"));
    assert KeywordMapping[43] == ("crianças", Profile("family"));
    assert KeywordMapping[44] == ("casal", Profile("couple"));
    assert KeywordMapping[45] == ("jovem", Profile("young"));
    assert KeywordMapping[46] == ("primeiro imóvel", Profile("first"));
    assert KeywordMapping[47] == ("solteiro", Profile("single"));
  }

  // ---------------------------------------------------------------- scoring

  /** `keywordMapping[criterion]`: the first entry under that keyword. */
  function Lookup(table: seq<(string, Config)>, key: string): (r: Option<Config>)
    ensures r.Some? ==> exists i | 0 <= i < |table| :: table[i] == (key, r.value)
    ensures r.None? <==> forall i | 0 <= i < |table| :: table[i].0 != key
  {
    if table == [] then None
    else if table[0].0 == key then Some(table[0].1)
    else
      var r := Lookup(table[1..], key);
      assert r.Some? ==> exists i | 0 <= i < |table[1..]| :: table[1..][i] == (key, r.value);
      r
  }

  /** The bonus of 15 for every feature criterion the listing offers. */
  function FeatureBonus(criteria: seq<string>, table: seq<(string, Config)>, p: Listing): (b: nat)
    ensures b % 15 == 0 && b <= 15 * |criteria|
  {
    if criteria == [] then 0
    else
      var rest := FeatureBonus(criteria[1..], table, p);
      match Lookup(table, criteria[0])
      case Some(Feature(value)) => if Offers(p, value) then 15 + rest else rest
      case _ => rest
  }

  /** How many criteria name a feature. */
  function FeatureCount(criteria: seq<string>, table: seq<(string, Config)>): nat {
    if criteria == [] then 0
    else (match Lookup(table, criteria[0]) case Some(Feature(_)) => 1 case _ => 0) + FeatureCount(criteria[1..], table)
  }

  /** `queryLower.match(/até\s*(\d+)/)` tried at `i`: the number it captures. */
  function CapAt(ql: string, i: nat): (r: Option<nat>)
  {
    if !OccursAt(ql, "até", i) then None
    else
      var p := SpacesEnd(ql, i + 3);
      var e := DigitsEnd(ql, p);
      if p < e then Some(ParseNat(ql[p..e])) else None
  }

  function CapMatcher(ql: string): nat -> Option<nat> {
    (i: nat) => CapAt(ql, i)
  }

  /** The price the "até" bonus compares against: the first number after "até", in thousands. */
  function PriceCap(ql: string): (r: Option<int>)
    ensures r.Some? ==> Contains(ql, "até") && r.value >= 0 && r.value % 1000 == 0
  {
    if !Contains(ql, "até") then None
    else match Leftmost(|ql|, 0, CapMatcher(ql))
      case Some((_, n)) => Some(n * 1000)
      case None => None
  }

  /** The score of one survivor, `jitter` being `Math.floor(Math.random() * 15)`. */
  function Score(p: Listing, criteria: seq<string>, table: seq<(string, Config)>, cap: Option<int>, jitter: int): (r: int)
    ensures r <= 99
    ensures 0 <= jitter ==> 50 <= r
  {
    var score := 50 + FeatureBonus(criteria, table, p) + (if cap.Some? && p.price <= cap.value then 10 else 0) + jitter;
    if score <= 99 then score else 99
  }

  /**
   * Every survivor already offers every matched feature, so the feature
   * bonus is the same for all of them: 15 per feature criterion.
   */
  lemma {:induction false} SurvivorsGetFullBonus(table: seq<(string, Config)>, ql: string, ps: seq<Listing>, p: Listing, criteria: seq<string>)
    requires p in Narrowed(table, ql, ps)
    requires forall k | k in criteria :: Contains(ql, k)
    ensures FeatureBonus(criteria, table, p) == 15 * FeatureCount(criteria, table)
    decreases |criteria|
  {
    if criteria != [] {
      SurvivorsGetFullBonus(table, ql, ps, p, criteria[1..]);
      match Lookup(table, criteria[0])
      case Some(Feature(value)) =>
        var i :| 0 <= i < |table| && table[i] == (criteria[0], Feature(value));
        NarrowedExactly(table, ql, ps, p);
        assert Found(ql, table[i]);
      case _ =>
    }
  }

  // ---------------------------------------------------------------- sorting

  /** Ordered by `matchScore`, highest first. */
  predicate SortedByScore(s: seq<Listing>)
    reads s
  {
    forall i, j | 0 <= i < j < |s| :: s[i].matchScore >= s[j].matchScore
  }

  /** Exchanges two cells of `a`. */
  method Swap(a: array<Listing>, i: nat, j: nat)
    requires i < a.Length && j < a.Length
    modifies a
    ensures a[..] == old(a[..])[i := old(a[j])][j := old(a[i])]
    ensures multiset(a[..]) == multiset(old(a[..]))
  {
    a[i], a[j] := a[j], a[i];
  }

  /** One pass of insertion: `a[i]` moves left past every lower score. */
  method Insert(a: array<Listing>, i: nat)
    requires i < a.Length
    requires forall x, y | 0 <= x < y < i :: a[x].matchScore >= a[y].matchScore
    modifies a
    ensures forall x, y | 0 <= x < y <= i :: a[x].matchScore >= a[y].matchScore
    ensures multiset(a[..]) == multiset(old(a[..]))
  {
    var j := i;
    while j > 0 && a[j - 1].matchScore < a[j].matchScore
      invariant 0 <= j <= i
      invariant forall x, y | 0 <= x < y <= i && x != j && y != j :: a[x].matchScore >= a[y].matchScore
      invariant forall y | j < y <= i :: a[j].matchScore > a[y].matchScore
      invariant multiset(a[..]) == multiset(old(a[..]))
    {
      Swap(a, j - 1, j);
      j := j - 1;
    }
  }

  /** `matchedProperties.sort((a, b) => b.matchScore - a.matchScore)`, by insertion. */
  method SortByScore(a: array<Listing>)
    modifies a
    ensures SortedByScore(a[..])
    ensures multiset(a[..]) == multiset(old(a[..]))
  {
    for i := 0 to a.Length
      invariant forall x, y | 0 <= x < y < i :: a[x].matchScore >= a[y].matchScore
      invariant multiset(a[..]) == multiset(old(a[..]))
    {
      Insert(a, i);
    }
  }

  // ------------------------------------------------------------ the search

  /** The loop over `keywordMapping`: the criteria it records and the listings it leaves. */
  method MatchKeywords(table: seq<(string, Config)>, ql: string, properties: seq<Listing>)
    returns (criteria: seq<string>, matched: seq<Listing>)
    ensures criteria == Criteria(table, ql)
    ensures matched == Narrowed(table, ql, properties)
  {
    criteria := [];
    matched := properties;
    for i := 0 to |table|
      invariant criteria == Criteria(table[..i], ql)
      invariant matched == Narrowed(table[..i], ql, properties)
    {
      var entry := table[i];
      assert table[..i + 1] == table[..i] + [entry];
      assert table[..i + 1][..i] == table[..i];
      if Contains(ql, entry.0) {
        criteria := criteria + [entry.0];
        matched := LF.Select(p => Satisfies(entry.1, p), matched);
      }
    }
    assert table[..|table|] == table;
  }

  /** The `forEach` that writes each survivor's score into it. */
  method ScoreAll(matched: seq<Listing>, criteria: seq<string>, table: seq<(string, Config)>, cap: Option<int>, jitter: seq<int>)
    requires Distinct(matched)
    requires |jitter| >= |matched|
    modifies set p | p in matched
    ensures forall k | 0 <= k < |matched| :: matched[k].matchScore == Score(matched[k], criteria, table, cap, jitter[k])
  {
    for k := 0 to |matched|
      invariant forall j | 0 <= j < k :: matched[j].matchScore == Score(matched[j], criteria, table, cap, jitter[j])
    {
      matched[k].matchScore := Score(matched[k], criteria, table, cap, jitter[k]);
    }
  }

  /**
   * The scoring `forEach` and the sort: each survivor gets its score, and
   * `found` holds the survivors, highest score first.
   */
  method Rank(matched: seq<Listing>, criteria: seq<string>, table: seq<(string, Config)>, cap: Option<int>, jitter: seq<int>)
    returns (found: array<Listing>)
    requires Distinct(matched)
    requires |jitter| >= |matched|
    modifies set p | p in matched
    ensures fresh(found)
    ensures multiset(found[..]) == multiset(matched)
    ensures SortedByScore(found[..])
    ensures forall k | 0 <= k < |matched| :: matched[k].matchScore == Score(matched[k], criteria, table, cap, jitter[k])
    ensures forall p | p in found[..] :: p.matchScore <= 99
    ensures (forall k | 0 <= k < |jitter| :: 0 <= jitter[k]) ==> forall p | p in found[..] :: 50 <= p.matchScore
  {
    ScoreAll(matched, criteria, table, cap, jitter);
    found := new Listing[|matched|](i requires 0 <= i < |matched| => matched[i]);
    assert found[..] == matched;
    SortByScore(found);
    forall p | p in found[..]
      ensures p.matchScore <= 99
      ensures (forall k | 0 <= k < |jitter| :: 0 <= jitter[k]) ==> 50 <= p.matchScore
    {
      assert p in multiset(matched);
      var k :| 0 <= k < |matched| && matched[k] == p;
    }
  }

  /**
   * `processAIQuery`: `jitter[k]` is the random draw for the k-th survivor.
   * The survivors' scores are written into the listings, and `found` holds
   * the survivors sorted by score.
   */
  method ProcessAIQuery(query: string, properties: seq<Listing>, jitter: seq<int>)
    returns (found: array<Listing>, criteria: seq<string>, interpretation: string)
    requires Distinct(properties)
    requires |jitter| >= |properties|
    modifies properties
    ensures criteria == Criteria(KeywordMapping, Lower(query))
    ensures multiset(found[..]) == multiset(Narrowed(KeywordMapping, Lower(query), properties))
    ensures SortedByScore(found[..])
    ensures var survivors := Narrowed(KeywordMapping, Lower(query), properties);
      forall k | 0 <= k < |survivors| ::
        survivors[k].matchScore == Score(survivors[k], criteria, KeywordMapping, PriceCap(Lower(query)), jitter[k])
    ensures forall p | p in found[..] :: p.matchScore <= 99
    ensures (forall k | 0 <= k < |jitter| :: 0 <= jitter[k]) ==> forall p | p in found[..] :: 50 <= p.matchScore
    ensures forall p | p in properties && p !in Narrowed(KeywordMapping, Lower(query), properties) ::
      p.matchScore == old(p.matchScore)
    ensures interpretation == GenerateInterpretation(query)
    ensures fresh(found)
  {
    var ql := Lower(query);
    var matched;
    criteria, matched := MatchKeywords(KeywordMapping, ql, properties);
    NarrowedDistinct(KeywordMapping, ql, properties);
    NarrowedSubsequence(KeywordMapping, ql, properties);
    SubsequenceIn(matched, properties);
    assert forall p | p in matched :: p in properties;
    found := Rank(matched, criteria, KeywordMapping, PriceCap(ql), jitter);
    interpretation := GenerateInterpretation(query);
  }

  // -------------------------------------------------------- interpretation

  /** The type names `generateInterpretation` looks for, in its order. */
  const TypeNames: seq<string> := ["apartamento", "casa", "studio", "cobertura", "loft"]

  /** `types.find(t => lv.includes(t))`, searching from index `from`. */
  function FirstFound(lv: string, names: seq<string>, from: nat): (r: Option<nat>)
    decreases |names| - from
    ensures r.Some? ==> from <= r.value < |names| && Contains(lv, names[r.value])
    ensures r.Some? ==> forall k | from <= k < r.value :: !Contains(lv, names[k])
    ensures r.None? ==> forall k | from <= k < |names| :: !Contains(lv, names[k])
  {
    if from >= |names| then None
    else if Contains(lv, names[from]) then Some(from)
    else FirstFound(lv, names, from + 1)
  }

  /** The opening word: the first type named, capitalised, or "Imóvel". */
  function Label(lv: string): string {
    match FirstFound(lv, TypeNames, 0)
    case Some(k) => Capitalize(TypeNames[k])
    case None => "Imóvel"
  }

  /** `/(\d+)\s*quarto/i` tried at `i` of the lower-cased query: where its number ends. */
  function BedroomsAt(lv: string, i: nat): (r: Option<nat>)
    ensures r.Some? ==> i < r.value <= |lv|
  {
    if i >= |lv| || !IsDigit(lv[i]) then None
    else
      var e := DigitsEnd(lv, i);
      if OccursAt(lv, "quarto", SpacesEnd(lv, e)) then Some(e) else None
  }

  function BedroomsMatcher(lv: string): nat -> Option<nat> {
    (i: nat) => BedroomsAt(lv, i)
  }

  /** The leftmost bedroom count, as the bounds of its digits. */
  function BedroomMention(lv: string): (r: Option<(nat, nat)>)
    ensures r.Some? ==> r.value.0 < r.value.1 <= |lv| && BedroomsAt(lv, r.value.0) == Some(r.value.1)
  {
    match Leftmost(|lv|, 0, BedroomsMatcher(lv))
    case Some((i, e)) => Some((i, e))
    case None => None
  }

  /** The count quoted is a whole number: the search cannot stop inside a run of digits. */
  lemma BedroomCountIsWhole(lv: string)
    requires BedroomMention(lv).Some?
    ensures BedroomMention(lv).value.0 == 0 || !IsDigit(lv[BedroomMention(lv).value.0 - 1])
  {
    var m := BedroomsMatcher(lv);
    var i := Leftmost(|lv|, 0, m).value.0;
    assert m(i) == BedroomsAt(lv, i);
    if i > 0 {
      assert m(i - 1) == BedroomsAt(lv, i - 1);
      if IsDigit(lv[i - 1]) {
        assert false;
      }
    }
  }

  /** `` ` com ${bedroomMatch[1]} quarto(s)` `` or nothing. */
  function BedroomClause(query: string, lv: string): string
    requires |query| == |lv|
  {
    match BedroomMention(lv)
    case Some((i, e)) => " com " + query[i..e] + " quarto(s)"
    case None => ""
  }

  /** The characters of `[\d.,]`. */
  predicate IsAmountChar(c: char) { IsDigit(c) || c == '.' || c == ',' }

  /** Where a price mention's amount starts and ends, and where its unit is, if it has one. */
  datatype Mention = Mention(from: nat, to: nat, unit: Option<nat>)

  /**
   * `/até\s*([\d.,]+)\s*(mil|milhão|milhões)?/i` tried at `i` of the
   * lower-cased query. The alternation tries "mil" first, and "mil" begins
   * both longer words, so the unit is "mil" or nothing.
   */
  function PriceAt(lv: string, i: nat): (r: Option<Mention>)
    ensures r.Some? ==> i + 3 <= r.value.from < r.value.to <= |lv|
    ensures r.Some? && r.value.unit.Some? ==> r.value.to <= r.value.unit.value && OccursAt(lv, "mil", r.value.unit.value)
  {
    if !OccursAt(lv, "até", i) then None
    else
      var p := SpacesEnd(lv, i + 3);
      if p < |lv| && IsAmountChar(lv[p]) then
        var e := RunEnd(lv, p, IsAmountChar);
        var u := SpacesEnd(lv, e);
        Some(Mention(p, e, if OccursAt(lv, "mil", u) then Some(u) else None))
      else None
  }

  function PriceMatcher(lv: string): nat -> Option<Mention> {
    (i: nat) => PriceAt(lv, i)
  }

  /** The leftmost price mention. */
  function PriceMention(lv: string): (r: Option<Mention>)
    ensures r.Some? ==> exists i :: PriceAt(lv, i) == r
  {
    match Leftmost(|lv|, 0, PriceMatcher(lv))
    case Some((i, m)) => assert PriceMatcher(lv)(i) == PriceAt(lv, i); Some(m)
    case None => None
  }

  /** The unit after the amount: the "mil" matched, as typed, or " mil" when none was typed. */
  function UnitText(query: string, m: Mention): string
    requires m.unit.Some? ==> m.unit.value + 3 <= |query|
  {
    if m.unit.Some? then " " + query[m.unit.value..m.unit.value + 3] else " mil"
  }

  /** `` `, até R$ ${priceMatch[1]}${priceMatch[2] ? ' ' + priceMatch[2] : ' mil'}` `` or nothing. */
  function PriceClause(query: string, lv: string): string
    requires |query| == |lv|
  {
    match PriceMention(lv)
    case Some(m) => ", até R$ " + query[m.from..m.to] + UnitText(query, m)
    case None => ""
  }

  /** The feature phrases and the words that call for them, in the order of the code. */
  const Phrases: seq<(string, seq<string>)> := [
    ("aceita pets", ["pet", "cachorro"]),
    ("perto de transporte", ["metrô", "transporte"]),
    ("com piscina", ["piscina"]),
    ("ideal para família", ["família", "filhos"]),
    ("para investimento", ["investimento", "investir"])
  ]

  /** `', ' + features.join(', ')` when some phrase applies. */
  function PhraseClause(lv: string): string {
    var found := Tagged(lv, Phrases);
    if found == [] then "" else ", " + Join(found, ", ")
  }

  /** What follows the opening word: bedrooms, price and feature phrases. */
  function Details(query: string, lv: string): string
    requires |query| == |lv|
  {
    BedroomClause(query, lv) + PriceClause(query, lv) + PhraseClause(lv)
  }

  /** `generateInterpretation(query, criteria)`; the criteria are not read. */
  function GenerateInterpretation(query: string): string {
    var lv := Lower(query);
    var s := Label(lv) + Details(query, lv);
    if s == "" then "Imóvel conforme suas preferências" else s
  }

  /** The opening word is never empty. */
  lemma LabelNonEmpty(lv: string)
    ensures |Label(lv)| > 0
  {
    match FirstFound(lv, TypeNames, 0)
    case Some(k) =>
      assert |TypeNames[k]| > 0;
    case None =>
  }

  /** The line opens with its opening word, so the fallback text is never reached. */
  lemma LabelOpensLine(query: string)
    ensures var h := Label(Lower(query)); var r := GenerateInterpretation(query);
      |r| >= |h| && r[..|h|] == h
  {
    var lv := Lower(query);
    var h := Label(lv);
    LabelNonEmpty(lv);
    assert (h + Details(query, lv))[..|h|] == h;
  }

  /**
   * The line opens with the first type name the query holds, capitalised,
   * or with "Imóvel" when it holds none.
   */
  lemma InterpretationStartsWithType(query: string)
    ensures var lv := Lower(query);
      var r := GenerateInterpretation(query);
      match FirstFound(lv, TypeNames, 0)
      case Some(k) =>
        Contains(lv, TypeNames[k]) && (forall j | 0 <= j < k :: !Contains(lv, TypeNames[j]))
        && |r| >= |TypeNames[k]| && r[..|TypeNames[k]|] == Capitalize(TypeNames[k])
      case None =>
        (forall k | 0 <= k < |TypeNames| :: !Contains(lv, TypeNames[k])) && |r| >= 6 && r[..6] == "Imóvel"
  {
    LabelOpensLine(query);
  }

  /** The unit text lower-cases to " mil" whichever unit was typed. */
  lemma UnitIsMil(query: string, m: Mention)
    requires m.unit.Some? ==> m.unit.value + 3 <= |query| && OccursAt(Lower(query), "mil", m.unit.value)
    ensures var t := UnitText(query, m); |t| == 4 && Lower(t) == " mil"
  {
    var t := UnitText(query, m);
    if m.unit.Some? {
      var u := m.unit.value;
      var lv := Lower(query);
      assert lv[u..u + 3] == "mil";
      forall k | 0 <= k < 4 ensures Lower(t)[k] == " mil"[k] {
        if k > 0 {
          assert t[k] == query[u + k - 1];
          assert lv[u + k - 1] == lv[u..u + 3][k - 1];
        }
      }
    }
  }

  /** The price clause always ends in the unit as typed, which lower-cases to " mil": "milhão" and "milhões" are never reported. */
  lemma PriceUnitIsMil(query: string)
    requires PriceMention(Lower(query)).Some?
    ensures var c := PriceClause(query, Lower(query)); |c| >= 4 && Lower(c[|c| - 4..]) == " mil"
  {
    var lv := Lower(query);
    var m := PriceMention(lv).value;
    var i :| PriceAt(lv, i) == Some(m);
    UnitIsMil(query, m);
    var t := UnitText(query, m);
    var c := ", até R$ " + query[m.from..m.to] + t;
    assert c[|c| - 4..] == t;
  }

  // ------------------------------------------------------------- the chat

  /** One `if (answers.f.includes(needle)) query.push(fragment)` line. */
  datatype Rule = Rule(field: string, needle: string, fragment: string)

  /** The rules of `buildSearchQueryFromAnswers`, in the order of the code. */
  const QueryRules: seq<Rule> := [
    Rule("type", "Apartamento", "apartamento"),
    Rule("type", "Casa", "casa"),
    Rule("type", "Studio", "studio"),
    Rule("type", "Cobertura", "cobertura"),
    Rule("people", "Só eu", "1 quarto"),
    Rule("people", "mais 1", "2 quartos"),
    Rule("people", "pequena", "3 quartos"),
    Rule("people", "grande", "4 quartos"),
    Rule("budget", "400 mil", "até 400 mil"),
    Rule("budget", "400 - 700", "até 700 mil"),
    Rule("budget", "700 mil - 1.2", "até 1.2 milhão"),
    Rule("essential", "pet", "pet friendly"),
    Rule("essential", "metrô", "perto do metrô"),
    Rule("essential", "piscina", "com piscina"),
    Rule("purpose", "investir", "para investimento")
  ]

  /** A rule fires when its answer is a non-empty string holding the needle. */
  predicate Fires(r: Rule, answers: map<string, string>) {
    r.field in answers && answers[r.field] != "" && Contains(answers[r.field], r.needle)
  }

  function Fragments(rules: seq<Rule>): (r: seq<string>)
    ensures |r| == |rules| && forall i | 0 <= i < |rules| :: r[i] == rules[i].fragment
  {
    if rules == [] then [] else [rules[0].fragment] + Fragments(rules[1..])
  }

  /** The `query` array: the fragments of the rules that fire, in rule order. */
  function Fired(rules: seq<Rule>, answers: map<string, string>): (r: seq<string>)
    ensures Subsequence(r, Fragments(rules))
    ensures forall i | 0 <= i < |rules| && Fires(rules[i], answers) :: rules[i].fragment in r
    ensures forall f | f in r :: exists i | 0 <= i < |rules| :: rules[i].fragment == f && Fires(rules[i], answers)
  {
    if rules == [] then []
    else
      var rest := Fired(rules[1..], answers);
      assert Fragments(rules)[1..] == Fragments(rules[1..]);
      if Fires(rules[0], answers) then
        var r := [rules[0].fragment] + rest;
        assert r[1..] == rest;
        r
      else rest
  }

  /** With nothing answered, no rule fires. */
  lemma {:induction false} UnansweredFiresNothing(rules: seq<Rule>)
    ensures Fired(rules, map[]) == []
  {
    if rules != [] {
      UnansweredFiresNothing(rules[1..]);
    }
  }

  /** `buildSearchQueryFromAnswers(answers)` */
  function BuildSearchQuery(answers: map<string, string>): (q: string)
    ensures Fired(QueryRules, answers) == [] ==> q == ""
    ensures answers == map[] ==> q == ""
  {
    UnansweredFiresNothing(QueryRules);
    Join(Fired(QueryRules, answers), ", ")
  }

  /** The number of entries of `chatFlow`. */
  const ChatFlowLength := 7

  /** The `field` of each `chatFlow` entry; the greeting has none. */
  const ChatFields: seq<string> := ["", "purpose", "type", "people", "budget", "region", "essential"]

  /** What follows a click: the question of step `step`, or the results. */
  datatype Outcome = Ask(step: nat, field: string) | ShowResults(query: string)

  /** The branch of `handleOptionClick` taken after the step moved on to `step`. */
  function AfterClick(step: nat, answers: map<string, string>): (o: Outcome)
    ensures o.Ask? <==> step < ChatFlowLength
  {
    if step < ChatFlowLength then Ask(step, ChatFields[step]) else ShowResults(BuildSearchQuery(answers))
  }

  /**
   * The step counter starts at 2 while the first question shown is step 1,
   * so the first click moves to step 3: the type question (step 2) is never
   * asked.
   */
  lemma TypeQuestionNeverAsked(step: nat, answers: map<string, string>)
    requires step >= 3
    ensures AfterClick(step, answers).Ask? ==> AfterClick(step, answers).field != "type"
  {
  }

  /** The chat's state: `currentStep` and `window.chatAnswers`. */
  class AIChat {
    var currentStep: nat
    var answers: map<string, string>

    /** The counter never goes below its starting value, 2: it only moves on. */
    ghost predicate Valid()
      reads this
    {
      currentStep >= 2
    }

    constructor()
      ensures Valid()
      ensures currentStep == 2 && answers == map[]
    {
      currentStep := 2;
      answers := map[];
    }

    /**
     * `handleOptionClick(field, value)`: record, step on, ask the next
     * question or show results.  Every click lands on step 3 or later, so
     * the type question is never the one asked.
     */
    method HandleOptionClick(field: string, value: string) returns (o: Outcome)
      requires Valid()
      modifies this
      ensures Valid() && currentStep >= 3
      ensures answers == old(answers)[field := value]
      ensures currentStep == old(currentStep) + 1
      ensures o == AfterClick(currentStep, answers)
      ensures o.Ask? ==> o.field != "type"
    {
      answers := answers[field := value];
      currentStep := currentStep + 1;
      o := AfterClick(currentStep, answers);
      TypeQuestionNeverAsked(currentStep, answers);
    }
  }
}
