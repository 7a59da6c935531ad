/**
 * The structured summary shown before a search (`generateStructuredSummary`)
 * and the money wording it uses (`formatCurrency`).
 *
 * The summary reads a criteria record: one detail line per section whose
 * value is truthy, in a fixed order, framed by a header, two rules and a
 * closing question, all joined by newlines.
 */
module ConfirmationFlow {

  import opened Json
  import opened Text
  import C = CriteriaExtractor

  // ------------------------------------------------------------- currency

  const Million: nat := 1000000
  const Thousand: nat := 1000

  /**
   * `formatCurrency(value)` for an integer amount.  A whole number of
   * millions or of thousands is written out here; `toFixed(1)` of any other
   * quotient and `Intl.NumberFormat` below a thousand are given as `other`.
   * The plural appends "ões" to "milhão", as the code does.
   */
  function FormatCurrency(value: int, other: int -> string): (r: string)
    ensures value == 0 ==> r == "0"
    ensures value != 0 && !(value >= Thousand && value % Thousand == 0) ==> r == other(value)
  {
    if value == 0 then "0"
    else if value >= Million then
      if value % Million == 0 then ShowNat(value / Million) + " milhão" + (if value / Million > 1 then "ões" else "")
      else other(value)
    else if value >= Thousand && value % Thousand == 0 then ShowNat(value / Thousand) + " mil"
    else other(value)
  }

  /**
   * A whole number `m` of millions is written as `m`, which reads back,
   * then "milhão", with "ões" appended when `m` exceeds one.
   */
  lemma WholeMillions(m: nat, other: int -> string)
    requires m >= 1
    ensures FormatCurrency(m * Million, other) == ShowNat(m) + (if m == 1 then " milhão" else " milhãoões")
    ensures ParseNat(ShowNat(m)) == m
  {
    assert (m * Million) / Million == m;
    ParseShowNat(m);
  }

  /** Two million is written "2 milhãoões". */
  lemma TwoMillions(other: int -> string)
    ensures FormatCurrency(2 * Million, other) == "2 milhãoões"
  {
    WholeMillions(2, other);
    assert ShowNat(2) == "2";
  }

  /** A whole number `k` of thousands below a million is written "k mil", and `k` reads back. */
  lemma WholeThousands(k: nat, other: int -> string)
    requires 1 <= k < 1000
    ensures FormatCurrency(k * Thousand, other) == ShowNat(k) + " mil"
    ensures ParseNat(ShowNat(k)) == k
  {
    assert (k * Thousand) / Thousand == k;
    ParseShowNat(k);
  }

  /** A million or more that is not a whole number of millions is never written by the whole-number branches. */
  lemma FractionalMillions(value: int, other: int -> string)
    requires value >= Million && value % Million != 0
    ensures FormatCurrency(value, other) == other(value)
  {
  }

  // -------------------------------------------------------------- details

  /** The sections of the summary, in the order the lines appear. */
  datatype Section = Kind | Rooms | Baths | Place | Money | Essentials | Wishes | Near | Transit | Schools | Area

  const Sections: seq<Section> := [Kind, Rooms, Baths, Place, Money, Essentials, Wishes, Near, Transit, Schools, Area]

  /** The text every line of a section starts with. */
  function Label(s: Section): string {
    match s
    case Kind => "Tipo: "
    case Rooms => "Quartos: "
    case Baths => "Banheiros: "
    case Place => "Localização: "
    case Money => "Orçamento: "
    case Essentials => "Amenities Essenciais: "
    case Wishes => "Amenities Desejáveis: "
    case Near => "Próximo de: "
    case Transit => "Precisa: Transporte público"
    case Schools => "Precisa: Escolas próximas"
    case Area => "Área mínima: "
  }

  const TypeLabels: seq<(string, string)> :=
    [("apartamento", "Apartamento"), ("casa", "Casa"), ("studio", "Studio"), ("cobertura", "Cobertura")]

  const AmenityLabels: seq<(string, string)> :=
    [("piscina", "Piscina"), ("garagem", "Garagem"), ("academia", "Academia"), ("elevador", "Elevador"),
     ("portaria_24h", "Portaria 24h"), ("seguranca", "Segurança"), ("churrasqueira", "Churrasqueira"),
     ("pet_friendly", "Aceita Pets"), ("sacada", "Sacada"), ("area_lazer", "Área de Lazer")]

  /** `labels[key] || key`: every label is non-empty, so only a missing key falls back. */
  function LabelOf(table: seq<(string, string)>, key: string): (r: string)
    ensures (forall i | 0 <= i < |table| :: table[i].0 != key) ==> r == key
    ensures forall i | 0 <= i < |table| :: table[i].0 == key && (forall j | 0 <= j < i :: table[j].0 != key)
                                           ==> r == table[i].1
  {
    if table == [] then key
    else if table[0].0 == key then table[0].1
    else
      var r := LabelOf(table[1..], key);
      assert forall i | 1 <= i < |table| :: table[i] == table[1..][i - 1];
      r
  }

  /** A JavaScript string or number is truthy when it is not empty or not zero. */
  predicate Filled(o: Option<string>) { o.Some? && o.value != "" }
  predicate Positive(o: Option<nat>) { o.Some? && o.value > 0 }
  predicate NonZero(o: Option<int>) { o.Some? && o.value != 0 }

  /** `location || city`, then the capitalised zone, then the neighbourhood. */
  function PlaceText(c: C.Criteria): string
    requires Filled(c.location) || Filled(c.city)
  {
    var base := if Filled(c.location) then c.location.value else c.city.value;
    var zoned := if Filled(c.zone) then base + " (Zona " + Capitalize(c.zone.value) + ")" else base;
    if Filled(c.neighborhood) then zoned + " - " + c.neighborhood.value else zoned
  }

  /** The budget phrase; empty when neither bound is truthy. */
  function BudgetText(b: C.Budget, other: int -> string): string {
    if NonZero(b.min) && NonZero(b.max) then
      "R$ " + FormatCurrency(b.min.value, other) + " a R$ " + FormatCurrency(b.max.value, other)
    else if NonZero(b.max) then "até R$ " + FormatCurrency(b.max.value, other)
    else if NonZero(b.min) then "a partir de R$ " + FormatCurrency(b.min.value, other)
    else ""
  }

  function AmenityList(names: seq<string>): string {
    Join(seq(|names|, i requires 0 <= i < |names| => LabelOf(AmenityLabels, names[i])), ", ")
  }

  /** The section's line for these criteria, when its value is truthy. */
  function Detail(c: C.Criteria, s: Section, other: int -> string): (r: Option<string>)
    ensures r.Some? ==> Label(s) <= r.value
  {
    match s
    case Kind =>
      if Filled(c.propertyType) then Some(Label(s) + LabelOf(TypeLabels, c.propertyType.value)) else None
    case Rooms => if Positive(c.bedrooms) then Some(Label(s) + ShowNat(c.bedrooms.value)) else None
    case Baths => if Positive(c.bathrooms) then Some(Label(s) + ShowNat(c.bathrooms.value)) else None
    case Place => if Filled(c.location) || Filled(c.city) then Some(Label(s) + PlaceText(c)) else None
    case Money =>
      if c.budget.Some? && BudgetText(c.budget.value, other) != "" then
        Some(Label(s) + BudgetText(c.budget.value, other))
      else None
    case Essentials =>
      if c.essentialAmenities != [] then Some(Label(s) + AmenityList(c.essentialAmenities)) else None
    case Wishes =>
      if c.highPriorityAmenities != [] then Some(Label(s) + AmenityList(c.highPriorityAmenities)) else None
    case Near => if Filled(c.proximity) then Some(Label(s) + c.proximity.value) else None
    case Transit => if c.needsTransportation then Some(Label(s)) else None
    case Schools => if c.needsSchools then Some(Label(s)) else None
    case Area => if Positive(c.minArea) then Some(Label(s) + ShowNat(c.minArea.value) + " m²") else None
  }

  /** The lines of the given sections that are present, in section order. */
  function Present(c: C.Criteria, ss: seq<Section>, other: int -> string): (r: seq<string>)
    ensures |r| <= |ss|
  {
    if ss == [] then []
    else
      (match Detail(c, ss[0], other) case Some(line) => [line] case None => []) + Present(c, ss[1..], other)
  }

  /** `details` */
  function Details(c: C.Criteria, other: int -> string): seq<string> {
    Present(c, Sections, other)
  }

  /** A line is listed exactly when some section produces it. */
  lemma {:induction false} PresentMembers(c: C.Criteria, ss: seq<Section>, other: int -> string, line: string)
    ensures line in Present(c, ss, other) <==> exists k | 0 <= k < |ss| :: Detail(c, ss[k], other) == Some(line)
  {
    if ss != [] {
      PresentMembers(c, ss[1..], other, line);
      if exists k | 0 <= k < |ss[1..]| :: Detail(c, ss[1..][k], other) == Some(line) {
        var k :| 0 <= k < |ss[1..]| && Detail(c, ss[1..][k], other) == Some(line);
        assert ss[k + 1] == ss[1..][k];
      }
      if exists k | 0 <= k < |ss| :: Detail(c, ss[k], other) == Some(line) {
        var k :| 0 <= k < |ss| && Detail(c, ss[k], other) == Some(line);
        if k > 0 {
          assert ss[1..][k - 1] == ss[k];
        }
      }
    }
  }

  /** No section produces a line exactly when the details are empty. */
  lemma {:induction false} PresentEmpty(c: C.Criteria, ss: seq<Section>, other: int -> string)
    ensures Present(c, ss, other) == [] <==> forall k | 0 <= k < |ss| :: Detail(c, ss[k], other).None?
  {
    if ss != [] {
      PresentEmpty(c, ss[1..], other);
      assert forall k | 1 <= k < |ss| :: ss[k] == ss[1..][k - 1];
    }
  }

  // -------------------------------------------------------------- summary

  const Header := "📋 RESUMO DA SUA BUSCA:"
  /** `n` copies of `c`. */
  function Repeat(c: char, n: nat): (r: string)
    ensures |r| == n && forall i | 0 <= i < n :: r[i] == c
  {
    if n == 0 then [] else [c] + Repeat(c, n - 1)
  }

  /** A rule of 34 heavy horizontal box-drawing characters. */
  const Rule: string := Repeat('━', 34)
  const Closing := "Tá tudo certo? Quer que eu comece a busca? 🔍"
  const Fallback := "Deixa eu confirmar o que entendi..."

  /** `generateStructuredSummary(extractedData)` */
  function Summary(c: C.Criteria, other: int -> string): (r: string)
    ensures Details(c, other) == [] ==> r == Fallback
  {
    var details := Details(c, other);
    if details != [] then Join([Header, Rule] + details + [Rule, "\n" + Closing], "\n")
    else Fallback
  }

  /** Lines without a newline, framed by two rules, split back into the same lines plus a blank one. */
  lemma {:induction false} FramedLines(head: string, rule: string, details: seq<string>, closing: string)
    requires details != []
    requires '\n' !in head && '\n' !in rule && '\n' !in closing
    requires forall k | 0 <= k < |details| :: '\n' !in details[k]
    ensures Split(Join([head, rule] + details + [rule, "\n" + closing], "\n"), '\n')
            == [head, rule] + details + [rule, "", closing]
  {
    var parts := [head, rule] + details + [rule];
    JoinAppend(parts, "\n", "\n" + closing);
    JoinAppend(parts, "\n", "");
    JoinAppend(parts + [""], "\n", closing);
    assert [head, rule] + details + [rule, "\n" + closing] == parts + ["\n" + closing];
    assert [head, rule] + details + [rule, "", closing] == parts + [""] + [closing];
    var lines := parts + [""] + [closing];
    assert Join(parts + ["\n" + closing], "\n") == Join(lines, "\n");
    forall k | 0 <= k < |lines| ensures '\n' !in lines[k] {
      if 2 <= k < 2 + |details| {
        assert lines[k] == details[k - 2];
      }
    }
    SplitJoin(lines, '\n');
  }

  /**
   * When no detail holds a newline, the summary's lines are the header, a
   * rule, the details in section order, a rule, a blank line and the
   * closing question.
   */
  lemma SummaryLines(c: C.Criteria, other: int -> string)
    requires Details(c, other) != []
    requires forall k | 0 <= k < |Details(c, other)| :: '\n' !in Details(c, other)[k]
    ensures Split(Summary(c, other), '\n') == [Header, Rule] + Details(c, other) + [Rule, "", Closing]
  {
    assert '\n' !in Header && '\n' !in Closing;
    var details := Details(c, other);
    assert Summary(c, other) == Join([Header, Rule] + details + [Rule, "\n" + Closing], "\n");
    FramedLines(Header, Rule, details, Closing);
  }

  /**
   * The budget line takes one of three forms: both amounts, lower bound
   * first; "até" the maximum; "a partir de" the minimum.  It is shown
   * exactly when the criteria carry a budget with a truthy bound.
   */
  lemma BudgetForms(c: C.Criteria, other: int -> string)
    ensures Detail(c, Money, other).Some?
            <==> c.budget.Some? && (NonZero(c.budget.value.min) || NonZero(c.budget.value.max))
    ensures Detail(c, Money, other).Some? ==> Detail(c, Money, other).value == Label(Money) + BudgetText(c.budget.value, other)
    ensures c.budget.Some? && NonZero(c.budget.value.min) && NonZero(c.budget.value.max) ==>
              BudgetText(c.budget.value, other) == "R$ " + FormatCurrency(c.budget.value.min.value, other)
                                                   + " a R$ " + FormatCurrency(c.budget.value.max.value, other)
    ensures c.budget.Some? && !NonZero(c.budget.value.min) && NonZero(c.budget.value.max) ==>
              BudgetText(c.budget.value, other) == "até R$ " + FormatCurrency(c.budget.value.max.value, other)
    ensures c.budget.Some? && NonZero(c.budget.value.min) && !NonZero(c.budget.value.max) ==>
              BudgetText(c.budget.value, other) == "a partir de R$ " + FormatCurrency(c.budget.value.min.value, other)
  {
    if c.budget.Some? {
      var t := BudgetText(c.budget.value, other);
      assert NonZero(c.budget.value.min) || NonZero(c.budget.value.max) ==> t[0] in {'R', 'a'};
    }
  }

  /** The place line names the location, else the city, and carries zone and neighbourhood in that order. */
  lemma PlaceParts(c: C.Criteria)
    requires Filled(c.location) || Filled(c.city)
    ensures var base := if Filled(c.location) then c.location.value else c.city.value;
      base <= PlaceText(c)
      && (Filled(c.zone) ==> base + " (Zona " + Capitalize(c.zone.value) + ")" <= PlaceText(c))
      && (Filled(c.neighborhood) ==> PlaceText(c)[|PlaceText(c)| - |c.neighborhood.value| - 3..]
                                     == " - " + c.neighborhood.value)
  {
  }
}
