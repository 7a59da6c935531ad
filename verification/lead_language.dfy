/**
 * The rule-based reader of the lead-capture chat (`processNaturalLanguage`):
 * one Portuguese answer becomes a partial lead record (a patch) that the
 * chat then merges into the lead.  Every rule is a keyword test over the
 * lower-cased answer, tried in the order the widget tries it; amounts of
 * money, bedroom counts, phone numbers and e-mail addresses are read by the
 * scanners of `Money` and by the ones below.
 */
module LeadLanguage {

  import opened Json
  import opened Text
  import opened Money

  const MillionFactor: nat := 1000000
  const ThousandFactor: nat := 1000

  // ------------------------------------------------------------ budget

  /** The budget rule runs for the budget question or when the answer mentions money. */
  predicate MentionsMoney(lt: string) {
    ContainsAny(lt, ["mil", "milhão", "reais", "r$"])
  }

  function MaxBudget(max: int): Value {
    Obj(map["max" := Num(max)])
  }

  function RangeBudget(min: int, max: int): Value {
    Obj(map["min" := Num(min), "max" := Num(max)])
  }

  /**
   * The single amount: with a plural million word only the million pattern
   * is tried, otherwise only the thousand pattern.
   */
  function SingleBudget(lt: string): (r: Option<Value>)
    ensures r.Some? ==> r.value.Obj? && r.value.fields.Keys == {"max"}
  {
    if HasMillionWord(lt) then
      match FirstMillion(lt)
      case Some(d) => Some(MaxBudget(Scale(d, MillionFactor)))
      case None => None
    else
      match FirstThousand(lt)
      case Some(d) => Some(MaxBudget(Scale(d, ThousandFactor)))
      case None => None
  }

  /** The budget patch: a range (millions first, then thousands) replaces the single amount. */
  function BudgetOf(lt: string, field: string): (r: Option<Value>)
    ensures r.Some? ==> field == "budget.range" || MentionsMoney(lt)
    ensures r.Some? ==> r.value.Obj? && "max" in r.value.fields
  {
    if field == "budget.range" || MentionsMoney(lt) then
      match FirstRange(lt, Millions)
      case Some(m) => Some(RangeBudget(Scale(m.low, MillionFactor), Scale(m.high, MillionFactor)))
      case None =>
        match FirstRange(lt, Thousands)
        case Some(m) => Some(RangeBudget(Scale(m.low, ThousandFactor), Scale(m.high, ThousandFactor)))
        case None => SingleBudget(lt)
    else None
  }

  // ----------------------------------------------------- property type

  const ApartmentWords: seq<string> := ["apartamento", "apto", "ap"]
  const HouseWords: seq<string> := ["casa", "sobrado", "residencial"]
  const StudioWords: seq<string> := ["studio", "loft", "kitnet"]
  const PenthouseWords: seq<string> := ["cobertura", "cobert"]

  /** The first keyword group that matches names the type. */
  function PropertyTypeOf(lt: string): string {
    if ContainsAny(lt, ApartmentWords) then "apartamento"
    else if ContainsAny(lt, HouseWords) then "casa"
    else if ContainsAny(lt, StudioWords) then "studio"
    else if ContainsAny(lt, PenthouseWords) then "cobertura"
    else ""
  }

  /** The rule runs for the type question or while no type is known. */
  function PropertyTypePatch(lt: string, field: string, lead: map<string, Value>): (r: Option<Value>)
    ensures r.Some? ==> r.value.Str? && r.value.s in {"apartamento", "casa", "studio", "cobertura"}
  {
    if (field == "propertyType" || !Truthy(Get(lead, "propertyType"))) && PropertyTypeOf(lt) != "" then
      Some(Str(PropertyTypeOf(lt)))
    else None
  }

  // ---------------------------------------------------------- bedrooms

  /** `(\d+)\s*(?:quarto|dormitório)` at `i`: the number read. */
  function DigitBedroomsAt(lt: string, i: nat): (r: Option<nat>)
  {
    if i < |lt| && IsDigit(lt[i]) then
      var e := DigitsEnd(lt, i);
      var k := SpacesEnd(lt, e);
      if OccursAt(lt, "quarto", k) || OccursAt(lt, "dormitório", k) then Some(ParseNat(lt[i..e])) else None
    else None
  }

  const NumberWords: seq<string> := ["um", "dois", "três", "quatro", "cinco"]

  /** `um|dois|três|quatro|cinco` at `i`: the value of the word found. */
  function NumberWordAt(lt: string, i: nat, n: nat): (r: Option<nat>)
    requires n <= |NumberWords|
    decreases |NumberWords| - n
    ensures r.Some? ==> 1 <= r.value <= 5
  {
    if n == |NumberWords| then None
    else if OccursAt(lt, NumberWords[n], i) then Some(n + 1)
    else NumberWordAt(lt, i, n + 1)
  }

  /** The explicit count: a digit count (`0` reads as null), else a number word. */
  function ExplicitBedrooms(lt: string): (r: Option<Value>)
    ensures r.Some? ==> r.value == Null || (r.value.Num? && r.value.n > 0)
  {
    match Leftmost(|lt|, 0, DigitBedroomsMatcher(lt))
    case Some((_, n)) => Some(if n != 0 then Num(n) else Null)
    case None =>
      match Leftmost(|lt|, 0, NumberWordMatcher(lt))
      case Some((_, n)) => Some(Num(n))
      case None => None
  }

  function DigitBedroomsMatcher(lt: string): nat -> Option<nat> {
    (i: nat) => DigitBedroomsAt(lt, i)
  }

  function NumberWordMatcher(lt: string): nat -> Option<nat> {
    (i: nat) => NumberWordAt(lt, i, 0)
  }

  const AloneWords: seq<string> := ["sozinho", "só eu"]
  const CoupleWords: seq<string> := ["casal", "eu e minha", "eu e meu"]
  const FamilyWords: seq<string> := ["filhos", "família"]

  /** The household size, when the answer describes one. */
  function HouseholdBedrooms(lt: string): (r: Option<nat>)
    ensures r.Some? ==> 1 <= r.value <= 3
  {
    if ContainsAny(lt, AloneWords) then Some(1)
    else if ContainsAny(lt, CoupleWords) then Some(2)
    else if ContainsAny(lt, FamilyWords) then Some(3)
    else None
  }

  /** The bedrooms patch: the household inference, when present, wins over the explicit count. */
  function BedroomsPatch(lt: string, field: string, lead: map<string, Value>): (r: Option<Value>)
    ensures r.Some? ==> field == "bedrooms" || !Truthy(Get(lead, "bedrooms"))
    ensures r.Some? ==> r.value == Null || (r.value.Num? && r.value.n > 0)
  {
    if field == "bedrooms" || !Truthy(Get(lead, "bedrooms")) then
      match HouseholdBedrooms(lt)
      case Some(n) => Some(Num(n))
      case None => ExplicitBedrooms(lt)
    else None
  }

  // ---------------------------------------------------------- timeline

  /** `{ when, urgency }` of the first timeline rule that matches. */
  function TimelineOf(lt: string): Option<(string, string)> {
    if ContainsAny(lt, ["urgente", "logo", "já", "agora", "imediat"]) then Some(("immediate", "high"))
    else if ContainsAny(lt, ["próximo mês", "mês que vem", "breve"]) then Some(("1-3months", "high"))
    else if Followed3(lt, "3", "6", "mês") || Contains(lt, "semestre") then Some(("3-6months", "medium"))
    else if Followed3(lt, "6", "12", "mês") || ContainsAny(lt, ["ano que vem", "final do ano"]) then Some(("6-12months", "medium"))
    else if ContainsAny(lt, ["explorando", "quando der", "sem pressa"]) then Some(("exploring", "low"))
    else None
  }

  function TimelinePatch(lt: string, field: string, lead: map<string, Value>): (r: Option<Value>)
    ensures r.Some? ==> field == "timeline.when" || !Truthy(Get2(lead, "timeline", "when"))
    ensures r.Some? ==> r.value.Obj? && r.value.fields.Keys == {"when", "urgency"}
    ensures r.Some? ==> (r.value.fields["urgency"] == Str("high") <==>
                         r.value.fields["when"] in {Str("immediate"), Str("1-3months")})
  {
    if field == "timeline.when" || !Truthy(Get2(lead, "timeline", "when")) then
      match TimelineOf(lt)
      case Some((when, urgency)) => Some(Obj(map["when" := Str(when), "urgency" := Str(urgency)]))
      case None => None
    else None
  }

  // ------------------------------------------------------------- phone

  function Min(a: int, b: int): int { if a <= b then a else b }

  /** The optional separator `[-.\s]`. */
  predicate IsPhoneSeparator(c: char) { c == '-' || c == '.' || IsSpace(c) }

  /**
   * `\d{4,5}[-.\s]?\d{4,5}` at `p`: the end of the match.  With the digit
   * run `r` starting at `p`: nine digits or more match whole up to ten; eight
   * digits split four and four; a run of four or five needs a separator and
   * four more digits after it; any other run fails.
   */
  function PhoneBodyAt(s: string, p: nat): (r: Option<nat>)
    requires p <= |s|
    ensures r.Some? ==> p + 8 <= r.value <= |s|
  {
    var e := DigitsEnd(s, p);
    var run := e - p;
    if run >= 9 then Some(p + 5 + Min(run - 5, 5))
    else if run == 8 then Some(p + 8)
    else if (run == 4 || run == 5) && e < |s| && IsPhoneSeparator(s[e]) && DigitsEnd(s, e + 1) - (e + 1) >= 4 then
      Some(e + 1 + Min(DigitsEnd(s, e + 1) - (e + 1), 5))
    else None
  }

  /** `(?:\(?(\d{2})\)?\s*)?BODY` at `i`: the area code is used when the body follows it. */
  function PhoneAt(s: string, i: nat): (r: Option<nat>)
    ensures r.Some? ==> i < r.value <= |s|
  {
    if i > |s| then None
    else
      var c := if i < |s| && s[i] == '(' then i + 1 else i;
      var withArea :=
        if c + 2 <= |s| && IsDigit(s[c]) && IsDigit(s[c + 1]) then
          var d := if c + 2 < |s| && s[c + 2] == ')' then c + 3 else c + 2;
          PhoneBodyAt(s, SpacesEnd(s, d))
        else None;
      if withArea.Some? then withArea else PhoneBodyAt(s, i)
  }

  /** The digits of the leftmost phone-shaped span, if any. */
  function PhoneDigits(s: string): (r: Option<string>)
    ensures r.Some? ==> AllDigits(r.value)
  {
    match Leftmost(|s|, 0, PhoneMatcher(s))
    case Some((i, e)) => Some(DigitsOf(s[i..e]))
    case None => None
  }

  const MessengerWords: seq<string> := ["whatsapp", "zap", "wpp"]

  /** The phone patch: 10 or 11 digits, or any length when a messenger is mentioned. */
  function PhonePatch(text: string, lt: string, field: string, lead: map<string, Value>): (r: Option<Value>)
    ensures r.Some? <==> (field == "phone" || !Truthy(Get(lead, "phone"))) && PhoneDigits(text).Some?
                         && (10 <= |PhoneDigits(text).value| <= 11 || ContainsAny(lt, MessengerWords))
    ensures r.Some? ==> r == Some(Str(PhoneDigits(text).value))
  {
    if field == "phone" || !Truthy(Get(lead, "phone")) then
      match PhoneDigits(text)
      case Some(p) =>
        if 10 <= |p| <= 11 || ContainsAny(lt, MessengerWords) then Some(Str(p)) else None
      case None => None
    else None
  }

  // ------------------------------------------------------------- e-mail

  predicate IsAsciiLetter(c: char) { ('a' <= c <= 'z') || ('A' <= c <= 'Z') }

  /** `[a-zA-Z0-9._%+-]` */
  predicate IsLocalChar(c: char) {
    IsAsciiLetter(c) || IsDigit(c) || c == '.' || c == '_' || c == '%' || c == '+' || c == '-'
  }

  /** `[a-zA-Z0-9.-]` */
  predicate IsDomainChar(c: char) {
    IsAsciiLetter(c) || IsDigit(c) || c == '.' || c == '-'
  }

  /** The last `.` in `lo..hi` followed by two letters: where the domain gives back to `\.[a-zA-Z]{2,}`. */
  function LastDot(s: string, lo: nat, hi: nat): (r: Option<nat>)
    decreases hi
    ensures r.Some? ==> lo <= r.value < hi && r.value + 2 < |s|
    ensures r.Some? ==> s[r.value] == '.' && IsAsciiLetter(s[r.value + 1]) && IsAsciiLetter(s[r.value + 2])
  {
    if hi <= lo then None
    else if hi - 1 + 2 < |s| && s[hi - 1] == '.' && IsAsciiLetter(s[hi]) && IsAsciiLetter(s[hi + 1]) then Some(hi - 1)
    else LastDot(s, lo, hi - 1)
  }

  /** `[a-zA-Z0-9._%+-]+@[a-zA-Z0-9.-]+\.[a-zA-Z]{2,}` at `i`: the end of the match. */
  function EmailAt(s: string, i: nat): (r: Option<nat>)
    ensures r.Some? ==> i < r.value <= |s|
  {
    if i < |s| && IsLocalChar(s[i]) then
      var j := RunEnd(s, i, IsLocalChar);
      if j < |s| && s[j] == '@' then
        var e := RunEnd(s, j + 1, IsDomainChar);
        match LastDot(s, j + 2, e)
        case Some(k) => Some(RunEnd(s, k + 1, IsAsciiLetter))
        case None => None
      else None
    else None
  }

  /** The leftmost e-mail-shaped span of the answer, as written. */
  function FirstEmail(text: string): (r: Option<string>)
    ensures r.Some? ==> exists i | 0 <= i <= |text| :: EmailAt(text, i).Some? && r.value == text[i..EmailAt(text, i).value]
  {
    match Leftmost(|text|, 0, i => EmailAt(text, i))
    case Some((i, e)) => Some(text[i..e])
    case None => None
  }

  function EmailPatch(text: string, field: string, lead: map<string, Value>): (r: Option<Value>)
    ensures r.Some? <==> (field == "email" || !Truthy(Get(lead, "email"))) && FirstEmail(text).Some?
    ensures r.Some? ==> r.value == Str(FirstEmail(text).value)
  {
    if field == "email" || !Truthy(Get(lead, "email")) then
      match FirstEmail(text)
      case Some(e) => Some(Str(e))
      case None => None
    else None
  }

  /** What a match of the e-mail pattern consists of: where its `@` and its last `.` are. */
  lemma EmailShape(s: string, i: nat) returns (j: nat, k: nat)
    requires EmailAt(s, i).Some?
    ensures var e := EmailAt(s, i).value;
            i < j && j + 1 < k && k + 2 < e
            && s[j] == '@' && s[k] == '.'
            && (forall m :: i <= m < j ==> IsLocalChar(s[m]))
            && (forall m :: j < m < k ==> IsDomainChar(s[m]))
            && (forall m :: k < m < e ==> IsAsciiLetter(s[m]))
  {
    j := RunEnd(s, i, IsLocalChar);
    var e := RunEnd(s, j + 1, IsDomainChar);
    k := LastDot(s, j + 2, e).value;
    var end := RunEnd(s, k + 1, IsAsciiLetter);
    assert end == EmailAt(s, i).value;
    assert i < j by { if j == i { assert false; } }
    assert k + 2 < end by {
      if end == k + 1 { assert false; }
      else if end == k + 2 { assert false; }
    }
  }

  // -------------------------------------------------------- motivation

  /** The primary motivation of the first rule that matches. */
  function PrimaryMotivation(lt: string): Option<string> {
    if ContainsAny(lt, ["primeiro", "primeira vez", "nunca tive"]) then Some("first_home")
    else if ContainsAny(lt, ["upgrade", "trocar", "melhor", "maior"]) then Some("upgrade")
    else if ContainsAny(lt, ["investir", "investimento", "renda", "alugar"]) then Some("investment")
    else if ContainsAny(lt, ["casamento", "casou", "filhos", "nasc"]) then Some("life_change")
    else if ContainsAny(lt, ["trabalho", "emprego", "mudança"]) then Some("work")
    else None
  }

  predicate IsMotivationField(field: string) {
    field == "motivation.story" || field == "motivation.context"
  }

  /** `aluguel.*caro|muito.*pagar` */
  predicate HighRent(lt: string) {
    Followed2(lt, "aluguel", "caro") || Followed2(lt, "muito", "pagar")
  }

  predicate LackOfSpace(lt: string) {
    ContainsAny(lt, ["pequeno", "espaço", "apertado"])
  }

  /** `{ primary?, painPoints? }`, present when either part is. */
  function MotivationPatch(lt: string, field: string): (r: Option<Value>)
    ensures r.Some? <==> IsMotivationField(field) && (PrimaryMotivation(lt).Some? || LackOfSpace(lt))
    ensures r.Some? ==> r.value.Obj?
    ensures r.Some? ==> ("painPoints" in r.value.fields <==> LackOfSpace(lt))
    ensures r.Some? && LackOfSpace(lt) ==> r.value.fields["painPoints"] == Arr([Str("lack_of_space")])
  {
    if IsMotivationField(field) && (PrimaryMotivation(lt).Some? || LackOfSpace(lt)) then
      var primary := match PrimaryMotivation(lt)
                     case Some(p) => map["primary" := Str(p)]
                     case None => map[];
      var pains := if LackOfSpace(lt) then map["painPoints" := Arr([Str("lack_of_space")])] else map[];
      Some(Obj(primary + pains))
    else None
  }

  /** A first purchase also marks the lead as a first-time buyer. */
  function ExperiencePatch(lt: string, field: string): Option<Value> {
    if IsMotivationField(field) && PrimaryMotivation(lt) == Some("first_home") then
      Some(Obj(map["firstTime" := Bool(true)]))
    else None
  }

  function RentPainPatch(lt: string, field: string): Option<Value> {
    if IsMotivationField(field) && HighRent(lt) then
      Some(Obj(map["painPoints" := Arr([Str("high_rent")])]))
    else None
  }

  // ---------------------------------------------------------- payment

  function PaymentPatch(lt: string, field: string): (r: Option<Value>)
    ensures r.Some? ==> field == "purchaseCondition.method" && r.value.Obj? && "method" in r.value.fields
  {
    if field != "purchaseCondition.method" then None
    else if ContainsAny(lt, ["à vista", "vista", "dinheiro", "pronto"]) then
      Some(Obj(map["method" := Str("cash")]))
    else if ContainsAny(lt, ["financiamento", "banco", "parcela"]) then
      if Followed2(lt, "já", "consultei") || Followed2(lt, "pré", "aprov") || Contains(lt, "simulei") then
        Some(Obj(map["method" := Str("financing"), "preApproved" := Bool(true)]))
      else Some(Obj(map["method" := Str("financing")]))
    else None
  }

  // ---------------------------------------------------------- location

  /** Words that switch the location rule on. */
  const CityMentions: seq<string> :=
    ["porto alegre", "canoas", "viamão", "gravataí", "cachoeirinha", "são leopoldo",
     "novo hamburgo", "alvorada", "sapucaia", "cidade"]

  /** Spelling found in the answer, canonical city name; tried in this order. */
  const Cities: seq<(string, string)> :=
    [("porto alegre", "Porto Alegre"), ("poa", "Porto Alegre"), ("canoas", "Canoas"),
     ("viamão", "Viamão"), ("gravataí", "Gravataí"), ("gravatai", "Gravataí"),
     ("cachoeirinha", "Cachoeirinha"), ("são leopoldo", "São Leopoldo"),
     ("sao leopoldo", "São Leopoldo"), ("novo hamburgo", "Novo Hamburgo"),
     ("alvorada", "Alvorada"), ("sapucaia do sul", "Sapucaia do Sul"), ("sapucaia", "Sapucaia do Sul")]

  /** The canonical name of the first table entry found in `lt`, from entry `n` on. */
  function FirstCity(lt: string, table: seq<(string, string)>, n: nat): (r: Option<string>)
    decreases |table| - n
    ensures r.Some? ==> exists k | n <= k < |table| ::
      Contains(lt, table[k].0) && r.value == table[k].1 && forall j | n <= j < k :: !Contains(lt, table[j].0)
    ensures r.None? <==> forall k | n <= k < |table| :: !Contains(lt, table[k].0)
  {
    if n >= |table| then None
    else if Contains(lt, table[n].0) then Some(table[n].1)
    else FirstCity(lt, table, n + 1)
  }

  const CommonWords: seq<string> := ["a", "o", "de", "da", "do", "em", "na", "no", "para", "com", "que", "tipo", "região"]

  /**
   * The free city phrase after `em/na/no/de/da` is supplied by the caller;
   * it is kept, trimmed, when it is 3 to 29 UTF-16 units long and not a
   * common word.
   */
  function CityFallback(capture: Option<string>): (r: Option<string>)
    ensures r.Some? ==> 2 < Utf16Length(r.value) < 30 && Lower(r.value) !in CommonWords
  {
    match capture
    case Some(c) =>
      var t := Trim(c);
      if 2 < Utf16Length(t) < 30 && Lower(t) !in CommonWords then Some(t) else None
    case None => None
  }

  predicate LocationRuleOn(lt: string, field: string) {
    field == "location" || ContainsAny(lt, CityMentions)
  }

  function LocationPatch(lt: string, field: string, capture: Option<string>): (r: Option<Value>)
    ensures r.Some? ==> LocationRuleOn(lt, field) && r.value.Str?
  {
    if LocationRuleOn(lt, field) then
      match FirstCity(lt, Cities, 0)
      case Some(c) => Some(Str(c))
      case None =>
        match CityFallback(capture)
        case Some(c) => Some(Str(c))
        case None => None
    else None
  }

  /** Must-have features the location answer reveals, in this order. */
  function LocationFeatures(lt: string, field: string): (r: seq<string>)
    ensures r == [] || LocationRuleOn(lt, field)
    ensures |r| <= 2
  {
    if LocationRuleOn(lt, field) then
      (if ContainsAny(lt, ["metrô", "transporte", "estação", "ônibus"]) then ["transporte"] else [])
      + (if ContainsAny(lt, ["pet", "animal", "cachorro", "gato"]) then ["pet friendly"] else [])
    else []
  }

  // ------------------------------------------- living and decision makers

  function LivingPatch(lt: string, field: string): Option<Value> {
    if field != "currentSituation.living" then None
    else if ContainsAny(lt, ["alugando", "alugo", "aluguel"]) then Some(Obj(map["living" := Str("renting")]))
    else if ContainsAny(lt, ["tenho", "já tenho", "próprio"]) then Some(Obj(map["living" := Str("owning")]))
    else if ContainsAny(lt, ["família", "pais", "mãe", "pai"]) then Some(Obj(map["living" := Str("with_family")]))
    else None
  }

  function DecisionMakersPatch(lt: string, field: string): Option<Value> {
    if field != "decisionMakers" then None
    else if ContainsAny(lt, ["só eu", "sozinho", "eu mesmo"]) then Some(Obj(map["alone" := Bool(true)]))
    else if ContainsAny(lt, ["esposa", "marido", "parceiro", "cônjuge", "nós"]) then Some(Obj(map["partner" := Bool(true)]))
    else if ContainsAny(lt, ["família", "todos", "juntos"]) then Some(Obj(map["family" := Bool(true)]))
    else None
  }

  // -------------------------------------------------------- the patch

  function Entry(key: string, v: Option<Value>): (r: map<string, Value>)
    ensures key in r <==> v.Some?
    ensures forall k | k in r :: k == key
  {
    match v
    case Some(x) => map[key := x]
    case None => map[]
  }

  /** The keys a patch can hold: those of its three parts. */
  predicate PatchKey(k: string) {
    ProfileKey(k) || ContextKey(k) || WhereKey(k)
  }

  predicate ProfileKey(k: string) {
    k == "budget" || k == "propertyType" || k == "bedrooms" || k == "timeline" || k == "phone" || k == "email"
  }

  predicate ContextKey(k: string) {
    k == "motivation" || k == "experience" || k == "currentSituation" || k == "purchaseCondition"
    || k == "decisionMakers"
  }

  predicate WhereKey(k: string) {
    k == "location" || k == "mustHaveFeatures"
  }

  /**
   * `processNaturalLanguage(text, field)` against the current lead: anything
   * but a non-empty string yields the empty patch.  `cityCapture` is what the
   * free city phrase pattern captured in the lower-cased text, if anything.
   */
  function ProcessNaturalLanguage(text: Value, field: string, lead: map<string, Value>, cityCapture: Option<string>): (r: map<string, Value>)
    ensures !text.Str? || text.s == [] ==> r == map[]
    ensures forall k | k in r :: PatchKey(k)
  {
    if !text.Str? || text.s == [] then map[]
    else
      var s := text.s;
      var lt := Lower(s);
      ProfilePatch(s, lt, field, lead) + ContextPatch(lt, field) + WherePatch(lt, field, cityCapture)
  }

  /** What the answer says about the property and how to reach the lead. */
  function ProfilePatch(s: string, lt: string, field: string, lead: map<string, Value>): (r: map<string, Value>)
    ensures forall k | k in r :: ProfileKey(k)
  {
    Entry("budget", BudgetOf(lt, field))
    + Entry("propertyType", PropertyTypePatch(lt, field, lead))
    + Entry("bedrooms", BedroomsPatch(lt, field, lead))
    + Entry("timeline", TimelinePatch(lt, field, lead))
    + Entry("phone", PhonePatch(s, lt, field, lead))
    + Entry("email", EmailPatch(s, field, lead))
  }

  /** What the answer to a motivation, payment, living or decision question says. */
  function ContextPatch(lt: string, field: string): (r: map<string, Value>)
    ensures forall k | k in r :: ContextKey(k)
  {
    Entry("motivation", MotivationPatch(lt, field))
    + Entry("experience", ExperiencePatch(lt, field))
    + Entry("currentSituation", RentPainPatch(lt, field))
    + Entry("purchaseCondition", PaymentPatch(lt, field))
    + Entry("currentSituation", LivingPatch(lt, field))
    + Entry("decisionMakers", DecisionMakersPatch(lt, field))
  }

  /** The city and the features that come with it. */
  function WherePatch(lt: string, field: string, capture: Option<string>): (r: map<string, Value>)
    ensures forall k | k in r :: WhereKey(k)
  {
    var features := LocationFeatures(lt, field);
    Entry("location", LocationPatch(lt, field, capture))
    + Entry("mustHaveFeatures", if features == [] then None else Some(Arr(Strs(features))))
  }

  // ------------------------------------------------- budget phrases

  /** "até N mil" is a maximum of N thousand. */
  lemma ThousandPhrase(n: nat, field: string)
    ensures BudgetOf("até " + ShowNat(n) + " mil", field) == Some(MaxBudget(n * 1000))
  {
    var s := "até " + ShowNat(n) + " mil";
    ThousandChars(n);
    NoRangesWithoutSeparator(s);
    NoMillionWordWithoutH(s);
    ContainsAnyIntro(s, ["mil", "milhão", "reais", "r$"], 0);
    ThousandFirst(n);
    ScaleWhole(n, 1000);
  }

  /** The characters of "até N mil". */
  lemma ThousandChars(n: nat)
    ensures var s := "até " + ShowNat(n) + " mil"; var l := |ShowNat(n)|;
            |s| == 8 + l
            && (forall k :: 0 < k < |s| ==> s[k] != 'a')
            && (forall k :: 0 <= k < |s| ==> s[k] != '-' && s[k] != 'h')
            && OccursAt(s, "mil", 5 + l)
  {
    var d := ShowNat(n);
    var l := |d|;
    var s := "até " + d + " mil";
    forall k | 0 <= k < |s| ensures (k > 0 ==> s[k] != 'a') && s[k] != '-' && s[k] != 'h' {
      if k < 4 { assert s[k] == "até "[k]; }
      else if k < 4 + l { assert s[k] == d[k - 4]; }
      else { assert s[k] == " mil"[k - 4 - l]; }
    }
    assert s[5 + l..8 + l] == "mil";
  }

  /** The first thousand phrase of "até N mil" is N, at position 4. */
  lemma ThousandFirst(n: nat)
    ensures FirstThousand("até " + ShowNat(n) + " mil") == Some(Decimal(n, ""))
  {
    var s := "até " + ShowNat(n) + " mil";
    ThousandAtFour(n);
    forall j | 0 <= j < 4 ensures ThousandAt(s, j).None? {
      assert s[j] == "até "[j];
    }
    FirstThousandIs(s, 4);
  }

  /** N followed by " mil" at the end of the text reads as N thousand. */
  lemma ThousandAtFour(n: nat)
    ensures ThousandAt("até " + ShowNat(n) + " mil", 4) == Some(Decimal(n, ""))
  {
    var l := |ShowNat(n)|;
    var s := "até " + ShowNat(n) + " mil";
    ThousandChars(n);
    DecimalOfShown("até ", n, " mil");
    assert s[4 + l] == ' ' && s[5 + l] == 'm';
    assert SpacesEnd(s, 4 + l) == 5 + l;
  }

  /** "até N milhões" is a maximum of N million. */
  lemma MillionsPhrase(n: nat, field: string)
    ensures BudgetOf("até " + ShowNat(n) + " milhões", field) == Some(MaxBudget(n * 1000000))
  {
    var s := "até " + ShowNat(n) + " milhões";
    MillionsChars(n);
    NoRangesWithoutSeparator(s);
    ContainsAnyIntro(s, ["mil", "milhão", "reais", "r$"], 0);
    MillionsFirst(n);
    ScaleWhole(n, 1000000);
  }

  /** The characters of "até N milhões". */
  lemma MillionsChars(n: nat)
    ensures var s := "até " + ShowNat(n) + " milhões"; var l := |ShowNat(n)|;
            |s| == 12 + l
            && (forall k :: 0 < k < |s| ==> s[k] != 'a' && s[k] != '-')
            && OccursAt(s, "milhõe", 5 + l) && OccursAt(s, "mil", 5 + l)
  {
    var d := ShowNat(n);
    var l := |d|;
    var s := "até " + d + " milhões";
    forall k | 0 <= k < |s| ensures (k > 0 ==> s[k] != 'a') && s[k] != '-' {
      if k < 4 { assert s[k] == "até "[k]; }
      else if k < 4 + l { assert s[k] == d[k - 4]; }
      else { assert s[k] == " milhões"[k - 4 - l]; }
    }
    assert s[5 + l..11 + l] == "milhõe";
    assert s[5 + l..8 + l] == "mil";
  }

  /** The first million phrase of "até N milhões" is N, at position 4. */
  lemma MillionsFirst(n: nat)
    ensures FirstMillion("até " + ShowNat(n) + " milhões") == Some(Decimal(n, ""))
  {
    var s := "até " + ShowNat(n) + " milhões";
    MillionsAtFour(n);
    MillionsNoneBefore(n);
    FirstMillionIs(s, 4);
  }

  /** N followed by " milhões" reads as N million. */
  lemma MillionsAtFour(n: nat)
    ensures MillionAt("até " + ShowNat(n) + " milhões", 4) == Some(Decimal(n, ""))
  {
    var d := ShowNat(n);
    var l := |d|;
    var s := "até " + d + " milhões";
    MillionsChars(n);
    DecimalOfShown("até ", n, " milhões");
    assert s[4 + l] == ' ' && s[5 + l] == 'm';
    assert SpacesEnd(s, 4 + l) == 5 + l;
  }

  /** No million phrase starts inside the prefix "até ". */
  lemma MillionsNoneBefore(n: nat)
    ensures forall j | 0 <= j < 4 :: MillionAt("até " + ShowNat(n) + " milhões", j).None?
  {
    var s := "até " + ShowNat(n) + " milhões";
    forall j | 0 <= j < 4 ensures MillionAt(s, j).None? {
      assert s[j] == "até "[j];
    }
  }

  /** The characters of "até N milhão". */
  lemma SingularChars(n: nat)
    ensures var s := "até " + ShowNat(n) + " milhão"; var l := |ShowNat(n)|;
            |s| == 11 + l
            && (forall k :: 0 <= k < 4 ==> !IsDigit(s[k]))
            && (forall k :: 4 <= k < 4 + l ==> IsDigit(s[k]))
            && s[4 + l] == ' ' && s[5 + l..8 + l] == "mil" && s[8 + l] == 'h' && s[9 + l] == 'ã'
            && (forall k :: 0 < k < |s| ==> s[k] != 'a' && s[k] != '-')
            && (forall k :: 0 <= k < |s| && s[k] == 'h' ==> k == 8 + l)
  {
    var d := ShowNat(n);
    var l := |d|;
    var s := "até " + d + " milhão";
    forall k | 0 <= k < |s| ensures (k > 0 ==> s[k] != 'a') && s[k] != '-' && (s[k] == 'h' ==> k == 8 + l)
                               && (k < 4 ==> !IsDigit(s[k])) && (4 <= k < 4 + l ==> IsDigit(s[k])) {
      if k < 4 { assert s[k] == "até "[k]; }
      else if k < 4 + l { assert s[k] == d[k - 4]; }
      else { assert s[k] == " milhão"[k - 4 - l]; }
    }
    assert s[4 + l..] == " milhão";
  }

  /** No plural million word in a text whose only `h` is followed by `ã`. */
  lemma NoPluralBeforeA(s: string, h: nat)
    requires h + 1 < |s| && s[h] == 'h' && s[h + 1] == 'ã'
    requires forall k :: 0 <= k < |s| && s[k] == 'h' ==> k == h
    ensures !HasMillionWord(s)
  {
    forall i | 0 <= i <= |s| - 6 ensures !OccursAt(s, "milhoe", i) && !OccursAt(s, "milhõe", i) {
      assert s[i..i + 6][3] == s[i + 3];
      assert s[i..i + 6][4] == s[i + 4];
    }
  }

  /** "N milhão" or "N milho" has no `NUM (mil|k)\b`: the `mil` is glued to the `h`. */
  lemma NoThousandWordBeforeH(s: string, l: nat)
    requires |s| >= 9 + l && l > 0
    requires forall k :: 0 <= k < 4 ==> !IsDigit(s[k])
    requires forall k :: 4 <= k < 4 + l ==> IsDigit(s[k])
    requires s[4 + l] == ' ' && s[5 + l..8 + l] == "mil" && s[8 + l] == 'h'
    requires forall k :: 4 + l < k < |s| ==> !IsDigit(s[k])
    ensures FirstThousand(s).None?
  {
    assert SpacesEnd(s, 4 + l) == 5 + l;
    assert s[5 + l] == 'm';
    forall j | 0 <= j <= |s| ensures ThousandAt(s, j).None? {
      if 4 <= j < 4 + l {
        DecimalInRun(s, j, 4 + l);
        assert IsWordChar(s[8 + l]);
      }
    }
    FirstThousandNone(s);
  }

  /**
   * "até N milhão", with the singular, yields no budget: the million test
   * needs the plural, and `mil` inside "milhão" is not a whole word.
   */
  lemma SingularMillionIgnored(n: nat, field: string)
    ensures BudgetOf("até " + ShowNat(n) + " milhão", field).None?
  {
    var d := ShowNat(n);
    var l := |d|;
    var s := "até " + d + " milhão";
    SingularChars(n);
    NoRangesWithoutSeparator(s);
    NoPluralBeforeA(s, 8 + l);
    forall k | 4 + l < k < |s| ensures !IsDigit(s[k]) {
      assert s[k] == " milhão"[k - 4 - l];
    }
    NoThousandWordBeforeH(s, l);
  }

  /** The characters of "até N milho". */
  lemma MilhoChars(n: nat)
    ensures var s := "até " + ShowNat(n) + " milho"; var l := |ShowNat(n)|;
            |s| == 10 + l
            && (forall k :: 0 <= k < 4 ==> !IsDigit(s[k]))
            && (forall k :: 4 <= k < 4 + l ==> IsDigit(s[k]))
            && s[4 + l] == ' ' && s[5 + l..8 + l] == "mil" && s[8 + l] == 'h'
            && (forall k :: 4 + l < k < |s| ==> !IsDigit(s[k]))
            && (forall k :: 0 < k < |s| ==> s[k] != 'a' && s[k] != '-')
            && (forall k :: 0 <= k < |s| ==> s[k] != 'í' && s[k] != 'p')
            && (forall k :: 0 <= k < |s| && s[k] == 'h' ==> k == 8 + l)
  {
    var d := ShowNat(n);
    var l := |d|;
    var s := "até " + d + " milho";
    forall k | 0 <= k < |s|
      ensures (k > 0 ==> s[k] != 'a') && s[k] != '-' && s[k] != 'í' && s[k] != 'p' && (s[k] == 'h' ==> k == 8 + l)
              && (k < 4 ==> !IsDigit(s[k])) && (4 <= k < 4 + l ==> IsDigit(s[k])) && (4 + l < k ==> !IsDigit(s[k]))
    {
      if k < 4 { assert s[k] == "até "[k]; }
      else if k < 4 + l { assert s[k] == d[k - 4]; }
      else { assert s[k] == " milho"[k - 4 - l]; }
    }
    assert s[4 + l..] == " milho";
  }

  /** A text whose every `h` has fewer than three characters after it holds no `milh[oõ]e`. */
  lemma NoStemNearEnd(s: string)
    requires forall k :: 0 <= k < |s| && s[k] == 'h' ==> |s| < k + 3
    ensures !HasMillionWord(s)
  {
    forall i | 0 <= i <= |s| - 6 ensures !OccursAt(s, "milhoe", i) && !OccursAt(s, "milhõe", i) {
      assert s[i..i + 6][3] == s[i + 3];
    }
  }

  /**
   * "até N milho" yields no budget: "milho" lacks the `e` that
   * `milh[oõ]es?` needs, so the million test fails, and the `mil` inside it
   * is not a whole word.
   */
  lemma MilhoIgnored(n: nat, field: string)
    ensures !HasMillionWord("até " + ShowNat(n) + " milho")
    ensures BudgetOf("até " + ShowNat(n) + " milho", field).None?
  {
    var l := |ShowNat(n)|;
    var s := "até " + ShowNat(n) + " milho";
    MilhoChars(n);
    NoStemNearEnd(s);
    NoRangesWithoutSeparator(s);
    NoThousandWordBeforeH(s, l);
  }

  /** The shape `A a B mil`, character by character. */
  predicate RangeShape(s: string, la: nat, lb: nat) {
    la > 0 && lb > 0 && |s| == la + lb + 7
    && (forall k :: 0 <= k < la ==> IsDigit(s[k]))
    && s[la] == ' ' && s[la + 1] == 'a' && s[la + 2] == ' '
    && (forall k :: la + 3 <= k < la + 3 + lb ==> IsDigit(s[k]))
    && s[la + 3 + lb] == ' ' && s[la + 4 + lb] == 'm' && s[la + 5 + lb] == 'i' && s[la + 6 + lb] == 'l'
  }

  lemma RangeShapeTail(s: string, la: nat, lb: nat)
    requires RangeShape(s, la, lb)
    ensures DecimalAt(s, la + 3) == Some((Decimal(ParseNat(s[la + 3..la + 3 + lb]), ""), la + 3 + lb))
    ensures SpacesEnd(s, la) == la + 1 && SpacesEnd(s, la + 2) == la + 3
    ensures SpacesEnd(s, la + 3 + lb) == la + 4 + lb
    ensures OccursAt(s, "a", la + 1) && !OccursAt(s, "até", la + 1) && !OccursAt(s, "-", la + 1)
    ensures OccursAt(s, "mil", la + 4 + lb) && !MillionStemAt(s, la + 4 + lb)
  {
    RangeShapeSecond(s, la, lb);
    RangeShapeWords(s, la, lb);
  }

  /** The second number of a range shape, and the spaces around it. */
  lemma RangeShapeSecond(s: string, la: nat, lb: nat)
    requires RangeShape(s, la, lb)
    ensures DecimalAt(s, la + 3) == Some((Decimal(ParseNat(s[la + 3..la + 3 + lb]), ""), la + 3 + lb))
    ensures SpacesEnd(s, la) == la + 1 && SpacesEnd(s, la + 2) == la + 3
    ensures SpacesEnd(s, la + 3 + lb) == la + 4 + lb
  {
    DigitsEndUnique(s, la + 3, la + 3 + lb);
  }

  /** The separator of a range shape is "a", and its unit is "mil" alone. */
  lemma RangeShapeWords(s: string, la: nat, lb: nat)
    requires RangeShape(s, la, lb)
    ensures OccursAt(s, "a", la + 1) && !OccursAt(s, "até", la + 1) && !OccursAt(s, "-", la + 1)
    ensures OccursAt(s, "mil", la + 4 + lb) && !MillionStemAt(s, la + 4 + lb)
  {
    assert s[la + 1..la + 2] == "a";
    assert s[la + 1..la + 4][1] == s[la + 2];
    assert s[la + 4 + lb..la + 7 + lb] == "mil";
  }

  lemma RangeShapeMatch(s: string, la: nat, lb: nat)
    requires RangeShape(s, la, lb)
    ensures FirstRange(s, Thousands)
            == Some(RangeMatch(Decimal(ParseNat(s[..la]), ""), Decimal(ParseNat(s[la + 3..la + 3 + lb]), ""), ""))
    ensures FirstRange(s, Millions).None?
  {
    RangeShapeFirst(s, la, lb);
    FirstRangeIs(s, Thousands, 0);
    RangeShapeNoMillions(s, la, lb);
  }

  /** The range of thousands starts at the first character. */
  lemma RangeShapeFirst(s: string, la: nat, lb: nat)
    requires RangeShape(s, la, lb)
    ensures RangeAt(s, 0, Thousands)
            == Some(RangeMatch(Decimal(ParseNat(s[..la]), ""), Decimal(ParseNat(s[la + 3..la + 3 + lb]), ""), ""))
  {
    DigitsEndUnique(s, 0, la);
    assert s[0..la] == s[..la];
    assert DecimalAt(s, 0) == Some((Decimal(ParseNat(s[..la]), ""), la));
    RangeShapeThousands(s, la, lb);
  }

  /** After the first number: " a ", the second number, " mil". */
  lemma RangeShapeThousands(s: string, la: nat, lb: nat)
    requires RangeShape(s, la, lb)
    ensures RangeTail(s, la, Thousands, 0) == Some((Decimal(ParseNat(s[la + 3..la + 3 + lb]), ""), ""))
  {
    RangeShapeTail(s, la, lb);
    var sep := Separators[0];
    assert sep == "a" && OccursAt(s, sep, SpacesEnd(s, la));
    assert SpacesEnd(s, SpacesEnd(s, la) + |sep|) == la + 3;
    assert ThousandUnitAt(s, SpacesEnd(s, la + 3 + lb));
  }

  /** The shape has no "milhões" after its second number, so no range of millions. */
  lemma RangeShapeNoMillions(s: string, la: nat, lb: nat)
    requires RangeShape(s, la, lb)
    ensures FirstRange(s, Millions).None?
  {
    forall j | 0 <= j <= |s| ensures RangeAt(s, j, Millions).None? {
      if j < la {
        RangeShapeNoMillionsHead(s, la, lb, j);
      } else if j > la + 1 {
        forall k | j < k < |s| ensures s[k] != 'a' && s[k] != '-' {
          if k < la + 3 + lb { assert IsDigit(s[k]); }
        }
        NoSeparatorNoRange(s, j, Millions);
      }
    }
    FirstRangeNone(s, Millions);
  }

  /** A range of millions read from inside the first number fails at the unit. */
  lemma RangeShapeNoMillionsHead(s: string, la: nat, lb: nat, j: nat)
    requires RangeShape(s, la, lb) && j < la
    ensures RangeAt(s, j, Millions).None?
  {
    RangeShapeTail(s, la, lb);
    assert RangeTail(s, la, Millions, 0).None?;
    DecimalInRun(s, j, la);
  }

  lemma RangePhraseShape(da: string, db: string)
    requires |da| > 0 && |db| > 0 && AllDigits(da) && AllDigits(db)
    ensures var s := da + " a " + db + " mil";
            RangeShape(s, |da|, |db|) && s[..|da|] == da && s[|da| + 3..|da| + 3 + |db|] == db
  {
    var la := |da|;
    var lb := |db|;
    var s := da + " a " + db + " mil";
    assert s[..la] == da;
    assert s[la + 3..la + 3 + lb] == db;
    forall k | 0 <= k < la ensures IsDigit(s[k]) { assert s[k] == da[k]; }
    forall k | la + 3 <= k < la + 3 + lb ensures IsDigit(s[k]) { assert s[k] == db[k - la - 3]; }
  }

  /** "A a B mil" is a range from A to B thousand. */
  lemma ThousandRangePhrase(a: nat, b: nat, field: string)
    ensures BudgetOf(ShowNat(a) + " a " + ShowNat(b) + " mil", field) == Some(RangeBudget(a * 1000, b * 1000))
  {
    var la := |ShowNat(a)|;
    var lb := |ShowNat(b)|;
    var s := ShowNat(a) + " a " + ShowNat(b) + " mil";
    RangePhraseShape(ShowNat(a), ShowNat(b));
    RangeShapeMatch(s, la, lb);
    ParseShowNat(a);
    ParseShowNat(b);
    RangeShapeTail(s, la, lb);
    ContainsAnyIntro(s, ["mil", "milhão", "reais", "r$"], 0);
    ScaleWhole(a, 1000);
    ScaleWhole(b, 1000);
  }

  // ------------------------------------------------ type precedence

  /** `apartamento|apto|ap` matches exactly when `ap` does. */
  lemma ApartmentWordsReduce(lt: string)
    ensures ContainsAny(lt, ApartmentWords) <==> Contains(lt, "ap")
  {
    if ContainsAny(lt, ApartmentWords) {
      var k :| 0 <= k < |ApartmentWords| && Contains(lt, ApartmentWords[k]);
      ContainsPrefix(lt, ApartmentWords[k], 2);
      assert ApartmentWords[k][..2] == "ap";
    }
    if Contains(lt, "ap") {
      ContainsAnyIntro(lt, ApartmentWords, 2);
    }
  }

  /** `cobertura|cobert` matches exactly when `cobert` does. */
  lemma PenthouseWordsReduce(lt: string)
    ensures ContainsAny(lt, PenthouseWords) <==> Contains(lt, "cobert")
  {
    if ContainsAny(lt, PenthouseWords) {
      var k :| 0 <= k < |PenthouseWords| && Contains(lt, PenthouseWords[k]);
      ContainsPrefix(lt, PenthouseWords[k], 6);
      assert PenthouseWords[k][..6] == "cobert";
    }
    if Contains(lt, "cobert") {
      ContainsAnyIntro(lt, PenthouseWords, 1);
    }
  }

  /**
   * The type is the first group that matches, apartment before house
   * before studio before penthouse; any `ap` in the answer ("capaz",
   * "aparecer") already means an apartment.
   */
  lemma PropertyTypePrecedence(lt: string)
    ensures PropertyTypeOf(lt) == "apartamento" <==> Contains(lt, "ap")
    ensures PropertyTypeOf(lt) == "casa" <==> !Contains(lt, "ap") && ContainsAny(lt, HouseWords)
    ensures PropertyTypeOf(lt) == "studio"
            <==> !Contains(lt, "ap") && !ContainsAny(lt, HouseWords) && ContainsAny(lt, StudioWords)
    ensures PropertyTypeOf(lt) == "cobertura"
            <==> !Contains(lt, "ap") && !ContainsAny(lt, HouseWords) && !ContainsAny(lt, StudioWords)
                 && Contains(lt, "cobert")
    ensures PropertyTypeOf(lt) == ""
            <==> !Contains(lt, "ap") && !ContainsAny(lt, HouseWords) && !ContainsAny(lt, StudioWords)
                 && !Contains(lt, "cobert")
  {
    ApartmentWordsReduce(lt);
    PenthouseWordsReduce(lt);
  }

  // ------------------------------------------------------ phone digits

  /** A phone body holds 8 to 10 digits. */
  lemma PhoneBodyDigits(s: string, p: nat)
    requires p <= |s| && PhoneBodyAt(s, p).Some?
    ensures 8 <= |DigitsOf(s[p..PhoneBodyAt(s, p).value])| <= 10
  {
    var end := PhoneBodyAt(s, p).value;
    var e := DigitsEnd(s, p);
    if e - p >= 8 {
      DigitsOfAllDigits(s[p..end]);
    } else {
      var e2 := DigitsEnd(s, e + 1);
      assert s[p..end] == s[p..e] + [s[e]] + s[e + 1..end];
      DigitsOfConcat(s[p..e] + [s[e]], s[e + 1..end]);
      DigitsOfConcat(s[p..e], [s[e]]);
      DigitsOfAllDigits(s[p..e]);
      DigitsOfNone([s[e]]);
      DigitsOfAllDigits(s[e + 1..end]);
    }
  }

  /** Area code, then body: the area code adds its two digits and nothing else. */
  lemma AreaCodeDigits(s: string, i: nat, c: nat, q: nat, e: nat)
    requires i <= c <= i + 1 && c + 2 <= q <= e <= |s|
    requires c == i + 1 ==> s[i] == '('
    requires IsDigit(s[c]) && IsDigit(s[c + 1])
    requires forall k :: c + 2 <= k < q ==> !IsDigit(s[k])
    requires 8 <= |DigitsOf(s[q..e])| <= 10
    ensures 10 <= |DigitsOf(s[i..e])| <= 12
  {
    var x := s[i..c];
    var y := s[c..c + 2];
    var z := s[c + 2..q];
    var w := s[q..e];
    assert s[i..e] == x + y + z + w;
    DigitsOfConcat(x + y + z, w);
    DigitsOfConcat(x + y, z);
    DigitsOfConcat(x, y);
    DigitsOfNone(x);
    DigitsOfAllDigits(y);
    DigitsOfNone(z);
  }

  /** A phone match with an area code: the two area digits before a phone body. */
  lemma AreaPhoneDigits(s: string, i: nat, c: nat)
    requires c == (if i < |s| && s[i] == '(' then i + 1 else i)
    requires c + 2 <= |s| && IsDigit(s[c]) && IsDigit(s[c + 1])
    requires PhoneBodyAt(s, SpacesEnd(s, if c + 2 < |s| && s[c + 2] == ')' then c + 3 else c + 2)).Some?
    ensures var q := SpacesEnd(s, if c + 2 < |s| && s[c + 2] == ')' then c + 3 else c + 2);
      10 <= |DigitsOf(s[i..PhoneBodyAt(s, q).value])| <= 12
  {
    var d := if c + 2 < |s| && s[c + 2] == ')' then c + 3 else c + 2;
    var q := SpacesEnd(s, d);
    forall k | c + 2 <= k < q ensures !IsDigit(s[k]) {
      if k < d { assert s[k] == ')'; } else { assert IsSpace(s[k]); }
    }
    PhoneBodyDigits(s, q);
    AreaCodeDigits(s, i, c, q, PhoneBodyAt(s, q).value);
  }

  /** A phone match holds 8 to 12 digits: the body and, when used, the two-digit area code. */
  lemma PhoneAtDigits(s: string, i: nat)
    requires PhoneAt(s, i).Some?
    ensures 8 <= |DigitsOf(s[i..PhoneAt(s, i).value])| <= 12
  {
    var c := if i < |s| && s[i] == '(' then i + 1 else i;
    if c + 2 <= |s| && IsDigit(s[c]) && IsDigit(s[c + 1])
      && PhoneBodyAt(s, SpacesEnd(s, if c + 2 < |s| && s[c + 2] == ')' then c + 3 else c + 2)).Some?
    {
      AreaPhoneDigits(s, i, c);
    } else {
      PhoneBodyDigits(s, i);
    }
  }

  function PhoneMatcher(s: string): nat -> Option<nat> {
    (i: nat) => PhoneAt(s, i)
  }

  /**
   * The digits kept from a phone-shaped span number 8 to 12, so the
   * messenger exception can store 8, 9 or 12 digits.
   */
  lemma PhoneDigitsLength(s: string)
    requires PhoneDigits(s).Some?
    ensures 8 <= |PhoneDigits(s).value| <= 12
  {
    var r := Leftmost(|s|, 0, PhoneMatcher(s));
    PhoneAtDigits(s, r.value.0);
  }

  // ---------------------------------------------------- bedroom phrases

  lemma DigitBedroomsAtStart(s: string, l: nat)
    requires 0 < l && l + 7 <= |s| && s[l..l + 7] == " quarto"
    requires forall k :: 0 <= k < l ==> IsDigit(s[k])
    ensures DigitBedroomsAt(s, 0) == Some(ParseNat(s[..l]))
  {
    assert s[l] == s[l..l + 7][0];
    DigitsEndUnique(s, 0, l);
    assert s[l + 1..l + 7] == s[l..l + 7][1..];
    assert s[l + 1] == s[l..l + 7][1];
    assert SpacesEnd(s, l + 1) == l + 1;
    assert SpacesEnd(s, l) == l + 1;
    assert OccursAt(s, "quarto", l + 1);
    assert s[0..l] == s[..l];
  }

  lemma ExplicitAtStart(s: string)
    requires DigitBedroomsAt(s, 0).Some?
    ensures ExplicitBedrooms(s) == Some(if DigitBedroomsAt(s, 0).value != 0 then Num(DigitBedroomsAt(s, 0).value) else Null)
  {
    LeftmostAt(|s|, 0, DigitBedroomsMatcher(s), 0);
  }

  /** A count read from the start of "D quartos...", whatever follows. */
  lemma CountAtStart(d: string, rest: string)
    requires |d| > 0 && AllDigits(d)
    ensures ExplicitBedrooms(d + (" quartos" + rest)) == Some(if ParseNat(d) != 0 then Num(ParseNat(d)) else Null)
  {
    var t := " quartos" + rest;
    var s := d + t;
    var l := |d|;
    forall k | 0 <= k < l ensures IsDigit(s[k]) { assert s[k] == d[k]; }
    assert s[..l] == d;
    assert s[l..l + 7] == t[..7] == " quarto";
    DigitBedroomsAtStart(s, l);
    ExplicitAtStart(s);
  }

  /** "N quartos" asks for N bedrooms. */
  lemma ExplicitCountPhrase(n: nat, lead: map<string, Value>)
    requires n > 0
    ensures BedroomsPatch(ShowNat(n) + " quartos", "bedrooms", lead) == Some(Num(n))
  {
    var d := ShowNat(n);
    NoHouseholdInCount(d);
    CountAtStart(d, []);
    assert d + (" quartos" + []) == d + " quartos";
    ParseShowNat(n);
  }

  lemma NoHouseholdInCount(d: string)
    requires AllDigits(d)
    ensures HouseholdBedrooms(d + " quartos").None?
  {
    var s := d + " quartos";
    forall k | 0 <= k < |s| ensures IsDigit(s[k]) || s[k] in " quartos" {
      if k < |d| { assert s[k] == d[k]; } else { assert s[k] == " quartos"[k - |d|]; }
    }
    AbsentChar(s, "sozinho", 2);
    AbsentChar(s, "só eu", 1);
    AbsentChar(s, "casal", 0);
    AbsentChar(s, "eu e minha", 0);
    AbsentChar(s, "eu e meu", 0);
    AbsentChar(s, "filhos", 0);
    AbsentChar(s, "família", 0);
  }

  /** "N quartos para o casal" asks for two bedrooms, whatever N is. */
  lemma HouseholdOverridesCount(n: nat, lead: map<string, Value>)
    ensures BedroomsPatch(ShowNat(n) + " quartos para o casal", "bedrooms", lead) == Some(Num(2))
  {
    var d := ShowNat(n);
    CoupleOverride(d);
  }

  lemma CoupleOverride(d: string)
    requires AllDigits(d)
    ensures HouseholdBedrooms(d + " quartos para o casal") == Some(2)
  {
    var tail := " quartos para o casal";
    var s := d + tail;
    forall k | 0 <= k < |s| ensures IsDigit(s[k]) || s[k] in tail {
      if k < |d| { assert s[k] == d[k]; } else { assert s[k] == tail[k - |d|]; }
    }
    AbsentChar(s, "sozinho", 2);
    AbsentChar(s, "só eu", 1);
    assert s[|s| - 5..] == "casal";
    assert OccursAt(s, "casal", |s| - 5);
    ContainsAnyIntro(s, CoupleWords, 0);
  }
}
