/**
 * The free-conversation planner: what the lead record and the last user
 * message say (`analyzeContext`, `extractTopicsFromText`), which question
 * comes next (`decideNextQuestion`), the conversation memory that
 * `handleConversation` and `processAIResponse` keep, and the search filters
 * handed to the listing page (`buildSearchFilters`).
 *
 * The acknowledgment text (`generateAcknowledgment`) and the city phrase
 * captured after "em/na/no" arrive as parameters; time stamps are not
 * kept; the pauses before a question is shown are taken as immediate.
 */
module ConversationEngine {

  import opened Json
  import opened Text
  import L = LeadLanguage
  import LC = LeadCapture
  import CF = ConfirmationFlow

  // --------------------------------------------------------------- topics

  datatype Topic = PropertyType | Budget | Location | Bedrooms | Timeline | Payment | Motivation | CurrentSituation

  const TypeWords: seq<string> := ["apartamento", "apto", "ap", "casa", "sobrado", "studio", "loft", "cobertura"]
  const MoneyWords: seq<string> := ["mil", "milhão", "reais", "r$"]
  const LocationWords: seq<string> := ["zona", "bairro", "região", "localização", "perto", "próximo"]
  const BedroomWords: seq<string> := ["quarto", "dormitório", "espaço", "família", "casal", "sozinho"]
  const TimelineWords: seq<string> := ["quando", "prazo", "urgente", "logo", "mês", "ano"]
  const PaymentWords: seq<string> := ["pagamento", "vista", "financiamento", "banco"]
  const MotivationWords: seq<string> := ["primeiro", "upgrade", "investir", "mudança", "casamento", "filhos"]
  const SituationWords: seq<string> := ["alugando", "aluguel", "tenho", "moro", "família"]

  /** The keyword list behind each topic. */
  function TopicWords(t: Topic): seq<string> {
    match t
    case PropertyType => TypeWords
    case Budget => MoneyWords
    case Location => LocationWords
    case Bedrooms => BedroomWords
    case Timeline => TimelineWords
    case Payment => PaymentWords
    case Motivation => MotivationWords
    case CurrentSituation => SituationWords
  }

  /** `extractTopicsFromText(text)`: each topic whose words occur in the lower-cased text. */
  function ExtractTopics(text: string): (r: set<Topic>)
    ensures text == "" ==> r == {}
    ensures forall t :: t in r <==> text != "" && ContainsAny(Lower(text), TopicWords(t))
  {
    if text == "" then {}
    else set t: Topic | ContainsAny(Lower(text), TopicWords(t))
  }

  /** "ap" is one of the type words, so any text holding "ap" (such as "capital") names a type. */
  lemma TypeTopicIsAp(text: string)
    requires text != ""
    ensures PropertyType in ExtractTopics(text)
            <==> ContainsAny(Lower(text), ["ap", "casa", "sobrado", "studio", "loft", "cobertura"])
  {
    var lt := Lower(text);
    if ContainsAny(lt, TypeWords) {
      var k :| 0 <= k < |TypeWords| && Contains(lt, TypeWords[k]);
      if k <= 2 {
        var i :| 0 <= i <= |lt| - |TypeWords[k]| && OccursAt(lt, TypeWords[k], i);
        assert lt[i..i + 2] == lt[i..i + |TypeWords[k]|][..2];
        assert OccursAt(lt, "ap", i);
        ContainsAnyIntro(lt, ["ap", "casa", "sobrado", "studio", "loft", "cobertura"], 0);
      } else {
        ContainsAnyIntro(lt, ["ap", "casa", "sobrado", "studio", "loft", "cobertura"], k - 2);
      }
    }
    if ContainsAny(lt, ["ap", "casa", "sobrado", "studio", "loft", "cobertura"]) {
      var k :| 0 <= k < 6 && Contains(lt, ["ap", "casa", "sobrado", "studio", "loft", "cobertura"][k]);
      ContainsAnyIntro(lt, TypeWords, if k == 0 then 2 else k + 2);
    }
  }

  // -------------------------------------------------------------- context

  /** The result of `analyzeContext()`. */
  datatype Context = Context(
    hasName: bool, hasPropertyType: bool, hasBedrooms: bool, hasLocation: bool, hasBudget: bool,
    hasPaymentMethod: bool, hasTimeline: bool, hasMotivation: bool, hasCurrentSituation: bool,
    hasDecisionMakers: bool, lastMessageText: string, topicsInLastMessage: set<Topic>)

  predicate KnowsBudget(lead: map<string, Value>) {
    Truthy(Get2(lead, "budget", "min")) || Truthy(Get2(lead, "budget", "max")) || Truthy(Get2(lead, "budget", "exact"))
  }

  /** `analyzeContext()` over the lead record and the last user message (`null` is `None`). */
  function AnalyzeContext(lead: map<string, Value>, lastUserMessage: Option<string>): (c: Context)
    ensures c.hasBudget <==> KnowsBudget(lead)
    ensures lastUserMessage.None? ==> c.lastMessageText == "" && c.topicsInLastMessage == {}
  {
    var text := if lastUserMessage.Some? then lastUserMessage.value else "";
    Context(
      Truthy(Get(lead, "name")), Truthy(Get(lead, "propertyType")), Truthy(Get(lead, "bedrooms")),
      Truthy(Get(lead, "location")), KnowsBudget(lead),
      Truthy(Get2(lead, "purchaseCondition", "method")), Truthy(Get2(lead, "timeline", "when")),
      Truthy(Get2(lead, "motivation", "primary")), Truthy(Get2(lead, "currentSituation", "living")),
      Truthy(Get2(lead, "decisionMakers", "alone")) || Truthy(Get2(lead, "decisionMakers", "partner"))
      || Truthy(Get2(lead, "decisionMakers", "family")),
      text, ExtractTopics(text))
  }

  /** `context.isComplete`: something to search by, and something about the household or the plan. */
  predicate IsComplete(c: Context) {
    (c.hasPropertyType || c.hasBudget || c.hasLocation) && (c.hasBedrooms || c.hasMotivation || c.hasTimeline)
  }

  /** `hasEnoughInfo` in `decideNextQuestion`. */
  predicate EnoughInfo(c: Context) {
    c.hasPropertyType || c.hasBudget || c.hasLocation || c.hasBedrooms || c.hasMotivation
  }

  /** The closing test is weaker than completeness: every complete context has enough, not conversely. */
  lemma CompleteIsEnough(c: Context)
    ensures IsComplete(c) ==> EnoughInfo(c)
    ensures c.hasBedrooms && !c.hasPropertyType && !c.hasBudget && !c.hasLocation ==> EnoughInfo(c) && !IsComplete(c)
  {
  }

  // -------------------------------------------------------- next question

  datatype Question =
    | Ask(id: string, message: string, field: string)
    | Close(message: string, redirectToResults: bool)

  const BudgetTail := "Não precisa ser nada exato, só pra eu ter uma noção do que faz sentido te mostrar!"
  const CloseTail :=
    "Com o que você me contou, já consigo te mostrar algumas opções que podem fazer sentido pra você. Que tal darmos uma olhada? 😊"
  const MoreContext := "Me conta um pouco mais sobre o que você está procurando?"

  /** The gentle budget question, naming the type when it is known. */
  function BudgetQuestion(c: Context, lead: map<string, Value>): string {
    if c.hasPropertyType then
      "Ah, legal! E quando você pensa nesse " + Display(Get(lead, "propertyType"))
      + ", você já tem uma ideia de quanto conseguiria investir? " + BudgetTail
    else "E me conta... você já pensou em quanto conseguiria investir nisso? " + BudgetTail
  }

  /**
   * `v > 1` for a bedroom count held as a number or as a string of digits.
   * JavaScript converts any string with `Number()` before comparing, so " 3"
   * or "2.5" (an answer typed at the bedrooms question and stored as it was
   * typed) is more than one there; the model reads only all-digit strings.
   */
  predicate MoreThanOne(v: Value) {
    (v.Num? && v.n > 1) || (v.Str? && v.s != "" && AllDigits(v.s) && ParseNat(v.s) > 1)
  }

  /**
   * The engine's `formatCurrency` on a truthy amount: a number as in the
   * confirmation summary; anything else is formatted by `fmt`.
   */
  function Amount(v: Value, fmt: Value -> string): string {
    if v.Num? then CF.FormatCurrency(v.n, n => fmt(Num(n))) else fmt(v)
  }

  /** The details named in the closing message, in the order of the code. */
  function CloseDetails(c: Context, lead: map<string, Value>, fmt: Value -> string): (r: seq<string>)
    ensures |r| <= 4
    ensures r == [] <==> !c.hasPropertyType && !c.hasBedrooms && !c.hasLocation
                         && !(c.hasBudget && Truthy(if Truthy(Get2(lead, "budget", "max")) then Get2(lead, "budget", "max")
                                                    else Get2(lead, "budget", "min")))
  {
    var bedrooms := Get(lead, "bedrooms");
    var budget := if Truthy(Get2(lead, "budget", "max")) then Get2(lead, "budget", "max") else Get2(lead, "budget", "min");
    (if c.hasPropertyType then ["um " + Display(Get(lead, "propertyType"))] else [])
    + (if c.hasBedrooms then [Display(bedrooms) + " quarto" + (if MoreThanOne(bedrooms) then "s" else "")] else [])
    + (if c.hasBudget && Truthy(budget) then ["até " + Amount(budget, fmt)] else [])
    + (if c.hasLocation then ["na região de " + Display(Get(lead, "location"))] else [])
  }

  function CloseMessage(details: seq<string>): string {
    (if details != [] then "Perfeito! Entendi que você busca " + Join(details, ", ") + ". " else "Perfeito! ")
    + CloseTail
  }

  /** Some earlier user message, lower-cased and joined with the others by spaces, mentions money. */
  predicate HistoryMentionsMoney(userTexts: seq<string>) {
    ContainsAny(Join(seq(|userTexts|, i requires 0 <= i < |userTexts| => Lower(userTexts[i])), " "), MoneyWords)
  }

  /** The budget question is due: no budget known, none just mentioned, none mentioned before. */
  predicate BudgetDue(c: Context, userTexts: seq<string>) {
    !c.hasBudget && Budget !in c.topicsInLastMessage && !HistoryMentionsMoney(userTexts)
  }

  /** `decideNextQuestion(context)`; `userTexts` are the texts of the user messages in memory, in order. */
  function DecideNextQuestion(c: Context, lead: map<string, Value>, userTexts: seq<string>, fmt: Value -> string)
    : (q: Question)
    ensures q.Ask? && q.id == "budget_gentle" <==> BudgetDue(c, userTexts)
    ensures q.Close? <==> !BudgetDue(c, userTexts) && EnoughInfo(c)
    ensures q.Close? ==> q.redirectToResults
    ensures !BudgetDue(c, userTexts) && !EnoughInfo(c) ==> q == Ask("more_context", MoreContext, "motivation.story")
  {
    if BudgetDue(c, userTexts) then Ask("budget_gentle", BudgetQuestion(c, lead), "budget.range")
    else if EnoughInfo(c) then Close(CloseMessage(CloseDetails(c, lead, fmt)), true)
    else Ask("more_context", MoreContext, "motivation.story")
  }

  /** The history test looks at each user message on its own: the joining spaces create no keyword. */
  lemma HistoryMentionsMoneyEach(userTexts: seq<string>)
    ensures HistoryMentionsMoney(userTexts)
            <==> exists k | 0 <= k < |userTexts| :: L.MentionsMoney(Lower(userTexts[k]))
  {
    var lowered := seq(|userTexts|, i requires 0 <= i < |userTexts| => Lower(userTexts[i]));
    assert forall j | 0 <= j < |MoneyWords| :: MoneyWords[j] != [] && ' ' !in MoneyWords[j];
    JoinContainsAny(lowered, MoneyWords);
    assert forall k | 0 <= k < |userTexts| :: lowered[k] == Lower(userTexts[k]);
  }

  /** Once the user has mentioned money in any message, the budget question is never asked again. */
  lemma NoBudgetAfterMoney(c: Context, lead: map<string, Value>, userTexts: seq<string>, fmt: Value -> string, k: nat)
    requires k < |userTexts| && L.MentionsMoney(Lower(userTexts[k]))
    ensures DecideNextQuestion(c, lead, userTexts, fmt) != Ask("budget_gentle", BudgetQuestion(c, lead), "budget.range")
    ensures !(DecideNextQuestion(c, lead, userTexts, fmt).Ask? && DecideNextQuestion(c, lead, userTexts, fmt).id == "budget_gentle")
  {
    HistoryMentionsMoneyEach(userTexts);
  }

  // --------------------------------------------------------------- memory

  datatype Role = User | Assistant

  datatype Message = Message(role: Role, text: string)

  /** What `handleConversation` returns. */
  datatype Response = Response(acknowledgment: string, nextQuestion: Option<Question>, context: Context)

  /** The texts of the user messages, in order. */
  function UserTexts(ms: seq<Message>): (r: seq<string>)
    ensures |r| <= |ms|
  {
    if ms == [] then []
    else (if ms[0].role == User then [ms[0].text] else []) + UserTexts(ms[1..])
  }

  lemma {:induction false} UserTextsAppend(ms: seq<Message>, m: Message)
    ensures UserTexts(ms + [m]) == UserTexts(ms) + (if m.role == User then [m.text] else [])
  {
    if ms != [] {
      UserTextsAppend(ms[1..], m);
      assert (ms + [m])[1..] == ms[1..] + [m];
    }
  }

  /** `messages.some(m => m.role === 'assistant' && m.text === text)` */
  predicate AssistantSaid(ms: seq<Message>, text: string) {
    exists i | 0 <= i < |ms| :: ms[i] == Message(Assistant, text)
  }

  /** No assistant text appears twice. */
  predicate DistinctAssistant(ms: seq<Message>) {
    forall i, j | 0 <= i < j < |ms| && ms[i].role == Assistant :: ms[j] != ms[i]
  }

  /** Append an assistant text unless it is already in the memory. */
  function Say(ms: seq<Message>, text: string): (r: seq<Message>)
    ensures AssistantSaid(r, text)
    ensures DistinctAssistant(ms) ==> DistinctAssistant(r)
    ensures |ms| <= |r| <= |ms| + 1 && r[..|ms|] == ms
  {
    if AssistantSaid(ms, text) then ms
    else
      var r := ms + [Message(Assistant, text)];
      assert r[|ms|] == Message(Assistant, text);
      r
  }

  /** `processAIResponse`'s duplicate key: acknowledgment then question text. */
  function ResponseKey(r: Response): string {
    r.acknowledgment + (if r.nextQuestion.Some? then r.nextQuestion.value.message else "")
  }

  /** The messages `processAIResponse` leaves in memory for a response it does not ignore. */
  function Record(ms: seq<Message>, r: Response): (out: seq<Message>)
    ensures DistinctAssistant(ms) ==> DistinctAssistant(out)
    ensures |ms| <= |out| <= |ms| + 2 && out[..|ms|] == ms
    ensures forall i | |ms| <= i < |out| :: out[i].role == Assistant && !AssistantSaid(ms, out[i].text)
  {
    var afterAck := if r.acknowledgment != "" then Say(ms, r.acknowledgment) else ms;
    var out := if r.nextQuestion.Some? then Say(afterAck, r.nextQuestion.value.message) else afterAck;
    assert afterAck[..|ms|] == ms;
    assert out[..|afterAck|] == afterAck;
    assert forall i | |ms| <= i < |afterAck| :: afterAck[i].role == Assistant && !AssistantSaid(ms, afterAck[i].text);
    forall i | |ms| <= i < |out| ensures out[i].role == Assistant && !AssistantSaid(ms, out[i].text) {
      if i >= |afterAck| {
        assert out[i] == Message(Assistant, r.nextQuestion.value.message);
      }
    }
    out
  }

  /** A user message does not disturb the assistant texts. */
  lemma UserMessageKeepsDistinct(ms: seq<Message>, text: string)
    requires DistinctAssistant(ms)
    ensures DistinctAssistant(ms + [Message(User, text)])
  {
  }

  /** The response to a user message, decided on the updated lead and memory. */
  function Reply(lead: map<string, Value>, messages: seq<Message>, userMessage: string, acknowledgment: string,
                 fmt: Value -> string): (r: Response)
    ensures r.acknowledgment == acknowledgment && r.nextQuestion.Some?
    ensures r.context.lastMessageText == userMessage && r.context.topicsInLastMessage == ExtractTopics(userMessage)
    ensures r.context.hasBudget <==> KnowsBudget(lead)
    ensures r.nextQuestion.value.Close? <==> !BudgetDue(r.context, UserTexts(messages)) && EnoughInfo(r.context)
  {
    var context := AnalyzeContext(lead, Some(userMessage));
    Response(acknowledgment, Some(DecideNextQuestion(context, lead, UserTexts(messages), fmt)), context)
  }

  /** `conversationMemory`, `lastProcessedMessage` and the `leadData` the engine merges into. */
  class Conversation {
    var lead: map<string, Value>
    var messages: seq<Message>
    var extractedData: map<string, Value>
    var topicsCovered: set<Topic>
    var lastUserMessage: Option<string>
    var lastAIMessage: Option<string>
    var lastProcessed: Option<string>

    /**
     * The memory holds no assistant text twice, and the lead has the shape
     * `resetChat` gives it, which every merge of an extraction keeps.
     */
    ghost predicate Valid()
      reads this
    {
      DistinctAssistant(messages) && LC.Shaped(lead)
    }

    /** The initial memory, over the shared lead record, which has the `resetChat` shape. */
    constructor (lead0: map<string, Value>)
      requires LC.Shaped(lead0)
      ensures Valid()
      ensures lead == lead0 && messages == [] && extractedData == map[] && topicsCovered == {}
      ensures lastUserMessage == None && lastAIMessage == None && lastProcessed == None
    {
      lead := lead0;
      messages := [];
      extractedData := map[];
      topicsCovered := {};
      lastUserMessage := None;
      lastAIMessage := None;
      lastProcessed := None;
    }

    /** `conversationMemory.messages.push(...)` and `lastUserMessage`. */
    method Remember(userMessage: string)
      requires Valid()
      modifies this
      ensures Valid()
      ensures messages == old(messages) + [Message(User, userMessage)]
      ensures lastUserMessage == Some(userMessage)
      ensures lead == old(lead) && extractedData == old(extractedData) && topicsCovered == old(topicsCovered)
      ensures lastAIMessage == old(lastAIMessage) && lastProcessed == old(lastProcessed)
    {
      UserMessageKeepsDistinct(messages, userMessage);
      messages := messages + [Message(User, userMessage)];
      lastUserMessage := Some(userMessage);
    }

    /**
     * `mergeData(leadData, extracted)` and the spread into `extractedData`.
     * An extraction has the patch shape, so the merge never meets a field it
     * cannot spread, and the lead keeps its shape.
     */
    method Absorb(extracted: map<string, Value>)
      requires Valid() && LC.PatchOk(extracted)
      modifies this
      ensures Valid()
      ensures LC.MergeableMap(old(lead), extracted)
      ensures lead == LC.MergeMap(old(lead), extracted) && extractedData == old(extractedData) + extracted
      ensures messages == old(messages) && lastUserMessage == old(lastUserMessage) && topicsCovered == old(topicsCovered)
      ensures lastAIMessage == old(lastAIMessage) && lastProcessed == old(lastProcessed)
    {
      LC.PatchMergeable(lead, extracted);
      LC.PatchKeepsShape(lead, extracted);
      extractedData := extractedData + extracted;
      lead := LC.MergeMap(lead, extracted);
    }

    /** `topics.forEach(topic => topicsCovered.add(topic))` */
    method CoverTopics(text: string)
      modifies this
      ensures topicsCovered == old(topicsCovered) + ExtractTopics(text)
      ensures lead == old(lead) && extractedData == old(extractedData) && messages == old(messages)
      ensures lastUserMessage == old(lastUserMessage) && lastAIMessage == old(lastAIMessage)
      ensures lastProcessed == old(lastProcessed)
    {
      topicsCovered := topicsCovered + ExtractTopics(text);
    }

    /** The first half of `handleConversation`: the message is remembered and what it says is absorbed. */
    method Listen(userMessage: string, cityCapture: Option<string>)
      requires Valid()
      modifies this
      ensures Valid()
      ensures messages == old(messages) + [Message(User, userMessage)]
      ensures lastUserMessage == Some(userMessage)
      ensures topicsCovered == old(topicsCovered) + ExtractTopics(userMessage)
      ensures var ex := L.ProcessNaturalLanguage(Str(userMessage), "motivation.story", old(lead), cityCapture);
              LC.MergeableMap(old(lead), ex) && lead == LC.MergeMap(old(lead), ex) && extractedData == old(extractedData) + ex
      ensures lastAIMessage == old(lastAIMessage) && lastProcessed == old(lastProcessed)
    {
      Remember(userMessage);
      var extracted := L.ProcessNaturalLanguage(Str(userMessage), "motivation.story", lead, cityCapture);
      LC.PatchOfAnswer(Str(userMessage), "motivation.story", lead, cityCapture);
      Absorb(extracted);
      CoverTopics(userMessage);
    }

    /**
     * `handleConversation(userMessage)`: one user message is appended and
     * becomes the last one, what the utterance says is merged into the
     * lead, its topics join those covered, and the reply is decided on the
     * updated record and memory.
     */
    method HandleConversation(userMessage: string, acknowledgment: string, cityCapture: Option<string>,
                              fmt: Value -> string)
      returns (response: Response)
      requires Valid()
      modifies this
      ensures Valid()
      ensures messages == old(messages) + [Message(User, userMessage)]
      ensures lastUserMessage == Some(userMessage)
      ensures topicsCovered == old(topicsCovered) + ExtractTopics(userMessage)
      ensures var ex := L.ProcessNaturalLanguage(Str(userMessage), "motivation.story", old(lead), cityCapture);
              LC.MergeableMap(old(lead), ex) && lead == LC.MergeMap(old(lead), ex) && extractedData == old(extractedData) + ex
      ensures lastAIMessage == old(lastAIMessage) && lastProcessed == old(lastProcessed)
      ensures response == Reply(lead, messages, userMessage, acknowledgment, fmt)
    {
      Listen(userMessage, cityCapture);
      response := Reply(lead, messages, userMessage, acknowledgment, fmt);
    }

    /**
     * `processAIResponse(response)`: a response with the same key as the
     * previous one is ignored; otherwise the key is remembered and the
     * acknowledgment and the question are appended unless already said.
     */
    method ProcessAIResponse(r: Response)
      requires Valid()
      modifies this
      ensures Valid()
      ensures old(lastProcessed) == Some(ResponseKey(r)) ==>
                messages == old(messages) && lastProcessed == old(lastProcessed) && lastAIMessage == old(lastAIMessage)
      ensures old(lastProcessed) != Some(ResponseKey(r)) ==>
                messages == Record(old(messages), r) && lastProcessed == Some(ResponseKey(r))
      ensures lastAIMessage == (if old(lastProcessed) != Some(ResponseKey(r)) && r.acknowledgment != ""
                                   && !AssistantSaid(old(messages), r.acknowledgment)
                                then Some(r.acknowledgment) else old(lastAIMessage))
      ensures lead == old(lead) && extractedData == old(extractedData) && topicsCovered == old(topicsCovered)
      ensures lastUserMessage == old(lastUserMessage)
    {
      var key := ResponseKey(r);
      if lastProcessed == Some(key) {
        return;
      }
      lastProcessed := Some(key);
      if r.acknowledgment != "" {
        if !AssistantSaid(messages, r.acknowledgment) {
          messages := messages + [Message(Assistant, r.acknowledgment)];
          lastAIMessage := Some(r.acknowledgment);
        }
      }
      if r.nextQuestion.Some? {
        messages := Say(messages, r.nextQuestion.value.message);
      }
    }
  }

  /** A second identical response changes nothing: processing is idempotent on the memory. */
  lemma RecordTwice(ms: seq<Message>, r: Response)
    ensures Record(Record(ms, r), r) == Record(ms, r)
  {
    var once := Record(ms, r);
    var afterAck := if r.acknowledgment != "" then Say(ms, r.acknowledgment) else ms;
    assert r.acknowledgment != "" ==> AssistantSaid(afterAck, r.acknowledgment);
    if r.acknowledgment != "" {
      var j :| 0 <= j < |afterAck| && afterAck[j] == Message(Assistant, r.acknowledgment);
      assert once[j] == afterAck[j];
    }
  }

  // ------------------------------------------------------- search filters

  /** `mustHaveFeatures.join(',')` when it is a non-empty array. */
  function FeatureList(v: Value): (r: Option<string>)
    ensures r.Some? <==> v.Arr? && v.items != []
  {
    if v.Arr? && v.items != [] then Some(Display(v)) else None
  }

  predicate FilterKey(k: string) {
    k == "tipo" || k == "quartos" || k == "preco_max" || k == "preco_min" || k == "localizacao" || k == "features"
  }

  /** The filters object: a key is present exactly when its field is `Some`. */
  datatype SearchFilters = SearchFilters(
    tipo: Option<Value>, quartos: Option<Value>, preco_max: Option<Value>, preco_min: Option<Value>,
    localizacao: Option<Value>, features: Option<string>)

  /** The lead value when it is truthy. */
  function IfTruthy(v: Value): (r: Option<Value>)
    ensures r.Some? <==> Truthy(v)
    ensures r.Some? ==> r.value == v
  {
    if Truthy(v) then Some(v) else None
  }

  /** `buildSearchFilters()`: a key for each truthy lead field, holding that field's value. */
  function BuildSearchFilters(lead: map<string, Value>): (f: SearchFilters)
    ensures f.tipo.Some? <==> Truthy(Get(lead, "propertyType"))
    ensures f.quartos.Some? <==> Truthy(Get(lead, "bedrooms"))
    ensures f.preco_max.Some? <==> Truthy(Get2(lead, "budget", "max"))
    ensures f.preco_min.Some? <==> Truthy(Get2(lead, "budget", "min"))
    ensures f.localizacao.Some? <==> Truthy(Get(lead, "location"))
    ensures f.features.Some? <==> Get(lead, "mustHaveFeatures").Arr? && Get(lead, "mustHaveFeatures").items != []
    ensures f.tipo.Some? ==> f.tipo.value == Get(lead, "propertyType")
    ensures f.quartos.Some? ==> f.quartos.value == Get(lead, "bedrooms")
    ensures f.preco_max.Some? ==> f.preco_max.value == Get2(lead, "budget", "max")
    ensures f.preco_min.Some? ==> f.preco_min.value == Get2(lead, "budget", "min")
    ensures f.localizacao.Some? ==> f.localizacao.value == Get(lead, "location")
  {
    SearchFilters(
      IfTruthy(Get(lead, "propertyType")), IfTruthy(Get(lead, "bedrooms")),
      IfTruthy(Get2(lead, "budget", "max")), IfTruthy(Get2(lead, "budget", "min")),
      IfTruthy(Get(lead, "location")), FeatureList(Get(lead, "mustHaveFeatures")))
  }
}
