/**
 * The refinement sidebar of the listing page: a short sequence of
 * questions, each asked at most once, whose answers are acknowledged and,
 * for the "features" question, turned into a `features` filter for the
 * listing page.
 *
 * The sidebar's messages are kept as a transcript of lines instead of DOM
 * nodes; the pauses before a message is shown are taken as immediate; the
 * URL update itself is represented by the parameters that would be set.
 */
module Sidebar {

  import opened Json
  import opened Text
  
  // ------------------------------------------------------------ questions

  /** The question types `askRefinementQuestion` knows. */
  predicate IsRefinement(t: string) {
    t == "timeline" || t == "payment" || t == "decision_makers" || t == "current_situation" || t == "features"
  }

  /** The questions asked after an answer, in the order they are tried. */
  const FollowUps: seq<string> := ["payment", "decision_makers", "current_situation", "features"]

  /** The position of the first type in `order` not yet asked. */
  function FirstMissing(order: seq<string>, asked: set<string>, from: nat): (r: Option<nat>)
    requires from <= |order|
    decreases |order| - from
    ensures r.Some? ==> from <= r.value < |order| && order[r.value] !in asked
    ensures r.Some? ==> forall j | from <= j < r.value :: order[j] in asked
    ensures r.None? <==> forall j | from <= j < |order| :: order[j] in asked
  {
    if from == |order| then None
    else if order[from] !in asked then Some(from)
    else FirstMissing(order, asked, from + 1)
  }

  /** The `if`/`else if` chain after an answer: the first follow-up not yet asked, if any. */
  function NextFollowUp(asked: set<string>): (r: Option<string>)
    ensures r.Some? ==> r.value !in asked && IsRefinement(r.value)
    ensures r.Some? ==> exists i | 0 <= i < |FollowUps| :: FollowUps[i] == r.value && forall j | 0 <= j < i :: FollowUps[j] in asked
    ensures r.None? <==> forall j | 0 <= j < |FollowUps| :: FollowUps[j] in asked
  {
    match FirstMissing(FollowUps, asked, 0)
    case Some(i) => Some(FollowUps[i])
    case None => None
  }

  // -------------------------------------------------------- feature codes

  /** The feature codes and the words that bring each one in, in the order of the code. */
  const FeatureTable: seq<(string, seq<string>)> := [
    ("pet_friendly", ["pet", "animal", "cachorro", "gato"]),
    ("pool", ["piscina"]),
    ("gym", ["academia", "ginásio"]),
    ("transit", ["transporte", "metrô", "ônibus"]),
    ("security", ["segurança", "portaria"])
  ]

  /** No code is empty or holds the comma that joins them. */
  lemma CodesCommaFree()
    ensures forall i | 0 <= i < |FeatureTable| :: FeatureTable[i].0 != "" && ',' !in FeatureTable[i].0
  {
  }

  /**
   * The `features` parameter written by the sidebar is read back by the
   * listing page (`split(',')`) as exactly the codes found, in order.
   */
  lemma FeaturesRoundTrip(lv: string)
    requires Tagged(lv, FeatureTable) != []
    ensures Split(Join(Tagged(lv, FeatureTable), ","), ',') == Tagged(lv, FeatureTable)
  {
    var r := Tagged(lv, FeatureTable);
    CodesCommaFree();
    forall k | 0 <= k < |r| ensures ',' !in r[k] {
      assert r[k] in r;
      var i :| 0 <= i < |FeatureTable| && FeatureTable[i].0 == r[k] && ContainsAny(lv, FeatureTable[i].1);
    }
    SplitJoin(r, ',');
  }

  // -------------------------------------------------------------- filters

  /** `savedData`, read from the URL when the sidebar opens (`None` for an absent or unreadable number). */
  datatype SavedData = SavedData(propertyType: string, bedrooms: Option<int>, budgetMax: Option<int>, location: string)

  /** The `filters` object of `processSidebarAnswer`; a `null` or absent entry is `None`. */
  datatype SidebarFilters = SidebarFilters(
    tipo: string, quartos: Option<int>, preco_max: Option<int>, localizacao: string, features: Option<string>)

  /** `n || null`: zero is falsy and becomes `null`. */
  function NonZero(n: Option<int>): (r: Option<int>)
    ensures r.Some? <==> n.Some? && n.value != 0
    ensures r.Some? ==> r == n
  {
    if n.Some? && n.value != 0 then n else None
  }

  /** The entries of the `filters` object, in the order of its keys. */
  function Entries(f: SidebarFilters): seq<(string, Option<string>)> {
    [("tipo", Some(f.tipo)), ("quartos", NumberText(f.quartos)), ("preco_max", NumberText(f.preco_max)),
     ("localizacao", Some(f.localizacao)), ("features", f.features)]
  }

  /** A number entry as `URLSearchParams.set` writes it; `null` stays `None`. */
  function NumberText(n: Option<int>): (r: Option<string>)
    ensures r.Some? <==> n.Some?
    ensures r.Some? ==> r.value != ""
  {
    if n.Some? then
      assert |ShowNat(if n.value < 0 then -n.value else n.value)| > 0;
      Some(ShowInt(n.value))
    else None
  }

  /** The `forEach` over the keys: an entry is set only when it is neither null nor empty. */
  function Kept(es: seq<(string, Option<string>)>): (r: seq<(string, string)>)
    ensures |r| <= |es|
  {
    if es == [] then []
    else (if es[0].1.Some? && es[0].1.value != "" then [(es[0].0, es[0].1.value)] else []) + Kept(es[1..])
  }

  /** Exactly the non-null, non-empty entries are kept, each with its own value. */
  lemma {:induction false} KeptExactly(es: seq<(string, Option<string>)>, k: string, v: string)
    ensures (k, v) in Kept(es) <==> v != "" && exists i | 0 <= i < |es| :: es[i] == (k, Some(v))
  {
    if es != [] {
      KeptExactly(es[1..], k, v);
      if exists i | 0 <= i < |es[1..]| :: es[1..][i] == (k, Some(v)) {
        var i :| 0 <= i < |es[1..]| && es[1..][i] == (k, Some(v));
        assert es[i + 1] == (k, Some(v));
      }
      if exists i | 0 <= i < |es| :: es[i] == (k, Some(v)) {
        var i :| 0 <= i < |es| && es[i] == (k, Some(v));
        if i > 0 { assert es[1..][i - 1] == (k, Some(v)); }
      }
    }
  }

  /** The parameters `processSidebarAnswer` writes to the URL. */
  function Written(f: SidebarFilters): (r: seq<(string, string)>)
    ensures |r| <= 5
    ensures forall k, v :: (k, v) in r <==> v != "" && exists i | 0 <= i < 5 :: Entries(f)[i] == (k, Some(v))
  {
    var es := Entries(f);
    forall k, v ensures (k, v) in Kept(es) <==> v != "" && exists i | 0 <= i < 5 :: es[i] == (k, Some(v)) {
      KeptExactly(es, k, v);
    }
    Kept(es)
  }

  // ---------------------------------------------------------- answering

  /** The sidebar's own messages, by kind; their Portuguese wording is not modelled. */
  datatype Msg =
    | Greeting | Closing
    | Urgent | Relaxed | Deadline(span: string) | NotedTimeline
    | Financing | Cash | NotedPayment
    | FeaturesNoted
    | Alone | Couple | Family | NotedDecision
    | Renting | Owner | WithFamily | NotedSituation
    | Noted

  /** `/\d+\s*(mês|meses|ano)/` tried at `i`: where the match ends. */
  function TimeSpanAt(s: string, i: nat): (r: Option<nat>)
    ensures r.Some? ==> i < r.value <= |s| && IsDigit(s[i])
  {
    if i >= |s| || !IsDigit(s[i]) then None
    else
      var p := SpacesEnd(s, DigitsEnd(s, i));
      if OccursAt(s, "mês", p) then Some(p + 3)
      else if OccursAt(s, "meses", p) then Some(p + 5)
      else if OccursAt(s, "ano", p) then Some(p + 3)
      else None
  }

  function TimeSpanMatcher(s: string): nat -> Option<nat> {
    (i: nat) => TimeSpanAt(s, i)
  }

  /** The leftmost time span in `lv`, as the bounds of the match. */
  function TimeSpan(lv: string): (r: Option<(nat, nat)>)
    ensures r.Some? ==> r.value.0 < r.value.1 <= |lv| && TimeSpanAt(lv, r.value.0) == Some(r.value.1)
  {
    match Leftmost(|lv|, 0, TimeSpanMatcher(lv))
    case Some((i, e)) => Some((i, e))
    case None => None
  }

  /** A quoted span starts where its number starts: the search cannot stop inside a run of digits. */
  lemma TimeSpanStartsNumber(lv: string)
    requires TimeSpan(lv).Some?
    ensures TimeSpan(lv).value.0 == 0 || !IsDigit(lv[TimeSpan(lv).value.0 - 1])
  {
    var m := TimeSpanMatcher(lv);
    var r := Leftmost(|lv|, 0, m);
    var i := r.value.0;
    assert m(i) == TimeSpanAt(lv, i);
    if i > 0 && IsDigit(lv[i - 1]) {
      assert m(i - 1) == TimeSpanAt(lv, i - 1);
      TimeSpanInsideRun(lv, i);
      assert false;
    }
  }

  /** Inside a run of digits, the pattern tried one position earlier ends at the same place. */
  lemma TimeSpanInsideRun(lv: string, i: nat)
    requires 0 < i < |lv| && IsDigit(lv[i - 1]) && IsDigit(lv[i])
    ensures TimeSpanAt(lv, i - 1) == TimeSpanAt(lv, i)
  {
    assert DigitsEnd(lv, i - 1) == DigitsEnd(lv, i);
  }

  /**
   * The acknowledgment of a timeline answer; `value` is the answer as
   * typed and `lv` the same answer lower-cased, so a span found in `lv`
   * is quoted from `value` with its original case.
   */
  function TimelineAck(value: string, lv: string): (m: Msg)
    requires |lv| == |value|
    ensures m.Deadline? ==> exists i, e | 0 <= i < e <= |value| :: m.span == value[i..e] && TimeSpanAt(lv, i) == Some(e)
  {
    if ContainsAny(lv, ["urgente", "logo", "já", "rápido"]) then Urgent
    else if ContainsAny(lv, ["explorando", "sem pressa", "quando der"]) then Relaxed
    else match TimeSpan(lv)
      case Some((i, e)) => Deadline(value[i..e])
      case None => NotedTimeline
  }

  function PaymentAck(lv: string): Msg {
    if Contains(lv, "financiamento") then Financing
    else if ContainsAny(lv, ["vista", "dinheiro", "pronto"]) then Cash
    else NotedPayment
  }

  function DecisionAck(lv: string): Msg {
    if ContainsAny(lv, ["sozinho", "só eu"]) then Alone
    else if ContainsAny(lv, ["parceiro", "esposa", "marido", "nós"]) then Couple
    else if Contains(lv, "família") then Family
    else NotedDecision
  }

  function SituationAck(lv: string): Msg {
    if ContainsAny(lv, ["alugando", "aluguel"]) then Renting
    else if ContainsAny(lv, ["tenho", "próprio"]) then Owner
    else if ContainsAny(lv, ["família", "pais"]) then WithFamily
    else NotedSituation
  }

  /** The acknowledgment chosen by the answer's field; an unknown field gets the plain one. */
  function Acknowledgment(field: string, value: string): (m: Msg)
    ensures field == "features" ==> m == FeaturesNoted
    ensures !IsRefinement(field) ==> m == Noted
  {
    var lv := Lower(value);
    if field == "timeline" then TimelineAck(value, lv)
    else if field == "payment" then PaymentAck(lv)
    else if field == "features" then FeaturesNoted
    else if field == "decision_makers" then DecisionAck(lv)
    else if field == "current_situation" then SituationAck(lv)
    else Noted
  }

  /** What `processSidebarAnswer` decides: the acknowledgment, the filters, and whether they changed. */
  datatype Answer = Answer(acknowledgment: Msg, filters: SidebarFilters, changed: bool)

  /** The filters before the answer, from `savedData`. */
  function BaseFilters(saved: SavedData): (f: SidebarFilters)
    ensures f.features.None?
    ensures f.quartos.Some? ==> f.quartos.value != 0
    ensures f.preco_max.Some? ==> f.preco_max.value != 0
  {
    SidebarFilters(saved.propertyType, NonZero(saved.bedrooms), NonZero(saved.budgetMax), saved.location, None)
  }

  /**
   * `processSidebarAnswer(field, value, savedData)`: only a "features"
   * answer naming at least one feature changes the filters, by adding the
   * codes joined with commas.
   */
  function ProcessSidebarAnswer(field: string, value: string, saved: SavedData): (a: Answer)
    ensures a.changed <==> field == "features" && Tagged(Lower(value), FeatureTable) != []
    ensures a.changed ==> a.filters == BaseFilters(saved).(features := Some(Join(Tagged(Lower(value), FeatureTable), ",")))
    ensures !a.changed ==> a.filters == BaseFilters(saved)
    ensures a.acknowledgment == Acknowledgment(field, value)
  {
    var codes := if field == "features" then Tagged(Lower(value), FeatureTable) else [];
    var base := BaseFilters(saved);
    if codes != [] then Answer(Acknowledgment(field, value), base.(features := Some(Join(codes, ","))), true)
    else Answer(Acknowledgment(field, value), base, false)
  }

  /** The parameters written for an answer: none unless the filters changed. */
  function Update(a: Answer): (r: seq<(string, string)>)
    ensures !a.changed ==> r == []
    ensures a.changed ==> r == Written(a.filters)
  {
    if a.changed then Written(a.filters) else []
  }

  /** A change writes the `features` parameter whenever the new filters hold a non-empty list. */
  lemma ChangeWritesFeatures(a: Answer)
    requires a.changed && a.filters.features.Some? && a.filters.features.value != ""
    ensures ("features", a.filters.features.value) in Update(a)
  {
    assert Entries(a.filters)[4] == ("features", a.filters.features);
  }

  /** A features answer that names a feature writes the `features` parameter with the joined codes. */
  lemma FeatureAnswerWritesFeatures(value: string, saved: SavedData)
    requires Tagged(Lower(value), FeatureTable) != []
    ensures ("features", Join(Tagged(Lower(value), FeatureTable), ",")) in Update(ProcessSidebarAnswer("features", value, saved))
  {
    var codes := Tagged(Lower(value), FeatureTable);
    assert codes[0] in codes;
    CodesCommaFree();
    assert codes[0] != "";
    assert |Join(codes, ",")| >= |codes[0]| by {
      if |codes| > 1 { assert Join(codes, ",") == codes[0] + "," + Join(codes[1..], ","); }
    }
    ChangeWritesFeatures(ProcessSidebarAnswer("features", value, saved));
  }

  // ----------------------------------------------------------- the state

  /** A line of the sidebar: a question (by type), a message of the sidebar's own, or the user's answer. */
  datatype Line = Asked(field: string) | Said(m: Msg) | Heard(text: string)

  /** Every question shown is of a known type recorded as asked, and no type is shown twice. */
  predicate ShownOnce(transcript: seq<Line>, asked: set<string>) {
    (forall i | 0 <= i < |transcript| && transcript[i].Asked? ::
       transcript[i].field in asked && IsRefinement(transcript[i].field))
    && (forall i, j | 0 <= i < j < |transcript| && transcript[i].Asked? && transcript[j].Asked? ::
          transcript[i].field != transcript[j].field)
  }

  /** `sidebarState` and the lines of the sidebar; the current question is held by its type. */
  class SidebarState {
    var questionsAsked: set<string>
    var currentQuestion: Option<string>
    var transcript: seq<Line>

    ghost predicate Valid()
      reads this
    {
      ShownOnce(transcript, questionsAsked)
      && (currentQuestion.Some? ==> IsRefinement(currentQuestion.value))
    }

    constructor ()
      ensures Valid()
      ensures questionsAsked == {} && currentQuestion == None && transcript == []
    {
      questionsAsked := {};
      currentQuestion := None;
      transcript := [];
    }

    /**
     * `askRefinementQuestion(type, state)`: nothing happens for a type
     * already asked; otherwise the type is recorded, even an unknown one,
     * and a known type's question becomes current and is shown.
     */
    method AskRefinementQuestion(t: string)
      requires Valid()
      modifies this
      ensures Valid()
      ensures t in old(questionsAsked) ==>
                questionsAsked == old(questionsAsked) && currentQuestion == old(currentQuestion)
                && transcript == old(transcript)
      ensures t !in old(questionsAsked) ==> questionsAsked == old(questionsAsked) + {t}
      ensures t !in old(questionsAsked) && IsRefinement(t) ==>
                currentQuestion == Some(t) && transcript == old(transcript) + [Asked(t)]
      ensures !IsRefinement(t) ==> currentQuestion == old(currentQuestion) && transcript == old(transcript)
    {
      if t in questionsAsked {
        return;
      }
      questionsAsked := questionsAsked + {t};
      if IsRefinement(t) {
        currentQuestion := Some(t);
        transcript := transcript + [Asked(t)];
      }
    }

    /** The opening of the sidebar: the greeting, then the timeline question. */
    method Start()
      requires Valid()
      modifies this
      ensures Valid()
      ensures questionsAsked == old(questionsAsked) + {"timeline"}
      ensures "timeline" !in old(questionsAsked) ==>
                currentQuestion == Some("timeline") && transcript == old(transcript) + [Said(Greeting), Asked("timeline")]
    {
      transcript := transcript + [Said(Greeting)];
      AskRefinementQuestion("timeline");
    }

    /** The follow-up after an answer: the next question not yet asked, or the closing message. */
    method FollowUp()
      requires Valid()
      modifies this
      ensures Valid()
      ensures match NextFollowUp(old(questionsAsked))
              case Some(n) =>
                questionsAsked == old(questionsAsked) + {n} && currentQuestion == Some(n)
                && transcript == old(transcript) + [Asked(n)]
              case None =>
                questionsAsked == old(questionsAsked) && currentQuestion == old(currentQuestion)
                && transcript == old(transcript) + [Said(Closing)]
    {
      var next := NextFollowUp(questionsAsked);
      if next.Some? {
        AskRefinementQuestion(next.value);
      } else {
        transcript := transcript + [Said(Closing)];
      }
    }

    /**
     * `handleSidebarInput(state, savedData)` on the typed input: a blank
     * answer is ignored; otherwise it is shown and, when a question is
     * current, acknowledged and followed up. The result is the URL
     * parameters the answer sets.
     */
    method HandleSidebarInput(input: string, saved: SavedData) returns (update: seq<(string, string)>)
      requires Valid()
      modifies this
      ensures Valid()
      ensures old(questionsAsked) <= questionsAsked
      ensures Trim(input) == [] ==>
                questionsAsked == old(questionsAsked) && currentQuestion == old(currentQuestion)
                && transcript == old(transcript) && update == []
      ensures Trim(input) != [] && old(currentQuestion).None? ==>
                questionsAsked == old(questionsAsked) && currentQuestion == old(currentQuestion)
                && transcript == old(transcript) + [Heard(Trim(input))] && update == []
      ensures Trim(input) != [] && old(currentQuestion).Some? ==>
                var a := ProcessSidebarAnswer(old(currentQuestion).value, Trim(input), saved);
                update == Update(a)
                && match NextFollowUp(old(questionsAsked))
                   case Some(n) =>
                     questionsAsked == old(questionsAsked) + {n} && currentQuestion == Some(n)
                     && transcript == old(transcript) + [Heard(Trim(input)), Said(a.acknowledgment), Asked(n)]
                   case None =>
                     questionsAsked == old(questionsAsked) && currentQuestion == old(currentQuestion)
                     && transcript == old(transcript) + [Heard(Trim(input)), Said(a.acknowledgment), Said(Closing)]
    {
      var text := Trim(input);
      update := [];
      if text == [] {
        return;
      }
      transcript := transcript + [Heard(text)];
      if currentQuestion.None? {
        return;
      }
      var a := ProcessSidebarAnswer(currentQuestion.value, text, saved);
      transcript := transcript + [Said(a.acknowledgment)];
      update := Update(a);
      FollowUp();
    }
  }

  /** Once every follow-up has been asked, further answers only bring the closing message. */
  lemma AllAskedCloses(asked: set<string>)
    requires forall t | IsRefinement(t) :: t in asked
    ensures NextFollowUp(asked).None?
  {
    assert forall j | 0 <= j < |FollowUps| :: IsRefinement(FollowUps[j]);
  }

  /** The follow-ups come in a fixed order: payment first, then the decision makers. */
  lemma PaymentFirst(asked: set<string>)
    ensures "payment" !in asked ==> NextFollowUp(asked) == Some("payment")
    ensures "payment" in asked && "decision_makers" !in asked ==> NextFollowUp(asked) == Some("decision_makers")
  {
  }
}
