/**
 * The lead record of the chat widget and the code that updates it in place:
 * the deep merge of a patch (`mergeData`), the write along a dotted path
 * (`setNestedField`), the fixed-weight quality score, the budget label, the
 * step table with its skip rules and the cursor that walks it
 * (`processNextStep`), the answer validations, and `saveAnswer`, which ties
 * them together.
 *
 * Nested objects of the record are values (`Json.Value`); the record itself,
 * the answers and the step cursor are the fields of a `Chat` object,
 * as they are the module-level state of the widget.  Writes the browser
 * silently drops (a property set on a string, number or boolean outside
 * strict mode) are dropped here too.
 */
module LeadCapture {

  import opened Json
  import opened Text
  import L = LeadLanguage

  // ============================================================ merging

  /** A string, number, boolean or nothing: the values `mergeData` copies as they are. */
  predicate Primitive(v: Value) {
    !v.Obj? && !v.Arr?
  }

  /** What `[...v]` accepts where `v` is the old field: nothing yet, an array, or a string. */
  predicate Spreadable(v: Value) {
    !Truthy(v) || v.Arr? || v.Str?
  }

  /** The elements `[...v]` yields: a string spreads into its characters. */
  function SpreadOf(v: Value): (r: seq<Value>)
    ensures v.Arr? ==> r == v.items
    ensures v.Str? ==> |r| == |v.s|
  {
    if v.Arr? then v.items
    else if v.Str? then seq(|v.s|, i requires 0 <= i < |v.s| => Str([v.s[i]]))
    else []
  }

  /**
   * Merging `s` into the field that holds `t` neither throws nor writes named
   * properties onto an array: an object goes into nothing, an object, or a
   * string, number or boolean (whose writes are lost, so only flat values may
   * go there); an array goes into something spreadable.
   */
  predicate Mergeable(t: Value, s: Value)
    decreases s
  {
    match s
    case Obj(f) =>
      if !Truthy(t) then MergeableMap(map[], f)
      else if t.Obj? then MergeableMap(t.fields, f)
      else !t.Arr? && forall k | k in f :: Primitive(f[k])
    case Arr(_) => Spreadable(t)
    case _ => true
  }

  predicate MergeableMap(t: map<string, Value>, s: map<string, Value>)
    decreases Obj(s), 0
  {
    forall k | k in s :: Mergeable(Get(t, k), s[k])
  }

  /** The new value of a field holding `t` once `s` is merged into it. */
  function MergeValue(t: Value, s: Value): Value
    decreases s
  {
    match s
    case Obj(f) =>
      if !Truthy(t) then Obj(MergeMap(map[], f))
      else if t.Obj? then Obj(MergeMap(t.fields, f))
      else t
    case Arr(items) => Arr(SpreadOf(t) + items)
    case _ => s
  }

  /** `mergeData(target, source)` on the value of `target`. */
  function MergeMap(t: map<string, Value>, s: map<string, Value>): map<string, Value>
    decreases Obj(s), 0
  {
    map k | k in t.Keys + s.Keys :: if k in s then MergeValue(Get(t, k), s[k]) else t[k]
  }

  /** The merge adds the source's keys and removes none. */
  lemma MergeKeys(t: map<string, Value>, s: map<string, Value>)
    ensures MergeMap(t, s).Keys == t.Keys + s.Keys
    ensures forall k | k in t && k !in s :: MergeMap(t, s)[k] == t[k]
  {
  }

  /** A flat source value, `null` and `false` included, overwrites the target field. */
  lemma MergeOverwrites(t: map<string, Value>, s: map<string, Value>, k: string)
    requires k in s && Primitive(s[k])
    ensures MergeMap(t, s)[k] == s[k]
  {
  }

  /** Arrays concatenate, duplicates kept: old elements first, then the source's. */
  lemma MergeConcatenates(t: map<string, Value>, s: map<string, Value>, k: string)
    requires k in s && s[k].Arr? && (Get(t, k).Arr? || !Truthy(Get(t, k)))
    ensures MergeMap(t, s)[k].Arr?
    ensures MergeMap(t, s)[k].items == (if Get(t, k).Arr? then Get(t, k).items else []) + s[k].items
    ensures |MergeMap(t, s)[k].items| == |SpreadOf(Get(t, k))| + |s[k].items|
  {
  }

  /** Nested objects merge key by key instead of replacing the old object. */
  lemma MergeNested(t: map<string, Value>, s: map<string, Value>, k: string)
    requires k in s && s[k].Obj? && Get(t, k).Obj?
    ensures MergeMap(t, s)[k] == Obj(MergeMap(Get(t, k).fields, s[k].fields))
    ensures forall j | j in Get(t, k).fields && j !in s[k].fields ::
              MergeMap(t, s)[k].fields[j] == Get(t, k).fields[j]
  {
  }

  /** An object merged onto a string, number or boolean is lost. */
  lemma MergeOntoPrimitive(t: map<string, Value>, s: map<string, Value>, k: string)
    requires k in s && s[k].Obj? && Truthy(Get(t, k)) && Primitive(Get(t, k))
    ensures MergeMap(t, s)[k] == t[k]
  {
  }

  /** The source's path down to `p`: objects all the way, ending on a flat value. */
  predicate SourceLeaf(s: map<string, Value>, p: seq<string>)
    decreases |p|
  {
    |p| > 0 && p[0] in s &&
    if |p| == 1 then Primitive(s[p[0]])
    else s[p[0]].Obj? && SourceLeaf(s[p[0]].fields, p[1..])
  }

  /** After the merge, every flat value of the source reads back at its path. */
  lemma {:induction false} MergeReadsSource(t: map<string, Value>, s: map<string, Value>, p: seq<string>)
    requires SourceLeaf(s, p) && PathOpen(t, p)
    ensures At(MergeMap(t, s), p) == At(s, p)
    decreases |p|
  {
    if |p| > 1 {
      var c := Get(t, p[0]);
      var inner := if c.Obj? then c.fields else map[];
      assert MergeMap(t, s)[p[0]] == Obj(MergeMap(inner, s[p[0]].fields));
      assert PathOpen(inner, p[1..]) by {
        if !c.Obj? { EmptyPathOpen(p[1..]); }
      }
      MergeReadsSource(inner, s[p[0]].fields, p[1..]);
    }
  }

  /** Merging an empty patch changes nothing. */
  lemma MergeEmpty(t: map<string, Value>)
    ensures MergeMap(t, map[]) == t
  {
  }

  // ======================================================== dotted paths

  /** `setNestedField` creates missing objects on the way and never throws: no array on the way, and a string, number or boolean only as the last container. */
  predicate PathOk(o: map<string, Value>, keys: seq<string>)
    requires |keys| > 0
    decreases |keys|
  {
    |keys| == 1 ||
    var c := Get(o, keys[0]);
    if !Truthy(c) then true
    else if c.Obj? then PathOk(c.fields, keys[1..])
    else !c.Arr? && |keys| == 2
  }

  /** `setNestedField(o, keys.join('.'), x)` on the value of `o`. */
  function SetPathMap(o: map<string, Value>, keys: seq<string>, x: Value): (r: map<string, Value>)
    requires |keys| > 0
    decreases |keys|
  {
    if |keys| == 1 then o[keys[0] := x]
    else
      var c := Get(o, keys[0]);
      if !Truthy(c) then o[keys[0] := Obj(SetPathMap(map[], keys[1..], x))]
      else if c.Obj? then o[keys[0] := Obj(SetPathMap(c.fields, keys[1..], x))]
      else o
  }

  /** Every container on the path is missing, falsy or an object. */
  predicate PathOpen(o: map<string, Value>, keys: seq<string>)
    requires |keys| > 0
    decreases |keys|
  {
    |keys| == 1 || !Truthy(Get(o, keys[0])) || (Get(o, keys[0]).Obj? && PathOpen(Get(o, keys[0]).fields, keys[1..]))
  }

  lemma {:induction false} EmptyPathOpen(keys: seq<string>)
    requires |keys| > 0
    ensures PathOpen(map[], keys)
  {
  }

  /**
   * After the write the value reads back at the path, and every proper prefix
   * of the path now holds an object (created where it was missing).
   */
  lemma {:induction false} SetPathReadBack(o: map<string, Value>, keys: seq<string>, x: Value)
    requires |keys| > 0 && PathOpen(o, keys)
    ensures At(SetPathMap(o, keys, x), keys) == x
    ensures forall i | 1 <= i < |keys| :: At(SetPathMap(o, keys, x), keys[..i]).Obj?
    decreases |keys|
  {
    if |keys| > 1 {
      var c := Get(o, keys[0]);
      var inner := if c.Obj? then c.fields else map[];
      var r := SetPathMap(o, keys, x);
      var rest := keys[1..];
      assert r[keys[0]] == Obj(SetPathMap(inner, rest, x));
      assert PathOpen(inner, rest) by {
        if !c.Obj? { EmptyPathOpen(rest); }
      }
      SetPathReadBack(inner, rest, x);
      forall i | 1 <= i < |keys| ensures At(r, keys[..i]).Obj? {
        if i > 1 {
          assert keys[..i][1..] == rest[..i - 1];
          assert At(r, keys[..i]) == At(SetPathMap(inner, rest, x), rest[..i - 1]);
        }
      }
    }
  }

  /** The object `setNestedField` writes into once it has walked `p`: `{}` when nothing object-like is there. */
  function Container(o: map<string, Value>, p: seq<string>): map<string, Value> {
    if |p| == 0 then o
    else if At(o, p).Obj? then At(o, p).fields
    else map[]
  }

  lemma {:induction false} ContainerOfEmpty(p: seq<string>)
    ensures Container(map[], p) == map[]
  {
  }

  /** Walking one key, then the rest. */
  lemma {:induction false} ContainerStep(o: map<string, Value>, p: seq<string>)
    requires |p| > 0
    ensures var c := Get(o, p[0]);
      Container(o, p) == Container(if c.Obj? then c.fields else map[], p[1..])
  {
    var c := Get(o, p[0]);
    if |p| > 1 && !c.Obj? {
      ContainerOfEmpty(p[1..]);
    }
  }

  /**
   * `setNestedField` touches one key per level: in the object reached after
   * `keys[..i]`, every key other than `keys[i]` keeps its value, and no key
   * but `keys[i]` is added.  At `i == 0` this is the record itself.
   */
  lemma {:induction false} SetPathKeepsSiblings(o: map<string, Value>, keys: seq<string>, x: Value, i: nat)
    requires i < |keys|
    ensures var before := Container(o, keys[..i]);
      var after := Container(SetPathMap(o, keys, x), keys[..i]);
      (forall k | k in before && k != keys[i] :: k in after && after[k] == before[k])
      && after.Keys <= before.Keys + {keys[i]}
    decreases |keys|
  {
    if i > 0 {
      var c := Get(o, keys[0]);
      var r := SetPathMap(o, keys, x);
      if !Truthy(c) || c.Obj? {
        var inner := if c.Obj? then c.fields else map[];
        var rest := keys[1..];
        assert keys[..i][1..] == rest[..i - 1];
        ContainerStep(o, keys[..i]);
        ContainerStep(r, keys[..i]);
        assert Get(r, keys[0]) == Obj(SetPathMap(inner, rest, x));
        if !c.Obj? {
          ContainerOfEmpty(rest[..i - 1]);
        }
        SetPathKeepsSiblings(inner, rest, x, i - 1);
      }
    }
  }

  /** A write below a string, number or boolean is lost. */
  lemma SetPathBelowPrimitive(o: map<string, Value>, keys: seq<string>, x: Value)
    requires |keys| > 1 && Truthy(Get(o, keys[0])) && Primitive(Get(o, keys[0]))
    ensures SetPathMap(o, keys, x) == o
  {
  }

  /** A field name without a dot is a path of one key. */
  lemma {:induction false} SplitPlain(a: string)
    requires '.' !in a
    ensures Split(a, '.') == [a]
    decreases |a|
  {
    if a != [] {
      assert '.' !in a[1..] by {
        forall k | 0 <= k < |a[1..]| ensures a[1..][k] != '.' { assert a[1..][k] == a[k + 1]; }
      }
      SplitPlain(a[1..]);
      assert [a[0]] + a[1..] == a;
    }
  }

  /** A leading part without a dot splits off on its own. */
  lemma {:induction false} SplitAfterPlain(a: string, rest: string)
    requires '.' !in a
    ensures Split(a + "." + rest, '.') == [a] + Split(rest, '.')
    decreases |a|
  {
    if a == [] {
      assert a + "." + rest == ['.'] + rest;
      assert (['.'] + rest)[1..] == rest;
    } else {
      assert (a + "." + rest)[1..] == a[1..] + "." + rest;
      assert '.' !in a[1..] by {
        forall k | 0 <= k < |a[1..]| ensures a[1..][k] != '.' { assert a[1..][k] == a[k + 1]; }
      }
      SplitAfterPlain(a[1..], rest);
      assert [a[0]] + a[1..] == a;
    }
  }

  /** Joining dot-free keys with dots and splitting at the dots gives the keys back. */
  lemma {:induction false} SplitJoin(keys: seq<string>)
    requires |keys| > 0 && forall i | 0 <= i < |keys| :: '.' !in keys[i]
    ensures Split(Join(keys, "."), '.') == keys
    decreases |keys|
  {
    if |keys| == 1 {
      SplitPlain(keys[0]);
    } else {
      SplitJoin(keys[1..]);
      SplitAfterPlain(keys[0], Join(keys[1..], "."));
      assert keys == [keys[0]] + keys[1..];
    }
  }

  // ======================================================== quality score

  /** The points of each signal, in the order the score adds them up. */
  const Weights: seq<nat> := [5, 10, 5, 20, 10, 15, 10, 10, 5, 10]

  /**
   * The ten signals of the score: name, phone, e-mail, a minimum or maximum
   * budget, an exact budget, a purchase method, a down payment, a time frame,
   * high urgency, a primary motivation.
   */
  function Signals(lead: map<string, Value>): (r: seq<bool>)
    ensures |r| == 10
  {
    seq(10, i requires 0 <= i < 10 => Signal(lead, i))
  }

  /** Signal `i` of the list above. */
  function Signal(lead: map<string, Value>, i: nat): bool
    requires i < 10
  {
    match i
    case 0 => Truthy(Get(lead, "name"))
    case 1 => Truthy(Get(lead, "phone"))
    case 2 => Truthy(Get(lead, "email"))
    case 3 => Truthy(Get2(lead, "budget", "min")) || Truthy(Get2(lead, "budget", "max"))
    case 4 => Truthy(Get2(lead, "budget", "exact"))
    case 5 => Truthy(Get2(lead, "purchaseCondition", "method"))
    case 6 => Truthy(Get2(lead, "purchaseCondition", "downPayment"))
    case 7 => Truthy(Get2(lead, "timeline", "when"))
    case 8 => Get2(lead, "timeline", "urgency") == Str("high")
    case _ => Truthy(Get2(lead, "motivation", "primary"))
  }

  /** The weights of the signals from position `i` on that hold. */
  function Points(sig: seq<bool>, w: seq<nat>, i: nat): nat
    requires |sig| == |w| && i <= |w|
    decreases |w| - i
  {
    if i == |w| then 0 else (if sig[i] then w[i] else 0) + Points(sig, w, i + 1)
  }

  /** The weights from position `i` on. */
  function Sum(w: seq<nat>, i: nat): nat
    requires i <= |w|
    decreases |w| - i
  {
    if i == |w| then 0 else w[i] + Sum(w, i + 1)
  }

  function Min(a: nat, b: nat): (r: nat) ensures r <= a && r <= b { if a <= b then a else b }

  /** The points of one check: `if (check) score += points`. */
  function Award(check: bool, points: nat): nat { if check then points else 0 }

  /** `qualityScore` as `updateQualityScore` computes it: ten checks in the order of the code, capped at 100. */
  function QualityScore(lead: map<string, Value>): (r: nat)
    ensures r <= 100
  {
    Min(Award(Truthy(Get(lead, "name")), 5)
        + Award(Truthy(Get(lead, "phone")), 10)
        + Award(Truthy(Get(lead, "email")), 5)
        + Award(Truthy(Get2(lead, "budget", "min")) || Truthy(Get2(lead, "budget", "max")), 20)
        + Award(Truthy(Get2(lead, "budget", "exact")), 10)
        + Award(Truthy(Get2(lead, "purchaseCondition", "method")), 15)
        + Award(Truthy(Get2(lead, "purchaseCondition", "downPayment")), 10)
        + Award(Truthy(Get2(lead, "timeline", "when")), 10)
        + Award(Get2(lead, "timeline", "urgency") == Str("high"), 5)
        + Award(Truthy(Get2(lead, "motivation", "primary")), 10), 100)
  }

  /** The checks of the code are the signals weighed with `Weights`. */
  lemma ScoreIsPoints(lead: map<string, Value>)
    ensures QualityScore(lead) == Min(Points(Signals(lead), Weights, 0), 100)
  {
    PointsOfWeights(Signals(lead));
    FirstFiveSignals(lead);
    LastFiveSignals(lead);
  }

  /** The first five checks of the code are the first five signals weighed. */
  lemma FirstFiveSignals(lead: map<string, Value>)
    ensures var sig := Signals(lead);
      Award(sig[0], 5) + Award(sig[1], 10) + Award(sig[2], 5) + Award(sig[3], 20) + Award(sig[4], 10)
      == Award(Truthy(Get(lead, "name")), 5) + Award(Truthy(Get(lead, "phone")), 10) + Award(Truthy(Get(lead, "email")), 5)
      + Award(Truthy(Get2(lead, "budget", "min")) || Truthy(Get2(lead, "budget", "max")), 20)
      + Award(Truthy(Get2(lead, "budget", "exact")), 10)
  {
  }

  /** The last five checks of the code are the last five signals weighed. */
  lemma LastFiveSignals(lead: map<string, Value>)
    ensures var sig := Signals(lead);
      Award(sig[5], 15) + Award(sig[6], 10) + Award(sig[7], 10) + Award(sig[8], 5) + Award(sig[9], 10)
      == Award(Truthy(Get2(lead, "purchaseCondition", "method")), 15)
      + Award(Truthy(Get2(lead, "purchaseCondition", "downPayment")), 10) + Award(Truthy(Get2(lead, "timeline", "when")), 10)
      + Award(Get2(lead, "timeline", "urgency") == Str("high"), 5) + Award(Truthy(Get2(lead, "motivation", "primary")), 10)
  {
  }

  /** The weighted sum with the weights of `Weights`, written out. */
  lemma PointsOfWeights(sig: seq<bool>)
    requires |sig| == 10
    ensures Points(sig, Weights, 0) ==
      Award(sig[0], 5) + Award(sig[1], 10) + Award(sig[2], 5) + Award(sig[3], 20) + Award(sig[4], 10)
      + Award(sig[5], 15) + Award(sig[6], 10) + Award(sig[7], 10) + Award(sig[8], 5) + Award(sig[9], 10)
  {
    PointsUnrolled(sig, Weights);
    WeightsAre();
  }

  lemma WeightsAre()
    ensures Weights[0] == 5 && Weights[1] == 10 && Weights[2] == 5 && Weights[3] == 20 && Weights[4] == 10
    ensures Weights[5] == 15 && Weights[6] == 10 && Weights[7] == 10 && Weights[8] == 5 && Weights[9] == 10
  {
  }

  lemma {:induction false} PointsAtMostSum(sig: seq<bool>, w: seq<nat>, i: nat)
    requires |sig| == |w| && i <= |w|
    ensures Points(sig, w, i) <= Sum(w, i)
    ensures Points(sig, w, i) == Sum(w, i) <==> forall k | i <= k < |w| :: sig[k] || w[k] == 0
    ensures Points(sig, w, i) == 0 <==> forall k | i <= k < |w| :: !sig[k] || w[k] == 0
    decreases |w| - i
  {
    if i < |w| {
      PointsAtMostSum(sig, w, i + 1);
    }
  }

  lemma {:induction false} PointsMonotone(a: seq<bool>, b: seq<bool>, w: seq<nat>, i: nat)
    requires |a| == |b| == |w| && i <= |w|
    requires forall k | i <= k < |w| :: a[k] ==> b[k]
    ensures Points(a, w, i) <= Points(b, w, i)
    decreases |w| - i
  {
    if i < |w| {
      PointsMonotone(a, b, w, i + 1);
    }
  }

  lemma WeightsFacts()
    ensures Sum(Weights, 0) == 100
    ensures forall k | 0 <= k < |Weights| :: Weights[k] > 0
  {
    assert Sum(Weights, 10) == 0;
    assert Sum(Weights, 9) == 10;
    assert Sum(Weights, 8) == 15;
    assert Sum(Weights, 7) == 25;
    assert Sum(Weights, 6) == 35;
    assert Sum(Weights, 5) == 50;
    assert Sum(Weights, 4) == 60;
    assert Sum(Weights, 3) == 80;
    assert Sum(Weights, 2) == 85;
    assert Sum(Weights, 1) == 95;
  }

  /** With ten signals: at most 100 points, 100 exactly when all hold, 0 exactly when none does. */
  lemma SignalPoints(sig: seq<bool>)
    requires |sig| == |Weights|
    ensures Points(sig, Weights, 0) <= 100
    ensures Points(sig, Weights, 0) == 100 <==> forall k | 0 <= k < |Weights| :: sig[k]
    ensures Points(sig, Weights, 0) == 0 <==> forall k | 0 <= k < |Weights| :: !sig[k]
  {
    WeightsFacts();
    PointsAtMostSum(sig, Weights, 0);
  }

  /** The weights add up to exactly 100, so the cap at 100 never takes effect. */
  lemma ScoreUncapped(lead: map<string, Value>)
    ensures QualityScore(lead) == Points(Signals(lead), Weights, 0)
  {
    ScoreIsPoints(lead);
    SignalPoints(Signals(lead));
  }

  /** The score is 100 exactly when all ten signals hold, and 0 exactly when none does. */
  lemma ScoreExtremes(lead: map<string, Value>)
    ensures QualityScore(lead) == 100 <==> forall k | 0 <= k < |Weights| :: Signals(lead)[k]
    ensures QualityScore(lead) == 0 <==> forall k | 0 <= k < |Weights| :: !Signals(lead)[k]
  {
    ScoreIsPoints(lead);
    SignalPoints(Signals(lead));
  }

  /** A signal that becomes true, with none turning false, never lowers the score. */
  lemma ScoreMonotone(a: map<string, Value>, b: map<string, Value>)
    requires forall k | 0 <= k < |Weights| :: Signals(a)[k] ==> Signals(b)[k]
    ensures QualityScore(a) <= QualityScore(b)
  {
    ScoreIsPoints(a);
    ScoreIsPoints(b);
    PointsMonotone(Signals(a), Signals(b), Weights, 0);
  }

  // ========================================================= budget label

  /** How the summary shows the budget: the exact amount as currency, or a text. */
  datatype BudgetLabel = Currency(amount: int) | Label(text: string)

  /** `(n / 1000).toFixed(0)` for an integer `n`: halves round away from zero, and a negative sign stays. */
  function Kilo(n: int): string {
    if n >= 0 then ShowNat((n + 500) / 1000) else "-" + ShowNat((-n + 500) / 1000)
  }

  /** The three amounts `formatBudget` divides are numbers wherever they are set. */
  predicate BudgetNumbers(lead: map<string, Value>) {
    Get(lead, "budget") != Null
    && (Truthy(Get2(lead, "budget", "exact")) ==> Get2(lead, "budget", "exact").Num?)
    && (Truthy(Get2(lead, "budget", "min")) ==> Get2(lead, "budget", "min").Num?)
    && (Truthy(Get2(lead, "budget", "max")) ==> Get2(lead, "budget", "max").Num?)
  }

  /** `formatBudget()`: exact amount, then range, then maximum, then minimum. */
  function FormatBudget(lead: map<string, Value>): (r: BudgetLabel)
    requires BudgetNumbers(lead)
    ensures r.Currency? <==> Truthy(Get2(lead, "budget", "exact"))
  {
    var min := Get2(lead, "budget", "min");
    var max := Get2(lead, "budget", "max");
    if Truthy(Get2(lead, "budget", "exact")) then Currency(Get2(lead, "budget", "exact").n)
    else if Truthy(min) && Truthy(max) then Label("R$ " + Kilo(min.n) + "k - R$ " + Kilo(max.n) + "k")
    else if Truthy(max) then Label("Até R$ " + Kilo(max.n) + "k")
    else if Truthy(min) then Label("A partir de R$ " + Kilo(min.n) + "k")
    else Label("Não informado")
  }

  /** "Não informado" is shown exactly when the score has no budget points. */
  lemma BudgetNotInformed(lead: map<string, Value>)
    requires BudgetNumbers(lead)
    ensures FormatBudget(lead) == Label("Não informado") <==> !Signals(lead)[3] && !Signals(lead)[4]
  {
    var min := Get2(lead, "budget", "min");
    var max := Get2(lead, "budget", "max");
    if !Truthy(Get2(lead, "budget", "exact")) && Truthy(min) && Truthy(max) {
      assert ("R$ " + Kilo(min.n) + "k - R$ " + Kilo(max.n) + "k")[0] == 'R';
    } else if !Truthy(Get2(lead, "budget", "exact")) && Truthy(max) {
      assert ("Até R$ " + Kilo(max.n) + "k")[0] == 'A';
    } else if !Truthy(Get2(lead, "budget", "exact")) && Truthy(min) {
      assert ("A partir de R$ " + Kilo(min.n) + "k")[0] == 'A';
    }
  }

  /** A whole number of thousands shows as that number followed by "k". */
  lemma KiloOfThousands(n: nat)
    ensures Kilo(n * 1000) == ShowNat(n)
  {
    assert (n * 1000 + 500) / 1000 == n;
  }

  /** "até N mil" read into an empty budget is shown as "Até R$ Nk". */
  lemma MaxBudgetShown(n: nat, lead: map<string, Value>)
    requires n > 0
    requires lead == map["budget" := L.MaxBudget(n * 1000)]
    ensures FormatBudget(lead) == Label("Até R$ " + ShowNat(n) + "k")
  {
    KiloOfThousands(n);
  }

  // ====================================================== the step table

  datatype Kind = Greeting | Question | Final

  /** The check a step's answer must pass before it is saved. */
  datatype Check = NoCheck | NameCheck | PhoneCheck | EmailCheck

  /** The `skipIf` of a step, one case per distinct rule of the table. */
  datatype SkipRule =
    | NoSkip | NothingToConfirm | WhyAndWhenKnown | LivingKnown | TypeKnown | BedroomsKnown
    | LocationKnown | BudgetKnown | MethodKnown | WhenKnown | DecidersKnown | TooLittleForContact
    | PhoneKnown | EmailKnown | NotReadyToClose | NoExtraInfo

  /** The `id` of each step of the table. */
  datatype StepId =
    | Opening | Opening2 | Opening3 | FreeDescription | Confirmation
    | ContextualWhy | CurrentLiving | PropertyTypeNatural | SpaceNeeds | LocationFeel
    | FinancialSoft | PaymentMethodNatural | TimelineNatural | DecisionMakers | ContactNatural
    | PhoneNatural | EmailOptional | ClosingCheck | Closing | Closing2
    | Closing3 | FinalClose

  /** `field` is the step's dotted field name split at its dots, `[]` on steps that ask nothing. */
  datatype Step = Step(id: StepId, kind: Kind, field: seq<string>, optional: bool, check: Check, skip: SkipRule)

  /** The number of steps of `leadCaptureFlow`. */
  const FlowLength := 22

  /** `leadCaptureFlow`, in order. */
  const Flow: seq<Step> := seq(FlowLength, StepAt)

  function StepAt(i: int): Step {
    match i
    case 0 => Step(Opening, Greeting, [], false, NoCheck, NoSkip)
    case 1 => Step(Opening2, Greeting, [], false, NoCheck, NoSkip)
    case 2 => Step(Opening3, Question, ["name"], false, NameCheck, NoSkip)
    case 3 => Step(FreeDescription, Question, ["motivation", "story"], true, NoCheck, NoSkip)
    case 4 => Step(Confirmation, Greeting, [], false, NoCheck, NothingToConfirm)
    case 5 => Step(ContextualWhy, Question, ["motivation", "context"], true, NoCheck, WhyAndWhenKnown)
    case 6 => Step(CurrentLiving, Question, ["currentSituation", "living"], true, NoCheck, LivingKnown)
    case 7 => Step(PropertyTypeNatural, Question, ["propertyType"], true, NoCheck, TypeKnown)
    case 8 => Step(SpaceNeeds, Question, ["bedrooms"], true, NoCheck, BedroomsKnown)
    case 9 => Step(LocationFeel, Question, ["location"], true, NoCheck, LocationKnown)
    case 10 => Step(FinancialSoft, Question, ["budget", "range"], true, NoCheck, BudgetKnown)
    case 11 => Step(PaymentMethodNatural, Question, ["purchaseCondition", "method"], true, NoCheck, MethodKnown)
    case 12 => Step(TimelineNatural, Question, ["timeline", "when"], true, NoCheck, WhenKnown)
    case 13 => Step(DecisionMakers, Question, ["decisionMakers"], true, NoCheck, DecidersKnown)
    case 14 => Step(ContactNatural, Question, ["contact_consent"], false, NoCheck, TooLittleForContact)
    case 15 => Step(PhoneNatural, Question, ["phone"], false, PhoneCheck, PhoneKnown)
    case 16 => Step(EmailOptional, Question, ["email"], true, EmailCheck, EmailKnown)
    case 17 => Step(ClosingCheck, Greeting, [], false, NoCheck, NotReadyToClose)
    case 18 => Step(Closing, Final, [], false, NoCheck, NoSkip)
    case 19 => Step(Closing2, Final, [], false, NoCheck, NoSkip)
    case 20 => Step(Closing3, Question, ["additional_info"], true, NoCheck, NoSkip)
    case _ => Step(FinalClose, Final, [], false, NoCheck, NoExtraInfo)
  }

  /** `skipIf()` against the current lead; `NoSkip` stands for a step without one. */
  predicate Skip(rule: SkipRule, lead: map<string, Value>) {
    match rule
    case NoSkip => false
    case NothingToConfirm =>
      !Truthy(Get2(lead, "motivation", "story")) && !Truthy(Get(lead, "propertyType")) && !Truthy(Get2(lead, "budget", "max"))
    case WhyAndWhenKnown => Truthy(Get2(lead, "motivation", "primary")) && Truthy(Get2(lead, "timeline", "when"))
    case LivingKnown => Truthy(Get2(lead, "currentSituation", "living"))
    case TypeKnown => Truthy(Get(lead, "propertyType"))
    case BedroomsKnown => Truthy(Get(lead, "bedrooms"))
    case LocationKnown => Truthy(Get(lead, "location"))
    case BudgetKnown => Truthy(Get2(lead, "budget", "min")) || Truthy(Get2(lead, "budget", "max")) || Truthy(Get2(lead, "budget", "exact"))
    case MethodKnown => Truthy(Get2(lead, "purchaseCondition", "method"))
    case WhenKnown => Truthy(Get2(lead, "timeline", "when"))
    case DecidersKnown =>
      Truthy(Get2(lead, "decisionMakers", "alone")) || Truthy(Get2(lead, "decisionMakers", "partner")) || Truthy(Get2(lead, "decisionMakers", "family"))
    case TooLittleForContact =>
      !Truthy(Get(lead, "propertyType")) && !Truthy(Get2(lead, "budget", "max")) && !Truthy(Get2(lead, "motivation", "primary"))
    case PhoneKnown => Truthy(Get(lead, "phone"))
    case EmailKnown => Truthy(Get(lead, "email"))
    case NotReadyToClose =>
      !(Truthy(Get(lead, "name")) && Truthy(Get(lead, "phone"))
        && (Truthy(Get2(lead, "budget", "max")) || Truthy(Get2(lead, "budget", "min")) || Truthy(Get(lead, "propertyType"))))
    case NoExtraInfo => !Truthy(Get(lead, "additional_info"))
  }

  /** `leadCaptureFlow.findIndex(s => s.id === id)` from position `n` on. */
  function FindIndex(flow: seq<Step>, id: StepId, n: nat): (r: int)
    decreases |flow| - n
    ensures r == -1 || (n <= r < |flow| && flow[r].id == id)
    ensures r >= 0 ==> forall j | n <= j < r :: flow[j].id != id
    ensures r == -1 ==> forall j | n <= j < |flow| :: flow[j].id != id
  {
    if n >= |flow| then -1
    else if flow[n].id == id then n
    else FindIndex(flow, id, n + 1)
  }

  /** Where the cursor goes back to for a missing phone. */
  lemma PhoneStepIndex()
    ensures FindIndex(Flow, PhoneNatural, 0) == 15
  {
    PhoneStepIndexFrom8();
    assert FindIndex(Flow, PhoneNatural, 7) == 15;
    assert FindIndex(Flow, PhoneNatural, 6) == 15;
    assert FindIndex(Flow, PhoneNatural, 5) == 15;
    assert FindIndex(Flow, PhoneNatural, 4) == 15;
    assert FindIndex(Flow, PhoneNatural, 3) == 15;
    assert FindIndex(Flow, PhoneNatural, 2) == 15;
    assert FindIndex(Flow, PhoneNatural, 1) == 15;
  }

  lemma PhoneStepIndexFrom8()
    ensures FindIndex(Flow, PhoneNatural, 8) == 15
  {
    PhoneStepIndexFrom12();
    assert FindIndex(Flow, PhoneNatural, 11) == 15;
    assert FindIndex(Flow, PhoneNatural, 10) == 15;
    assert FindIndex(Flow, PhoneNatural, 9) == 15;
  }

  lemma PhoneStepIndexFrom12()
    ensures FindIndex(Flow, PhoneNatural, 12) == 15
  {
    assert FindIndex(Flow, PhoneNatural, 15) == 15;
    assert FindIndex(Flow, PhoneNatural, 14) == 15;
    assert FindIndex(Flow, PhoneNatural, 13) == 15;
  }

  /** What one call of `processNextStep` does. */
  datatype Outcome =
    | Disabled        // the conversation engine is in charge
    | Finish          // `finishChat()`
    | Ask(index: nat) // the step shown next

  /**
   * The outcome and the new cursor when `processNextStep` starts at `cur` on
   * the step table `flow`: skipped steps are passed over; at the last step the
   * chat finishes, unless the phone is missing, in which case the cursor goes
   * back to the phone step.
   */
  function Advance(flow: seq<Step>, lead: map<string, Value>, cur: int): (r: (Outcome, int))
    requires -1 <= cur < |flow|
    decreases |flow| - cur
    ensures -1 <= r.1 < |flow|
    ensures r.0.Ask? ==> r.0.index == r.1
  {
    if cur >= |flow| - 1 then
      if Truthy(Get(lead, "name")) && Truthy(Get(lead, "phone")) then (Finish, cur)
      else if !Truthy(Get(lead, "phone")) then
        var p := FindIndex(flow, PhoneNatural, 0);
        if p >= 0 then (Ask(p), p) else (Finish, p)
      else (Finish, cur)
    else if Skip(flow[cur + 1].skip, lead) then Advance(flow, lead, cur + 1)
    else (Ask(cur + 1), cur + 1)
  }

  /**
   * The step asked is never one whose skip rule holds, except the phone step
   * the cursor falls back to; every step passed over on the way forward had
   * its skip rule hold.
   */
  lemma {:induction false} AdvanceAsksUnskipped(flow: seq<Step>, lead: map<string, Value>, cur: int)
    requires -1 <= cur < |flow|
    ensures var r := Advance(flow, lead, cur);
            r.0.Ask? ==> !Skip(flow[r.0.index].skip, lead) || r.0.index == FindIndex(flow, PhoneNatural, 0)
    ensures var r := Advance(flow, lead, cur);
            r.0.Ask? && r.0.index > cur ==> forall j | cur < j < r.0.index :: Skip(flow[j].skip, lead)
    decreases |flow| - cur
  {
    if cur < |flow| - 1 && Skip(flow[cur + 1].skip, lead) {
      AdvanceAsksUnskipped(flow, lead, cur + 1);
    }
  }

  /**
   * The cursor moves forward, stays on the last step, or jumps back to the
   * phone step, which happens only without a phone.
   */
  lemma {:induction false} AdvanceForward(flow: seq<Step>, lead: map<string, Value>, cur: int)
    requires -1 <= cur < |flow|
    ensures var r := Advance(flow, lead, cur);
            r.1 > cur || (r.1 == cur == |flow| - 1)
            || (r.1 == FindIndex(flow, PhoneNatural, 0) && !Truthy(Get(lead, "phone")))
    decreases |flow| - cur
  {
    if cur < |flow| - 1 && Skip(flow[cur + 1].skip, lead) {
      AdvanceForward(flow, lead, cur + 1);
    }
  }

  /**
   * With a phone step in the table, the chat finishes exactly when a phone is
   * known and every step after the cursor is skipped; so it never finishes
   * without a phone.
   */
  lemma {:induction false} AdvanceFinishes(flow: seq<Step>, lead: map<string, Value>, cur: int)
    requires -1 <= cur < |flow| && FindIndex(flow, PhoneNatural, 0) >= 0
    ensures Advance(flow, lead, cur).0 == Finish <==>
            Truthy(Get(lead, "phone")) && forall j | cur < j < |flow| :: Skip(flow[j].skip, lead)
    decreases |flow| - cur
  {
    if cur < |flow| - 1 {
      if Skip(flow[cur + 1].skip, lead) {
        AdvanceFinishes(flow, lead, cur + 1);
      } else {
        assert Advance(flow, lead, cur).0 == Ask(cur + 1);
      }
    }
  }

  /** Before the phone step and with no phone known, the loop asks something, the phone step at the latest. */
  lemma {:induction false} AdvanceReachesPhone(flow: seq<Step>, lead: map<string, Value>, cur: int)
    requires 0 <= FindIndex(flow, PhoneNatural, 0) && -1 <= cur < FindIndex(flow, PhoneNatural, 0)
    requires flow[FindIndex(flow, PhoneNatural, 0)].skip == PhoneKnown && !Truthy(Get(lead, "phone"))
    ensures Advance(flow, lead, cur).0.Ask? && Advance(flow, lead, cur).1 <= FindIndex(flow, PhoneNatural, 0)
    decreases |flow| - cur
  {
    if Skip(flow[cur + 1].skip, lead) {
      AdvanceReachesPhone(flow, lead, cur + 1);
    }
  }

  /** On the widget's table: the phone step is step 15 and is skipped exactly when a phone is known. */
  lemma FlowPhoneStep()
    ensures FindIndex(Flow, PhoneNatural, 0) == 15 && Flow[15].skip == PhoneKnown
  {
    PhoneStepIndex();
  }

  // ========================================================= validations

  /** `val.length >= 2` */
  predicate ValidName(v: string) {
    Utf16Length(v) >= 2
  }

  /** `/^[\d\s\(\)\-\+]+$/.test(val) && val.replace(/\D/g, '').length >= 10` */
  predicate ValidPhone(v: string) {
    |v| > 0
    && (forall k | 0 <= k < |v| :: IsDigit(v[k]) || IsSpace(v[k]) || v[k] in "()-+")
    && |DigitsOf(v)| >= 10
  }

  /** `!val || /^[^\s@]+@[^\s@]+\.[^\s@]+$/.test(val)` */
  predicate ValidEmail(v: string) {
    v == [] ||
    ((forall k | 0 <= k < |v| :: !IsSpace(v[k])) &&
     exists a, d | 0 < a && a + 1 < d < |v| - 1 ::
       v[a] == '@' && v[d] == '.' && forall k | 0 <= k < |v| && k != a :: v[k] != '@')
  }

  /** `!step.validation || step.validation(val)` */
  predicate Accepts(step: Step, v: string) {
    match step.check
    case NoCheck => true
    case NameCheck => ValidName(v)
    case PhoneCheck => ValidPhone(v)
    case EmailCheck => ValidEmail(v)
  }

  /** A phone the reader takes without a messenger mention passes the phone step's check. */
  lemma ExtractedPhoneAccepted(text: string, field: string, lead: map<string, Value>)
    requires L.PhonePatch(text, Lower(text), field, lead).Some?
    requires !ContainsAny(Lower(text), L.MessengerWords)
    ensures ValidPhone(L.PhonePatch(text, Lower(text), field, lead).value.s)
  {
    var p := L.PhoneDigits(text).value;
    DigitsOfAllDigits(p);
  }

  lemma ValidEmailIntro(v: string, a: nat, d: nat)
    requires 0 < a && a + 1 < d < |v| - 1 && v[a] == '@' && v[d] == '.'
    requires forall k | 0 <= k < |v| :: !IsSpace(v[k]) && (k != a ==> v[k] != '@')
    ensures ValidEmail(v)
  {
  }

  /** An address the reader takes passes the e-mail step's check. */
  lemma ExtractedEmailAccepted(text: string)
    requires L.FirstEmail(text).Some?
    ensures ValidEmail(L.FirstEmail(text).value)
  {
    var i :| 0 <= i <= |text| && L.EmailAt(text, i).Some? && L.FirstEmail(text).value == text[i..L.EmailAt(text, i).value];
    var e := L.EmailAt(text, i).value;
    EmailSpanValid(text, i, e);
  }

  lemma EmailSpanValid(text: string, i: nat, e: nat)
    requires L.EmailAt(text, i) == Some(e)
    ensures ValidEmail(text[i..e])
  {
    var j, k := EmailSpanParts(text, i, e);
    PlainSpan(text, i, e, j);
    ValidEmailIntro(text[i..e], j - i, k - i);
  }

  /** A match is made of pattern characters around one `@`, with a `.` after it. */
  lemma EmailSpanParts(text: string, i: nat, e: nat) returns (j: nat, k: nat)
    requires L.EmailAt(text, i) == Some(e)
    ensures i < j && j + 1 < k && k + 2 < e <= |text| && text[j] == '@' && text[k] == '.'
    ensures forall m | i <= m < e && m != j :: L.IsLocalChar(text[m])
  {
    j, k := L.EmailShape(text, i);
  }

  /** A span of pattern characters but one holds no blank and no other `@`. */
  lemma PlainSpan(text: string, i: nat, e: nat, j: nat)
    requires i <= j < e <= |text| && text[j] == '@'
    requires forall m | i <= m < e && m != j :: L.IsLocalChar(text[m])
    ensures forall m | 0 <= m < e - i :: !IsSpace(text[i..e][m]) && (m != j - i ==> text[i..e][m] != '@')
  {
    forall m | 0 <= m < e - i
      ensures !IsSpace(text[i..e][m]) && (m != j - i ==> text[i..e][m] != '@')
    {
      if i + m != j {
        LocalCharPlain(text[i + m]);
      } else {
        assert text[i..e][m] == '@';
      }
    }
  }

  /** A character the pattern allows before the `@` is neither blank nor `@`. */
  lemma LocalCharPlain(c: char)
    requires L.IsLocalChar(c)
    ensures !IsSpace(c) && c != '@'
  {
  }

  // ============================================== patches keep the record shaped

  /** Where the patch holds `k`, it holds an object of flat values. */
  predicate FlatGroup(p: map<string, Value>, k: string) {
    k in p ==> p[k].Obj? && forall j | j in p[k].fields :: Primitive(p[k].fields[j])
  }

  /** Where the patch holds `k`, it holds an object of flat values and possibly a `painPoints` array. */
  predicate PainGroup(p: map<string, Value>, k: string) {
    k in p ==> p[k].Obj? && forall j | j in p[k].fields ::
      if j == "painPoints" then p[k].fields[j].Arr? else Primitive(p[k].fields[j])
  }

  /** What a patch of `processNaturalLanguage` holds, key by key. */
  predicate PatchOk(p: map<string, Value>) {
    (forall k | k in p :: L.PatchKey(k))
    && FlatGroup(p, "budget") && FlatGroup(p, "timeline") && FlatGroup(p, "experience")
    && FlatGroup(p, "purchaseCondition") && FlatGroup(p, "decisionMakers")
    && PainGroup(p, "motivation") && PainGroup(p, "currentSituation")
    && ("mustHaveFeatures" in p ==> p["mustHaveFeatures"].Arr?)
    && Primitive(Get(p, "propertyType")) && Primitive(Get(p, "bedrooms")) && Primitive(Get(p, "phone"))
    && Primitive(Get(p, "email")) && Primitive(Get(p, "location"))
  }

  lemma PatchOkUnion(a: map<string, Value>, b: map<string, Value>)
    requires PatchOk(a) && PatchOk(b)
    ensures PatchOk(a + b)
  {
  }

  /** A flat value under one of the five flat keys. */
  lemma FlatEntryOk(k: string, v: Option<Value>)
    requires k in {"propertyType", "bedrooms", "phone", "email", "location"}
    requires v.Some? ==> Primitive(v.value)
    ensures PatchOk(L.Entry(k, v))
  {
  }

  /** An object of flat values under one of the five flat groups. */
  lemma GroupEntryOk(k: string, v: Option<Value>)
    requires k in {"budget", "timeline", "experience", "purchaseCondition", "decisionMakers"}
    requires v.Some? ==> v.value.Obj? && forall j | j in v.value.fields :: Primitive(v.value.fields[j])
    ensures PatchOk(L.Entry(k, v))
  {
  }

  /** An object of flat values and possibly `painPoints` under `motivation` or `currentSituation`. */
  lemma PainEntryOk(k: string, v: Option<Value>)
    requires k in {"motivation", "currentSituation"}
    requires v.Some? ==> v.value.Obj? && forall j | j in v.value.fields ::
               if j == "painPoints" then v.value.fields[j].Arr? else Primitive(v.value.fields[j])
    ensures PatchOk(L.Entry(k, v))
  {
  }

  /** The budget patch holds amounts only. */
  lemma BudgetFlat(lt: string, field: string)
    ensures var b := L.BudgetOf(lt, field);
            b.Some? ==> b.value.Obj? && forall j | j in b.value.fields :: b.value.fields[j].Num?
  {
  }

  lemma PatchOkUnion6(e1: map<string, Value>, e2: map<string, Value>, e3: map<string, Value>,
                      e4: map<string, Value>, e5: map<string, Value>, e6: map<string, Value>)
    requires PatchOk(e1) && PatchOk(e2) && PatchOk(e3) && PatchOk(e4) && PatchOk(e5) && PatchOk(e6)
    ensures PatchOk(e1 + e2 + e3 + e4 + e5 + e6)
  {
    PatchOkUnion(e1, e2);
    PatchOkUnion(e1 + e2, e3);
    PatchOkUnion(e1 + e2 + e3, e4);
    PatchOkUnion(e1 + e2 + e3 + e4, e5);
    PatchOkUnion(e1 + e2 + e3 + e4 + e5, e6);
  }

  lemma BudgetEntryOk(lt: string, field: string)
    ensures PatchOk(L.Entry("budget", L.BudgetOf(lt, field)))
  {
    BudgetFlat(lt, field);
    GroupEntryOk("budget", L.BudgetOf(lt, field));
  }

  lemma TypeEntryOk(lt: string, field: string, lead: map<string, Value>)
    ensures PatchOk(L.Entry("propertyType", L.PropertyTypePatch(lt, field, lead)))
  {
    FlatEntryOk("propertyType", L.PropertyTypePatch(lt, field, lead));
  }

  lemma BedroomsEntryOk(lt: string, field: string, lead: map<string, Value>)
    ensures PatchOk(L.Entry("bedrooms", L.BedroomsPatch(lt, field, lead)))
  {
    FlatEntryOk("bedrooms", L.BedroomsPatch(lt, field, lead));
  }

  lemma TimelineEntryOk(lt: string, field: string, lead: map<string, Value>)
    ensures PatchOk(L.Entry("timeline", L.TimelinePatch(lt, field, lead)))
  {
    GroupEntryOk("timeline", L.TimelinePatch(lt, field, lead));
  }

  lemma PhoneEntryOk(s: string, lt: string, field: string, lead: map<string, Value>)
    ensures PatchOk(L.Entry("phone", L.PhonePatch(s, lt, field, lead)))
  {
    FlatEntryOk("phone", L.PhonePatch(s, lt, field, lead));
  }

  lemma EmailEntryOk(s: string, field: string, lead: map<string, Value>)
    ensures PatchOk(L.Entry("email", L.EmailPatch(s, field, lead)))
  {
    FlatEntryOk("email", L.EmailPatch(s, field, lead));
  }

  lemma MotivationEntryOk(lt: string, field: string)
    ensures PatchOk(L.Entry("motivation", L.MotivationPatch(lt, field)))
  {
    PainEntryOk("motivation", L.MotivationPatch(lt, field));
  }

  lemma ExperienceEntryOk(lt: string, field: string)
    ensures PatchOk(L.Entry("experience", L.ExperiencePatch(lt, field)))
  {
    GroupEntryOk("experience", L.ExperiencePatch(lt, field));
  }

  lemma RentPainEntryOk(lt: string, field: string)
    ensures PatchOk(L.Entry("currentSituation", L.RentPainPatch(lt, field)))
  {
    PainEntryOk("currentSituation", L.RentPainPatch(lt, field));
  }

  lemma PaymentEntryOk(lt: string, field: string)
    ensures PatchOk(L.Entry("purchaseCondition", L.PaymentPatch(lt, field)))
  {
    GroupEntryOk("purchaseCondition", L.PaymentPatch(lt, field));
  }

  lemma LivingEntryOk(lt: string, field: string)
    ensures PatchOk(L.Entry("currentSituation", L.LivingPatch(lt, field)))
  {
    PainEntryOk("currentSituation", L.LivingPatch(lt, field));
  }

  lemma DecidersEntryOk(lt: string, field: string)
    ensures PatchOk(L.Entry("decisionMakers", L.DecisionMakersPatch(lt, field)))
  {
    GroupEntryOk("decisionMakers", L.DecisionMakersPatch(lt, field));
  }

  /** What the answer says about the property and the contact fits the record. */
  lemma ProfilePatchOk(s: string, lt: string, field: string, lead: map<string, Value>)
    ensures PatchOk(L.ProfilePatch(s, lt, field, lead))
  {
    BudgetEntryOk(lt, field);
    TypeEntryOk(lt, field, lead);
    BedroomsEntryOk(lt, field, lead);
    TimelineEntryOk(lt, field, lead);
    PhoneEntryOk(s, lt, field, lead);
    EmailEntryOk(s, field, lead);
    PatchOkUnion6(L.Entry("budget", L.BudgetOf(lt, field)),
                  L.Entry("propertyType", L.PropertyTypePatch(lt, field, lead)),
                  L.Entry("bedrooms", L.BedroomsPatch(lt, field, lead)),
                  L.Entry("timeline", L.TimelinePatch(lt, field, lead)),
                  L.Entry("phone", L.PhonePatch(s, lt, field, lead)),
                  L.Entry("email", L.EmailPatch(s, field, lead)));
  }

  /** What the answer to a motivation, payment, living or decision question says fits the record. */
  lemma ContextPatchOk(lt: string, field: string)
    ensures PatchOk(L.ContextPatch(lt, field))
  {
    MotivationEntryOk(lt, field);
    ExperienceEntryOk(lt, field);
    RentPainEntryOk(lt, field);
    PaymentEntryOk(lt, field);
    LivingEntryOk(lt, field);
    DecidersEntryOk(lt, field);
    PatchOkUnion6(L.Entry("motivation", L.MotivationPatch(lt, field)),
                  L.Entry("experience", L.ExperiencePatch(lt, field)),
                  L.Entry("currentSituation", L.RentPainPatch(lt, field)),
                  L.Entry("purchaseCondition", L.PaymentPatch(lt, field)),
                  L.Entry("currentSituation", L.LivingPatch(lt, field)),
                  L.Entry("decisionMakers", L.DecisionMakersPatch(lt, field)));
  }

  lemma LocationEntryOk(lt: string, field: string, capture: Option<string>)
    ensures PatchOk(L.Entry("location", L.LocationPatch(lt, field, capture)))
  {
    FlatEntryOk("location", L.LocationPatch(lt, field, capture));
  }

  lemma FeaturesEntryOk(features: seq<string>)
    ensures PatchOk(L.Entry("mustHaveFeatures", if features == [] then None else Some(Arr(Strs(features)))))
  {
  }

  /** The city and the features that come with it fit the record. */
  lemma WherePatchOk(lt: string, field: string, capture: Option<string>)
    ensures PatchOk(L.WherePatch(lt, field, capture))
  {
    var features := L.LocationFeatures(lt, field);
    LocationEntryOk(lt, field, capture);
    FeaturesEntryOk(features);
    PatchOkUnion(L.Entry("location", L.LocationPatch(lt, field, capture)),
                 L.Entry("mustHaveFeatures", if features == [] then None else Some(Arr(Strs(features)))));
  }

  /** Every patch `processNaturalLanguage` returns fits the record. */
  lemma PatchOfAnswer(text: Value, field: string, lead: map<string, Value>, capture: Option<string>)
    ensures PatchOk(L.ProcessNaturalLanguage(text, field, lead, capture))
  {
    if text.Str? && text.s != [] {
      var lt := Lower(text.s);
      ProfilePatchOk(text.s, lt, field, lead);
      ContextPatchOk(lt, field);
      WherePatchOk(lt, field, capture);
      PatchOkUnion(L.ProfilePatch(text.s, lt, field, lead), L.ContextPatch(lt, field));
      PatchOkUnion(L.ProfilePatch(text.s, lt, field, lead) + L.ContextPatch(lt, field), L.WherePatch(lt, field, capture));
    }
  }

  /** A group of flat values merges into anything but an array. */
  lemma FlatMergeable(t: Value, f: map<string, Value>)
    requires !t.Arr? && forall j | j in f :: Primitive(f[j])
    ensures Mergeable(t, Obj(f))
  {
    if t.Obj? {
      assert MergeableMap(t.fields, f) by {
        forall j | j in f ensures Mergeable(Get(t.fields, j), f[j]) {}
      }
    } else if !Truthy(t) {
      assert MergeableMap(map[], f) by {
        forall j | j in f ensures Mergeable(Get(map[], j), f[j]) {}
      }
    }
  }

  /** A group with `painPoints` merges into an object whose `painPoints` is spreadable, and keeps it so. */
  lemma PainMergeable(t: Value, f: map<string, Value>)
    requires t.Obj? && Spreadable(Get(t.fields, "painPoints"))
    requires forall j | j in f :: if j == "painPoints" then f[j].Arr? else Primitive(f[j])
    ensures Mergeable(t, Obj(f))
    ensures MergeValue(t, Obj(f)).Obj? && Spreadable(Get(MergeValue(t, Obj(f)).fields, "painPoints"))
  {
    assert MergeableMap(t.fields, f) by {
      forall j | j in f ensures Mergeable(Get(t.fields, j), f[j]) {}
    }
    var m := MergeMap(t.fields, f);
    assert MergeValue(t, Obj(f)) == Obj(m);
    if "painPoints" in f {
      assert m["painPoints"] == MergeValue(Get(t.fields, "painPoints"), f["painPoints"]);
    } else if "painPoints" in t.fields {
      assert m["painPoints"] == t.fields["painPoints"];
    } else {
      assert "painPoints" !in m;
    }
  }

  /** Every patch of `processNaturalLanguage` merges into a shaped record without fault. */
  lemma PatchMergeable(lead: map<string, Value>, p: map<string, Value>)
    requires Shaped(lead) && PatchOk(p)
    ensures MergeableMap(lead, p)
  {
    forall k | k in p ensures Mergeable(Get(lead, k), p[k]) {
      if k in {"budget", "timeline", "experience", "purchaseCondition", "decisionMakers"} {
        FlatMergeable(Get(lead, k), p[k].fields);
      } else if k in {"motivation", "currentSituation"} {
        PainMergeable(Get(lead, k), p[k].fields);
      }
    }
  }

  /** Merging such a patch keeps the record shaped. */
  lemma PatchKeepsShape(lead: map<string, Value>, p: map<string, Value>)
    requires Shaped(lead) && PatchOk(p)
    ensures Shaped(MergeMap(lead, p))
  {
    var r := MergeMap(lead, p);
    if "motivation" in p {
      PainMergeable(Get(lead, "motivation"), p["motivation"].fields);
    }
    if "currentSituation" in p {
      PainMergeable(Get(lead, "currentSituation"), p["currentSituation"].fields);
    }
  }

  // ============================================================ the record

  /** The groups `updateQualityScore`, the skip rules and the patches read into. */
  predicate Shaped(lead: map<string, Value>) {
    Get(lead, "budget").Obj? && Get(lead, "purchaseCondition").Obj? && Get(lead, "timeline").Obj?
    && Get(lead, "experience").Obj?
    && Get(lead, "motivation").Obj? && Spreadable(Get(Get(lead, "motivation").fields, "painPoints"))
    && Get(lead, "currentSituation").Obj? && Spreadable(Get(Get(lead, "currentSituation").fields, "painPoints"))
    && !Get(lead, "decisionMakers").Arr?
    && Spreadable(Get(lead, "mustHaveFeatures"))
    && Get(lead, "questionsAnswered").Num?
  }

  /** The record `resetChat` starts from; `started` stands for the start time stamp. */
  function EmptyLead(started: Value): map<string, Value> {
    map[
      "name" := Null, "phone" := Null, "email" := Null,
      "propertyType" := Null, "bedrooms" := Null, "location" := Null,
      "mustHaveFeatures" := Arr([]), "niceToHaveFeatures" := Arr([]),
      "budget" := Obj(map["min" := Null, "max" := Null, "exact" := Null, "flexible" := Bool(false)]),
      "purchaseCondition" := Obj(map["method" := Null, "downPayment" := Null, "financingAmount" := Null,
                                     "preApproved" := Bool(false), "bank" := Null]),
      "timeline" := Obj(map["when" := Null, "urgency" := Null, "reason" := Null]),
      "motivation" := Obj(map["primary" := Null, "secondary" := Null, "story" := Null,
                              "painPoints" := Arr([]), "emotionalDrivers" := Arr([])]),
      "currentSituation" := Obj(map["living" := Null, "currentLocation" := Null, "whyMoving" := Null,
                                    "currentPainPoints" := Arr([])]),
      "experience" := Obj(map["firstTime" := Bool(false), "previousPurchases" := Num(0), "knowledgeLevel" := Null]),
      "decisionMakers" := Obj(map["alone" := Bool(false), "partner" := Bool(false), "family" := Bool(false),
                                  "others" := Arr([])]),
      "contactPreference" := Obj(map["method" := Null, "bestTime" := Null, "urgency" := Null]),
      "qualityScore" := Num(0), "chatDuration" := Num(0), "questionsAnswered" := Num(0),
      "startedAt" := started, "completedAt" := Null
    ]
  }

  /** A fresh lead has every group the model relies on. */
  lemma EmptyLeadShaped(started: Value)
    ensures Shaped(EmptyLead(started))
  {
    var l := EmptyLead(started);
    assert l["budget"].Obj? && l["purchaseCondition"].Obj? && l["timeline"].Obj? && l["experience"].Obj?;
    assert l["motivation"].fields["painPoints"] == Arr([]);
    assert "painPoints" !in l["currentSituation"].fields;
    assert l["decisionMakers"].Obj? && l["mustHaveFeatures"] == Arr([]) && l["questionsAnswered"] == Num(0);
  }

  /** A fresh lead has no contact data. */
  lemma EmptyLeadContact(started: Value)
    ensures var lead := EmptyLead(started);
            Get(lead, "name") == Get(lead, "phone") == Get(lead, "email") == Null
  {
  }

  /** A fresh lead has no budget amounts. */
  lemma EmptyLeadAmounts(started: Value)
    ensures var lead := EmptyLead(started);
            Get2(lead, "budget", "min") == Get2(lead, "budget", "max") == Get2(lead, "budget", "exact") == Null
  {
  }

  /** A fresh lead has none of the nested answers the score reads. */
  lemma EmptyLeadAnswers(started: Value)
    ensures var lead := EmptyLead(started);
            Get2(lead, "purchaseCondition", "method") == Get2(lead, "purchaseCondition", "downPayment") == Null
            && Get2(lead, "timeline", "when") == Get2(lead, "timeline", "urgency") == Null
            && Get2(lead, "motivation", "primary") == Null
  {
    EmptyLeadCondition(started);
    EmptyLeadTimeline(started);
    EmptyLeadMotivation(started);
  }

  lemma EmptyLeadCondition(started: Value)
    ensures var lead := EmptyLead(started);
            Get2(lead, "purchaseCondition", "method") == Get2(lead, "purchaseCondition", "downPayment") == Null
  {
  }

  lemma EmptyLeadTimeline(started: Value)
    ensures var lead := EmptyLead(started);
            Get2(lead, "timeline", "when") == Get2(lead, "timeline", "urgency") == Null
  {
  }

  lemma EmptyLeadMotivation(started: Value)
    ensures Get2(EmptyLead(started), "motivation", "primary") == Null
  {
  }

  /** A fresh lead scores 0 and shows no budget. */
  lemma EmptyLeadScore(started: Value)
    ensures QualityScore(EmptyLead(started)) == 0
    ensures FormatBudget(EmptyLead(started)) == Label("Não informado")
  {
    EmptyLeadContact(started);
    EmptyLeadAmounts(started);
    EmptyLeadAnswers(started);
    ScoreIsPoints(EmptyLead(started));
    SignalPoints(Signals(EmptyLead(started)));
  }

  /**
   * A path whose write keeps a lead `Shaped`: a top-level field other than the
   * ones `Shaped` constrains, or a field inside one of the five groups other
   * than `painPoints`.
   */
  predicate SafePath(keys: seq<string>) {
    (|keys| == 1 && !ReservedKey(keys[0]))
    || (|keys| == 2 && AnswerGroup(keys[0]) && keys[1] != "painPoints")
  }

  /** The top-level fields an answer is never written over. */
  predicate ReservedKey(k: string) {
    k == "budget" || k == "purchaseCondition" || k == "timeline" || k == "experience" || k == "motivation"
    || k == "currentSituation" || k == "mustHaveFeatures" || k == "questionsAnswered" || k == "qualityScore"
  }

  /** The groups an answer can be written into. */
  predicate AnswerGroup(k: string) {
    k == "motivation" || k == "currentSituation" || k == "budget" || k == "purchaseCondition" || k == "timeline"
  }

  /** Every question of the table saves along a safe path. */
  lemma FlowPathsSafe(i: nat)
    requires i < |Flow| && Flow[i].kind == Question
    ensures SafePath(Flow[i].field)
  {
    if i < 11 {
      FlowPathsSafeHead(i);
    } else {
      FlowPathsSafeTail(i);
    }
  }

  lemma FlowPathsSafeHead(i: nat)
    requires i < 11 && Flow[i].kind == Question
    ensures SafePath(Flow[i].field)
  {
  }

  lemma FlowPathsSafeTail(i: nat)
    requires 11 <= i < |Flow| && Flow[i].kind == Question
    ensures SafePath(Flow[i].field)
  {
  }

  /** No key of a field path of the table holds a dot. */
  lemma FlowKeysDotFree(i: nat)
    requires i < |Flow|
    ensures forall k | 0 <= k < |Flow[i].field| :: '.' !in Flow[i].field[k]
  {
    if i < 11 {
      FlowKeysDotFreeHead(i);
    } else {
      FlowKeysDotFreeTail(i);
    }
  }

  lemma FlowKeysDotFreeHead(i: nat)
    requires i < 11
    ensures forall k | 0 <= k < |Flow[i].field| :: '.' !in Flow[i].field[k]
  {
  }

  lemma FlowKeysDotFreeTail(i: nat)
    requires 11 <= i < |Flow|
    ensures forall k | 0 <= k < |Flow[i].field| :: '.' !in Flow[i].field[k]
  {
  }

  /** A write of a flat value along a safe path never throws and keeps the record shaped. */
  lemma SafeWriteShaped(lead: map<string, Value>, keys: seq<string>, x: Value)
    requires Shaped(lead) && SafePath(keys) && Primitive(x)
    ensures PathOk(lead, keys) && PathOpen(lead, keys)
    ensures Shaped(SetPathMap(lead, keys, x))
  {
    if |keys| == 2 {
      var c := Get(lead, keys[0]);
      assert SetPathMap(lead, keys, x) == lead[keys[0] := Obj(c.fields[keys[1] := x])];
    }
  }

  // ========================================================= saving an answer

  /**
   * The patch `saveAnswer` reads from an answer: `processNaturalLanguage`
   * against the record that already holds the answer.  `cap` is what the
   * free city phrase pattern captured, if anything.
   */
  function AnswerPatch(lead: map<string, Value>, field: string, value: string, cap: Option<string>): map<string, Value> {
    L.ProcessNaturalLanguage(Str(value), field, SetPathMap(lead, Split(field, '.'), Str(value)), cap)
  }

  /**
   * What `saveAnswer` does to the lead once `patch` has been read from the
   * answer: the answer is written at its path, the patch is merged in when the
   * answer is longer than three UTF-16 units and the patch is not empty, the
   * score is recomputed and the answer counter goes up by one.
   */
  function SaveLead(lead: map<string, Value>, keys: seq<string>, value: string, patch: map<string, Value>): map<string, Value>
    requires |keys| > 0
  {
    Counted(Scored(MergeAnswer(SetPathMap(lead, keys, Str(value)), value, patch)))
  }

  /** The merge step of `saveAnswer`. */
  function MergeAnswer(written: map<string, Value>, value: string, patch: map<string, Value>): map<string, Value> {
    if Utf16Length(value) > 3 && patch != map[] then MergeMap(written, patch) else written
  }

  /** The record after `updateQualityScore()`. */
  function Scored(lead: map<string, Value>): map<string, Value> {
    lead["qualityScore" := Num(QualityScore(lead))]
  }

  /**
   * The record after `leadData.questionsAnswered++`.  A shaped record always
   * holds a number there; any other value is left as it is.
   */
  function Counted(lead: map<string, Value>): map<string, Value> {
    var c := Get(lead, "questionsAnswered");
    if c.Num? then lead["questionsAnswered" := Num(c.n + 1)] else lead
  }

  /** The record is shaped again once a well-formed patch is merged in. */
  lemma MergeAnswerShaped(lead: map<string, Value>, keys: seq<string>, value: string, patch: map<string, Value>)
    requires Shaped(lead) && SafePath(keys) && PatchOk(patch)
    ensures Shaped(MergeAnswer(SetPathMap(lead, keys, Str(value)), value, patch))
  {
    SafeWriteShaped(lead, keys, Str(value));
    PatchKeepsShape(SetPathMap(lead, keys, Str(value)), patch);
  }

  /** Writing the score or the answer counter keeps the record shaped. */
  lemma ScoredShaped(lead: map<string, Value>)
    requires Shaped(lead)
    ensures Shaped(Scored(lead))
  {
  }

  /** Scoring and counting keep the record shaped. */
  lemma SavedShaped(merged: map<string, Value>)
    requires Shaped(merged)
    ensures Shaped(Counted(Scored(merged)))
  {
    ScoredShaped(merged);
    CountedShaped(Scored(merged));
  }

  lemma CountedShaped(lead: map<string, Value>)
    requires Shaped(lead)
    ensures Shaped(Counted(lead))
  {
  }

  /** Saving an answer keeps the record shaped, so the score can always be computed again. */
  lemma SaveKeepsShape(lead: map<string, Value>, keys: seq<string>, value: string, patch: map<string, Value>)
    requires Shaped(lead) && SafePath(keys) && PatchOk(patch)
    ensures Shaped(SaveLead(lead, keys, value, patch))
  {
    MergeAnswerShaped(lead, keys, value, patch);
    SavedShaped(MergeAnswer(SetPathMap(lead, keys, Str(value)), value, patch));
  }

  /** Neither the answer nor the patch touches the answer counter. */
  lemma MergeKeepsCounter(lead: map<string, Value>, keys: seq<string>, value: string, patch: map<string, Value>)
    requires Shaped(lead) && SafePath(keys) && PatchOk(patch)
    ensures Get(MergeAnswer(SetPathMap(lead, keys, Str(value)), value, patch), "questionsAnswered") == Get(lead, "questionsAnswered")
  {
    SafeWriteShaped(lead, keys, Str(value));
    assert !L.PatchKey("questionsAnswered");
  }

  /**
   * After `updateQualityScore()` and `questionsAnswered++`, the record holds
   * the score computed before the increment, and the counter went up by one.
   */
  lemma ScoreThenCount(lead: map<string, Value>)
    requires Get(lead, "questionsAnswered").Num?
    ensures var r := Counted(Scored(lead));
            Get(r, "qualityScore") == Num(QualityScore(lead))
            && Get(r, "questionsAnswered") == Num(Get(lead, "questionsAnswered").n + 1)
  {
  }

  /** The two counters are different fields, and the score reads neither. */
  lemma CountersApart(lead: map<string, Value>, q: Value, n: Value)
    ensures QualityScore(lead["qualityScore" := q]["questionsAnswered" := n]) == QualityScore(lead)
  {
    ScoreIgnoresCounter(lead, "qualityScore", q);
    ScoreIgnoresCounter(lead["qualityScore" := q], "questionsAnswered", n);
  }

  /** The score reads neither counter. */
  lemma ScoreIgnoresCounter(lead: map<string, Value>, k: string, v: Value)
    requires k == "qualityScore" || k == "questionsAnswered"
    ensures QualityScore(lead[k := v]) == QualityScore(lead)
  {
    ScoredFieldsIgnoreCounter(lead, k, v);
    ScoreReadsSevenFields(lead[k := v], lead);
  }

  /** The score is a function of the seven fields it reads. */
  lemma ScoreReadsSevenFields(a: map<string, Value>, b: map<string, Value>)
    requires Get(a, "name") == Get(b, "name") && Get(a, "phone") == Get(b, "phone")
      && Get(a, "email") == Get(b, "email") && Get(a, "budget") == Get(b, "budget")
      && Get(a, "purchaseCondition") == Get(b, "purchaseCondition")
      && Get(a, "timeline") == Get(b, "timeline") && Get(a, "motivation") == Get(b, "motivation")
    ensures QualityScore(a) == QualityScore(b)
  {
  }

  /** The seven fields the score reads are none of the counters. */
  lemma ScoredFieldsIgnoreCounter(lead: map<string, Value>, k: string, v: Value)
    requires k == "qualityScore" || k == "questionsAnswered"
    ensures var r := lead[k := v];
      Get(r, "name") == Get(lead, "name") && Get(r, "phone") == Get(lead, "phone")
      && Get(r, "email") == Get(lead, "email") && Get(r, "budget") == Get(lead, "budget")
      && Get(r, "purchaseCondition") == Get(lead, "purchaseCondition")
      && Get(r, "timeline") == Get(lead, "timeline") && Get(r, "motivation") == Get(lead, "motivation")
  {
  }

  /** A read below any other top-level field does not see the counters. */
  lemma AtIgnoresCounters(lead: map<string, Value>, keys: seq<string>)
    requires |keys| > 0 && keys[0] != "qualityScore" && keys[0] != "questionsAnswered"
    requires Get(lead, "questionsAnswered").Num?
    ensures At(Counted(Scored(lead)), keys) == At(lead, keys)
  {
  }

  /** The answer reads back at its path unless the patch sets the same top-level field. */
  lemma SaveReadsBack(lead: map<string, Value>, keys: seq<string>, value: string, patch: map<string, Value>)
    requires Shaped(lead) && SafePath(keys) && PatchOk(patch)
    requires Utf16Length(value) <= 3 || keys[0] !in patch
    ensures At(SaveLead(lead, keys, value, patch), keys) == Str(value)
  {
    SafeWriteShaped(lead, keys, Str(value));
    var written := SetPathMap(lead, keys, Str(value));
    SetPathReadBack(lead, keys, Str(value));
    var merged := MergeAnswer(written, value, patch);
    assert Get(merged, keys[0]) == Get(written, keys[0]);
    assert At(merged, keys) == At(written, keys);
    MergeAnswerShaped(lead, keys, value, patch);
    AtIgnoresCounters(merged, keys);
  }

  /** Every question of the table has a safe path of dot-free keys, which its dotted name splits back into. */
  lemma QuestionPath(i: nat)
    requires i < |Flow| && Flow[i].kind == Question
    ensures SafePath(Flow[i].field) && Split(Join(Flow[i].field, "."), '.') == Flow[i].field
  {
    FlowPathsSafe(i);
    FlowKeysDotFree(i);
    SplitJoin(Flow[i].field);
  }

  /** The answers record holds no array at its top level, so a write of one or two keys never meets one. */
  predicate NoArrays(answers: map<string, Value>) {
    forall k | k in answers :: !answers[k].Arr?
  }

  lemma AnswerWrite(answers: map<string, Value>, keys: seq<string>, x: Value)
    requires NoArrays(answers) && 0 < |keys| <= 2 && Primitive(x)
    ensures PathOk(answers, keys) && NoArrays(SetPathMap(answers, keys, x))
  {
    if |keys| == 2 && Get(answers, keys[0]).Obj? {
      var c := Get(answers, keys[0]);
      assert SetPathMap(answers, keys, x) == answers[keys[0] := Obj(c.fields[keys[1] := x])];
    }
  }

  /**
   * `mergeData(target, source)`: the top-level keys of the source one at a
   * time, each merged into the target as `MergeValue` says.
   */
  method MergeData(target: map<string, Value>, source: map<string, Value>) returns (r: map<string, Value>)
    requires MergeableMap(target, source)
    ensures r == MergeMap(target, source)
  {
    r := target;
    var todo := source.Keys;
    ghost var done: set<string> := {};
    while todo != {}
      invariant todo + done == source.Keys && todo !! done
      invariant r == MergeMap(target, map k | k in done :: source[k])
      decreases todo
    {
      var k :| k in todo;
      MergeStep(target, source, done, k);
      r := r[k := MergeValue(Get(r, k), source[k])];
      todo := todo - {k};
      done := done + {k};
    }
    assert (map k | k in done :: source[k]) == source;
  }

  /**
   * The part of `saveAnswer(field, text, step)` that writes the lead: the
   * answer goes in at the dotted path `field`, and when it is longer than
   * three UTF-16 units the patch read from it, if not empty, is merged in.
   */
  method WriteAnswer(lead: map<string, Value>, field: string, value: string, cap: Option<string>)
    returns (merged: map<string, Value>)
    requires Shaped(lead) && SafePath(Split(field, '.'))
    ensures merged == MergeAnswer(SetPathMap(lead, Split(field, '.'), Str(value)), value, AnswerPatch(lead, field, value, cap))
    ensures Shaped(merged)
  {
    var parts := Split(field, '.');
    SafeWriteShaped(lead, parts, Str(value));
    var written := SetPathMap(lead, parts, Str(value));
    PatchOfAnswer(Str(value), field, written, cap);
    merged := written;
    if Utf16Length(value) > 3 {
      var extracted := L.ProcessNaturalLanguage(Str(value), field, written, cap);
      if extracted != map[] {
        PatchMergeable(written, extracted);
        merged := MergeData(written, extracted);
      }
    }
    MergeAnswerShaped(lead, parts, value, AnswerPatch(lead, field, value, cap));
  }

  /**
   * `saveAnswer(field, text, step)` on the values of `chatState.answers` and
   * `leadData`: the answer goes into both at the dotted path `field`, the
   * patch read from it is merged into the lead, then `updateQualityScore()`
   * and `questionsAnswered++`.
   */
  method SaveAnswerTo(lead: map<string, Value>, answers: map<string, Value>, field: string, value: string, cap: Option<string>)
    returns (lead': map<string, Value>, answers': map<string, Value>)
    requires Shaped(lead) && NoArrays(answers) && SafePath(Split(field, '.'))
    ensures Shaped(lead') && NoArrays(answers')
    ensures lead' == SaveLead(lead, Split(field, '.'), value, AnswerPatch(lead, field, value, cap))
    ensures answers' == SetPathMap(answers, Split(field, '.'), Str(value))
  {
    var parts := Split(field, '.');
    AnswerWrite(answers, parts, Str(value));
    answers' := SetPathMap(answers, parts, Str(value));
    var merged := WriteAnswer(lead, field, value, cap);
    SavedShaped(merged);
    lead' := Counted(Scored(merged));
  }

  // ============================================================ the widget

  /**
   * The module-level state of the widget: `leadData`, `chatState.answers`
   * and `chatState.currentStep`.
   */
  class Chat {
    var lead: map<string, Value>
    var answers: map<string, Value>
    var currentStep: int

    /** The cursor is on the table (or before it) and the record keeps the groups the code reads into. */
    ghost predicate Valid()
      reads this
    {
      -1 <= currentStep < FlowLength && Shaped(lead) && NoArrays(answers)
    }

    /** `resetChat()`; `started` stands for the start time stamp. */
    constructor (started: Value)
      ensures Valid()
      ensures lead == EmptyLead(started) && answers == map[] && currentStep == -1
    {
      lead := EmptyLead(started);
      answers := map[];
      currentStep := -1;
      EmptyLeadShaped(started);
    }

    /** `resetChat()` on a running chat. */
    method ResetChat(started: Value)
      modifies this
      ensures Valid()
      ensures lead == EmptyLead(started) && answers == map[] && currentStep == -1
    {
      lead := EmptyLead(started);
      answers := map[];
      currentStep := -1;
      EmptyLeadShaped(started);
    }

    /** `updateQualityScore()`: the ten checks in the order of the code. */
    method UpdateQualityScore()
      requires Shaped(lead)
      modifies this
      ensures lead == Scored(old(lead)) && Shaped(lead)
      ensures answers == old(answers) && currentStep == old(currentStep)
    {
      var l := lead;
      var score := 0;
      score := score + Award(Truthy(Get(l, "name")), 5);
      score := score + Award(Truthy(Get(l, "phone")), 10);
      score := score + Award(Truthy(Get(l, "email")), 5);
      score := score + Award(Truthy(Get(l["budget"].fields, "min")) || Truthy(Get(l["budget"].fields, "max")), 20);
      score := score + Award(Truthy(Get(l["budget"].fields, "exact")), 10);
      score := score + Award(Truthy(Get(l["purchaseCondition"].fields, "method")), 15);
      score := score + Award(Truthy(Get(l["purchaseCondition"].fields, "downPayment")), 10);
      score := score + Award(Truthy(Get(l["timeline"].fields, "when")), 10);
      score := score + Award(Get(l["timeline"].fields, "urgency") == Str("high"), 5);
      score := score + Award(Truthy(Get(l["motivation"].fields, "primary")), 10);
      ScoreWrittenOut(l);
      var capped := Min(score, 100);
      assert capped == QualityScore(l);
      ScoredShaped(l);
      lead := l["qualityScore" := Num(capped)];
    }

    /**
     * `saveAnswer(field, text, step)` for a typed answer: the answer goes into
     * the answers record and the lead at the dotted path `field`, then the
     * patch read from it is merged in, the score is recomputed and the
     * counter goes up.
     */
    method SaveAnswer(field: string, value: string, cap: Option<string>)
      requires Valid() && SafePath(Split(field, '.'))
      modifies this
      ensures Valid()
      ensures lead == SaveLead(old(lead), Split(field, '.'), value, AnswerPatch(old(lead), field, value, cap))
      ensures answers == SetPathMap(old(answers), Split(field, '.'), Str(value))
      ensures currentStep == old(currentStep)
    {
      lead, answers := SaveAnswerTo(lead, answers, field, value, cap);
    }

    /**
     * `processNextStep()`: with the conversation engine present nothing
     * happens; otherwise the cursor walks the table as `WalkFlow` does.
     */
    method ProcessNextStep(engineActive: bool) returns (outcome: Outcome)
      requires Valid()
      modifies this
      ensures Valid()
      ensures lead == old(lead) && answers == old(answers)
      ensures engineActive ==> outcome == Disabled && currentStep == old(currentStep)
      ensures !engineActive ==> (outcome, currentStep) == Advance(Flow, lead, old(currentStep))
    {
      if engineActive {
        return Disabled;
      }
      outcome, currentStep := WalkFlow(Flow, lead, currentStep);
    }
  }

  /**
   * The `do … while (attempts < maxAttempts)` loop of `processNextStep()`:
   * the cursor moves past every step whose skip rule holds; at the end of the
   * table the chat finishes, or goes back to the phone step when the phone
   * is missing. The attempt bound of twice the table length is never reached.
   */
  method WalkFlow(flow: seq<Step>, lead: map<string, Value>, start: int) returns (outcome: Outcome, cur: int)
    requires -1 <= start < |flow|
    ensures (outcome, cur) == Advance(flow, lead, start)
  {
    cur := start;
    var maxAttempts := |flow| * 2;
    var attempts := 0;
    while true
      invariant -1 <= cur < |flow| && 0 <= attempts == cur - start
      invariant Advance(flow, lead, cur) == Advance(flow, lead, start)
      decreases |flow| - cur
    {
      if cur >= |flow| - 1 {
        if Truthy(Get(lead, "name")) && Truthy(Get(lead, "phone")) {
          return Finish, cur;
        }
        if !Truthy(Get(lead, "phone")) {
          cur := FindIndex(flow, PhoneNatural, 0);
          if cur >= 0 {
            break;
          }
        }
        return Finish, cur;
      }
      cur := cur + 1;
      attempts := attempts + 1;
      if Skip(flow[cur].skip, lead) {
        if attempts < maxAttempts {
          continue;
        }
        assert false;
      }
      break;
    }
    if attempts >= maxAttempts {
      assert false;
    }
    outcome := Ask(cur);
  }

  /** One more key of the source merged in. */
  lemma MergeStep(t: map<string, Value>, s: map<string, Value>, done: set<string>, k: string)
    requires done <= s.Keys && k in s && k !in done
    ensures var before := map j | j in done :: s[j];
            var after := map j | j in done + {k} :: s[j];
            MergeMap(t, after) == MergeMap(t, before)[k := MergeValue(Get(MergeMap(t, before), k), s[k])]
  {
    var before := map j | j in done :: s[j];
    assert Get(MergeMap(t, before), k) == Get(t, k);
  }

  /** The score of a well-formed record, as the ten checks of `updateQualityScore` add it up. */
  lemma ScoreWrittenOut(lead: map<string, Value>)
    requires Shaped(lead)
    ensures QualityScore(lead) == Min(
              0 + Award(Truthy(Get(lead, "name")), 5)
              + Award(Truthy(Get(lead, "phone")), 10)
              + Award(Truthy(Get(lead, "email")), 5)
              + Award(Truthy(Get(lead["budget"].fields, "min")) || Truthy(Get(lead["budget"].fields, "max")), 20)
              + Award(Truthy(Get(lead["budget"].fields, "exact")), 10)
              + Award(Truthy(Get(lead["purchaseCondition"].fields, "method")), 15)
              + Award(Truthy(Get(lead["purchaseCondition"].fields, "downPayment")), 10)
              + Award(Truthy(Get(lead["timeline"].fields, "when")), 10)
              + Award(Get(lead["timeline"].fields, "urgency") == Str("high"), 5)
              + Award(Truthy(Get(lead["motivation"].fields, "primary")), 10), 100)
  {
  }

  /** Ten checks, written out. */
  lemma PointsUnrolled(sig: seq<bool>, w: seq<nat>)
    requires |sig| == |w| == 10
    ensures Points(sig, w, 0) ==
      Award(sig[0], w[0]) + Award(sig[1], w[1]) + Award(sig[2], w[2]) + Award(sig[3], w[3]) + Award(sig[4], w[4])
      + Award(sig[5], w[5]) + Award(sig[6], w[6]) + Award(sig[7], w[7]) + Award(sig[8], w[8]) + Award(sig[9], w[9])
  {
    PointsStep(sig, w, 0);
    PointsStep(sig, w, 1);
    PointsStep(sig, w, 2);
    PointsStep(sig, w, 3);
    PointsStep(sig, w, 4);
    PointsStep(sig, w, 5);
    PointsStep(sig, w, 6);
    PointsStep(sig, w, 7);
    PointsStep(sig, w, 8);
    PointsStep(sig, w, 9);
  }

  /** One check of the score. */
  lemma PointsStep(sig: seq<bool>, w: seq<nat>, i: nat)
    requires |sig| == |w| && i < |w|
    ensures Points(sig, w, i) == Award(sig[i], w[i]) + Points(sig, w, i + 1)
  {
  }

}
