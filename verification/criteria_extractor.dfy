/**
 * `extractAllCriteria(text, field)`: the richer reader of one utterance,
 * which returns a fresh criteria record (type, rooms, place, budget,
 * amenities with the intensity they were asked for, and a few extra
 * preferences).  It reads the lead record only to decide whether a rule
 * runs, and never writes it.
 *
 * Every pattern is matched against the lower-cased utterance.  The two
 * free-phrase captures (the neighbourhood after `bairro/no/na/em` and the
 * place after `perto/próximo`) are given by the caller as `Captures`; only
 * what the code does with them is modelled.
 */
module CriteriaExtractor {

  import opened Json
  import opened Text
  import opened Money
  import L = LeadLanguage

  datatype Intensity = Essential | High | Medium | Exclusion

  /** `{ name, intensity, keyword }` pushed for each amenity keyword found. */
  datatype Amenity = Amenity(name: string, intensity: Intensity, keyword: string)

  /** `{ min?, max? }` */
  datatype Budget = Budget(min: Option<int>, max: Option<int>)

  /**
   * The returned object.  An absent key is `None`, `false` or an empty list;
   * the four amenity lists are present exactly when `amenities` is not empty,
   * and an absent list reads like an empty one.  A count of "0 quartos" is
   * stored by the code as a present `bedrooms: null`; here it is `None`, like
   * an absent key, since no reader of the record tells the two apart.
   */
  datatype Criteria = Criteria(
    propertyType: Option<string>,
    bedrooms: Option<nat>,
    bathrooms: Option<nat>,
    location: Option<string>,
    city: Option<string>,
    zone: Option<string>,
    neighborhood: Option<string>,
    budget: Option<Budget>,
    amenities: seq<Amenity>,
    essentialAmenities: seq<string>,
    highPriorityAmenities: seq<string>,
    mediumPriorityAmenities: seq<string>,
    excludedAmenities: seq<string>,
    proximity: Option<string>,
    needsTransportation: bool,
    needsSchools: bool,
    minArea: Option<nat>,
    propertyAge: Option<string>)

  /** `{}` */
  const NoCriteria := Criteria(None, None, None, None, None, None, None, None, [], [], [], [], [],
                               None, false, false, None, None)

  /** The phrases of the two free-text captures, when the pattern found one. */
  datatype Captures = Captures(neighborhood: Option<string>, proximity: Option<string>)

  // ------------------------------------------------------------ intensity

  const EssentialWords: seq<string> :=
    ["preciso", "essencial", "obrigatório", "tem que ter", "não pode faltar", "fundamental", "indispensável"]
  const HighWords: seq<string> := ["gostaria", "seria legal", "seria ótimo", "quero", "desejo", "preferência"]
  const MediumWords: seq<string> := ["se tiver", "se der", "seria bom", "opcional"]
  const ExclusionWords: seq<string> := ["não quero", "não gosto", "evitar", "sem", "não precisa"]

  /** `getIntensity(context)`: essential, then exclusion, then high, then medium; high by default. */
  function GetIntensity(context: string): Intensity {
    if ContainsAny(context, EssentialWords) then Essential
    else if ContainsAny(context, ExclusionWords) then Exclusion
    else if ContainsAny(context, HighWords) then High
    else if ContainsAny(context, MediumWords) then Medium
    else High
  }

  /** Which class wins: an earlier class hides every later one, and a context without any word is high. */
  lemma IntensityClasses(context: string)
    ensures GetIntensity(context) == Essential <==> ContainsAny(context, EssentialWords)
    ensures GetIntensity(context) == Exclusion
            <==> !ContainsAny(context, EssentialWords) && ContainsAny(context, ExclusionWords)
    ensures GetIntensity(context) == Medium
            <==> !ContainsAny(context, EssentialWords) && !ContainsAny(context, ExclusionWords)
                 && !ContainsAny(context, HighWords) && ContainsAny(context, MediumWords)
    ensures GetIntensity(context) == High
            <==> !ContainsAny(context, EssentialWords) && !ContainsAny(context, ExclusionWords)
                 && (ContainsAny(context, HighWords) || !ContainsAny(context, MediumWords))
  {
  }

  /** "não quero" is an exclusion although it contains the high-priority "quero". */
  lemma RefusalIsExclusion(context: string)
    requires !ContainsAny(context, EssentialWords) && Contains(context, "não quero")
    ensures Contains(context, "quero")
    ensures GetIntensity(context) == Exclusion
  {
    ContainsAnyIntro(context, ExclusionWords, 0);
    var i :| 0 <= i <= |context| - 9 && OccursAt(context, "não quero", i);
    assert context[i + 4..i + 9] == context[i..i + 9][4..];
    assert OccursAt(context, "quero", i + 4);
  }

  // -------------------------------------------------------------- amenities

  /** Keyword, amenity name; tried in this order. */
  const AmenityTable: seq<(string, string)> := [
    ("piscina", "piscina"), ("garagem", "garagem"), ("vaga", "garagem"), ("estacionamento", "garagem"),
    ("academia", "academia"), ("ginásio", "academia"), ("elevador", "elevador"), ("portaria", "portaria"),
    ("portaria 24h", "portaria_24h"), ("segurança", "seguranca"), ("churrasqueira", "churrasqueira"),
    ("churrasco", "churrasqueira"), ("área de lazer", "area_lazer"), ("playground", "playground"),
    ("pet friendly", "pet_friendly"), ("aceita pet", "pet_friendly"), ("aceita pets", "pet_friendly"),
    ("animais", "pet_friendly"), ("sacada", "sacada"), ("varanda", "sacada"), ("terraço", "terrace"),
    ("lavanderia", "lavanderia"), ("quintal", "quintal"), ("jardim", "jardim"),
    ("piscina aquecida", "piscina_aquecida"), ("sauna", "sauna"), ("salão de festas", "salao_festas"),
    ("quadra", "quadra"), ("espaço gourmet", "espaco_gourmet")]

  /** The UTF-16 units read around a keyword: 50 before its first occurrence and 50 after it. */
  const ContextReach: nat := 50

  /**
   * `contextStart` and `contextEnd` for a keyword of length `klen` first
   * found at `idx` in a text of length `n`, all in UTF-16 units: a valid
   * substring range that covers the keyword and reaches 50 units either
   * side, cut at the ends of the text.
   */
  function ContextWindow(n: nat, idx: nat, klen: nat): (w: (nat, nat))
    requires idx + klen <= n
    ensures w.0 <= idx && idx + klen <= w.1 <= n
    ensures idx - w.0 <= ContextReach && w.1 - (idx + klen) <= ContextReach
    ensures w.0 == 0 || idx - w.0 == ContextReach
    ensures w.1 == n || w.1 - (idx + klen) == ContextReach
  {
    (if idx >= ContextReach then idx - ContextReach else 0,
     if idx + klen + ContextReach <= n then idx + klen + ContextReach else n)
  }

  /** The keyword's first occurrence, measured in UTF-16 units, lies inside the text. */
  lemma KeywordFits(text: string, keyword: string, idx: nat)
    requires OccursAt(Lower(text), keyword, idx)
    ensures Utf16Length(Lower(text)[..idx]) + Utf16Length(keyword) <= Utf16Length(text)
  {
    var lt := Lower(text);
    Utf16Split(lt, idx);
    Utf16Split(lt[idx..], |keyword|);
    assert lt[idx..][..|keyword|] == keyword;
    Utf16Lower(text);
  }

  /** A unit range that covers the keyword's units holds the keyword. */
  lemma WindowHoldsKeyword(text: string, keyword: string, idx: nat, a: int, b: int)
    requires OccursAt(Lower(text), keyword, idx)
    requires a <= Utf16Length(Lower(text)[..idx]) && Utf16Length(Lower(text)[..idx]) + Utf16Length(keyword) <= b
    ensures Contains(Lower(UnitSlice(text, a, b)), keyword)
  {
    var e := idx + |keyword|;
    var x, y, z := text[..idx], text[idx..e], text[e..];
    assert text == x + y + z;
    LowerSlice(text, 0, idx);
    assert text[0..idx] == x;
    LowerSlice(text, idx, e);
    Utf16Lower(x);
    Utf16Lower(y);
    var p, q := UnitSliceCovers(x, y, z, a, b);
    LowerContainsMiddle(p, y, q);
  }

  /** `[contextStart, contextEnd)` in UTF-16 units: it covers the keyword's first occurrence and at most 50 units either side. */
  function ContextSpan(text: string, keyword: string): (w: (nat, nat))
    requires Contains(Lower(text), keyword)
    ensures var u := Utf16Length(Lower(text)[..IndexOf(Lower(text), keyword)]);
      w.0 <= u && u + Utf16Length(keyword) <= w.1 <= Utf16Length(text)
      && w.1 - w.0 <= Utf16Length(keyword) + 2 * ContextReach
  {
    var lt := Lower(text);
    var idx := IndexOf(lt, keyword);
    KeywordFits(text, keyword, idx);
    ContextWindow(Utf16Length(text), Utf16Length(lt[..idx]), Utf16Length(keyword))
  }

  /**
   * The context `getIntensity` reads for a keyword found in the utterance:
   * `text.substring(contextStart, contextEnd)` lower-cased, the positions
   * counted in UTF-16 units as JavaScript counts them.  It holds the
   * keyword and at most 50 units either side.
   */
  function AmenityContext(text: string, keyword: string): (c: string)
    requires Contains(Lower(text), keyword)
    ensures Contains(c, keyword)
    ensures Utf16Length(c) <= Utf16Length(keyword) + 2 * ContextReach
  {
    var w := ContextSpan(text, keyword);
    WindowHoldsKeyword(text, keyword, IndexOf(Lower(text), keyword), w.0, w.1);
    UnitSliceSize(text, w.0, w.1);
    Utf16Lower(UnitSlice(text, w.0, w.1));
    Lower(UnitSlice(text, w.0, w.1))
  }

  /** Inside the BMP every prefix has as many units as characters. */
  lemma BmpPrefix(s: string, i: nat)
    requires Utf16Length(s) == |s| && i <= |s|
    ensures Utf16Length(s[..i]) == i && Utf16Length(s[i..]) == |s| - i
  {
    Utf16Split(s, i);
  }

  /** Inside the BMP the unit window is the character window. */
  lemma ContextSpanBmp(text: string, keyword: string)
    requires Contains(Lower(text), keyword) && Utf16Length(text) == |text|
    ensures ContextSpan(text, keyword) == ContextWindow(|text|, IndexOf(Lower(text), keyword), |keyword|)
  {
    var lt := Lower(text);
    var idx := IndexOf(lt, keyword);
    Utf16Lower(text);
    BmpPrefix(lt, idx);
    BmpPrefix(lt[idx..], |keyword|);
    assert lt[idx..][..|keyword|] == keyword;
  }

  /** On a text inside the BMP the context is the plain slice of characters around the keyword. */
  lemma AmenityContextBmp(text: string, keyword: string)
    requires Contains(Lower(text), keyword) && Utf16Length(text) == |text|
    ensures var w := ContextWindow(|text|, IndexOf(Lower(text), keyword), |keyword|);
      AmenityContext(text, keyword) == Lower(text[w.0..w.1])
  {
    ContextSpanBmp(text, keyword);
    var w := ContextSpan(text, keyword);
    UnitSliceBmp(text, w.0, w.1);
  }

  /** The amenity found for `keyword`, which occurs in the utterance, with the intensity its context asks for. */
  function AmenityFor(text: string, keyword: string, name: string): (a: Amenity)
    requires Contains(Lower(text), keyword)
    ensures a.name == name && a.keyword == keyword
    ensures a.intensity == GetIntensity(AmenityContext(text, keyword))
  {
    Amenity(name, GetIntensity(AmenityContext(text, keyword)), keyword)
  }

  /** The position of the first letter of `w` from `m` on that lies outside `alphabet`, or -1. */
  function Outside(w: string, alphabet: set<char>, m: nat): (r: int)
    decreases |w| - m
    ensures r == -1 || (m <= r < |w| && w[r] !in alphabet)
  {
    if m >= |w| then -1 else if w[m] !in alphabet then m else Outside(w, alphabet, m + 1)
  }

  /** A context written over an alphabet misses every word with a letter outside it. */
  lemma NoWordOf(c: string, ws: seq<string>, alphabet: set<char>)
    requires forall k | 0 <= k < |c| :: c[k] in alphabet
    requires forall j | 0 <= j < |ws| :: Outside(ws[j], alphabet, 0) >= 0
    ensures !ContainsAny(c, ws)
  {
    forall j | 0 <= j < |ws| ensures !Contains(c, ws[j]) {
      AbsentChar(c, ws[j], Outside(ws[j], alphabet, 0));
    }
  }

  /** Units of a run of characters outside the BMP. */
  lemma {:induction false} AstralRun(n: nat, e: char)
    requires e as int > 0xFFFF
    ensures Utf16Length(seq(n, _ => e)) == 2 * n
  {
    if n > 0 {
      assert seq(n, _ => e)[1..] == seq(n - 1, _ => e);
      AstralRun(n - 1, e);
    }
  }

  /** 24 emoji, 48 UTF-16 units. */
  const Emoji: string := seq(24, _ => '\U{1F600}')
  /** "sem 😀…😀piscina" */
  const AstralText: string := "sem " + Emoji + "piscina"
  /** What is left once the first two units are cut: "m 😀…😀piscina". */
  const AstralTail: string := "m " + Emoji + "piscina"
  const AstralLetters: set<char> := {'s', 'e', 'm', ' ', '\U{1F600}', 'p', 'i', 'c', 'n', 'a'}

  lemma AstralTextLetters()
    ensures AstralText == "se" + AstralTail
    ensures forall k | 0 <= k < |AstralText| :: AstralText[k] in AstralLetters
    ensures forall k | 0 <= k < |AstralTail| :: AstralTail[k] in AstralLetters - {'e'}
    ensures Lower(AstralText) == AstralText && Lower(AstralTail) == AstralTail
  {
  }

  lemma AstralTextIndex()
    ensures Contains(AstralText, "piscina") && IndexOf(AstralText, "piscina") == 28
    ensures AstralText[..28] == "sem " + Emoji
  {
    assert OccursAt(AstralText, "piscina", 28);
    forall j | 0 <= j < 28 ensures !OccursAt(AstralText, "piscina", j) {
      assert AstralText[j] != 'p';
      assert AstralText[j..j + 7][0] == AstralText[j];
    }
  }

  lemma AstralTextUnits()
    ensures Utf16Length(AstralText[..28]) == 52 && Utf16Length(AstralText) == 59
    ensures Utf16Length(AstralTail) == 57
  {
    AstralTextIndex();
    AstralRun(24, '\U{1F600}');
    Utf16Append("sem ", Emoji);
    assert Utf16Length("sem ") == 4;
    assert Utf16Length("piscina") == 7;
    Utf16Append("sem " + Emoji, "piscina");
    Utf16Append("m " + Emoji, "piscina");
    Utf16Append("m ", Emoji);
    assert Utf16Length("m ") == 2;
  }

  lemma AstralTextSpan()
    ensures Contains(Lower(AstralText), "piscina")
    ensures ContextSpan(AstralText, "piscina") == (2, 59)
  {
    AstralTextLetters();
    AstralTextIndex();
    AstralTextUnits();
    assert Utf16Length("piscina") == 7;
  }

  lemma AstralTextSlice()
    ensures UnitSlice(AstralText, 2, 59) == AstralTail
  {
    AstralTextLetters();
    AstralTextUnits();
    UnitSliceAppend("se", AstralTail, 2, 59);
    assert UnitSlice("se", 2, 59) == [];
    UnitSliceWhole(AstralTail, 0, 57);
  }

  lemma AstralTextContext()
    ensures Contains(Lower(AstralText), "piscina")
    ensures AmenityContext(AstralText, "piscina") == AstralTail
  {
    AstralTextSpan();
    AstralTextSlice();
    AstralTextLetters();
  }

  /**
   * Characters outside the BMP widen the reach in characters: in
   * "sem 😀😀…😀piscina" (24 emoji) the keyword starts 52 units in, the
   * context starts at the "m" of "sem", and the refusal word is left out,
   * so the pool is a high-priority amenity.  Counted in characters, the
   * context would reach back to "sem" and call it an exclusion.
   */
  lemma AstralCharsShiftContext()
    ensures Contains(AstralText, "sem") && Contains(Lower(AstralText), "piscina")
    ensures AmenityFor(AstralText, "piscina", "piscina").intensity == High
    ensures GetIntensity(Lower(AstralText)) == Exclusion
  {
    AstralTextLetters();
    AstralTextContext();
    assert OccursAt(AstralText, "sem", 0);
    ContainsAnyIntro(AstralText, ExclusionWords, 3);
    AstralNoEssential(AstralText, AstralLetters);
    AstralNoEssential(AstralTail, AstralLetters - {'e'});
    AstralTailNoExclusion();
    AstralTailNoMedium();
    assert GetIntensity(AstralTail) == High;
  }

  lemma AstralNoEssential(c: string, alphabet: set<char>)
    requires alphabet <= AstralLetters
    requires forall k | 0 <= k < |c| :: c[k] in alphabet
    ensures !ContainsAny(c, EssentialWords)
  {
    NoWordOf(c, EssentialWords, alphabet);
  }

  lemma AstralTailNoExclusion()
    ensures !ContainsAny(AstralTail, ExclusionWords)
  {
    AstralTextLetters();
    NoWordOf(AstralTail, ExclusionWords, AstralLetters - {'e'});
  }

  lemma AstralTailNoMedium()
    ensures !ContainsAny(AstralTail, MediumWords)
  {
    AstralTextLetters();
    NoWordOf(AstralTail, MediumWords, AstralLetters - {'e'});
  }

  /** The loop over the keyword table: one amenity per keyword found, in table order. */
  function AmenitiesFrom(text: string, table: seq<(string, string)>): (r: seq<Amenity>)
    ensures |r| <= |table|
    ensures forall a | a in r :: Contains(Lower(text), a.keyword)
    ensures forall a | a in r :: exists k | 0 <= k < |table| :: table[k] == (a.keyword, a.name)
  {
    if table == [] then []
    else
      var rest := AmenitiesFrom(text, table[1..]);
      assert forall a | a in rest :: exists k | 0 <= k < |table| :: table[k] == (a.keyword, a.name) by {
        forall a | a in rest ensures exists k | 0 <= k < |table| :: table[k] == (a.keyword, a.name) {
          var k :| 0 <= k < |table[1..]| && table[1..][k] == (a.keyword, a.name);
          assert table[k + 1] == (a.keyword, a.name);
        }
      }
      if Contains(Lower(text), table[0].0) then [AmenityFor(text, table[0].0, table[0].1)] + rest
      else rest
  }

  /** A keyword of the table that occurs in the utterance yields its amenity. */
  lemma {:induction false} FoundKeywordListed(text: string, table: seq<(string, string)>, k: nat)
    requires k < |table| && Contains(Lower(text), table[k].0)
    ensures AmenityFor(text, table[k].0, table[k].1) in AmenitiesFrom(text, table)
  {
    if k > 0 {
      FoundKeywordListed(text, table[1..], k - 1);
    }
  }

  /** `amenities.filter(a => a.intensity === k).map(a => a.name)` */
  function Named(xs: seq<Amenity>, k: Intensity): (r: seq<string>)
    ensures |r| <= |xs|
  {
    if xs == [] then []
    else (if xs[0].intensity == k then [xs[0].name] else []) + Named(xs[1..], k)
  }

  /** The four lists split the amenities: their lengths add up to the number of amenities. */
  lemma {:induction false} PartitionSizes(xs: seq<Amenity>)
    ensures |Named(xs, Essential)| + |Named(xs, High)| + |Named(xs, Medium)| + |Named(xs, Exclusion)| == |xs|
  {
    if xs != [] {
      PartitionSizes(xs[1..]);
    }
  }

  /** Each list holds exactly the names of the amenities of its intensity. */
  lemma {:induction false} NamedMembers(xs: seq<Amenity>, k: Intensity)
    ensures forall i | 0 <= i < |xs| && xs[i].intensity == k :: xs[i].name in Named(xs, k)
    ensures forall n | n in Named(xs, k) :: exists i | 0 <= i < |xs| :: xs[i].intensity == k && xs[i].name == n
  {
    if xs != [] {
      NamedMembers(xs[1..], k);
      forall n | n in Named(xs, k)
        ensures exists i | 0 <= i < |xs| :: xs[i].intensity == k && xs[i].name == n
      {
        if !(xs[0].intensity == k && xs[0].name == n) {
          assert n in Named(xs[1..], k);
          var i :| 0 <= i < |xs[1..]| && xs[1..][i].intensity == k && xs[1..][i].name == n;
          assert xs[i + 1] == xs[1..][i];
        }
      }
      forall i | 0 <= i < |xs| && xs[i].intensity == k
        ensures xs[i].name in Named(xs, k)
      {
        if i > 0 {
          assert xs[i] == xs[1..][i - 1];
        }
      }
    }
  }

  // --------------------------------------------------------- property type

  /** `ap\b` */
  predicate ApWord(lt: string) {
    exists i | 0 <= i <= |lt| - 2 :: OccursAt(lt, "ap", i) && WordEndsAt(lt, i + 2)
  }

  const HouseWords: seq<string> := ["casa", "sobrado", "residencial"]
  const StudioWords: seq<string> := ["studio", "loft", "kitnet", "kitchenette"]
  const PenthouseWords: seq<string> := ["cobertura", "cobert", "penthouse"]

  /** The first keyword group that matches names the type. */
  function TypeOf(lt: string): Option<string> {
    if Contains(lt, "apartamento") || Contains(lt, "apto") || ApWord(lt) then Some("apartamento")
    else if ContainsAny(lt, HouseWords) then Some("casa")
    else if ContainsAny(lt, StudioWords) then Some("studio")
    else if ContainsAny(lt, PenthouseWords) then Some("cobertura")
    else None
  }

  function PropertyType(lt: string, field: string, lead: map<string, Value>): (r: Option<string>)
    ensures r.Some? ==> field == "propertyType" || !Truthy(Get(lead, "propertyType"))
    ensures r.Some? ==> r.value == "apartamento" || r.value == "casa" || r.value == "studio" || r.value == "cobertura"
  {
    if field == "propertyType" || !Truthy(Get(lead, "propertyType")) then TypeOf(lt) else None
  }

  /** An apartment word beats every other type word, a house word beats studio and penthouse words. */
  lemma TypePrecedence(lt: string)
    ensures Contains(lt, "apartamento") ==> TypeOf(lt) == Some("apartamento")
    ensures !Contains(lt, "apartamento") && !Contains(lt, "apto") && !ApWord(lt) && ContainsAny(lt, HouseWords)
            ==> TypeOf(lt) == Some("casa")
    ensures TypeOf(lt) == Some("cobertura") ==> !ContainsAny(lt, HouseWords) && !ContainsAny(lt, StudioWords)
    ensures TypeOf(lt) == None
            <==> !Contains(lt, "apartamento") && !Contains(lt, "apto") && !ApWord(lt)
                 && !ContainsAny(lt, HouseWords) && !ContainsAny(lt, StudioWords) && !ContainsAny(lt, PenthouseWords)
  {
  }

  // ------------------------------------------------------ rooms and sizes

  /** Some word of `ws` starts at `k`. */
  predicate OccursAny(s: string, ws: seq<string>, k: nat) {
    exists j | 0 <= j < |ws| :: OccursAt(s, ws[j], k)
  }

  /** `(\d+)\s*(?:w0|w1|...)` at `i`: the number read. */
  function CountAt(s: string, words: seq<string>, i: nat): (r: Option<nat>)
  {
    if i < |s| && IsDigit(s[i]) then
      var e := DigitsEnd(s, i);
      if OccursAny(s, words, SpacesEnd(s, e)) then Some(ParseNat(s[i..e])) else None
    else None
  }

  function CountMatcher(s: string, words: seq<string>): nat -> Option<nat> {
    (i: nat) => CountAt(s, words, i)
  }

  /** The number of the leftmost match of `(\d+)\s*(?:w0|w1|...)`. */
  function FirstCount(s: string, words: seq<string>): (r: Option<nat>)
    ensures r.Some? ==> exists i | 0 <= i <= |s| :: CountAt(s, words, i) == r
  {
    match Leftmost(|s|, 0, CountMatcher(s, words))
    case Some((_, n)) => Some(n)
    case None => None
  }

  /** `quarto|dormitório|dorm`: "dormitório" begins with "dorm", so two words suffice. */
  const BedroomNouns: seq<string> := ["quarto", "dorm"]
  const BedroomWordNouns: seq<string> := ["quarto", "dormitório"]
  const BathroomNouns: seq<string> := ["banheiro", "wc", "lavabo"]
  const AreaUnits: seq<string> := ["m²", "metros", "m2"]

  const NumberWords: seq<string> := ["um", "dois", "três", "quatro", "cinco", "seis"]

  /** `(um|dois|três|quatro|cinco|seis)\s*(?:quarto|dormitório)` at `i`, trying word `n` onwards. */
  function NumberWordAt(s: string, i: nat, n: nat): (r: Option<nat>)
    requires n <= |NumberWords|
    decreases |NumberWords| - n
    ensures r.Some? ==> 1 <= r.value <= 6
  {
    if n == |NumberWords| then None
    else if OccursAt(s, NumberWords[n], i) && OccursAny(s, BedroomWordNouns, SpacesEnd(s, i + |NumberWords[n]|)) then
      Some(n + 1)
    else NumberWordAt(s, i, n + 1)
  }

  function NumberWordMatcher(s: string): nat -> Option<nat> {
    (i: nat) => NumberWordAt(s, i, 0)
  }

  /**
   * The explicit count: the digits before a bedroom word, else a number
   * word before one.  `parseInt` of "0" is falsy and gives `null`, which is
   * kept as no count.
   */
  function ExplicitBedrooms(lt: string): (r: Option<nat>)
    ensures r.Some? ==> r.value > 0
  {
    match FirstCount(lt, BedroomNouns)
    case Some(n) => if n != 0 then Some(n) else None
    case None =>
      match Leftmost(|lt|, 0, NumberWordMatcher(lt))
      case Some((_, n)) => Some(n)
      case None => None
  }

  /** The bedroom rule: a household description, when present, wins over the explicit count. */
  function Bedrooms(lt: string, field: string, lead: map<string, Value>): (r: Option<nat>)
  {
    if field == "bedrooms" || !Truthy(Get(lead, "bedrooms")) then
      match L.HouseholdBedrooms(lt)
      case Some(n) => Some(n)
      case None => ExplicitBedrooms(lt)
    else None
  }

  /** The rule runs only for the bedrooms question or while no count is known; the household wins. */
  lemma BedroomsRule(lt: string, field: string, lead: map<string, Value>)
    ensures Bedrooms(lt, field, lead).Some? ==> field == "bedrooms" || !Truthy(Get(lead, "bedrooms"))
    ensures (field == "bedrooms" || !Truthy(Get(lead, "bedrooms"))) && L.HouseholdBedrooms(lt).Some?
            ==> Bedrooms(lt, field, lead) == L.HouseholdBedrooms(lt)
    ensures (field == "bedrooms" || !Truthy(Get(lead, "bedrooms"))) && L.HouseholdBedrooms(lt).None?
            ==> Bedrooms(lt, field, lead) == ExplicitBedrooms(lt)
    ensures Bedrooms(lt, field, lead).Some? ==> 1 <= Bedrooms(lt, field, lead).value
  {
  }

  // ------------------------------------------------------------- location

  /** Spelling found in the utterance, canonical city name; tried in this order. */
  const Cities: seq<(string, string)> :=
    [("porto alegre", "Porto Alegre"), ("canoas", "Canoas"), ("viamão", "Viamão"), ("gravataí", "Gravataí"),
     ("cachoeirinha", "Cachoeirinha"), ("são leopoldo", "São Leopoldo"), ("novo hamburgo", "Novo Hamburgo"),
     ("alvorada", "Alvorada"), ("sapucaia do sul", "Sapucaia do Sul"), ("esteio", "Esteio"),
     ("guaíba", "Guaíba"), ("eldorado do sul", "Eldorado do Sul")]

  const Zones: seq<string> := ["norte", "sul", "leste", "oeste", "centro"]

  /** The zone word of `(norte|sul|leste|oeste|centro)` at `k`, trying word `n` onwards. */
  function ZoneWordAt(s: string, k: nat, n: nat): (r: Option<string>)
    decreases |Zones| - n
    ensures r.Some? ==> r.value in Zones
  {
    if n >= |Zones| then None
    else if OccursAt(s, Zones[n], k) then Some(Zones[n])
    else ZoneWordAt(s, k, n + 1)
  }

  /** `zona\s*(norte|sul|leste|oeste|centro)` at `i`. */
  function ZoneAt(s: string, i: nat): (r: Option<string>)
    ensures r.Some? ==> r.value in Zones
  {
    if OccursAt(s, "zona", i) then ZoneWordAt(s, SpacesEnd(s, i + 4), 0) else None
  }

  function ZoneMatcher(s: string): nat -> Option<string> {
    (i: nat) => ZoneAt(s, i)
  }

  function FirstZone(lt: string): (r: Option<string>)
    ensures r.Some? ==> r.value in Zones
  {
    match Leftmost(|lt|, 0, ZoneMatcher(lt))
    case Some((_, z)) => Some(z)
    case None => None
  }

  /** The neighbourhood phrase is kept, trimmed, when it is 3 to 29 UTF-16 units long before trimming. */
  function Neighborhood(capture: Option<string>): (r: Option<string>)
    ensures r.Some? ==> capture.Some? && 2 < Utf16Length(capture.value) < 30 && r.value == Trim(capture.value)
    ensures capture.Some? && 2 < Utf16Length(capture.value) < 30 ==> r.Some?
  {
    match capture
    case Some(c) => if 2 < Utf16Length(c) < 30 then Some(Trim(c)) else None
    case None => None
  }

  predicate LocationRuleOn(field: string, lead: map<string, Value>) {
    field == "location" || !Truthy(Get(lead, "location"))
  }

  // --------------------------------------------------------------- budget

  /** `unit.includes('milhão')` decides between millions and thousands. */
  function UnitFactor(unit: string): nat {
    if Contains(unit, "milhão") then L.MillionFactor else L.ThousandFactor
  }

  /**
   * `(?:mínimo|a partir de|no mínimo)\s*(?:de\s*)?(?:r\$\s*)?NUM\s*(milh[oõ]es?|mil|k)?`
   * at `i`: the number and the unit captured, if any.
   */
  function MinimumAt(s: string, i: nat): (r: Option<(Decimal, Option<string>)>)
    ensures r.Some? ==> WellFormed(r.value.0)
  {
    var k :=
      if OccursAt(s, "mínimo", i) then i + 6
      else if OccursAt(s, "a partir de", i) then i + 11
      else if OccursAt(s, "no mínimo", i) then i + 9
      else 0;
    if k == 0 || k > |s| then None
    else
      var p := SpacesEnd(s, k);
      var q := if OccursAt(s, "de", p) then SpacesEnd(s, p + 2) else p;
      var t := if OccursAt(s, "r$", q) then SpacesEnd(s, q + 2) else q;
      match DecimalAt(s, t)
      case Some((d, j)) => Some((d, UnitCapture(s, SpacesEnd(s, j))))
      case None => None
  }

  function MinimumMatcher(s: string): nat -> Option<(Decimal, Option<string>)> {
    (i: nat) => MinimumAt(s, i)
  }

  function FirstMinimum(lt: string): (r: Option<(Decimal, Option<string>)>)
    ensures r.Some? ==> WellFormed(r.value.0)
  {
    match Leftmost(|lt|, 0, MinimumMatcher(lt))
    case Some((_, m)) => Some(m)
    case None => None
  }

  /** No unit leaves the number as it is; a unit scales it by `UnitFactor`. */
  function MinimumValue(m: (Decimal, Option<string>)): int
    requires WellFormed(m.0)
  {
    match m.1
    case None => Scale(m.0, 1)
    case Some(u) => Scale(m.0, UnitFactor(u))
  }

  /** The single amount: with a plural million word only the million pattern is tried. */
  function SingleBudget(lt: string): (r: Option<Budget>)
    ensures r.Some? ==> r.value.min.None? && r.value.max.Some?
  {
    if HasMillionWord(lt) then
      match FirstMillion(lt)
      case Some(d) => Some(Budget(None, Some(Scale(d, L.MillionFactor))))
      case None => None
    else
      match FirstThousand(lt)
      case Some(d) => Some(Budget(None, Some(Scale(d, L.ThousandFactor))))
      case None => None
  }

  /** A range replaces the single amount; its factor comes from the captured unit. */
  function RangedBudget(lt: string): (r: Option<Budget>)
  {
    match FirstRange(lt, Captured(""))
    case Some(m) =>
      var f := UnitFactor(m.unit);
      Some(Budget(Some(Scale(m.low, f)), Some(Scale(m.high, f))))
    case None => SingleBudget(lt)
  }

  /** The budget rule: the single amount or the range, then the minimum sets `min` and keeps `max`. */
  function CriteriaBudget(lt: string, field: string): (r: Option<Budget>)
    ensures r.Some? ==> field == "budget.range" || L.MentionsMoney(lt)
  {
    if field == "budget.range" || L.MentionsMoney(lt) then
      match FirstMinimum(lt)
      case Some(m) =>
        var b := if RangedBudget(lt).Some? then RangedBudget(lt).value else Budget(None, None);
        Some(b.(min := Some(MinimumValue(m))))
      case None => RangedBudget(lt)
    else None
  }

  /** The captured range unit is `milh[oõ]es?`, `mil` or `k`, and none of them contains "milhão". */
  lemma UnitCaptureNotMilhao(s: string, k: nat)
    requires UnitCapture(s, k).Some?
    ensures !Contains(UnitCapture(s, k).value, "milhão")
  {
    var u := UnitCapture(s, k).value;
    if |u| >= 6 {
      assert u[..6] == s[k..k + 6];
      assert u[1] == 'i' && (u[4] == 'o' || u[4] == 'õ') && |u| <= 7;
      forall i | 0 <= i <= |u| - 6 ensures !OccursAt(u, "milhão", i) {
        if i == 0 {
          assert u[0..6][4] == u[4];
        } else {
          assert u[1..7][0] == u[1];
        }
      }
    }
  }

  /** What the tail of a range captures as its unit never contains "milhão". */
  lemma {:induction false} RangeTailUnit(s: string, j: nat, n: nat)
    requires j <= |s|
    ensures RangeTail(s, j, Captured(""), n).Some? ==> !Contains(RangeTail(s, j, Captured(""), n).value.1, "milhão")
    decreases |Separators| - n
  {
    if n < |Separators| {
      RangeTailUnit(s, j, n + 1);
      forall k | UnitCapture(s, k).Some? ensures !Contains(UnitCapture(s, k).value, "milhão") {
        UnitCaptureNotMilhao(s, k);
      }
    }
  }

  /**
   * Whatever its unit, a range is scaled by a thousand: "1 a 2 milhões"
   * captures "milhões", which does not contain "milhão".
   */
  lemma RangeScalesByThousand(lt: string)
    requires FirstRange(lt, Captured("")).Some?
    ensures UnitFactor(FirstRange(lt, Captured("")).value.unit) == L.ThousandFactor
  {
    var r := Leftmost(|lt|, 0, RangeMatcher(lt, Captured("")));
    var p := r.value.0;
    assert RangeAt(lt, p, Captured("")) == Some(r.value.1);
    var j := DecimalAt(lt, p).value.1;
    RangeTailUnit(lt, j, 0);
  }

  /** No minimum phrase in a text without `í` or `p`: each of its openings holds one. */
  lemma NoMinimumWithout(s: string)
    requires forall k :: 0 <= k < |s| ==> s[k] != 'í' && s[k] != 'p'
    ensures FirstMinimum(s).None?
  {
    AbsentChar(s, "mínimo", 1);
    AbsentChar(s, "a partir de", 2);
    AbsentChar(s, "no mínimo", 4);
    LeftmostNone(|s|, 0, MinimumMatcher(s));
  }

  /** "até N milho" yields no budget here either: it is no million word, and `mil` in it is not a whole word. */
  lemma MilhoIgnored(n: nat, field: string)
    ensures CriteriaBudget("até " + ShowNat(n) + " milho", field).None?
  {
    var l := |ShowNat(n)|;
    var s := "até " + ShowNat(n) + " milho";
    L.MilhoChars(n);
    L.MilhoIgnored(n, field);
    NoMinimumWithout(s);
    forall j | 0 <= j <= |s| ensures RangeAt(s, j, Captured("")).None? {
      NoSeparatorNoRange(s, j, Captured(""));
    }
    FirstRangeNone(s, Captured(""));
    L.NoThousandWordBeforeH(s, l);
  }

  /** A minimum sets `min` and keeps the `max` of the range or of the single amount. */
  lemma MinimumKeepsMax(lt: string, field: string)
    requires field == "budget.range" || L.MentionsMoney(lt)
    requires FirstMinimum(lt).Some?
    ensures CriteriaBudget(lt, field).Some?
    ensures CriteriaBudget(lt, field).value.min == Some(MinimumValue(FirstMinimum(lt).value))
    ensures CriteriaBudget(lt, field).value.max
            == (if RangedBudget(lt).Some? then RangedBudget(lt).value.max else None)
  {
  }

  /** Without a minimum, a range wins over the single amount. */
  lemma RangeReplacesSingle(lt: string, field: string)
    requires field == "budget.range" || L.MentionsMoney(lt)
    requires FirstMinimum(lt).None? && FirstRange(lt, Captured("")).Some?
    ensures CriteriaBudget(lt, field) == Some(Budget(
      Some(Scale(FirstRange(lt, Captured("")).value.low, L.ThousandFactor)),
      Some(Scale(FirstRange(lt, Captured("")).value.high, L.ThousandFactor))))
  {
    RangeScalesByThousand(lt);
  }

  // ------------------------------------------------------------ the record

  const TransportWords: seq<string> := ["metrô", "metro", "ônibus", "onibus", "transporte", "estação", "estacao"]
  const SchoolWords: seq<string> := ["escola", "colégio", "colegio", "educação", "educacao"]
  const NewWords: seq<string> := ["novo", "recente", "lançamento", "lancamento"]
  const UsedWords: seq<string> := ["usado", "antigo", "reformado"]

  function PropertyAge(lt: string): Option<string> {
    if ContainsAny(lt, NewWords) then Some("new")
    else if ContainsAny(lt, UsedWords) then Some("used")
    else None
  }

  /** The proximity phrase, trimmed, when the utterance says "perto" or "próximo". */
  function Proximity(lt: string, capture: Option<string>): (r: Option<string>)
    ensures r.Some? ==> ContainsAny(lt, ["perto", "próximo"])
  {
    if ContainsAny(lt, ["perto", "próximo"]) && capture.Some? then Some(Trim(capture.value)) else None
  }

  /** `extractAllCriteria(text, field)` with `leadData` as `lead`. */
  function ExtractAllCriteria(text: Value, field: string, lead: map<string, Value>, captures: Captures): (r: Criteria)
  {
    if !text.Str? || text.s == "" then NoCriteria
    else
      var s := text.s;
      var lt := Lower(s);
      var where := LocationRuleOn(field, lead);
      var city := if where then L.FirstCity(lt, Cities, 0) else None;
      var amenities := AmenitiesFrom(s, AmenityTable);
      Criteria(
        PropertyType(lt, field, lead),
        Bedrooms(lt, field, lead),
        FirstCount(lt, BathroomNouns),
        city, city,
        if where then FirstZone(lt) else None,
        if where then Neighborhood(captures.neighborhood) else None,
        CriteriaBudget(lt, field),
        amenities,
        Named(amenities, Essential), Named(amenities, High), Named(amenities, Medium), Named(amenities, Exclusion),
        Proximity(lt, captures.proximity),
        ContainsAny(lt, TransportWords),
        ContainsAny(lt, SchoolWords),
        FirstCount(lt, AreaUnits),
        PropertyAge(lt))
  }

  /** Anything but a non-empty string yields `{}`. */
  lemma NotTextNoCriteria(text: Value, field: string, lead: map<string, Value>, captures: Captures)
    requires !text.Str? || text.s == ""
    ensures ExtractAllCriteria(text, field, lead, captures) == NoCriteria
  {
  }

  /** The first city of the table found sets `location` and `city` to the same canonical name. */
  lemma CityAndLocationAgree(s: string, field: string, lead: map<string, Value>, captures: Captures)
    requires s != ""
    ensures var r := ExtractAllCriteria(Str(s), field, lead, captures);
      r.location == r.city
      && (r.city.Some? ==>
            LocationRuleOn(field, lead)
            && exists k | 0 <= k < |Cities| ::
                 Contains(Lower(s), Cities[k].0) && r.city.value == Cities[k].1
                 && forall j | 0 <= j < k :: !Contains(Lower(s), Cities[j].0))
  {
  }

  /** The four lists partition the amenities found. */
  lemma AmenityListsPartition(s: string, field: string, lead: map<string, Value>, captures: Captures)
    requires s != ""
    ensures var r := ExtractAllCriteria(Str(s), field, lead, captures);
      |r.essentialAmenities| + |r.highPriorityAmenities| + |r.mediumPriorityAmenities| + |r.excludedAmenities|
      == |r.amenities|
  {
    PartitionSizes(AmenitiesFrom(s, AmenityTable));
  }
}
