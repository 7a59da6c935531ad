/**
 * The listing filter of the catalogue page (`window.initFilters`) and the
 * narrower filter behind the results counter (`updateFiltersUI`).
 *
 * The URL parameters arrive already parsed: a number parameter that is
 * absent, or that `parseInt` cannot read, is `None`; the JavaScript test
 * `filters.quartos && ...` treats it, and `0`, as "no filter".
 */
module ListingFilter {

  import opened Json
  import opened Text

  /** The fields of an `imoveisPOA` listing that the filters read. */
  datatype Imovel = Imovel(
    tipo: string, quartos: int, preco: int,
    regiao: string, bairro: string, cidade: string,
    features: seq<string>)

  /** The `filters` object built from the page URL. */
  datatype Filters = Filters(
    tipo: string, quartos: Option<int>, precoMin: Option<int>, precoMax: Option<int>,
    localizacao: string, features: seq<string>)

  /** A number filter is on when it holds a truthy number. */
  predicate On(n: Option<int>) { n.Some? && n.value != 0 }

  /** `f.toLowerCase().includes(w.toLowerCase())` */
  predicate Mentions(f: string, w: string) { Contains(Lower(f), Lower(w)) }

  /** `imovel.features.some(f => ... includes(feature))` */
  predicate HasFeature(m: Imovel, feature: string) {
    exists k | 0 <= k < |m.features| :: Mentions(m.features[k], feature)
  }

  /** The callback of `imoveis.filter`, test by test in the order of the code. */
  predicate Keeps(f: Filters, m: Imovel) {
    if f.tipo != "" && m.tipo != f.tipo then false
    else if On(f.quartos) && m.quartos < f.quartos.value then false
    else if On(f.precoMin) && m.preco < f.precoMin.value then false
    else if On(f.precoMax) && m.preco > f.precoMax.value then false
    else if f.localizacao != "" && !Mentions(m.regiao, f.localizacao) && !Mentions(m.bairro, f.localizacao) then false
    else if |f.features| > 0 && !(forall i | 0 <= i < |f.features| :: HasFeature(m, f.features[i])) then false
    else true
  }

  /** The callback of the counter's `imoveis.filter`: type, bedrooms and maximum price only. */
  predicate CountKeeps(f: Filters, m: Imovel) {
    if f.tipo != "" && m.tipo != f.tipo then false
    else if On(f.quartos) && m.quartos < f.quartos.value then false
    else if On(f.precoMax) && m.preco > f.precoMax.value then false
    else true
  }

  // ---------------------------------------------------------- Array.filter

  /** `s.filter(p)` */
  function Select<T>(p: T -> bool, s: seq<T>): (r: seq<T>)
    ensures |r| <= |s|
    ensures forall x | x in r :: x in s && p(x)
    ensures forall x | x in s && p(x) :: x in r
  {
    if s == [] then []
    else if p(s[0]) then [s[0]] + Select(p, s[1..])
    else Select(p, s[1..])
  }

  /** What a weaker test keeps is a subsequence of what a stronger test keeps. */
  lemma {:induction false} SelectWeaker<T>(p: T -> bool, q: T -> bool, s: seq<T>)
    requires forall x :: p(x) ==> q(x)
    ensures Subsequence(Select(p, s), Select(q, s))
  {
    if s != [] {
      SelectWeaker(p, q, s[1..]);
    }
  }

  /** Filtering a sequence one element longer: that element is kept at the end when it passes. */
  lemma {:induction false} SelectSnoc<T>(p: T -> bool, s: seq<T>, x: T)
    ensures Select(p, s + [x]) == Select(p, s) + (if p(x) then [x] else [])
  {
    if s == [] {
      assert s + [x] == [x];
    } else {
      assert (s + [x])[1..] == s[1..] + [x];
      SelectSnoc(p, s[1..], x);
    }
  }

  /** What a filter keeps is an order-preserving subsequence of its input. */
  lemma SelectSubsequence<T>(p: T -> bool, s: seq<T>)
    ensures Subsequence(Select(p, s), s)
  {
    SelectWeaker(p, _ => true, s);
    SelectAll(s);
  }

  lemma {:induction false} SelectAll<T>(s: seq<T>)
    ensures Select(_ => true, s) == s
  {
    if s != [] {
      SelectAll(s[1..]);
    }
  }

  // ------------------------------------------------------------- the page

  /** `filteredImoveis` */
  function FilterImoveis(f: Filters, imoveis: seq<Imovel>): (r: seq<Imovel>)
    ensures forall m :: m in r <==> m in imoveis && Keeps(f, m)
  {
    Select(m => Keeps(f, m), imoveis)
  }

  /** The number shown in `.results-count` */
  function ResultsCount(f: Filters, imoveis: seq<Imovel>): (r: nat)
    ensures r <= |imoveis|
  {
    |Select(m => CountKeeps(f, m), imoveis)|
  }

  /**
   * Every listing kept meets every active filter: the same type, at least
   * the bedrooms asked for, a price within the bounds, the location in the
   * region or the neighbourhood, and every requested feature.
   */
  lemma KeptMeetsFilters(f: Filters, imoveis: seq<Imovel>, m: Imovel)
    requires m in FilterImoveis(f, imoveis)
    ensures m in imoveis
    ensures f.tipo != "" ==> m.tipo == f.tipo
    ensures On(f.quartos) ==> m.quartos >= f.quartos.value
    ensures On(f.precoMin) ==> m.preco >= f.precoMin.value
    ensures On(f.precoMax) ==> m.preco <= f.precoMax.value
    ensures f.localizacao != "" ==> Mentions(m.regiao, f.localizacao) || Mentions(m.bairro, f.localizacao)
    ensures forall i | 0 <= i < |f.features| :: HasFeature(m, f.features[i])
  {
  }

  /** Conversely, a listing meeting every active filter is kept. */
  lemma MeetingFiltersIsKept(f: Filters, imoveis: seq<Imovel>, m: Imovel)
    requires m in imoveis
    requires f.tipo != "" ==> m.tipo == f.tipo
    requires On(f.quartos) ==> m.quartos >= f.quartos.value
    requires On(f.precoMin) ==> m.preco >= f.precoMin.value
    requires On(f.precoMax) ==> m.preco <= f.precoMax.value
    requires f.localizacao != "" ==> Mentions(m.regiao, f.localizacao) || Mentions(m.bairro, f.localizacao)
    requires forall i | 0 <= i < |f.features| :: HasFeature(m, f.features[i])
    ensures m in FilterImoveis(f, imoveis)
  {
  }

  /** The result keeps the catalogue's order. */
  lemma FilterKeepsOrder(f: Filters, imoveis: seq<Imovel>)
    ensures Subsequence(FilterImoveis(f, imoveis), imoveis)
  {
    SelectSubsequence(m => Keeps(f, m), imoveis);
  }

  /** Empty strings, missing or zero numbers and an empty feature list filter nothing out. */
  predicate Inactive(f: Filters) {
    f.tipo == "" && !On(f.quartos) && !On(f.precoMin) && !On(f.precoMax)
    && f.localizacao == "" && f.features == []
  }

  lemma {:induction false} InactiveKeepsAll(f: Filters, imoveis: seq<Imovel>)
    requires Inactive(f)
    ensures FilterImoveis(f, imoveis) == imoveis
  {
    if imoveis != [] {
      InactiveKeepsAll(f, imoveis[1..]);
      assert Keeps(f, imoveis[0]);
    }
  }

  /** The city is never consulted: only the region and the neighbourhood are. */
  lemma CityIgnored(f: Filters, m: Imovel, cidade: string)
    ensures Keeps(f, m.(cidade := cidade)) == Keeps(f, m)
  {
    var n := m.(cidade := cidade);
    assert forall w :: HasFeature(n, w) == HasFeature(m, w);
  }

  /**
   * `g` is at least as strict as `f` on every filter: the same type when
   * `f` asks for one, bounds that are on and no looser, the same location,
   * and every feature of `f` among those of `g`.
   */
  predicate Tightens(f: Filters, g: Filters) {
    (f.tipo != "" ==> g.tipo == f.tipo)
    && (On(f.quartos) ==> On(g.quartos) && g.quartos.value >= f.quartos.value)
    && (On(f.precoMin) ==> On(g.precoMin) && g.precoMin.value >= f.precoMin.value)
    && (On(f.precoMax) ==> On(g.precoMax) && g.precoMax.value <= f.precoMax.value)
    && (f.localizacao != "" ==> g.localizacao == f.localizacao)
    && (forall i | 0 <= i < |f.features| :: f.features[i] in g.features)
  }

  lemma TighterKeepsLess(f: Filters, g: Filters, m: Imovel)
    requires Tightens(f, g) && Keeps(g, m)
    ensures Keeps(f, m)
  {
    forall i | 0 <= i < |f.features|
      ensures HasFeature(m, f.features[i])
    {
      var j :| 0 <= j < |g.features| && g.features[j] == f.features[i];
    }
  }

  /** Tightening the filters never enlarges the result, and keeps a subsequence of it. */
  lemma TighteningShrinks(f: Filters, g: Filters, imoveis: seq<Imovel>)
    requires Tightens(f, g)
    ensures Subsequence(FilterImoveis(g, imoveis), FilterImoveis(f, imoveis))
    ensures |FilterImoveis(g, imoveis)| <= |FilterImoveis(f, imoveis)|
  {
    forall m | Keeps(g, m) ensures Keeps(f, m) {
      TighterKeepsLess(f, g, m);
    }
    SelectWeaker(m => Keeps(g, m), m => Keeps(f, m), imoveis);
    SubsequenceLength(FilterImoveis(g, imoveis), FilterImoveis(f, imoveis));
  }

  /** The counter, which drops three of the tests, shows at least as many listings as the page. */
  lemma CountCoversResults(f: Filters, imoveis: seq<Imovel>)
    ensures |FilterImoveis(f, imoveis)| <= ResultsCount(f, imoveis)
    ensures Subsequence(FilterImoveis(f, imoveis), Select(m => CountKeeps(f, m), imoveis))
  {
    SelectWeaker(m => Keeps(f, m), m => CountKeeps(f, m), imoveis);
    SubsequenceLength(FilterImoveis(f, imoveis), Select(m => CountKeeps(f, m), imoveis));
  }
}
