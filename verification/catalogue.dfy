/**
 * How `database-expanded.js` builds the catalogue: `createImovel` stamps
 * each new listing with the next id of a module-level counter, the new
 * listings are appended to the base ones, and a pass over the combined
 * array gives every listing without an operation the operation "venda".
 *
 * A listing is a plain JavaScript object, kept as a map from field names
 * to values; the literal contents of the listings are not modelled.
 */
module Catalogue {

  import opened Json

  type Record = map<string, Value>

  /** The counter's first value: the base catalogue holds ids 1 to 50. */
  const FirstNewId := 51

  /**
   * `{ id: currentId, ...data, disponivel: true }`: later entries of the
   * object literal win, so an `id` in `data` replaces the counter's value
   * and `disponivel` is always true.
   */
  function Created(data: Record, id: int): (r: Record)
    ensures r.Keys == data.Keys + {"id", "disponivel"}
    ensures r["disponivel"] == Bool(true)
    ensures r["id"] == (if "id" in data then data["id"] else Num(id))
    ensures forall k | k in data && k != "disponivel" :: r[k] == data[k]
  {
    map["id" := Num(id)] + data + map["disponivel" := Bool(true)]
  }

  /** The module-level `currentId` counter behind `createImovel`. */
  class IdCounter {
    var currentId: int

    constructor()
      ensures currentId == FirstNewId
    {
      currentId := FirstNewId;
    }

    /** `createImovel(data)`: the listing gets the current id, then the counter moves on by one. */
    method CreateImovel(data: Record) returns (r: Record)
      modifies this
      ensures r == Created(data, old(currentId))
      ensures currentId == old(currentId) + 1
    {
      r := Created(data, currentId);
      currentId := currentId + 1;
    }
  }

  /**
   * The `novosImoveis` array literal: one `createImovel` call per listing,
   * evaluated left to right, so the listings get consecutive ids.
   */
  method CreateAll(counter: IdCounter, datas: seq<Record>) returns (novos: seq<Record>)
    modifies counter
    ensures counter.currentId == old(counter.currentId) + |datas|
    ensures |novos| == |datas|
    ensures forall i | 0 <= i < |datas| :: novos[i] == Created(datas[i], old(counter.currentId) + i)
  {
    novos := [];
    var i := 0;
    while i < |datas|
      invariant 0 <= i <= |datas|
      invariant counter.currentId == old(counter.currentId) + i
      invariant |novos| == i
      invariant forall j | 0 <= j < i :: novos[j] == Created(datas[j], old(counter.currentId) + j)
    {
      var r := counter.CreateImovel(datas[i]);
      novos := novos + [r];
      i := i + 1;
    }
  }

  /**
   * `novosImoveis`, built from a counter at its initial value: the i-th new
   * listing is available and carries id 51 + i unless its data names an id.
   */
  method NovosImoveis(datas: seq<Record>) returns (novos: seq<Record>)
    ensures |novos| == |datas|
    ensures forall i | 0 <= i < |datas| :: novos[i] == Created(datas[i], FirstNewId + i)
    ensures forall i | 0 <= i < |datas| :: "disponivel" in novos[i] && novos[i]["disponivel"] == Bool(true)
    ensures forall i | 0 <= i < |datas| && "id" !in datas[i] :: "id" in novos[i] && novos[i]["id"] == Num(FirstNewId + i)
  {
    var counter := new IdCounter();
    novos := CreateAll(counter, datas);
  }

  // ------------------------------------------------------------ defaulting

  /** The body of the `forEach`: `if (!imovel.tipo_operacao) imovel.tipo_operacao = 'venda'`. */
  function WithOperation(r: Record): (d: Record)
  {
    if Truthy(Get(r, "tipo_operacao")) then r else r["tipo_operacao" := Str("venda")]
  }

  /** Only a missing or falsy operation is set, to "venda"; every other field stays as it was. */
  lemma WithOperationChangesOnlyOperation(r: Record)
    ensures WithOperation(r).Keys == r.Keys + {"tipo_operacao"}
    ensures forall k | k in r && k != "tipo_operacao" :: WithOperation(r)[k] == r[k]
    ensures Truthy(Get(r, "tipo_operacao")) ==> WithOperation(r) == r
    ensures !Truthy(Get(r, "tipo_operacao")) ==> WithOperation(r)["tipo_operacao"] == Str("venda")
  {
  }

  /** After the pass every listing has a truthy operation, and a second pass changes nothing. */
  lemma WithOperationIdempotent(r: Record)
    ensures Truthy(Get(WithOperation(r), "tipo_operacao"))
    ensures WithOperation(WithOperation(r)) == WithOperation(r)
  {
  }

  /** `imoveisPOAExpandido.forEach(...)`, in place. */
  method DefaultOperations(a: array<Record>)
    modifies a
    ensures forall i | 0 <= i < a.Length :: a[i] == WithOperation(old(a[i]))
  {
    for i := 0 to a.Length
      invariant forall j | 0 <= j < i :: a[j] == WithOperation(old(a[j]))
      invariant forall j | i <= j < a.Length :: a[j] == old(a[j])
    {
      if !Truthy(Get(a[i], "tipo_operacao")) {
        a[i] := a[i]["tipo_operacao" := Str("venda")];
      }
    }
  }

  /**
   * `[...baseImoveis, ...novosImoveis]` followed by the defaulting pass:
   * the base listings come first, then the new ones, each with its
   * operation defaulted.
   */
  method Expand(base: seq<Record>, novos: seq<Record>) returns (a: array<Record>)
    ensures fresh(a)
    ensures a.Length == |base| + |novos|
    ensures forall i | 0 <= i < |base| :: a[i] == WithOperation(base[i])
    ensures forall i | 0 <= i < |novos| :: a[|base| + i] == WithOperation(novos[i])
  {
    var all := base + novos;
    a := new Record[|all|](i requires 0 <= i < |all| => all[i]);
    DefaultOperations(a);
  }
}
