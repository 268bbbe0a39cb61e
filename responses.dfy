/**
 * The records the create-point form receives from its HTTP collaborators,
 * and the projections it applies to them before storing them in state.
 */
module Responses {

  /** An item category of the backend's `items` endpoint. */
  datatype Item = Item(id: int, title: string, imageUrl: string)

  /** One element of the federal-state list of the IBGE address service. */
  datatype UfResponse = UfResponse(sigla: string)

  /** One element of the municipality list of the IBGE address service. */
  datatype CityResponse = CityResponse(nome: string)

  /** `Array.prototype.map`: `f` applied to each element, in order. */
  function Project<T, U>(f: T -> U, xs: seq<T>): (r: seq<U>)
    ensures |r| == |xs|
    ensures forall i :: 0 <= i < |xs| ==> r[i] == f(xs[i])
  {
    if xs == [] then [] else [f(xs[0])] + Project(f, xs[1..])
  }

  /** The state abbreviations shown in the UF selector: the `sigla` of every
    * element of the response, in response order. */
  function UfInitials(response: seq<UfResponse>): (r: seq<string>)
    ensures |r| == |response|
    ensures forall i :: 0 <= i < |response| ==> r[i] == response[i].sigla
  {
    Project((uf: UfResponse) => uf.sigla, response)
  }

  /** The municipality names shown in the city selector: the `nome` of every
    * element of the response, in response order. */
  function CityNames(response: seq<CityResponse>): (r: seq<string>)
    ensures |r| == |response|
    ensures forall i :: 0 <= i < |response| ==> r[i] == response[i].nome
  {
    Project((city: CityResponse) => city.nome, response)
  }
}
