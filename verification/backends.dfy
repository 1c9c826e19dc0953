/**
 * The registries of allowed clients: OmniAuth::Smart::Backend with its array
 * implementation, and the older OmniauthSmartBackend pair.
 */
module Backends {
  import opened Wrappers
  import opened Values
  import opened Clients

  /** The index of the first client registered for `issuer`, if any. */
  function FirstIndex(clients: seq<Client>, issuer: Option<string>): (r: Option<nat>)
    ensures r.Some? ==> r.value < |clients| && clients[r.value].issuer == issuer
    ensures r.Some? ==> forall j :: 0 <= j < r.value ==> clients[j].issuer != issuer
    ensures r.None? <==> forall j :: 0 <= j < |clients| ==> clients[j].issuer != issuer
    decreases |clients|
  {
    if |clients| == 0 then None
    else if clients[0].issuer == issuer then Some(0)
    else
      match FirstIndex(clients[1..], issuer)
      case None => None
      case Some(i) => Some(i + 1)
  }

  /**
   * `Array#find` by issuer: the first client, in array order, whose issuer equals the query
   * (a client without an issuer matches a `nil` query).
   */
  function Find(clients: seq<Client>, issuer: Option<string>): (r: Option<Client>)
    ensures r.Some? ==> r.value.issuer == issuer
    ensures r.None? <==> forall j :: 0 <= j < |clients| ==> clients[j].issuer != issuer
    ensures r.Some? ==>
      exists i :: 0 <= i < |clients| && clients[i] == r.value && forall j :: 0 <= j < i ==> clients[j].issuer != issuer
  {
    match FirstIndex(clients, issuer)
    case None => None
    case Some(i) => Some(clients[i])
  }

  /** OmniAuth::Smart::Backend (abstract) and OmniAuth::Smart::BackendArray. */
  datatype Backend = AbstractBackend | BackendArray(clients: seq<Client>)

  const AbstractMessage := "You need to implement find_by_issuer in your subclass"

  /**
   * `find_by_issuer(issuer, params:)`: the abstract class always raises; the array class
   * searches its clients and ignores every other argument.
   */
  function FindByIssuer(backend: Backend, issuer: Option<string>, params: Value): (r: Result<Option<Client>, Error>)
    ensures backend.AbstractBackend? ==> r == Failure(AbstractMethodError(AbstractMessage))
    ensures backend.BackendArray? ==>
      && r.Success?
      && (r.value.Some? ==> r.value.value.issuer == issuer)
      && (r.value.None? <==> forall j :: 0 <= j < |backend.clients| ==> backend.clients[j].issuer != issuer)
      && r == Success(Find(backend.clients, issuer))
  {
    match backend
    case AbstractBackend => Failure(AbstractMethodError(AbstractMessage))
    case BackendArray(clients) => Success(Find(clients, issuer))
  }

  /** The extra arguments of `find_by_issuer` never change its answer. */
  lemma ParamsIgnored(backend: Backend, issuer: Option<string>, p: Value, q: Value)
    ensures FindByIssuer(backend, issuer, p) == FindByIssuer(backend, issuer, q)
  {
  }

  /** OmniauthSmartBackend (abstract) and OmniauthSmartBackendArray, whose lookup takes only the issuer. */
  datatype SmartBackend = AbstractSmartBackend | SmartBackendArray(clients: seq<Client>)

  function FindByIssuerOnly(backend: SmartBackend, issuer: Option<string>): (r: Result<Option<Client>, Error>)
    ensures backend.AbstractSmartBackend? ==> r == Failure(AbstractMethodError(AbstractMessage))
    ensures backend.SmartBackendArray? ==>
      && r.Success?
      && (r.value.Some? ==> r.value.value.issuer == issuer)
      && (r.value.None? <==> forall j :: 0 <= j < |backend.clients| ==> backend.clients[j].issuer != issuer)
      && r == Success(Find(backend.clients, issuer))
  {
    match backend
    case AbstractSmartBackend => Failure(AbstractMethodError(AbstractMessage))
    case SmartBackendArray(clients) => Success(Find(clients, issuer))
  }

  /** With several clients for one issuer, the earliest one in the array is answered. */
  lemma FirstRegistrationWins(clients: seq<Client>, i: nat, issuer: Option<string>)
    requires i < |clients| && clients[i].issuer == issuer
    requires forall j :: 0 <= j < i ==> clients[j].issuer != issuer
    ensures Find(clients, issuer) == Some(clients[i])
  {
  }
}
