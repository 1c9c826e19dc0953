/**
 * The launch session (OmniauthSmartSession): six entries of the host's session store that
 * track one pending launch. States: absent, "launching" (after `launching`), "launched"
 * (after `launched`).
 */
module Session {
  import opened Values
  import opened Clients
  import Conformance

  /** The host's session store; an absent key reads as `nil`. */
  type Store = map<string, Value>

  const IssuerKey := "smart_issuer"
  const StateIdKey := "smart_state_id"
  const StatusKey := "smart_status"
  const AuthorizeUrlKey := "smart_authorize_url"
  const TokenUrlKey := "smart_token_url"
  const ScopeRequestedKey := "smart_scope_requested"

  /** The keys the launch session owns. */
  const LaunchKeys := {IssuerKey, StateIdKey, StatusKey, AuthorizeUrlKey, TokenUrlKey, ScopeRequestedKey}

  const StatusLaunching := "launching"
  const StatusLaunched := "launched"

  function Issuer(s: Store): Value { Get(s, IssuerKey) }
  function StateId(s: Store): Value { Get(s, StateIdKey) }
  function Status(s: Store): Value { Get(s, StatusKey) }
  function AuthorizeUrl(s: Store): Value { Get(s, AuthorizeUrlKey) }
  function TokenUrl(s: Store): Value { Get(s, TokenUrlKey) }
  function ScopeRequested(s: Store): Value { Get(s, ScopeRequestedKey) }

  /**
   * `launching(client, conformance, scope_requested)`: a new pending launch under the
   * fresh `stateId` (the `SecureRandom.uuid` the source draws), overwriting any earlier one.
   */
  function Launching(s: Store, client: Client, conformance: Conformance.Info, scope: string, stateId: string): (s': Store)
    ensures StateId(s') == Str(stateId)
    ensures Status(s') == Str(StatusLaunching)
    ensures AuthorizeUrl(s') == conformance.authorizeUrl
    ensures TokenUrl(s') == conformance.tokenUrl
    ensures Issuer(s') == FromOption(client.issuer)
    ensures ScopeRequested(s') == Str(scope)
    ensures s'.Keys == s.Keys + LaunchKeys
    ensures forall k :: k in s && k !in LaunchKeys ==> s'[k] == s[k]
  {
    s[StateIdKey := Str(stateId)]
     [StatusKey := Str(StatusLaunching)]
     [AuthorizeUrlKey := conformance.authorizeUrl]
     [TokenUrlKey := conformance.tokenUrl]
     [IssuerKey := FromOption(client.issuer)]
     [ScopeRequestedKey := Str(scope)]
  }

  /** The answer of `is_launching?`: `{result: true}` or one of its two error messages. */
  datatype LaunchCheck = Ok | InvalidStateId | InvalidStatus(status: Value)

  /**
   * `is_launching?(request_state)`: the request's state must equal the stored state id
   * (checked first), and then the stored status must be "launching". A missing request
   * state is `nil`, and so is a missing stored one.
   */
  function IsLaunching(s: Store, requestState: Value): (r: LaunchCheck)
    ensures r.Ok? <==> requestState == StateId(s) && Status(s) == Str(StatusLaunching)
    ensures requestState != StateId(s) ==> r == InvalidStateId
    ensures r.InvalidStatus? ==> requestState == StateId(s) && r.status == Status(s) && r.status != Str(StatusLaunching)
    ensures requestState == StateId(s) && Status(s) != Str(StatusLaunching) ==> r == InvalidStatus(Status(s))
  {
    if requestState != StateId(s) then InvalidStateId
    else if Status(s) != Str(StatusLaunching) then InvalidStatus(Status(s))
    else Ok
  }

  /** `launched`: the status becomes "launched"; no other entry changes. */
  function Launched(s: Store): (s': Store)
    ensures Status(s') == Str(StatusLaunched)
    ensures s'.Keys == s.Keys + {StatusKey}
    ensures forall k :: k in s && k != StatusKey ==> s'[k] == s[k]
  {
    s[StatusKey := Str(StatusLaunched)]
  }

  // ---------------------------------------------------------------------------------------
  // Properties

  /** After `launching`, exactly the fresh state id passes the check. */
  lemma LaunchingAcceptsOnlyItsStateId(s: Store, client: Client, conformance: Conformance.Info, scope: string,
                                       stateId: string, candidate: Value)
    ensures IsLaunching(Launching(s, client, conformance, scope, stateId), candidate).Ok?
        <==> candidate == Str(stateId)
    ensures candidate != Str(stateId)
        ==> IsLaunching(Launching(s, client, conformance, scope, stateId), candidate) == InvalidStateId
  {
  }

  /** After `launched`, no state passes any more; the launch's own one reports the status. */
  lemma LaunchedRefusesReplay(s: Store, candidate: Value)
    ensures !IsLaunching(Launched(s), candidate).Ok?
    ensures candidate == StateId(s) ==> IsLaunching(Launched(s), candidate) == InvalidStatus(Str(StatusLaunched))
  {
    assert StateId(Launched(s)) == StateId(s);
  }

  /** A second launch under a different id makes the first id an invalid state. */
  lemma RelaunchInvalidatesEarlierState(s: Store, c1: Client, i1: Conformance.Info, scope1: string, id1: string,
                                        c2: Client, i2: Conformance.Info, scope2: string, id2: string)
    requires id1 != id2
    ensures IsLaunching(Launching(Launching(s, c1, i1, scope1, id1), c2, i2, scope2, id2), Str(id1)) == InvalidStateId
  {
  }

  /**
   * An empty session never passes: a missing state matches the missing state id and
   * then fails on the missing status; any other state fails on the state id.
   */
  lemma EmptySessionNeverLaunching(candidate: Value)
    ensures IsLaunching(map[], candidate) == (if candidate == Nil then InvalidStatus(Nil) else InvalidStateId)
  {
  }
}
