/** Which installation is behind a configured source (electron/main/gateway-identity.ts). */
module GatewayIdentity {

  datatype Identity = Identity(version: string, agents: seq<string>)

  /** A different installation wears the same address exactly when the rosters share nobody. */
  predicate Drifted(previous: Identity, observed: Identity) {
    && previous.agents != []
    && (observed.agents == [] || forall id :: id in observed.agents ==> id !in previous.agents)
  }

  /** Somebody remembered was seen; an empty roster is nobody's installation in particular. */
  lemma DriftedExactlyWhenNobodyIsShared(previous: Identity, observed: Identity)
    ensures Drifted(previous, observed) <==>
      previous.agents != [] && !exists id :: id in previous.agents && id in observed.agents
  {
    if previous.agents != [] && !Drifted(previous, observed) {
      var id :| id in observed.agents && id in previous.agents;
    }
  }
}
