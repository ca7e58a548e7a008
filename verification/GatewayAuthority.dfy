/** What a connected source may be asked for (electron/main/connected-gateway-authority.ts). */
module GatewayAuthority {

  datatype Authority = Read | Write

  const READ_METHODS: set<string> := {
    "health", "status", "agents.list", "sessions.list", "chat.history", "cron.list", "cron.runs", "tasks.list",
    "sessions.subscribe", "sessions.unsubscribe", "sessions.messages.subscribe", "sessions.messages.unsubscribe"
  }

  const WRITE_METHODS: set<string> := {"chat.send", "chat.abort", "sessions.steer", "tasks.cancel"}

  const WRITE_SCOPE := "operator.write"

  /** The scopes presented on the handshake under each authority. */
  function ScopesFor(authority: Authority): (scopes: seq<string>)
    ensures AuthorityForScopes(scopes) == authority
  {
    match authority
    case Read => ["operator.read"]
    case Write => ["operator.read", WRITE_SCOPE]
  }

  function AuthorityForScopes(scopes: seq<string>): Authority {
    if WRITE_SCOPE in scopes then Write else Read
  }

  function Narrower(left: Authority, right: Authority): Authority {
    if left == Write && right == Write then Write else Read
  }

  /** What a completed handshake buys: a report that names any scope can only narrow the ask. */
  function GrantedFrom(requested: Authority, reported: seq<string>): (granted: Authority)
    ensures granted == Write <==> requested == Write && (reported == [] || WRITE_SCOPE in reported)
  {
    if reported == [] then requested else Narrower(requested, AuthorityForScopes(reported))
  }

  /** A Gateway that reports the scopes it was shown, or no more than the scopes of one tier, narrows the ask to that tier. */
  lemma AnEchoNarrowsNothing(requested: Authority, told: Authority)
    ensures GrantedFrom(requested, ScopesFor(told)) == Narrower(requested, told)
    ensures GrantedFrom(requested, ScopesFor(requested)) == requested
  {
  }

  datatype Surface = ReadSurface | WriteSurface

  /** The guards in front of the client: which calls are formed at all. */
  predicate Admits(surface: Surface, authority: Authority, name: string) {
    match surface
    case ReadSurface => name in READ_METHODS
    case WriteSurface => name in WRITE_METHODS && authority == Write
  }
}
