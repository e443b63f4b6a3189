/**
 * Plain OAuth2 login (`OAuth<PKCE>`): like the OpenID flow, a pending session
 * is tracked under the CSRF state and consumed once by `verify_auth`, which
 * exchanges the code (attaching the PKCE verifier when there is one) and maps
 * the outcome to an auth page.
 */
module OAuth2 {
  import opened Wrappers
  import opened AuthPages

  type Token = string

  /** The authorization-request builder: the scopes added so far and the PKCE challenge, if set. */
  datatype AuthRequest = AuthRequest(csrfToken: string, scopes: seq<string>, pkceChallenge: Option<string>)

  /** The `for scope in scopes { auth_request = auth_request.add_scope(..) }` loop. */
  method AddScopes(request: AuthRequest, scopes: seq<string>) returns (r: AuthRequest)
    ensures r == request.(scopes := request.scopes + scopes)
  {
    r := request;
    var i := 0;
    while i < |scopes|
      invariant 0 <= i <= |scopes|
      invariant r == request.(scopes := request.scopes + scopes[..i])
    {
      assert scopes[..i + 1] == scopes[..i] + [scopes[i]];
      r := r.(scopes := r.scopes + [scopes[i]]);
      i := i + 1;
    }
    assert scopes[..i] == scopes;
  }

  /** A pending login: its `ready_sender`, the PKCE verifier if any, and its client. */
  datatype PendingSession = PendingSession(waiter: nat, pkceCodeVerifier: Option<string>, client: nat)

  datatype Delivery = Delivery(waiter: nat, token: Token)

  datatype Untracker = Untracker(csrfToken: string)

  /** `client.exchange_code(code)`, with the PKCE verifier attached when one was stored. */
  datatype CodeExchange = CodeExchange(client: nat, code: string, pkceCodeVerifier: Option<string>)

  /** The variants of `oauth2::RequestTokenError`. */
  datatype RequestTokenError = ServerResponse | Request | Parse | Other

  /** The page for the outcome of the exchange. */
  function ExchangePage(outcome: Result<Token, RequestTokenError>): PageKind {
    match outcome
    case Ok(_) => Success
    case Err(ServerResponse) => Invalid
    case Err(_) => InternalError
  }

  lemma ExchangePageCases(outcome: Result<Token, RequestTokenError>)
    ensures ExchangePage(outcome) == Success <==> outcome.Ok?
    ensures ExchangePage(outcome) == Invalid <==> outcome == Err(ServerResponse)
    ensures ExchangePage(outcome) == InternalError <==> outcome.Err? && outcome.error != ServerResponse
    ensures ExchangePage(outcome) != Late
  {
  }

  /** `OAuthState`. */
  class OAuthState {
    var pendingAuths: map<string, PendingSession>

    constructor ()
      ensures pendingAuths == map[]
    {
      pendingAuths := map[];
    }

    /** `track_session`: the entry is keyed by the CSRF secret. */
    method TrackSession(csrfToken: string, pkceCodeVerifier: Option<string>, client: nat, waiter: nat)
      returns (u: Untracker)
      modifies this
      ensures pendingAuths == old(pendingAuths)[csrfToken := PendingSession(waiter, pkceCodeVerifier, client)]
      ensures u == Untracker(csrfToken)
    {
      pendingAuths := pendingAuths[csrfToken := PendingSession(waiter, pkceCodeVerifier, client)];
      u := Untracker(csrfToken);
    }

    /** `untrack_session`. */
    method UntrackSession(csrfToken: string)
      modifies this
      ensures pendingAuths == old(pendingAuths) - {csrfToken}
    {
      pendingAuths := pendingAuths - {csrfToken};
    }

    /** `Untracker::drop`. */
    method DropUntracker(u: Untracker)
      modifies this
      ensures pendingAuths == old(pendingAuths) - {u.csrfToken}
    {
      UntrackSession(u.csrfToken);
    }

    /**
     * `verify_auth`: an unknown state gets the late page and no exchange; a
     * known one is removed (one-shot), its code exchanged and the outcome mapped.
     */
    method VerifyAuth(code: string, csrfToken: string, pages: AuthPages, outcome: Result<Token, RequestTokenError>)
      returns (page: string, exchange: Option<CodeExchange>, delivered: Option<Delivery>)
      modifies this
      ensures pendingAuths == old(pendingAuths) - {csrfToken}
      ensures csrfToken !in old(pendingAuths) ==>
        pendingAuths == old(pendingAuths) && page == pages.BorrowLate() && exchange == None && delivered == None
      ensures csrfToken in old(pendingAuths) ==>
        var pending := old(pendingAuths)[csrfToken];
        && exchange == Some(CodeExchange(pending.client, code, pending.pkceCodeVerifier))
        && page == pages.Page(ExchangePage(outcome))
        && delivered == (if outcome.Ok? then Some(Delivery(pending.waiter, outcome.value)) else None)
    {
      if csrfToken !in pendingAuths {
        return pages.late, None, None;
      }
      var pending := pendingAuths[csrfToken];
      pendingAuths := pendingAuths - {csrfToken};
      var request := CodeExchange(pending.client, code, None);
      if pending.pkceCodeVerifier.Some? {
        request := request.(pkceCodeVerifier := pending.pkceCodeVerifier);
      }
      exchange := Some(request);
      match outcome
      case Ok(token) =>
        delivered := Some(Delivery(pending.waiter, token));
        page := pages.success;
      case Err(e) =>
        delivered := None;
        page := if e.ServerResponse? then pages.invalid else pages.internalError;
    }
  }

  /** `OAuth<PKCE>`: the shared state and the client. */
  class OAuth {
    const pkce: bool
    const state: OAuthState
    const client: nat

    constructor (pkce: bool, state: OAuthState, client: nat)
      ensures this.pkce == pkce && this.state == state && this.client == client
    {
      this.pkce := pkce;
      this.state := state;
      this.client := client;
    }

    /**
     * `initiate_auth`: `csrfToken` and the challenge/verifier pair stand for
     * the random draws. A challenge is set and a verifier stored iff `PKCE`.
     */
    method InitiateAuth(scopes: seq<string>, csrfToken: string, challenge: string, verifier: string, waiter: nat)
      returns (request: AuthRequest, u: Untracker)
      modifies state
      ensures request.csrfToken == csrfToken && request.scopes == scopes
      ensures request.pkceChallenge == (if pkce then Some(challenge) else None)
      ensures u == Untracker(csrfToken)
      ensures state.pendingAuths ==
        old(state.pendingAuths)[csrfToken := PendingSession(waiter, if pkce then Some(verifier) else None, client)]
    {
      request := AuthRequest(csrfToken, [], None);
      request := AddScopes(request, scopes);
      var pkceCodeVerifier: Option<string>;
      if pkce {
        pkceCodeVerifier := Some(verifier);
        request := request.(pkceChallenge := Some(challenge));
      } else {
        pkceCodeVerifier := None;
      }
      u := state.TrackSession(csrfToken, pkceCodeVerifier, client, waiter);
    }
  }
}
