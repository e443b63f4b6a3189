/**
 * OpenID Connect login: `initiate_auth` builds the scope string and a random
 * CSRF state and tracks a pending session under that state; the redirect
 * handler's `verify_auth` consumes the pending session and maps the outcome of
 * the token exchange to one of the four auth pages.
 */
module OpenId {
  import opened Wrappers
  import opened Bytes
  import Alphanumeric
  import opened AuthPages

  const CsrfTokenSize: nat := 32

  /** The CSRF state: 32 alphanumeric characters (`map(char::from)` over the sampled bytes). */
  function CsrfToken(rng: nat -> nat): (s: string)
    ensures |s| == CsrfTokenSize
    ensures forall i :: 0 <= i < |s| ==> s[i] as int == Alphanumeric.Pick(rng(i))
    ensures forall i :: 0 <= i < |s| ==> s[i] as int < 128 && Alphanumeric.IsAlphanumeric(s[i] as int)
  {
    AsciiChars(Alphanumeric.Sample(rng, CsrfTokenSize))
  }

  /** The scopes joined by single spaces: the reference definition. */
  function Join(scopes: seq<string>): string {
    if |scopes| == 0 then ""
    else if |scopes| == 1 then scopes[0]
    else Join(scopes[..|scopes| - 1]) + " " + scopes[|scopes| - 1]
  }

  /** What the loop has built after the given scopes: each scope followed by a space. */
  function WithTrailingSpaces(scopes: seq<string>): string {
    if |scopes| == 0 then "" else WithTrailingSpaces(scopes[..|scopes| - 1]) + scopes[|scopes| - 1] + " "
  }

  lemma {:induction false} TrailingIsJoinPlusSpace(scopes: seq<string>)
    requires |scopes| > 0
    ensures WithTrailingSpaces(scopes) == Join(scopes) + " "
  {
    if |scopes| > 1 {
      var init := scopes[..|scopes| - 1];
      TrailingIsJoinPlusSpace(init);
      assert init[..|init| - 1] == scopes[..|scopes| - 1][..|init| - 1];
    } else {
      assert scopes[..0] == [];
    }
  }

  /** The `scope_str` loop of `initiate_auth`, with the final `pop`. */
  method ScopeString(scopes: seq<string>) returns (s: string)
    ensures s == Join(scopes)
  {
    s := "";
    var i := 0;
    while i < |scopes|
      invariant 0 <= i <= |scopes|
      invariant s == WithTrailingSpaces(scopes[..i])
    {
      assert scopes[..i + 1][..i] == scopes[..i];
      s := s + scopes[i];
      s := s + " ";
      i := i + 1;
    }
    assert scopes[..i] == scopes;
    if |s| > 0 {
      TrailingIsJoinPlusSpace(scopes);
      s := s[..|s| - 1];
    }
  }

  /** The combined length of the scopes. */
  function TotalLength(scopes: seq<string>): nat {
    if |scopes| == 0 then 0 else TotalLength(scopes[..|scopes| - 1]) + |scopes[|scopes| - 1]|
  }

  /**
   * A non-empty join begins with the first scope, ends with the last one, and
   * adds exactly one separator between neighbours.
   */
  lemma {:induction false} JoinLayout(scopes: seq<string>)
    requires |scopes| > 0
    ensures |Join(scopes)| == TotalLength(scopes) + |scopes| - 1
    ensures |scopes[0]| <= |Join(scopes)| && Join(scopes)[..|scopes[0]|] == scopes[0]
    ensures Join(scopes)[|Join(scopes)| - |scopes[|scopes| - 1]|..] == scopes[|scopes| - 1]
  {
    if |scopes| == 1 {
      assert scopes[..0] == [];
    } else {
      var init := scopes[..|scopes| - 1];
      JoinLayout(init);
      assert init[0] == scopes[0];
      var j := Join(init);
      var last := scopes[|scopes| - 1];
      assert Join(scopes) == j + " " + last;
      assert (j + " " + last)[..|init[0]|] == j[..|init[0]|];
    }
  }

  type Userinfo = map<string, string>

  /** A pending login: the id of its `ready_sender` and of its client. */
  datatype PendingSession = PendingSession(waiter: nat, client: nat)

  /** The userinfo handed to the waiting future. */
  datatype Delivery = Delivery(waiter: nat, userinfo: Userinfo)

  /** Dropping it untracks `csrfToken`. */
  datatype Untracker = Untracker(csrfToken: string)

  /** The authorize-URL options: scope and state. */
  datatype Options = Options(scope: Option<string>, state: Option<string>)

  datatype OAuth2ErrorCode = InvalidGrant | OtherErrorCode
  datatype ClientError = OAuth2(code: OAuth2ErrorCode) | OtherClientError

  /** `request_token`: a token response (with or without `id_token`) or a client error. */
  datatype TokenRequest = Granted(hasIdToken: bool) | Refused(error: ClientError)

  /** The identity provider's side of one exchange, step by step. */
  datatype Exchange = Exchange(request: TokenRequest, decodes: bool, validates: bool, userinfo: Userinfo)

  /** The page `verify_auth` answers with once a pending session was found, and the userinfo it delivers. */
  function Verdict(x: Exchange): (PageKind, Option<Userinfo>) {
    match x.request
    case Refused(e) =>
      if e.OAuth2? && e.code == InvalidGrant then (Invalid, None) else (InternalError, None)
    case Granted(hasIdToken) =>
      if !hasIdToken then (InternalError, None)
      else if !x.decodes then (InternalError, None)
      else if !x.validates then (Invalid, None)
      else (Success, Some(x.userinfo))
  }

  /** Each page, as an if-and-only-if over the exchange. */
  lemma VerdictCases(x: Exchange)
    ensures Verdict(x).0 == Success <==> x.request == Granted(true) && x.decodes && x.validates
    ensures Verdict(x).0 == Invalid <==>
      x.request == Refused(OAuth2(InvalidGrant)) || (x.request == Granted(true) && x.decodes && !x.validates)
    ensures Verdict(x).0 == InternalError <==>
      (x.request.Refused? && x.request != Refused(OAuth2(InvalidGrant)))
      || x.request == Granted(false) || (x.request == Granted(true) && !x.decodes)
    ensures Verdict(x).0 != Late
    ensures Verdict(x).1.Some? <==> Verdict(x).0 == Success
    ensures Verdict(x).1.Some? ==> Verdict(x).1.value == x.userinfo
  {
  }

  /** `OIDCState`. */
  class OidcState {
    var pendingAuths: map<string, PendingSession>

    constructor ()
      ensures pendingAuths == map[]
    {
      pendingAuths := map[];
    }

    /** `track_session`. */
    method TrackSession(csrfToken: string, session: PendingSession) returns (u: Untracker)
      modifies this
      ensures pendingAuths == old(pendingAuths)[csrfToken := session]
      ensures u == Untracker(csrfToken)
    {
      pendingAuths := pendingAuths[csrfToken := session];
      u := Untracker(csrfToken);
    }

    /** `untrack_session`. */
    method UntrackSession(csrfToken: string)
      modifies this
      ensures pendingAuths == old(pendingAuths) - {csrfToken}
    {
      pendingAuths := pendingAuths - {csrfToken};
    }

    /** `Untracker::drop`: runs when the login future finishes or times out. */
    method DropUntracker(u: Untracker)
      modifies this
      ensures pendingAuths == old(pendingAuths) - {u.csrfToken}
    {
      UntrackSession(u.csrfToken);
    }

    /**
     * `verify_auth`: the pending session is removed before the exchange, so a
     * second call with the same state gets the late page.
     */
    method VerifyAuth(csrfToken: string, pages: AuthPages, x: Exchange) returns (page: string, delivered: Option<Delivery>)
      modifies this
      ensures pendingAuths == old(pendingAuths) - {csrfToken}
      ensures csrfToken !in old(pendingAuths) ==>
        pendingAuths == old(pendingAuths) && page == pages.BorrowLate() && delivered == None
      ensures csrfToken in old(pendingAuths) ==>
        && page == pages.Page(Verdict(x).0)
        && delivered == (if Verdict(x).1.Some?
                         then Some(Delivery(old(pendingAuths)[csrfToken].waiter, Verdict(x).1.value))
                         else None)
    {
      if csrfToken !in pendingAuths {
        return pages.late, None;
      }
      var pending := pendingAuths[csrfToken];
      pendingAuths := pendingAuths - {csrfToken};
      var (kind, info) := Verdict(x);
      page := pages.Page(kind);
      delivered := if info.Some? then Some(Delivery(pending.waiter, info.value)) else None;
    }
  }

  /** `OIDC`: the shared state and the discovered client. */
  class Oidc {
    const state: OidcState
    const client: nat

    constructor (state: OidcState, client: nat)
      ensures this.state == state && this.client == client
    {
      this.state := state;
      this.client := client;
    }

    /**
     * `initiate_auth`: the authorize-URL options carry the joined scopes and a
     * fresh CSRF state, and a pending session for `waiter` is tracked under it.
     */
    method InitiateAuth(scopes: seq<string>, rng: nat -> nat, waiter: nat) returns (options: Options, u: Untracker)
      modifies state
      ensures options == Options(Some(Join(scopes)), Some(CsrfToken(rng)))
      ensures u == Untracker(CsrfToken(rng))
      ensures state.pendingAuths == old(state.pendingAuths)[CsrfToken(rng) := PendingSession(waiter, client)]
    {
      var csrf := CsrfToken(rng);
      var scopeStr := ScopeString(scopes);
      options := Options(Some(scopeStr), Some(csrf));
      u := state.TrackSession(csrf, PendingSession(waiter, client));
    }
  }
}
