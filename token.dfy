/**
 * Session tokens: `BasicTokenGranter` keeps a map from header value to item;
 * each grant owns an expiry task that removes it after `token_duration` unless
 * the grant was removed (or replaced) first. `VerifiedToken` is the request
 * extractor that turns a header into a 400, a 401 or the granted item.
 */
module Token {
  import opened Wrappers
  import opened Bytes
  import Alphanumeric

  type HeaderValue = seq<byte>

  /** A grant: the item and the id of the expiry task its sender belongs to. */
  datatype Grant<T> = Grant(task: nat, item: T)

  type Tokens<T> = map<HeaderValue, Grant<T>>

  /** `verify_token` on a map: the item, if the token is present. */
  function Lookup<T>(tokens: Tokens<T>, token: HeaderValue): (r: Option<T>)
    ensures r.Some? <==> token in tokens
    ensures r.Some? ==> r.value == tokens[token].item
  {
    if token in tokens then Some(tokens[token].item) else None
  }

  /**
   * The expiry task `task` waking up for `token`: it removes the token only if
   * its sender is still the one stored, i.e. the grant was neither revoked nor replaced.
   */
  function Expire<T>(tokens: Tokens<T>, token: HeaderValue, task: nat): Tokens<T> {
    if token in tokens && tokens[token].task == task then tokens - {token} else tokens
  }

  /** Every stored grant's task id is below `next` (ids are handed out in order). */
  ghost predicate TasksBelow<T>(tokens: Tokens<T>, next: nat) {
    forall t :: t in tokens ==> tokens[t].task < next
  }

  class BasicTokenGranter<T> {
    var tokens: Tokens<T>
    /** The id the next expiry task gets. */
    var nextTask: nat
    /** `token_duration`, in seconds; the sleep itself is the `ExpireTask` event. */
    const tokenDuration: nat

    ghost predicate Valid()
      reads this
    {
      TasksBelow(tokens, nextTask)
    }

    constructor (tokenDuration: nat)
      ensures Valid() && tokens == map[] && this.tokenDuration == tokenDuration
    {
      tokens := map[];
      nextTask := 0;
      this.tokenDuration := tokenDuration;
    }

    /** `create_token::<n>(item)`, with `rng` the random draws. */
    method CreateToken(n: nat, rng: nat -> nat, item: T) returns (token: HeaderValue, task: nat)
      requires Valid()
      modifies this
      ensures Valid()
      ensures token == Alphanumeric.Sample(rng, n)
      ensures task == old(nextTask) && nextTask == old(nextTask) + 1
      ensures tokens == old(tokens)[token := Grant(task, item)]
    {
      token := Alphanumeric.Sample(rng, n);
      task := nextTask;
      tokens := tokens[token := Grant(task, item)];
      nextTask := nextTask + 1;
    }

    /** `revoke_token`: removes the grant and returns its item; dropping the sender cancels the task. */
    method RevokeToken(token: HeaderValue) returns (r: Option<T>)
      requires Valid()
      modifies this
      ensures Valid() && nextTask == old(nextTask)
      ensures r == Lookup(old(tokens), token)
      ensures tokens == old(tokens) - {token}
    {
      r := Lookup(tokens, token);
      tokens := tokens - {token};
    }

    /** `verify_token`: a lookup that changes nothing. */
    method VerifyToken(token: HeaderValue) returns (r: Option<T>)
      ensures r.Some? <==> token in tokens
      ensures r.Some? ==> r.value == tokens[token].item
    {
      if token in tokens {
        r := Some(tokens[token].item);
      } else {
        r := None;
      }
    }

    /** The `sleep(token_duration)` arm of expiry task `task` for `token`. */
    method ExpireTask(token: HeaderValue, task: nat)
      requires Valid()
      modifies this
      ensures Valid() && nextTask == old(nextTask)
      ensures tokens == Expire(old(tokens), token, task)
    {
      tokens := Expire(tokens, token, task);
    }
  }

  /** After a create, the token verifies to the item. */
  lemma VerifyAfterCreate<T>(tokens: Tokens<T>, token: HeaderValue, task: nat, item: T)
    ensures Lookup(tokens[token := Grant(task, item)], token) == Some(item)
  {
  }

  /** After a revoke, the token no longer verifies; other tokens are unaffected. */
  lemma RevokeEffect<T>(tokens: Tokens<T>, token: HeaderValue, other: HeaderValue)
    requires other != token
    ensures Lookup(tokens - {token}, token) == None
    ensures Lookup(tokens - {token}, other) == Lookup(tokens, other)
  {
  }

  /** Expiry removes at most its own token, and only while its grant is current. */
  lemma ExpireEffect<T>(tokens: Tokens<T>, token: HeaderValue, task: nat, other: HeaderValue)
    requires other != token
    ensures Lookup(Expire(tokens, token, task), other) == Lookup(tokens, other)
    ensures token in tokens && tokens[token].task == task ==> Lookup(Expire(tokens, token, task), token) == None
    ensures !(token in tokens && tokens[token].task == task) ==> Expire(tokens, token, task) == tokens
  {
  }

  /**
   * Revoking first cancels the expiry: once a token is revoked and created again,
   * the first grant's task (whose id is below the new one) no longer removes it.
   */
  lemma RevokedTaskIsCancelled<T>(tokens: Tokens<T>, next: nat, token: HeaderValue, oldTask: nat, item: T)
    requires TasksBelow(tokens, next)
    requires oldTask < next
    ensures var again := (tokens - {token})[token := Grant(next, item)];
      Expire(again, token, oldTask) == again && Lookup(again, token) == Some(item)
  {
  }

  /** Status codes of the extractor's rejections. */
  const BadRequest: nat := 400
  const Unauthorized: nat := 401

  datatype Rejection = Rejection(status: nat, message: string)

  datatype VerifiedToken<T> = VerifiedToken(token: HeaderValue, item: T)

  /**
   * `VerifiedToken::from_request_parts`: `header` is the value of the granter's
   * header in the request, `tokenLength` its `TOKEN_LENGTH`, `tokens` its map.
   */
  function FromRequestParts<T>(header: Option<HeaderValue>, headerName: string, tokenLength: nat, tokens: Tokens<T>)
    : (r: Result<VerifiedToken<T>, Rejection>)
    ensures header.None? ==> r == Err(Rejection(BadRequest, "Missing header: " + headerName))
    ensures header.Some? && |header.value| != tokenLength ==> r == Err(Rejection(BadRequest, "Invalid length for token"))
    ensures header.Some? && |header.value| == tokenLength ==>
      (r.Ok? <==> header.value in tokens)
      && (header.value !in tokens ==> r == Err(Rejection(Unauthorized, "Invalid or expired token")))
      && (header.value in tokens ==> r == Ok(VerifiedToken(header.value, tokens[header.value].item)))
  {
    match header
    case None => Err(Rejection(BadRequest, "Missing header: " + headerName))
    case Some(token) =>
      if |token| != tokenLength then Err(Rejection(BadRequest, "Invalid length for token"))
      else match Lookup(tokens, token)
        case Some(item) => Ok(VerifiedToken(token, item))
        case None => Err(Rejection(Unauthorized, "Invalid or expired token"))
  }

  /** A freshly created token of the granter's length is accepted by the extractor. */
  lemma ExtractorAcceptsCreatedToken<T>(tokens: Tokens<T>, n: nat, rng: nat -> nat, task: nat, item: T, headerName: string)
    ensures var token := Alphanumeric.Sample(rng, n);
      FromRequestParts(Some(token), headerName, n, tokens[token := Grant(task, item)])
        == Ok(VerifiedToken(token, item))
  {
  }

  /** A revoked token is rejected with 401 (when it has the right length). */
  lemma ExtractorRejectsRevokedToken<T>(tokens: Tokens<T>, token: HeaderValue, headerName: string)
    ensures FromRequestParts(Some(token), headerName, |token|, tokens - {token})
      == Err(Rejection(Unauthorized, "Invalid or expired token"))
  {
  }
}
