/** What the OAuth callback, the token refresh and the configuration update do
    to the two caches, as functions of the caches before the call and the token
    endpoint's reply. The controller's methods are proved against these. */
module OfficeTokens {
  import opened Kotlin
  import opened CbResponses
  import opened Entities

  /** A cache entry: the value given to `put` (a put of null stores null) and the
      time-to-live in seconds given with it, if any. Expiry itself is not modelled. */
  datatype Entry = Entry(value: Option<string>, ttlSeconds: Option<int>)

  type Cache = map<string, Entry>

  /** `cache[key]`: null when the key was never written. */
  function Get(cache: Cache, key: string): (v: Option<string>) {
    if key in cache then cache[key].value else None
  }

  /** The five keys of the `microsoft_token` cache. */
  const TokenKeys: set<string> := {"access_token", "refresh_token", "token_type", "expires_in", "token_ms"}

  /** The token cache holds either all five token keys or none of them. */
  ghost predicate TokensConsistent(cache: Cache) {
    TokenKeys <= cache.Keys || TokenKeys !! cache.Keys
  }

  /** `cache` and `cache'` agree on every key outside `keys`. */
  ghost predicate SameOutside(cache: Cache, cache': Cache, keys: set<string>) {
    forall k :: k !in keys ==> (k in cache <==> k in cache') && (k in cache ==> cache[k] == cache'[k])
  }

  /** The token endpoint's answer to one POST: the body (null when absent) and the
      wall-clock time in milliseconds at which the controller stores it; or a failure
      of `postForEntity` itself (an I/O error or a body it cannot read), which the
      controller does not catch. */
  datatype TokenReply = TokenReply(body: Option<MicrosoftTokenEntity>, receivedMs: int) | TokenFault(message: string)

  /** A form-encoded request body: its fields in order, with nullable values. */
  type Form = seq<(string, Option<string>)>

  /** Where both token operations post their form. */
  const TOKEN_URL: string := "https://login.microsoftonline.com/common/oauth2/v2.0/token"

  /** The authorization-code grant the callback posts. */
  function CodeForm(config: Cache, code: string, redirectUri: string): (f: Form) {
    [("client_id", Get(config, "client_id")),
     ("client_secret", Get(config, "client_secret")),
     ("grant_type", Some("authorization_code")),
     ("code", Some(code)),
     ("redirect_uri", Some(redirectUri))]
  }

  /** The refresh-token grant the refresh posts. */
  function RefreshForm(config: Cache, refreshToken: string): (f: Form) {
    [("client_id", Get(config, "client_id")),
     ("client_secret", Get(config, "client_secret")),
     ("grant_type", Some("refresh_token")),
     ("refresh_token", Some(refreshToken))]
  }

  /** A reply the controller accepts: the POST returned a body whose access and
      refresh tokens are both non-blank. */
  predicate Usable(reply: TokenReply) {
    && reply.TokenReply? && reply.body.Some?
    && !IsNullOrBlank(reply.body.value.access_token) && !IsNullOrBlank(reply.body.value.refresh_token)
  }

  /** The five puts that store an accepted token reply. Only the five token keys change. */
  function WithTokens(cache: Cache, t: MicrosoftTokenEntity, receivedMs: int): (c: Cache)
    ensures c.Keys == cache.Keys + TokenKeys
    ensures c["access_token"] == Entry(t.access_token, Some(t.expires_in.GetOr(0)))
    ensures c["refresh_token"] == Entry(t.refresh_token, None)
    ensures c["token_type"] == Entry(t.token_type, None)
    ensures c["expires_in"] == Entry(Some(OptionLongToString(t.expires_in)), None)
    ensures c["token_ms"] == Entry(Some(LongToString(receivedMs)), None)
    ensures SameOutside(cache, c, TokenKeys)
  {
    cache["access_token" := Entry(t.access_token, Some(t.expires_in.GetOr(0)))]
         ["refresh_token" := Entry(t.refresh_token, None)]
         ["token_type" := Entry(t.token_type, None)]
         ["expires_in" := Entry(Some(OptionLongToString(t.expires_in)), None)]
         ["token_ms" := Entry(Some(LongToString(receivedMs)), None)]
  }

  /** The messages one endpoint reports for a null body, a body without tokens, and success. */
  datatype Messages = Messages(noBody: string, badBody: string, ok: string)

  const ExchangeMessages: Messages := Messages("No token Response", "Get token failed", "Get token Success")
  const RefreshMessages: Messages := Messages("No refresh token Response", "Refresh token failed", "Refresh token Success")

  /** A form-encoded POST: the address it goes to and the form it carries. */
  datatype Post = Post(url: string, form: Form)

  /** The outcome of one token operation: the handler's answer, the token cache after
      it, and the POST made to the token endpoint (none when a guard stopped it first). */
  datatype TokenStep = TokenStep(answer: Answer<Payload>, cache: Cache, sent: Option<Post>)

  /** The part both token operations share once the POST is made: a thrown client
      failure escapes, a usable reply has its tokens stored, any other reply fails;
      nothing is written unless the call succeeds. */
  function Accept(cache: Cache, reply: TokenReply, msgs: Messages): (r: (Answer<Payload>, Cache))
    ensures r.0.Succeeded() <==> Usable(reply)
    ensures Usable(reply) ==>
      r.0 == Returned(Success(None, message := msgs.ok)) && r.1 == WithTokens(cache, reply.body.value, reply.receivedMs)
    ensures reply.TokenFault? ==> r == (Threw(ClientException(reply.message)), cache)
    ensures reply.TokenReply? && reply.body.None? ==> r == (Returned(Failed(message := msgs.noBody)), cache)
    ensures reply.TokenReply? && reply.body.Some? && !Usable(reply) ==>
      r == (Returned(Failed(message := msgs.badBody)), cache)
  {
    match reply
    case TokenFault(m) => (Threw(ClientException(m)), cache)
    case TokenReply(None, _) => (Returned(Failed(message := msgs.noBody)), cache)
    case TokenReply(Some(t), receivedMs) =>
      if IsNullOrBlank(t.access_token) || IsNullOrBlank(t.refresh_token) then
        (Returned(Failed(message := msgs.badBody)), cache)
      else
        (Returned(Success(None, message := msgs.ok)), WithTokens(cache, t, receivedMs))
  }

  /** `onGetMicrosoftOnlineCodeCallback(code, redirectUri)`: exchange an authorization code.
      Nothing is posted for a blank redirect address; a failure of the POST escapes;
      the token keys are written, all five, exactly when the call succeeds. */
  function Exchange(token: Cache, config: Cache, code: string, redirectUri: string, reply: TokenReply): (s: TokenStep)
    ensures Blank(redirectUri) ==> s == TokenStep(Returned(Failed(message := "redirectUri is blank")), token, None)
    ensures !Blank(redirectUri) ==> s.sent == Some(Post(TOKEN_URL, CodeForm(config, code, redirectUri)))
    ensures !Blank(redirectUri) ==> (s.answer, s.cache) == Accept(token, reply, ExchangeMessages)
    ensures s.answer.Succeeded() <==> !Blank(redirectUri) && Usable(reply)
    ensures s.answer.Succeeded() ==> s.cache == WithTokens(token, reply.body.value, reply.receivedMs)
    ensures !s.answer.Succeeded() ==> s.cache == token
    ensures s.answer.Threw? <==> !Blank(redirectUri) && reply.TokenFault?
    ensures s.answer.Returned? && !s.answer.Succeeded() ==> s.answer.response.code == RESPONSE_CODE_FAILED
  {
    if Blank(redirectUri) then
      TokenStep(Returned(Failed(message := "redirectUri is blank")), token, None)
    else
      var (answer, cache) := Accept(token, reply, ExchangeMessages);
      TokenStep(answer, cache, Some(Post(TOKEN_URL, CodeForm(config, code, redirectUri))))
  }

  /** `refreshOfficeToken()`: trade the cached refresh token for new tokens.
      Nothing is posted without a non-blank cached refresh token; a failure of the
      POST escapes; the token keys are written, all five, exactly when the call succeeds. */
  function Refresh(token: Cache, config: Cache, reply: TokenReply): (s: TokenStep)
    ensures IsNullOrBlank(Get(token, "refresh_token")) ==>
      s == TokenStep(Returned(Failed(message := "No refresh_token, please auth again")), token, None)
    ensures !IsNullOrBlank(Get(token, "refresh_token")) ==>
      s.sent == Some(Post(TOKEN_URL, RefreshForm(config, Get(token, "refresh_token").value)))
    ensures !IsNullOrBlank(Get(token, "refresh_token")) ==>
      (s.answer, s.cache) == Accept(token, reply, RefreshMessages)
    ensures s.answer.Succeeded() <==> !IsNullOrBlank(Get(token, "refresh_token")) && Usable(reply)
    ensures s.answer.Succeeded() ==> s.cache == WithTokens(token, reply.body.value, reply.receivedMs)
    ensures !s.answer.Succeeded() ==> s.cache == token
    ensures s.answer.Threw? <==> !IsNullOrBlank(Get(token, "refresh_token")) && reply.TokenFault?
    ensures s.answer.Returned? && !s.answer.Succeeded() ==> s.answer.response.code == RESPONSE_CODE_FAILED
    ensures s.answer.Returned? ==> s.answer.response.data.None?
  {
    var refreshToken := Get(token, "refresh_token");
    if IsNullOrBlank(refreshToken) then
      TokenStep(Returned(Failed(message := "No refresh_token, please auth again")), token, None)
    else
      var (answer, cache) := Accept(token, reply, RefreshMessages);
      TokenStep(answer, cache, Some(Post(TOKEN_URL, RefreshForm(config, refreshToken.value))))
  }

  /** `updateConfig(clientId, clientSecret)`: each non-blank value overwrites its key;
      a blank one leaves that key as it was. No other key changes. */
  function UpdatedConfig(config: Cache, clientId: string, clientSecret: string): (c: Cache)
    ensures !Blank(clientId) ==> "client_id" in c && c["client_id"] == Entry(Some(clientId), None)
    ensures !Blank(clientSecret) ==> "client_secret" in c && c["client_secret"] == Entry(Some(clientSecret), None)
    ensures Blank(clientId) && Blank(clientSecret) ==> c == config
    ensures SameOutside(config, c,
      (if Blank(clientId) then {} else {"client_id"}) + (if Blank(clientSecret) then {} else {"client_secret"}))
  {
    var withId := if Blank(clientId) then config else config["client_id" := Entry(Some(clientId), None)];
    if Blank(clientSecret) then withId else withId["client_secret" := Entry(Some(clientSecret), None)]
  }

  /** A successful exchange or refresh leaves a complete token set; a failed one leaves
      the cache as it was, so a consistent cache stays consistent, and keys other than
      the five token keys never change. */
  lemma RefreshKeepsConsistent(token: Cache, config: Cache, reply: TokenReply)
    ensures TokensConsistent(token) ==> TokensConsistent(Refresh(token, config, reply).cache)
    ensures Refresh(token, config, reply).answer.Succeeded() ==> TokenKeys <= Refresh(token, config, reply).cache.Keys
    ensures SameOutside(token, Refresh(token, config, reply).cache, TokenKeys)
  {
  }

  /** The exchange counterpart of `RefreshKeepsConsistent`. */
  lemma ExchangeKeepsConsistent(token: Cache, config: Cache, code: string, redirectUri: string, reply: TokenReply)
    ensures TokensConsistent(token) ==> TokensConsistent(Exchange(token, config, code, redirectUri, reply).cache)
    ensures SameOutside(token, Exchange(token, config, code, redirectUri, reply).cache, TokenKeys)
  {
  }

  /** An update with a blank client id and a non-blank secret stores the secret and
      leaves any stored client id as it was. */
  lemma UpdateSecretOnly(config: Cache, secret: string)
    requires !Blank(secret)
    ensures var c := UpdatedConfig(config, "", secret);
      && c["client_secret"] == Entry(Some(secret), None)
      && ("client_id" in c <==> "client_id" in config)
      && ("client_id" in config ==> c["client_id"] == config["client_id"])
  {
  }

  /** A refresh that succeeded leaves a non-blank refresh token behind, so the next
      refresh posts again. */
  lemma RefreshLeavesRefreshToken(token: Cache, config: Cache, reply: TokenReply)
    requires Refresh(token, config, reply).answer.Succeeded()
    ensures !IsNullOrBlank(Get(Refresh(token, config, reply).cache, "refresh_token"))
    ensures Get(Refresh(token, config, reply).cache, "refresh_token") == reply.body.value.refresh_token
  {
  }
}
