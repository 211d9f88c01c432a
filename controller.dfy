/** The controller's state and its cache-changing endpoints. The two caches are
    fields that the handlers update entry by entry, as the source does with `put`;
    every handler is proved to leave the caches as the functions of `OfficeTokens`
    and `DriveProxy` say. */
module Controller {
  import opened Kotlin
  import opened CbResponses
  import opened Entities
  import opened OfficeTokens
  import opened DriveProxy

  class AndroidAppUpgradeController {
    /** The `microsoft_token` cache. */
    var tokenCache: Cache
    /** The `config` cache. */
    var configCache: Cache

    /** The caches named "microsoft_token" and "config", obtained from the shared cache
        manager. The store behind it can already hold entries, for instance ones kept
        across a restart, so the starting contents are given; nothing is assumed of
        them, not even that the token keys are all present or all absent. */
    constructor(token0: Cache, config0: Cache)
      ensures tokenCache == token0 && configCache == config0
    {
      tokenCache := token0;
      configCache := config0;
    }

    /** The five puts that store an accepted token reply, in the source's order. */
    method PutTokens(t: MicrosoftTokenEntity, receivedMs: int)
      modifies this`tokenCache
      ensures tokenCache == WithTokens(old(tokenCache), t, receivedMs)
    {
      tokenCache := tokenCache["access_token" := Entry(t.access_token, Some(t.expires_in.GetOr(0)))];
      tokenCache := tokenCache["refresh_token" := Entry(t.refresh_token, None)];
      tokenCache := tokenCache["token_type" := Entry(t.token_type, None)];
      tokenCache := tokenCache["expires_in" := Entry(Some(OptionLongToString(t.expires_in)), None)];
      tokenCache := tokenCache["token_ms" := Entry(Some(LongToString(receivedMs)), None)];
    }

    /** What both token endpoints do with the token endpoint's answer. */
    method StoreReply(reply: TokenReply, msgs: Messages) returns (r: Answer<Payload>)
      modifies this`tokenCache
      ensures (r, tokenCache) == Accept(old(tokenCache), reply, msgs)
    {
      if reply.TokenFault? {
        return Threw(ClientException(reply.message));
      }
      if reply.body.None? {
        return Returned(Failed(message := msgs.noBody));
      }
      var body := reply.body.value;
      if IsNullOrBlank(body.access_token) || IsNullOrBlank(body.refresh_token) {
        return Returned(Failed(message := msgs.badBody));
      }
      PutTokens(body, reply.receivedMs);
      r := Returned(Success(None, message := msgs.ok));
    }

    /** `v1/office/callback`: exchange an authorization code for tokens. `sent` is the
        POST made to the token endpoint, if the call got that far. */
    method OnGetMicrosoftOnlineCodeCallback(code: string, redirectUri: string, reply: TokenReply)
      returns (r: Answer<Payload>, sent: Option<Post>)
      modifies this`tokenCache
      ensures var s := Exchange(old(tokenCache), configCache, code, redirectUri, reply);
        r == s.answer && tokenCache == s.cache && sent == s.sent
      ensures TokensConsistent(old(tokenCache)) ==> TokensConsistent(tokenCache)
      ensures SameOutside(old(tokenCache), tokenCache, TokenKeys)
    {
      ExchangeKeepsConsistent(tokenCache, configCache, code, redirectUri, reply);
      if Blank(redirectUri) {
        return Returned(Failed(message := "redirectUri is blank")), None;
      }
      sent := Some(Post(TOKEN_URL, CodeForm(configCache, code, redirectUri)));
      r := StoreReply(reply, ExchangeMessages);
    }

    /** `v1/office/refreshToken`: trade the cached refresh token for new tokens. */
    method RefreshOfficeToken(reply: TokenReply) returns (r: Answer<Payload>, sent: Option<Post>)
      modifies this`tokenCache
      ensures var s := Refresh(old(tokenCache), configCache, reply);
        r == s.answer && tokenCache == s.cache && sent == s.sent
      ensures TokensConsistent(old(tokenCache)) ==> TokensConsistent(tokenCache)
      ensures SameOutside(old(tokenCache), tokenCache, TokenKeys)
    {
      RefreshKeepsConsistent(tokenCache, configCache, reply);
      var refreshToken := Get(tokenCache, "refresh_token");
      if IsNullOrBlank(refreshToken) {
        return Returned(Failed(message := "No refresh_token, please auth again")), None;
      }
      sent := Some(Post(TOKEN_URL, RefreshForm(configCache, refreshToken.value)));
      r := StoreReply(reply, RefreshMessages);
    }

    /** `v1/config/update`: store each non-blank credential; always answers success. */
    method UpdateConfig(clientId: string, clientSecret: string) returns (r: CbResponse<Payload>)
      modifies this`configCache
      ensures configCache == UpdatedConfig(old(configCache), clientId, clientSecret)
      ensures tokenCache == old(tokenCache)
      ensures r == Success(None) && r.IsSuccess()
    {
      if !Blank(clientId) {
        configCache := configCache["client_id" := Entry(Some(clientId), None)];
      }
      if !Blank(clientSecret) {
        configCache := configCache["client_secret" := Entry(Some(clientSecret), None)];
      }
      r := Success(None);
    }

    /** `v1/office/drive/getById`: list a drive folder, refreshing the token and calling
        itself again on every 401 whose refresh succeeds. */
    method OfficeDriveList(driveId: string, itemId: string, script: seq<Attempt<DriveEntity>>)
      returns (o: Outcome, sent: seq<DriveRequest>)
      modifies this`tokenCache
      ensures var run := AuthRetry(old(tokenCache), configCache, ChildrenUrl(driveId, itemId), script, ListFinish);
        o == run.outcome && tokenCache == run.cache && sent == run.sent
      ensures TokensConsistent(old(tokenCache)) ==> TokensConsistent(tokenCache)
      ensures SameOutside(old(tokenCache), tokenCache, TokenKeys)
      decreases |script|
    {
      AuthRetryKeepsCache(tokenCache, configCache, ChildrenUrl(driveId, itemId), script, ListFinish);
      if |script| == 0 {
        return Exhausted, [];
      }
      var request := DriveRequest(ChildrenUrl(driveId, itemId), Authorization(tokenCache));
      var reply := script[0].reply;
      if reply.Unauthorized() {
        var refreshed, _ := RefreshOfficeToken(script[0].refresh);
        if refreshed.Succeeded() {
          var rest;
          o, rest := OfficeDriveList(driveId, itemId, script[1..]);
          sent := [request] + rest;
        } else {
          o, sent := Finished(refreshed), [request];
        }
        return;
      }
      sent := [request];
      match reply
      case HttpFault(m) =>
        o := Finished(Threw(ClientException(m)));
      case HttpReply(_, body, _) =>
        if body.None? {
          o := Finished(Returned(Failed(message := "No Response")));
        } else {
          o := Finished(Returned(Success(Some(Drive(body.value)))));
        }
    }

    /** `v1/office/drive/downloadUrl`: ask for an item's content without following the
        redirect and report its `Location`, refreshing the token and calling itself
        again on every 401 whose refresh succeeds. */
    method OfficeDriveDownloadUrl(itemId: string, script: seq<Attempt<string>>)
      returns (o: Outcome, sent: seq<DriveRequest>)
      modifies this`tokenCache
      ensures var run := AuthRetry(old(tokenCache), configCache, ContentUrl(itemId), script, DownloadFinish);
        o == run.outcome && tokenCache == run.cache && sent == run.sent
      ensures TokensConsistent(old(tokenCache)) ==> TokensConsistent(tokenCache)
      ensures SameOutside(old(tokenCache), tokenCache, TokenKeys)
      decreases |script|
    {
      AuthRetryKeepsCache(tokenCache, configCache, ContentUrl(itemId), script, DownloadFinish);
      if |script| == 0 {
        return Exhausted, [];
      }
      var request := DriveRequest(ContentUrl(itemId), Authorization(tokenCache));
      var reply := script[0].reply;
      sent := [request];
      if reply.Unauthorized() {
        var refreshed, _ := RefreshOfficeToken(script[0].refresh);
        if refreshed.Succeeded() {
          var rest;
          o, rest := OfficeDriveDownloadUrl(itemId, script[1..]);
          sent := [request] + rest;
        } else {
          o := Finished(refreshed);
        }
        return;
      }
      if reply.HttpFault? {
        return Finished(Threw(ClientException(reply.message))), [request];
      }
      o := Finished(Returned(Failed(message := "Get download path failed")));
      if reply.status == FOUND {
        match reply.location
        case NotAUri(raw) =>
          o := Finished(Threw(IllegalLocation(raw)));
        case Uri(location) =>
          if !Blank(location) {
            o := Finished(Returned(Success(Some(Location(location)))));
          }
        case NoLocation =>
      }
    }
  }
}
