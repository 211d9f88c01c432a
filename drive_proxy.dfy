/** The two drive handlers that re-authenticate: `officeDriveList(driveId, itemId)`
    and `officeDriveDownloadUrl(itemId)`. Both send one request, and on 401 refresh
    the token and, when that succeeds, call themselves again with the same
    arguments. The code sets no limit on how often this repeats, so the model feeds
    the handlers a script of server replies and stops only when the script runs out. */
module DriveProxy {
  import opened Kotlin
  import opened CbResponses
  import opened Entities
  import opened OfficeTokens

  const UNAUTHORIZED: int := 401
  const FOUND: int := 302

  /** The `Location` header as `headers.location` reads it: absent, present but not
      a URI (reading it throws), or a URI, whose text is the header verbatim. */
  datatype LocationHeader = NoLocation | NotAUri(raw: string) | Uri(text: string)

  /** What the drive API answers: the status, the parsed body (null when absent) and
      the `Location` header; or a failure of `exchange` itself (an I/O error or a body
      it cannot read). Error statuses do not throw: the client's error handler
      reports none. */
  datatype HttpReply<B> = HttpReply(status: int, body: Option<B>, location: LocationHeader) | HttpFault(message: string) {
    /** The reply the handlers answer by refreshing the token. */
    predicate Unauthorized() {
      HttpReply? && status == UNAUTHORIZED
    }
  }

  /** One round of a handler: the drive API's reply, and the token endpoint's reply
      that a refresh in this round would receive. */
  datatype Attempt<B> = Attempt(reply: HttpReply<B>, refresh: TokenReply)

  /** A request sent to the drive API: its address and `Authorization` header. */
  datatype DriveRequest = DriveRequest(url: string, authorization: string)

  /** A call that finished, by returning or by throwing, or a call still retrying
      when the script ran out. */
  datatype Outcome = Finished(answer: Answer<Payload>) | Exhausted

  /** The outcome, the token cache when the call stopped (for a thrown exception,
      the cache at the moment of the throw) and the drive requests sent, in order. */
  datatype Run = Run(outcome: Outcome, cache: Cache, sent: seq<DriveRequest>)

  /** The `Authorization` header "${token_type} ${access_token}" read from the cache:
      a missing entry is rendered as "null". */
  function Authorization(token: Cache): (h: string) {
    Templated(Get(token, "token_type")) + " " + Templated(Get(token, "access_token"))
  }

  /** With no token stored, the header is "null null": the request is still sent. */
  lemma AuthorizationUnset(token: Cache)
    requires "token_type" !in token && "access_token" !in token
    ensures Authorization(token) == "null null"
  {
  }

  /** After a token reply is stored, the header carries its type and access token. */
  lemma AuthorizationAfterStore(token: Cache, t: MicrosoftTokenEntity, receivedMs: int)
    ensures Authorization(WithTokens(token, t, receivedMs)) == Templated(t.token_type) + " " + Templated(t.access_token)
  {
  }

  function ChildrenUrl(driveId: string, itemId: string): (url: string) {
    "https://graph.microsoft.com/v1.0/drives/" + driveId + "/items/" + itemId + "/children"
  }

  function ContentUrl(itemId: string): (url: string) {
    "https://graph.microsoft.com/v1.0/me/drive/items/" + itemId + "/content"
  }

  /** How `officeDriveList(driveId, itemId)` answers a reply that is not a 401: the
      listing when there is a body, a generic failure otherwise; a failed `exchange`
      escapes. */
  function ListFinish(reply: HttpReply<DriveEntity>): (r: Answer<Payload>)
    ensures r.Succeeded() <==> reply.HttpReply? && reply.body.Some?
    ensures r.Succeeded() ==> r.response.data == Some(Drive(reply.body.value))
    ensures reply.HttpReply? && reply.body.None? ==> r == Returned(Failed(message := "No Response"))
    ensures reply.HttpFault? ==> r == Threw(ClientException(reply.message))
  {
    match reply
    case HttpFault(m) => Threw(ClientException(m))
    case HttpReply(_, None, _) => Returned(Failed(message := "No Response"))
    case HttpReply(_, Some(listing), _) => Returned(Success(Some(Drive(listing))))
  }

  /** How `officeDriveDownloadUrl(itemId)` answers a reply that is not a 401: only a
      302 with a non-blank `Location` succeeds, with that address verbatim; a 302
      whose `Location` is not a URI throws while the header is read; any other
      status, 200 included, is a generic failure; a failed `exchange` escapes. */
  function DownloadFinish(reply: HttpReply<string>): (r: Answer<Payload>)
    ensures r.Succeeded() <==>
      reply.HttpReply? && reply.status == FOUND && reply.location.Uri? && !Blank(reply.location.text)
    ensures r.Succeeded() ==> r.response.data == Some(Location(reply.location.text))
    ensures r.Returned? && !r.Succeeded() ==> r.response == Failed(message := "Get download path failed")
    ensures r.Threw? <==> reply.HttpFault? || (reply.status == FOUND && reply.location.NotAUri?)
    ensures reply.HttpFault? ==> r == Threw(ClientException(reply.message))
  {
    match reply
    case HttpFault(m) => Threw(ClientException(m))
    case HttpReply(status, _, location) =>
      if status != FOUND then Returned(Failed(message := "Get download path failed"))
      else
        match location
        case NotAUri(raw) => Threw(IllegalLocation(raw))
        case Uri(text) =>
          if !Blank(text) then Returned(Success(Some(Location(text))))
          else Returned(Failed(message := "Get download path failed"))
        case NoLocation => Returned(Failed(message := "Get download path failed"))
  }

  /** The behaviour both handlers share: send to `url` with the cached token; a 401
      triggers a refresh, whose failure (returned or thrown) is the answer as it
      stands and whose success re-runs the handler on the refreshed cache; any other
      reply is answered by `finish`. */
  function AuthRetry<B>(token: Cache, config: Cache, url: string, script: seq<Attempt<B>>,
                        finish: HttpReply<B> -> Answer<Payload>): (run: Run)
    ensures |run.sent| <= |script|
    ensures |script| > 0 ==> |run.sent| > 0 && run.sent[0] == DriveRequest(url, Authorization(token))
    ensures run.outcome.Exhausted? ==> |run.sent| == |script|
    decreases |script|
  {
    if |script| == 0 then Run(Exhausted, token, [])
    else
      var request := DriveRequest(url, Authorization(token));
      var attempt := script[0];
      if attempt.reply.Unauthorized() then
        var step := Refresh(token, config, attempt.refresh);
        if step.answer.Succeeded() then
          var rest := AuthRetry(step.cache, config, url, script[1..], finish);
          Run(rest.outcome, rest.cache, [request] + rest.sent)
        else
          Run(Finished(step.answer), step.cache, [request])
      else
        Run(Finished(finish(attempt.reply)), token, [request])
  }

  /** A single round: a reply other than 401 is answered by `finish` with no refresh;
      a 401 whose refresh fails (or throws) answers with the refresh's own answer; a
      401 whose refresh succeeds re-runs the handler with the same arguments on the
      new cache. */
  lemma AuthRetryStep<B>(token: Cache, config: Cache, url: string, script: seq<Attempt<B>>,
                         finish: HttpReply<B> -> Answer<Payload>)
    requires |script| > 0
    ensures var run := AuthRetry(token, config, url, script, finish);
      && run.sent[0] == DriveRequest(url, Authorization(token))
      && (!script[0].reply.Unauthorized() ==>
            run == Run(Finished(finish(script[0].reply)), token, [run.sent[0]]))
      && (script[0].reply.Unauthorized() &&
          !Refresh(token, config, script[0].refresh).answer.Succeeded() ==>
            run == Run(Finished(Refresh(token, config, script[0].refresh).answer), token, [run.sent[0]]))
      && (script[0].reply.Unauthorized() &&
          Refresh(token, config, script[0].refresh).answer.Succeeded() ==>
            var rest := AuthRetry(Refresh(token, config, script[0].refresh).cache, config, url, script[1..], finish);
            run.outcome == rest.outcome && run.cache == rest.cache && run.sent == [run.sent[0]] + rest.sent)
  {
  }

  /** Every round of a run but the last got a 401, and a run that used up the
      script got a 401 in every round. */
  lemma {:induction false} AuthRetryRounds<B>(token: Cache, config: Cache, url: string, script: seq<Attempt<B>>,
                                              finish: HttpReply<B> -> Answer<Payload>)
    ensures var run := AuthRetry(token, config, url, script, finish);
      forall k :: 0 <= k < |run.sent| - 1 ==> script[k].reply.Unauthorized()
    ensures var run := AuthRetry(token, config, url, script, finish);
      run.outcome.Exhausted? ==> forall k :: 0 <= k < |script| ==> script[k].reply.Unauthorized()
    decreases |script|
  {
    if |script| > 0 && script[0].reply.Unauthorized() {
      var step := Refresh(token, config, script[0].refresh);
      if step.answer.Succeeded() {
        AuthRetryRounds(step.cache, config, url, script[1..], finish);
        var rest := AuthRetry(step.cache, config, url, script[1..], finish);
        var run := AuthRetry(token, config, url, script, finish);
        assert |run.sent| == 1 + |rest.sent|;
        assert forall k :: 0 < k < |script| ==> script[1..][k - 1] == script[k];
      }
    }
  }

  /** How a finished run ends: a last round without 401 is answered by `finish`; a
      last round with 401 ended in a refresh that did not succeed: a failure without
      data, or the refresh's own client failure escaping. */
  lemma {:induction false} AuthRetryLast<B>(token: Cache, config: Cache, url: string, script: seq<Attempt<B>>,
                                            finish: HttpReply<B> -> Answer<Payload>)
    requires AuthRetry(token, config, url, script, finish).outcome.Finished?
    ensures var run := AuthRetry(token, config, url, script, finish);
      var last := script[|run.sent| - 1];
      && (!last.reply.Unauthorized() ==> run.outcome.answer == finish(last.reply))
      && (last.reply.Unauthorized() ==> !run.outcome.answer.Succeeded())
      && (last.reply.Unauthorized() && run.outcome.answer.Returned? ==>
            run.outcome.answer.response.code == RESPONSE_CODE_FAILED && run.outcome.answer.response.data.None?)
      && (last.reply.Unauthorized() && run.outcome.answer.Threw? ==>
            last.refresh.TokenFault? && run.outcome.answer == Threw(ClientException(last.refresh.message)))
    decreases |script|
  {
    if script[0].reply.Unauthorized() {
      var step := Refresh(token, config, script[0].refresh);
      if step.answer.Succeeded() {
        AuthRetryLast(step.cache, config, url, script[1..], finish);
        var rest := AuthRetry(step.cache, config, url, script[1..], finish);
        var run := AuthRetry(token, config, url, script, finish);
        assert |run.sent| == 1 + |rest.sent|;
        assert script[|run.sent| - 1] == script[1..][|rest.sent| - 1];
      }
    }
  }

  /** Only the five token keys of the token cache can change during a run, and a
      cache holding all or none of them still does afterwards. */
  lemma {:induction false} AuthRetryKeepsCache<B>(token: Cache, config: Cache, url: string, script: seq<Attempt<B>>,
                                                  finish: HttpReply<B> -> Answer<Payload>)
    ensures TokensConsistent(token) ==> TokensConsistent(AuthRetry(token, config, url, script, finish).cache)
    ensures SameOutside(token, AuthRetry(token, config, url, script, finish).cache, TokenKeys)
    decreases |script|
  {
    if |script| > 0 && script[0].reply.Unauthorized() {
      var step := Refresh(token, config, script[0].refresh);
      RefreshKeepsConsistent(token, config, script[0].refresh);
      if step.answer.Succeeded() {
        AuthRetryKeepsCache(step.cache, config, url, script[1..], finish);
      }
    }
  }

  /** There is no retry limit: while the drive API keeps answering 401 and every
      refresh is accepted, the handler refreshes and calls itself again, every round,
      for as long as the script lasts. */
  lemma {:induction false} AuthRetryUncapped<B>(token: Cache, config: Cache, url: string, script: seq<Attempt<B>>,
                                                finish: HttpReply<B> -> Answer<Payload>)
    requires !IsNullOrBlank(Get(token, "refresh_token"))
    requires forall k :: 0 <= k < |script| ==> script[k].reply.Unauthorized() && Usable(script[k].refresh)
    ensures AuthRetry(token, config, url, script, finish).outcome == Exhausted
    ensures |AuthRetry(token, config, url, script, finish).sent| == |script|
    decreases |script|
  {
    if |script| > 0 {
      var step := Refresh(token, config, script[0].refresh);
      RefreshLeavesRefreshToken(token, config, script[0].refresh);
      assert forall k :: 0 <= k < |script[1..]| ==> script[1..][k] == script[k + 1];
      AuthRetryUncapped(step.cache, config, url, script[1..], finish);
    }
  }

  /** After a 401 and an accepted refresh, the repeated request carries the new token. */
  lemma AuthRetryUsesNewToken<B>(token: Cache, config: Cache, url: string, script: seq<Attempt<B>>,
                                 finish: HttpReply<B> -> Answer<Payload>)
    requires |script| >= 2 && script[0].reply.Unauthorized()
    requires Refresh(token, config, script[0].refresh).answer.Succeeded()
    ensures var t := script[0].refresh.body.value;
      AuthRetry(token, config, url, script, finish).sent[1]
        == DriveRequest(url, Templated(t.token_type) + " " + Templated(t.access_token))
  {
    var step := Refresh(token, config, script[0].refresh);
    var rest := AuthRetry(step.cache, config, url, script[1..], finish);
    assert rest.sent[0] == DriveRequest(url, Authorization(step.cache));
  }

  /** A second 401 after a successful refresh is not the end: the handler refreshes a
      second time and answers the third reply. */
  lemma SecondUnauthorizedRetried<B>(token: Cache, config: Cache, url: string,
                                     a0: Attempt<B>, a1: Attempt<B>, a2: Attempt<B>,
                                     finish: HttpReply<B> -> Answer<Payload>)
    requires !IsNullOrBlank(Get(token, "refresh_token"))
    requires a0.reply.Unauthorized() && Usable(a0.refresh)
    requires a1.reply.Unauthorized() && Usable(a1.refresh)
    requires !a2.reply.Unauthorized()
    ensures AuthRetry(token, config, url, [a0, a1, a2], finish).outcome == Finished(finish(a2.reply))
    ensures |AuthRetry(token, config, url, [a0, a1, a2], finish).sent| == 3
  {
    var s0 := Refresh(token, config, a0.refresh);
    RefreshLeavesRefreshToken(token, config, a0.refresh);
    var s1 := Refresh(s0.cache, config, a1.refresh);
    RefreshLeavesRefreshToken(s0.cache, config, a1.refresh);
    assert [a0, a1, a2][1..] == [a1, a2];
    assert [a1, a2][1..] == [a2];
    assert AuthRetry(s1.cache, config, url, [a2], finish).outcome == Finished(finish(a2.reply));
    assert AuthRetry(s0.cache, config, url, [a1, a2], finish).outcome == Finished(finish(a2.reply));
  }

  /** A failure of the repeated request escapes after the refresh has already
      rewritten the token keys: the exception leaves the new tokens behind. */
  lemma AuthRetryEscapesAfterRefresh<B>(token: Cache, config: Cache, url: string,
                                        a0: Attempt<B>, a1: Attempt<B>,
                                        finish: HttpReply<B> -> Answer<Payload>)
    requires !IsNullOrBlank(Get(token, "refresh_token"))
    requires a0.reply.Unauthorized() && Usable(a0.refresh)
    requires a1.reply.HttpFault? && finish(a1.reply) == Threw(ClientException(a1.reply.message))
    ensures var run := AuthRetry(token, config, url, [a0, a1], finish);
      && run.outcome == Finished(Threw(ClientException(a1.reply.message)))
      && run.cache == WithTokens(token, a0.refresh.body.value, a0.refresh.receivedMs)
  {
    var s0 := Refresh(token, config, a0.refresh);
    assert [a0, a1][1..] == [a1];
    assert AuthRetry(s0.cache, config, url, [a1], finish).cache == s0.cache;
  }

  /** `officeDriveDownloadUrl` succeeds only with a 302 whose non-blank `Location` it
      returns verbatim. */
  lemma DownloadSucceedsOnlyOnFound(token: Cache, config: Cache, itemId: string,
                                    script: seq<Attempt<string>>, r: Answer<Payload>)
    requires AuthRetry(token, config, ContentUrl(itemId), script, DownloadFinish).outcome == Finished(r)
    requires r.Succeeded()
    ensures exists k :: (0 <= k < |script| && script[k].reply.HttpReply? && script[k].reply.status == FOUND &&
      script[k].reply.location.Uri? && !Blank(script[k].reply.location.text) &&
      r.response.data == Some(Location(script[k].reply.location.text)))
  {
    AuthRetryLast(token, config, ContentUrl(itemId), script, DownloadFinish);
    var n := |AuthRetry(token, config, ContentUrl(itemId), script, DownloadFinish).sent| - 1;
    assert !script[n].reply.Unauthorized();
  }

  /** `officeDriveList(driveId, itemId)` succeeds only by relaying a listing body the
      drive API sent. */
  lemma ListSucceedsOnlyWithBody(token: Cache, config: Cache, driveId: string, itemId: string,
                                 script: seq<Attempt<DriveEntity>>, r: Answer<Payload>)
    requires AuthRetry(token, config, ChildrenUrl(driveId, itemId), script, ListFinish).outcome == Finished(r)
    requires r.Succeeded()
    ensures exists k :: (0 <= k < |script| && script[k].reply.HttpReply? && script[k].reply.status != UNAUTHORIZED &&
      script[k].reply.body.Some? && r.response.data == Some(Drive(script[k].reply.body.value)))
  {
    AuthRetryLast(token, config, ChildrenUrl(driveId, itemId), script, ListFinish);
    var n := |AuthRetry(token, config, ChildrenUrl(driveId, itemId), script, ListFinish).sent| - 1;
    assert !script[n].reply.Unauthorized();
  }
}
