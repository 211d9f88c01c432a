# Cashbook relay: release resolver, token store and drive proxy in Dafny

This project models the decision logic of the Cashbook web relay (`AndroidAppUpgradeController`):

- The **release resolver** (`latest`). It maps a source code to a release host (`SourceEnum`) and fetches that host's release list. It picks the first eligible release and, within that release only, the first qualifying `.apk` asset. Every outcome becomes a `CbResponse` envelope.
- The **token and configuration store**. The OAuth code callback, the token refresh and the configuration update are guarded sequences of `put`s into two string-keyed caches, `microsoft_token` and `config`.
- The **drive proxy**. Two handlers (`officeDriveList(driveId, itemId)` and `officeDriveDownloadUrl`) answer a 401 by refreshing the token. When the refresh succeeds they call themselves again with the same arguments.

Modules follow the source:

- `Kotlin` (kotlin.dfy) gives exact definitions of the Kotlin library calls the code uses: nullable values, `firstOrNull` as `FirstIndex`, `isBlank` over the JVM whitespace set, `startsWith`, `endsWith`, `contains`, `orEmpty`, string templates of null, and `Long.toString`.
- `CbResponses` (cb_response.dfy) is the envelope and its constructors.
- `Sources` (source.dfy) is the source enum.
- `Entities` (entities.dfy) holds the JSON records, with every nullable field as `Option`.
- `Upgrade` (upgrade.dfy) is `latest`.
- `OfficeTokens` (office_tokens.dfy) gives, as functions, what the token endpoints and the configuration update do to the caches.
- `DriveProxy` (drive_proxy.dfy) is the shared 401 refresh-and-retry behaviour of the two drive handlers.
- `Controller` (controller.dfy) is the controller class. Its fields `tokenCache` and `configCache` are updated in place, and each method is proved to produce the state the functions above describe.

Inputs that come from outside the process are parameters:

- The release-list GET is a function from address to outcome. The outcome is a thrown fault with its message, or a body that may be null. `latest` catches every fault and reports it as a -1001 failure.
- Each token-endpoint answer is a `TokenReply`: a nullable body plus the wall-clock milliseconds stored as `token_ms`. It can also be a `TokenFault`, which is `postForEntity` throwing on an I/O error or a body it cannot read.
- The drive handlers consume a script of `Attempt`s. Each attempt holds the drive API's reply and the token reply a refresh in that round would get. The reply is a status, a nullable body and a `Location` header, or an `HttpFault`, which is `exchange` throwing.

Only `latest` catches exceptions. The other handlers produce an `Answer`: either the envelope they return or the exception that escapes them (`Threw`). An exception escapes in these cases:

- a throwing POST in the callback or the refresh, which has written nothing by then;
- a throwing GET in either drive handler;
- a throwing nested refresh;
- a 302 whose `Location` header is not a URI, because reading the header throws.

A drive run records the token cache at the moment it stopped. An exception raised after a successful refresh therefore leaves the new tokens stored, as `AuthRetryEscapesAfterRefresh` proves.

The source code `"2"` selects ONE_DRIVE, whose release-list address is empty (`Source.Url`). `latest` still sends its GET to that address. The model takes the client's reaction from `remote("")`. When the client refuses the address by throwing, `OneDriveFails` shows the answer is the -1001 failure carrying the client's message.

The drive handlers set no limit on how often they repeat after a 401: each successful refresh leads to another call with the same arguments.

- `AuthRetryUncapped` proves that the handler keeps refreshing for as long as 401s and accepted refreshes keep coming.
- `SecondUnauthorizedRetried` shows it answering the third reply after two 401s.
- A run that is still retrying when the script runs out ends as `Exhausted`.

The download-address handler succeeds only on a 302 with a non-blank `Location`. Every other status, 200 included, fails with -1001.

## Model

| member | source | states |
|---|---|---|
| CbResponses.CbResponse.IsSuccess | src/main/kotlin/cn/wj/spring/cashbook/entity/CbResponse.kt:9-10 | the computed `success` property: true exactly when the code is 0 |
| CbResponses.Failed | src/main/kotlin/cn/wj/spring/cashbook/entity/CbResponse.kt:18-24 | a failure never carries data, keeps the given code and message, and reports success only for code 0 |
| CbResponses.Success | src/main/kotlin/cn/wj/spring/cashbook/entity/CbResponse.kt:26-32 | the data is carried unchanged; success is reported exactly when the code is 0 |
| CbResponses.DefaultsClassified | src/main/kotlin/cn/wj/spring/cashbook/entity/CbResponse.kt:9-32 | the default failure ("Error", -1001) and the -1002 failure are not successes; the default success ("Success", 0) is |
| CbResponses.Answer.Succeeded | src/main/kotlin/cn/wj/spring/cashbook/controller/AndroidAppUpgradeController.kt:282 | the test `refreshOfficeTokenResponse.success` (also at line 334): the refresh returned an envelope whose code is 0; a refresh that threw never counts as a success |
| Sources.FromValue | src/main/kotlin/cn/wj/spring/cashbook/enums/SourceEnum.kt:27-29 | "0", "1" and "2" select GITHUB, GITEE and ONE_DRIVE; every other string selects GITHUB; the result's code is the input or the result is GITHUB |
| Sources.FromValueRoundTrip | src/main/kotlin/cn/wj/spring/cashbook/enums/SourceEnum.kt:12-29 | every source is selected by its own code, and no two sources share a code |
| Sources.Source.Value | src/main/kotlin/cn/wj/spring/cashbook/enums/SourceEnum.kt:12-23 | each source's request code is a single digit, "0" to "2" |
| Sources.Source.Url | src/main/kotlin/cn/wj/spring/cashbook/enums/SourceEnum.kt:12-23 | the address is empty exactly for ONE_DRIVE; GITHUB's and GITEE's are https addresses |
| Kotlin.FirstIndex | src/main/kotlin/cn/wj/spring/cashbook/controller/AndroidAppUpgradeController.kt:104-117 | `firstOrNull`: the result is the least index satisfying the predicate, and there is none exactly when no element satisfies it |
| Kotlin.Option.GetOr | src/main/kotlin/cn/wj/spring/cashbook/controller/AndroidAppUpgradeController.kt:164 | the elvis operator, as in `expires_in ?: 0L` (also at line 199): the value when present, the default when null |
| Kotlin.OrEmpty | src/main/kotlin/cn/wj/spring/cashbook/controller/AndroidAppUpgradeController.kt:121-124 | `orEmpty()` and `?: ""` (also at lines 105 and 113): a null string reads as "", any other as itself |
| Kotlin.Templated | src/main/kotlin/cn/wj/spring/cashbook/controller/AndroidAppUpgradeController.kt:270 | a nullable string inside a string template: null renders as "null", any other string as itself (also at line 322) |
| Kotlin.IsWhitespace | src/main/kotlin/cn/wj/spring/cashbook/controller/AndroidAppUpgradeController.kt:139 | `Char.isWhitespace()` on the JVM: `Character.isWhitespace` or `Character.isSpaceChar`, as the explicit set of code points |
| Kotlin.JvmWhitespace | src/main/kotlin/cn/wj/spring/cashbook/controller/AndroidAppUpgradeController.kt:139 | space, tab, carriage return, no-break space and ideographic space are whitespace; the zero-width space, the next-line control and letters are not |
| Kotlin.Blank | src/main/kotlin/cn/wj/spring/cashbook/controller/AndroidAppUpgradeController.kt:139 | `isBlank`: every character is whitespace, so the empty string is blank; `isNullOrBlank` adds null |
| Kotlin.BlankConcat | src/main/kotlin/cn/wj/spring/cashbook/controller/AndroidAppUpgradeController.kt:139 | a property of `isBlank` (used at lines 139, 225 and 228): a concatenation is blank exactly when both parts are |
| Kotlin.IsNullOrBlank | src/main/kotlin/cn/wj/spring/cashbook/controller/AndroidAppUpgradeController.kt:114 | `isNullOrBlank()` (also at lines 161, 175, 196 and 344): null, or a string whose every character is whitespace |
| Kotlin.StartsWith | src/main/kotlin/cn/wj/spring/cashbook/controller/AndroidAppUpgradeController.kt:106 | `startsWith(p)`: the string is at least as long as `p` and its first characters are `p` |
| Kotlin.EndsWith | src/main/kotlin/cn/wj/spring/cashbook/controller/AndroidAppUpgradeController.kt:115 | `endsWith(p)`: the string is at least as long as `p` and its last characters are `p` |
| Kotlin.Contains | src/main/kotlin/cn/wj/spring/cashbook/controller/AndroidAppUpgradeController.kt:116 | `contains(p)`: `p` starts at the first position, or is contained in the rest of the string |
| Kotlin.AffixesFound | src/main/kotlin/cn/wj/spring/cashbook/controller/AndroidAppUpgradeController.kt:106-116 | `startsWith` finds a pattern put at the start, `endsWith` one put at the end, and `contains` one put anywhere |
| Kotlin.ContainsIffOccurs | src/main/kotlin/cn/wj/spring/cashbook/controller/AndroidAppUpgradeController.kt:116 | `contains` holds exactly when the pattern occurs at some position |
| Kotlin.LongToString | src/main/kotlin/cn/wj/spring/cashbook/controller/AndroidAppUpgradeController.kt:167-168 | `Long.toString()`: non-empty text beginning with "-" exactly when the number is negative (also at lines 202-203) |
| Kotlin.LongToStringRoundTrip | src/main/kotlin/cn/wj/spring/cashbook/controller/AndroidAppUpgradeController.kt:167-168 | the decimal text stored for `expires_in` and `token_ms` reads back as the same number |
| Kotlin.OptionLongToString | src/main/kotlin/cn/wj/spring/cashbook/controller/AndroidAppUpgradeController.kt:167 | a null `expires_in` is stored as "null", any other as text that reads back as the number |
| Upgrade.CanaryEnabled | src/main/kotlin/cn/wj/spring/cashbook/controller/AndroidAppUpgradeController.kt:91 | canary mode is on only for the exact string "1" |
| Upgrade.ReleaseMatches | src/main/kotlin/cn/wj/spring/cashbook/controller/AndroidAppUpgradeController.kt:104-107 | a release is eligible when its name, null read as "", starts with "Release", or with "Pre Release" in canary mode |
| Upgrade.CanaryWidensEligibility | src/main/kotlin/cn/wj/spring/cashbook/controller/AndroidAppUpgradeController.kt:104-107 | canary mode never makes a release ineligible and adds exactly the releases whose name starts with "Pre Release"; a release without a name is never eligible |
| Upgrade.AssetQualifies | src/main/kotlin/cn/wj/spring/cashbook/controller/AndroidAppUpgradeController.kt:112-117 | an asset qualifies when its address is non-blank and its name, null read as "", ends in ".apk" and contains "_online" or "_canary" |
| Upgrade.QualifyingAssetHasNameAndAddress | src/main/kotlin/cn/wj/spring/cashbook/controller/AndroidAppUpgradeController.kt:112-117 | an asset without a name or without a non-blank address never qualifies |
| Upgrade.PickAsset | src/main/kotlin/cn/wj/spring/cashbook/controller/AndroidAppUpgradeController.kt:112-117 | null assets or no qualifying asset give -1002 "No matched asset" (both directions); otherwise the first qualifying asset is reported, with a non-blank address and a name ending ".apk" that contains "_online" or "_canary" |
| Upgrade.Pick | src/main/kotlin/cn/wj/spring/cashbook/controller/AndroidAppUpgradeController.kt:104-117 | "No matched release" exactly when no release name starts with "Release" (or "Pre Release" in canary mode); otherwise the answer is the asset choice within the first eligible release; a success names an eligible release |
| Upgrade.Latest | src/main/kotlin/cn/wj/spring/cashbook/controller/AndroidAppUpgradeController.kt:85-131 | the selected source's address is fetched; a fault gives -1001 with its message, a null body gives -1002 "Get Resource from remote failed", a list gives the pick with canary on only for "1" |
| Upgrade.OneDriveFails | src/main/kotlin/cn/wj/spring/cashbook/controller/AndroidAppUpgradeController.kt:88-95 | source "2" fetches the empty address; when the client throws there, the answer is -1001 with its message, never a success |
| Upgrade.NoFallback | src/main/kotlin/cn/wj/spring/cashbook/controller/AndroidAppUpgradeController.kt:112-117 | when the first eligible release has no qualifying asset the answer is "No matched asset" even if a later eligible release has one |
| Upgrade.SkipsIneligible | src/main/kotlin/cn/wj/spring/cashbook/controller/AndroidAppUpgradeController.kt:104-117 | for any release list, when release `i` is the first eligible one, the answer is the asset choice within release `i`, whatever the ineligible releases before it hold |
| Upgrade.StableSkipsPreRelease | src/main/kotlin/cn/wj/spring/cashbook/controller/AndroidAppUpgradeController.kt:85-126 | outside canary mode, ["Pre Release 2.0", "Release 1.9" with app_online.apk] yields Release 1.9 and its apk |
| OfficeTokens.WithTokens | src/main/kotlin/cn/wj/spring/cashbook/controller/AndroidAppUpgradeController.kt:164-168 | all five token keys are written: access_token with TTL `expires_in ?: 0`, refresh_token, token_type as received, expires_in as text, token_ms as the time; no other key changes |
| OfficeTokens.Get | src/main/kotlin/cn/wj/spring/cashbook/controller/AndroidAppUpgradeController.kt:147-148 | `cache[key]` (also at lines 174 and 183-184): the stored value, or null when the key was never written |
| OfficeTokens.Usable | src/main/kotlin/cn/wj/spring/cashbook/controller/AndroidAppUpgradeController.kt:159-163 | the guard both token handlers apply (also lines 194-198): the POST returned a body whose access and refresh tokens are both non-blank |
| OfficeTokens.Accept | src/main/kotlin/cn/wj/spring/cashbook/controller/AndroidAppUpgradeController.kt:153-169 | success exactly for a reply whose body has non-blank access and refresh tokens, which are then stored; a null body or missing token fails with its message; a throwing POST escapes; nothing is written unless the call succeeds |
| OfficeTokens.Exchange | src/main/kotlin/cn/wj/spring/cashbook/controller/AndroidAppUpgradeController.kt:133-170 | a blank redirect address fails with nothing posted and nothing written; otherwise the code form is posted to the token endpoint; success exactly when the guards pass, and then the five keys hold the new tokens; a throwing POST escapes exactly when it is made and fails; every other failure has code -1001; a call that does not succeed leaves the cache unchanged |
| OfficeTokens.Refresh | src/main/kotlin/cn/wj/spring/cashbook/controller/AndroidAppUpgradeController.kt:172-205 | without a non-blank cached refresh token nothing is posted or written; otherwise the refresh form with that token is posted to the token endpoint; success exactly when the guards pass, and then the five keys hold the new tokens; a throwing POST escapes; every other failure has code -1001; a returned envelope never carries data |
| OfficeTokens.UpdatedConfig | src/main/kotlin/cn/wj/spring/cashbook/controller/AndroidAppUpgradeController.kt:225-230 | a non-blank client id or secret overwrites its key; a blank one leaves that key as it was; no other key changes |
| OfficeTokens.UpdateSecretOnly | src/main/kotlin/cn/wj/spring/cashbook/controller/AndroidAppUpgradeController.kt:225-230 | updating with a blank id and a secret stores the secret and keeps any stored client id |
| OfficeTokens.RefreshKeepsConsistent | src/main/kotlin/cn/wj/spring/cashbook/controller/AndroidAppUpgradeController.kt:194-204 | a refresh keeps the token cache holding all five keys or none, leaves all five after a success, and changes no other key |
| OfficeTokens.ExchangeKeepsConsistent | src/main/kotlin/cn/wj/spring/cashbook/controller/AndroidAppUpgradeController.kt:159-169 | an exchange keeps the token cache holding all five keys or none, and changes no other key |
| OfficeTokens.RefreshLeavesRefreshToken | src/main/kotlin/cn/wj/spring/cashbook/controller/AndroidAppUpgradeController.kt:196-200 | after a successful refresh, the cached refresh token is the new, non-blank one |
| DriveProxy.ListFinish | src/main/kotlin/cn/wj/spring/cashbook/controller/AndroidAppUpgradeController.kt:290-291 | a non-401 reply succeeds exactly when it has a body, which it relays; a null body fails with "No Response"; a throwing `exchange` escapes |
| DriveProxy.DownloadFinish | src/main/kotlin/cn/wj/spring/cashbook/controller/AndroidAppUpgradeController.kt:342-348 | success exactly for status 302 with a non-blank `Location`, returned verbatim; a 302 whose `Location` is not a URI throws; every other status, 200 included, fails with "Get download path failed"; a throwing `exchange` escapes |
| DriveProxy.AuthRetry | src/main/kotlin/cn/wj/spring/cashbook/controller/AndroidAppUpgradeController.kt:266-291 | a run sends at most one request per script entry, its first request carries the cached token, and a run that runs out of script used every entry |
| DriveProxy.Authorization | src/main/kotlin/cn/wj/spring/cashbook/controller/AndroidAppUpgradeController.kt:270 | the header "${token_type} ${access_token}" built from the cache, a missing entry rendered as "null" |
| DriveProxy.ChildrenUrl | src/main/kotlin/cn/wj/spring/cashbook/controller/AndroidAppUpgradeController.kt:266 | the Graph address of the children of item `itemId` in drive `driveId` |
| DriveProxy.ContentUrl | src/main/kotlin/cn/wj/spring/cashbook/controller/AndroidAppUpgradeController.kt:318 | the Graph address of the content of item `itemId` in the signed-in user's drive |
| DriveProxy.HttpReply.Unauthorized | src/main/kotlin/cn/wj/spring/cashbook/controller/AndroidAppUpgradeController.kt:279 | the reply that triggers a refresh: a returned reply (not a thrown one) with status 401 (also at line 331) |
| DriveProxy.AuthorizationUnset | src/main/kotlin/cn/wj/spring/cashbook/controller/AndroidAppUpgradeController.kt:270 | with no token stored the header is "null null" |
| DriveProxy.AuthorizationAfterStore | src/main/kotlin/cn/wj/spring/cashbook/controller/AndroidAppUpgradeController.kt:164-170 | once a token reply is stored, the header carries its token type and access token |
| DriveProxy.AuthRetryStep | src/main/kotlin/cn/wj/spring/cashbook/controller/AndroidAppUpgradeController.kt:279-291 | one round: a non-401 reply is finished with no refresh; a 401 whose refresh fails or throws answers with the refresh's own answer and cache; a 401 with a successful refresh re-runs the handler with the same arguments on the new cache |
| DriveProxy.AuthRetryRounds | src/main/kotlin/cn/wj/spring/cashbook/controller/AndroidAppUpgradeController.kt:279-289 | every round but the last got a 401, and an exhausted run got 401 in every round |
| DriveProxy.AuthRetryLast | src/main/kotlin/cn/wj/spring/cashbook/controller/AndroidAppUpgradeController.kt:279-291 | a finished run's answer is the finish of its last reply, or, when that reply was a 401, not a success: a -1001 failure without data, or the refresh's own client failure escaping |
| DriveProxy.AuthRetryKeepsCache | src/main/kotlin/cn/wj/spring/cashbook/controller/AndroidAppUpgradeController.kt:279-289 | across any number of refreshes only the five token keys change, and a token cache holding all five keys or none still does |
| DriveProxy.AuthRetryUncapped | src/main/kotlin/cn/wj/spring/cashbook/controller/AndroidAppUpgradeController.kt:281-284 | with 401 in every round and every refresh accepted, the handler retries in every round until the script is exhausted: there is no retry cap |
| DriveProxy.AuthRetryUsesNewToken | src/main/kotlin/cn/wj/spring/cashbook/controller/AndroidAppUpgradeController.kt:270-284 | the request repeated after a successful refresh carries the new token type and access token |
| DriveProxy.SecondUnauthorizedRetried | src/main/kotlin/cn/wj/spring/cashbook/controller/AndroidAppUpgradeController.kt:331-336 | a second 401 after a successful refresh triggers a second refresh, and the third reply is the answer |
| DriveProxy.AuthRetryEscapesAfterRefresh | src/main/kotlin/cn/wj/spring/cashbook/controller/AndroidAppUpgradeController.kt:272-284 | a throwing repeated request escapes after the refresh has already stored the new tokens, and the cache keeps them |
| DriveProxy.DownloadSucceedsOnlyOnFound | src/main/kotlin/cn/wj/spring/cashbook/controller/AndroidAppUpgradeController.kt:331-348 | a successful download-address answer is the verbatim non-blank Location of some 302 reply |
| DriveProxy.ListSucceedsOnlyWithBody | src/main/kotlin/cn/wj/spring/cashbook/controller/AndroidAppUpgradeController.kt:279-291 | a successful listing relays the body of some non-401 reply |
| Controller.AndroidAppUpgradeController.constructor | src/main/kotlin/cn/wj/spring/cashbook/controller/AndroidAppUpgradeController.kt:46-55 | the two caches are those the shared cache manager holds under "microsoft_token" and "config", with whatever contents its store already has; nothing is assumed of them |
| Controller.AndroidAppUpgradeController.PutTokens | src/main/kotlin/cn/wj/spring/cashbook/controller/AndroidAppUpgradeController.kt:164-168 | the five puts leave the token cache as `WithTokens` describes |
| Controller.AndroidAppUpgradeController.StoreReply | src/main/kotlin/cn/wj/spring/cashbook/controller/AndroidAppUpgradeController.kt:153-169 | the answer and token cache are those of `Accept` |
| Controller.AndroidAppUpgradeController.OnGetMicrosoftOnlineCodeCallback | src/main/kotlin/cn/wj/spring/cashbook/controller/AndroidAppUpgradeController.kt:133-170 | answer, POST made and new token cache are those of `Exchange`; a cache holding all five token keys or none still does, and no non-token key changes |
| Controller.AndroidAppUpgradeController.RefreshOfficeToken | src/main/kotlin/cn/wj/spring/cashbook/controller/AndroidAppUpgradeController.kt:172-205 | answer, POST made and new token cache are those of `Refresh`; a cache holding all five token keys or none still does, and no non-token key changes |
| Controller.AndroidAppUpgradeController.UpdateConfig | src/main/kotlin/cn/wj/spring/cashbook/controller/AndroidAppUpgradeController.kt:220-232 | the config cache becomes `UpdatedConfig` of the old one, the token cache is untouched, and the answer is success with code 0 |
| Controller.AndroidAppUpgradeController.OfficeDriveList | src/main/kotlin/cn/wj/spring/cashbook/controller/AndroidAppUpgradeController.kt:261-292 | outcome, requests sent and new token cache are those of `AuthRetry` with `ListFinish`; a cache holding all five token keys or none still does, and no non-token key changes |
| Controller.AndroidAppUpgradeController.OfficeDriveDownloadUrl | src/main/kotlin/cn/wj/spring/cashbook/controller/AndroidAppUpgradeController.kt:314-349 | outcome, requests sent and new token cache are those of `AuthRetry` with `DownloadFinish`; a cache holding all five token keys or none still does, and no non-token key changes |

## Left out

- HTTP client construction, the redirect strategy and the error handler: only their observable results are modelled. These are the status, the body, the `Location` header and a thrown client failure, with redirects not followed for the download address and no exception on error statuses.
- Upgrade.Latest: the HTTP client's refusal of the empty address of source "2" is not built in. `remote("")` stands for whatever the client does there, and `OneDriveFails` covers the throwing case.
- Cache expiry: the TTL given to `put` is stored, but entries never expire. This means the model never sees an access token that has timed out. The cache library's wiring is not modelled. The "all five token keys or none" property (`TokensConsistent`, `ExchangeKeepsConsistent`, `RefreshKeepsConsistent`, `AuthRetryKeepsCache` and the controller methods) therefore covers only what the handlers write: in the running program `access_token` expires on its own while the other four keys stay, and when `expires_in` is null its TTL is 0, so it expires at once.
- `System.currentTimeMillis()`: the time comes in with each token reply.
- `queryMicrosoftToken` and `queryConfig`: these only format the cache contents as JSON text. They print "null" for absent keys, and the configuration text has a trailing comma.
- The root listing `officeDriveList()` and `officeDriveList1`: both only pass a remote body through, and neither retries.
- Logging, Spring annotations and JSON deserialisation of the release, token and drive records. A body that cannot be read is a fault of the call that read it: in `latest` a caught `Fault`; in the other handlers a `TokenFault` or `HttpFault`, which escapes.
- Which `Location` headers are URIs: the reply says so (`NotAUri` or `Uri`). The URI grammar that `URI.create` applies is not modelled.
- Controller.AndroidAppUpgradeController.constructor: the store behind the cache manager is not shown, so the caches' starting contents are parameters rather than a store the model reads. No handler contract depends on them: each holds for any starting cache, and the "all five token keys or none" clauses hold only where the starting token cache already satisfied that.
- When the same controller serves concurrent requests, they can interleave their `put`s. The model is sequential, so it does not capture that.
- Upgrade.Latest: the fault message is assumed to be present. A fault whose `localizedMessage` is null is not modelled; in Kotlin, passing it to `failed` would itself throw.
- A call that recurses without end is cut off when the script of server replies runs out, and ends as `Exhausted`. Stack overflow is not modelled.
- Kotlin `Long` and `Int` widths are not modelled, because no arithmetic is done on these values.
