# Log collector admission and batching core, in Dafny

This project models the part of the log-collector service that decides whether a submitted log
is admitted, and what happens to it afterwards. It proves properties of that model. The parts are:

- **Rate limiting.** A token bucket per rate-limit key (`TokenBuckets`) with refill and consume.
  Two `RateLimitService`s put a verdict cache in front of it: the auth side (`AuthRateLimit`) and
  the reception side (`ReceptionRateLimit`). The check they share is in `RateLimitChecks`.
- **Authentication and authorization.** `AuthServices` covers the access-key, status, expiry,
  timestamp-window and HMAC signature checks, and the permission decision. `AuthGateways` is the
  reception side's adapter with its context cache. `AuthContexts` holds the context snapshot.
  The two `AppAccess` aggregates are `AuthAppAccess` and `ReceptionAppAccess`. Their TTL caches are
  `AuthCache`, `ReceptionCache` and `ExpiringCache`.
- **The admission chain.** `ReceptionChains` runs basic checks, then authorization, IP whitelist
  and rate limit, then the per-log format and size partition. The chain ends in the single-log
  node (buffer the first log) or the batch node (store a PENDING batch). `AuthorizationChains`
  holds the two-node authorization chain.
- **Buffering.** `LogBuffers` keeps a buffer per (application, endpoint) pair. A buffer is
  flushed into a PENDING batch on a size or age threshold, on demand, or at shutdown.
- **Batch processing.** `BatchProcessing` is the retry loop. It probes storage for an already
  stored batch, preprocesses and stores the validated logs, retries at most three times with
  exponential back-off, and writes the final FAILED state.
- **Batch lifecycle and cleanup.** `LogBatches` covers the batch entity's transitions and
  queries. `BatchCleanup` covers the three sweeps, and `BatchRepositories` the repository.
- **Preprocessing and log values.** `Preprocess` groups logs by format and applies abstract
  strategies. `RawLogs` and `ProcessedLogs` are the log values. `ReceiverEndpoints` is the
  endpoint aggregate.
- **Small values.** `ReceptionResults`, `AuthResults`, `Permissions`, `AccessKeys`, `AppIds`,
  `Ipv4`, `EndpointConfigs`, `Paging` and the processing counters in `Metrics`.

Time is an integer number of milliseconds (`Domain.Instant`), and "now" is always a parameter.
Where the source mutates an object in place, the model is a class. Each method is proved equal
to a specification function of the old state, and the properties are proved about those functions.
Where the source computes values, the model uses datatypes and functions.

## Model

| member | source | states |
|---|---|---|
| AccessKeys.NewAccessKey | log-collector-service-domain/src/main/java/cn/cug/sxy/domain/reception/model/valobj/AccessKey.java:22-54 | a key is accepted exactly when it is present and has 16 to 64 characters from [a-zA-Z0-9_-]; it is kept unchanged; otherwise the AppException message is the result |
| AccessKeys.MaskedShape | log-collector-service-domain/src/main/java/cn/cug/sxy/domain/reception/model/valobj/AccessKey.java:66-73 | a key of up to 8 characters is shown unchanged; a longer one as 12 characters: its first four, "****", its last four |
| AccessKeys.ValidKeyNeverPrintedInFull | log-collector-service-domain/src/main/java/cn/cug/sxy/domain/reception/model/valobj/AccessKey.java:88-91 | the string form of any validated key differs from the key and has 12 characters |
| AppIds.PatternIsValidAppId | log-collector-service-domain/src/main/java/cn/cug/sxy/domain/reception/model/valobj/AppId.java:21 | the id pattern holds exactly for 3 to 32 characters with a letter first and [a-zA-Z0-9_-] after |
| AppIds.NewAppId | log-collector-service-domain/src/main/java/cn/cug/sxy/domain/reception/model/valobj/AppId.java:24-37 | an id is accepted exactly when present and valid in that sense, and kept unchanged |
| AppIds.ToStringRoundTrip | log-collector-service-domain/src/main/java/cn/cug/sxy/domain/reception/model/valobj/AppId.java:40-60 | the string of a validated id is the input, and validating it again gives the same id |
| AppIds.KeyOfValidAppIdInjective | log-collector-service-domain/src/main/java/cn/cug/sxy/domain/reception/model/valobj/AppId.java:21-36 | a valid id holds no colon, so an "appId:endpointId" key determines both parts |
| AuthAppAccess.ExpiryBoundary | log-collector-service-domain/src/main/java/cn/cug/sxy/domain/auth/model/entity/AppAccess.java:211-213 | an application is still valid at its expiry instant and expired one millisecond later |
| AuthAppAccess.AppAccess.Short | log-collector-service-domain/src/main/java/cn/cug/sxy/domain/auth/model/entity/AppAccess.java:71-83 | the new entity is INACTIVE with empty lists, expires one year after creation and has a burst of twice the rate in 32-bit arithmetic (exactly twice when no overflow) |
| AuthAppAccess.AppAccess.Full | log-collector-service-domain/src/main/java/cn/cug/sxy/domain/auth/model/entity/AppAccess.java:88-102 | the new entity is INACTIVE and holds exactly the given fields and lists |
| AuthAppAccess.AppAccess.Activate | log-collector-service-domain/src/main/java/cn/cug/sxy/domain/auth/model/entity/AppAccess.java:107-112 | refused exactly for a BLOCKED application, which stays BLOCKED; otherwise ACTIVE |
| AuthAppAccess.AppAccess.Deactivate | log-collector-service-domain/src/main/java/cn/cug/sxy/domain/auth/model/entity/AppAccess.java:117-122 | refused exactly for a BLOCKED application, which stays BLOCKED; otherwise INACTIVE |
| AuthAppAccess.AppAccess.Block | log-collector-service-domain/src/main/java/cn/cug/sxy/domain/auth/model/entity/AppAccess.java:127-129 | the application is BLOCKED afterwards |
| AuthAppAccess.AppAccess.UpdateAppName | log-collector-service-domain/src/main/java/cn/cug/sxy/domain/auth/model/entity/AppAccess.java:134-136 | only the name changes, to the given one |
| AuthAppAccess.AppAccess.UpdateSecretKey | log-collector-service-domain/src/main/java/cn/cug/sxy/domain/auth/model/entity/AppAccess.java:141-143 | only the secret changes, to the given one |
| AuthAppAccess.AppAccess.UpdateExpiryTime | log-collector-service-domain/src/main/java/cn/cug/sxy/domain/auth/model/entity/AppAccess.java:148-150 | only the expiry instant changes |
| AuthAppAccess.AppAccess.UpdateRateLimit | log-collector-service-domain/src/main/java/cn/cug/sxy/domain/auth/model/entity/AppAccess.java:155-157 | only the rate changes; the burst is left as it was |
| AuthAppAccess.AppAccess.UpdateBurstCapacity | log-collector-service-domain/src/main/java/cn/cug/sxy/domain/auth/model/entity/AppAccess.java:162-164 | only the burst changes |
| AuthAppAccess.AppAccess.AddIpToWhitelist | log-collector-service-domain/src/main/java/cn/cug/sxy/domain/auth/model/entity/AppAccess.java:169-171 | the whitelist gains the IP and nothing else changes |
| AuthAppAccess.AppAccess.RemoveIpFromWhitelist | log-collector-service-domain/src/main/java/cn/cug/sxy/domain/auth/model/entity/AppAccess.java:176-178 | the whitelist loses the IP and nothing else changes |
| AuthAppAccess.AppAccess.ClearIpWhitelist | log-collector-service-domain/src/main/java/cn/cug/sxy/domain/auth/model/entity/AppAccess.java:183-185 | the whitelist is empty and every IP is admitted afterwards |
| AuthAppAccess.AppAccess.AddAllowedEndpoint | log-collector-service-domain/src/main/java/cn/cug/sxy/domain/auth/model/entity/AppAccess.java:190-192 | the endpoint set gains the endpoint |
| AuthAppAccess.AppAccess.RemoveAllowedEndpoint | log-collector-service-domain/src/main/java/cn/cug/sxy/domain/auth/model/entity/AppAccess.java:197-199 | the endpoint set loses the endpoint |
| AuthAppAccess.AppAccess.ClearAllowedEndpoints | log-collector-service-domain/src/main/java/cn/cug/sxy/domain/auth/model/entity/AppAccess.java:204-206 | the endpoint set is empty and every endpoint is allowed afterwards |
| AuthCache.KeySpacesDisjoint | log-collector-service-domain/src/main/java/cn/cug/sxy/domain/auth/service/cache/AuthorizationCache.java:187-203 | an authorization key ("auth:…") never equals a rate-limit key ("ratelimit:…") |
| AuthCache.AuthorizationCache.constructor | log-collector-service-domain/src/main/java/cn/cug/sxy/domain/auth/service/cache/AuthorizationCache.java:27-39 | both caches start empty |
| AuthCache.AuthorizationCache.GetAuthorizationResultByKey | log-collector-service-domain/src/main/java/cn/cug/sxy/domain/auth/service/cache/AuthorizationCache.java:90-103 | a live entry answers without the supplier; otherwise the supplier's verdict is stored for 300 s and returned (the expiring-cache lookup) |
| AuthCache.AuthorizationCache.GetAuthorizationResult | log-collector-service-domain/src/main/java/cn/cug/sxy/domain/auth/service/cache/AuthorizationCache.java:64-80 | the same lookup under the key "auth:appId:endpointId:clientIp" |
| AuthCache.AuthorizationCache.GetRateLimitResult | log-collector-service-domain/src/main/java/cn/cug/sxy/domain/auth/service/cache/AuthorizationCache.java:126-141 | the same lookup under "ratelimit:appId" with a 60 s lifetime |
| AuthCache.AuthorizationCache.CleanupCache | log-collector-service-domain/src/main/java/cn/cug/sxy/domain/auth/service/cache/AuthorizationCache.java:157-181 | both caches lose exactly their expired entries, and the two counts are the numbers removed |
| AuthContexts.WhitelistWidening | log-collector-service-domain/src/main/java/cn/cug/sxy/domain/auth/model/valobj/AuthContext.java:75-81 | adding an IP to a non-empty whitelist revokes nobody, but a first entry revokes every other IP |
| AuthContexts.EndpointSetDecides | log-collector-service-domain/src/main/java/cn/cug/sxy/domain/auth/model/valobj/AuthContext.java:86-92 | once the endpoint set is non-empty, membership alone decides |
| AuthGateways.ToDto | log-collector-service-domain/src/main/java/cn/cug/sxy/domain/reception/alc/AuthGateway.java:171-183 | the DTO succeeds exactly when the domain result does, for the same application; a failure keeps its code and message and names no application |
| AuthGateways.CheckedAppId | log-collector-service-domain/src/main/java/cn/cug/sxy/domain/reception/alc/AuthGateway.java:127 | the AppId constructor the gateway calls succeeds exactly for an id matching the AppId pattern, and otherwise throws the invalid-id error |
| AuthGateways.FailureConvertsToFailure | log-collector-service-domain/src/main/java/cn/cug/sxy/domain/reception/alc/AuthGateway.java:171-183 | a domain authentication failure converts to the DTO failure with the same code and message |
| AuthGateways.AuthenticateRemembersContext | log-collector-service-domain/src/main/java/cn/cug/sxy/domain/reception/alc/AuthGateway.java:39-52 | the DTO succeeds exactly when authentication does; a success remembers exactly the context AuthService built under that application's id, and nothing else changes; a failure passes its code and message through |
| AuthGateways.FallbackContext | log-collector-service-domain/src/main/java/cn/cug/sxy/domain/reception/alc/AuthGateway.java:131-140 | a context built from the application record has an empty client IP, method NONE, and the record's status, endpoint set and whitelist |
| AuthGateways.ResolveIsStable | log-collector-service-domain/src/main/java/cn/cug/sxy/domain/reception/alc/AuthGateway.java:120-146 | a remembered context is returned as is; otherwise a malformed application id throws (the AppId constructor) and nothing is remembered; otherwise a context is found exactly when the application exists, it is remembered, and resolving again later gives the same context and remembers nothing new |
| AuthGateways.AuthorizeNeedsContext | log-collector-service-domain/src/main/java/cn/cug/sxy/domain/reception/alc/AuthGateway.java:55-61 | with no remembered context and no application record, authorize answers false for a well-formed id and throws the invalid-id error for a malformed one, changing nothing either way |
| AuthGateways.AuthorizeIgnoresClientIp | log-collector-service-domain/src/main/java/cn/cug/sxy/domain/reception/alc/AuthGateway.java:55-66 | authorize's answer and effects do not depend on the client IP argument |
| AuthGateways.AuthorizeUsesAuthenticatedIp | log-collector-service-domain/src/main/java/cn/cug/sxy/domain/reception/alc/AuthGateway.java:39-66 | after a successful authentication, with no cached verdict, authorize returns the decision on the authenticated context, so the IP of the authenticating request is the one checked |
| AuthGateways.AuthGateway.constructor | log-collector-service-domain/src/main/java/cn/cug/sxy/domain/reception/alc/AuthGateway.java:31-37 | no context is remembered at first |
| AuthGateways.AuthGateway.Authenticate | log-collector-service-domain/src/main/java/cn/cug/sxy/domain/reception/alc/AuthGateway.java:39-52 | the verdict and the remembered contexts are those of the authenticate specification |
| AuthGateways.AuthGateway.GetAuthContext | log-collector-service-domain/src/main/java/cn/cug/sxy/domain/reception/alc/AuthGateway.java:120-146 | the context, or the invalid-id error, and the remembered contexts are those of the resolution specification |
| AuthGateways.AuthGateway.Authorize | log-collector-service-domain/src/main/java/cn/cug/sxy/domain/reception/alc/AuthGateway.java:55-66 | the verdict or the invalid-id error, the remembered contexts and the authorization cache are those of the authorize specification |
| AuthGateways.AuthGateway.IsIpWhitelisted | log-collector-service-domain/src/main/java/cn/cug/sxy/domain/reception/alc/AuthGateway.java:69-72 | a malformed application id throws the invalid-id error; otherwise the answer is AuthService's whitelist check |
| AuthGateways.AuthGateway.IsRateLimited | log-collector-service-domain/src/main/java/cn/cug/sxy/domain/reception/alc/AuthGateway.java:75-78 | a malformed application id throws the invalid-id error and changes neither the status cache nor the buckets; otherwise the answer, the status cache and the buckets are those of the cached single check on the application key |
| AuthGateways.AuthGateway.IsEndpointRateLimited | log-collector-service-domain/src/main/java/cn/cug/sxy/domain/reception/alc/AuthGateway.java:87-90 | the invalid-id error as above, otherwise the same cached single check on the "appId:endpointId" key |
| AuthGateways.AuthGateway.IsRateLimitedCount | log-collector-service-domain/src/main/java/cn/cug/sxy/domain/reception/alc/AuthGateway.java:81-84 | the invalid-id error as above, otherwise the answer, cache and buckets of the count check on the application key |
| AuthGateways.AuthGateway.IsEndpointRateLimitedCount | log-collector-service-domain/src/main/java/cn/cug/sxy/domain/reception/alc/AuthGateway.java:93-96 | the invalid-id error as above, otherwise the count check on the endpoint key |
| AuthGateways.AuthGateway.GetRateLimitConfig | log-collector-service-domain/src/main/java/cn/cug/sxy/domain/reception/alc/AuthGateway.java:99-114 | a malformed application id throws the invalid-id error and leaves the configuration cache alone; otherwise the endpoint-level rate and burst restated for (appId, endpointId), with the configuration cache updated as the auth service does |
| AuthResults.CodeInjective | log-collector-service-types/src/main/java/cn/cug/sxy/types/enums/ResponseCode.java:16-21 | the six authentication failure codes AUTH_001 to AUTH_006 are pairwise distinct |
| AuthResults.Success | log-collector-service-domain/src/main/java/cn/cug/sxy/domain/auth/model/valobj/AuthResult.java:52-54 | a success result is successful, carries the context and no error |
| AuthResults.AuthenticationFailed | log-collector-service-domain/src/main/java/cn/cug/sxy/domain/auth/model/valobj/AuthResult.java:63-65 | a failure result is not successful, has no context, and carries the code and message |
| AuthResults.AppIdValue | log-collector-service-domain/src/main/java/cn/cug/sxy/domain/auth/model/valobj/AuthResult.java:81-83 | an application id is reported exactly for a successful result |
| AuthResults.AppIdOfFactories | log-collector-service-domain/src/main/java/cn/cug/sxy/domain/auth/model/valobj/AuthResult.java:52-83 | a success reports its context's application id, a failure none |
| AuthResults.DtoSuccess | log-collector-service-types/src/main/java/cn/cug/sxy/types/dto/AuthResultDTO.java:54-56 | the success DTO is authenticated and authorized, names the application and carries no error |
| AuthResults.DtoAuthenticationFailed | log-collector-service-types/src/main/java/cn/cug/sxy/types/dto/AuthResultDTO.java:65-67 | neither authenticated nor authorized, no application, the code and message kept |
| AuthResults.DtoAuthorizationFailed | log-collector-service-types/src/main/java/cn/cug/sxy/types/dto/AuthResultDTO.java:77-79 | authenticated but not authorized, for the application, with the code and message |
| AuthResults.OnlyDtoSuccessSucceeds | log-collector-service-types/src/main/java/cn/cug/sxy/types/dto/AuthResultDTO.java:81-83 | neither failure factory yields a successful DTO |
| AuthServices.ParseLong | log-collector-service-domain/src/main/java/cn/cug/sxy/domain/auth/service/AuthService.java:62-72 | a parsed timestamp always fits in a long |
| AuthServices.DigitChar | log-collector-service-domain/src/main/java/cn/cug/sxy/domain/auth/service/AuthService.java:62-72 | the character printed for a digit is an ASCII digit that reads back as that digit |
| AuthServices.Decimal | log-collector-service-domain/src/main/java/cn/cug/sxy/domain/auth/service/AuthService.java:62-72 | the decimal form of a natural number is a non-empty run of digits whose value is the number |
| AuthServices.ParseLongRoundTrip | log-collector-service-domain/src/main/java/cn/cug/sxy/domain/auth/service/AuthService.java:62-72 | every long survives printing and parsing back |
| AuthServices.StaleTimestampAccepted | log-collector-service-domain/src/main/java/cn/cug/sxy/domain/auth/service/AuthService.java:67-69 | a timestamp 2^63 ms before a present-day clock passes the written check although it is far outside the window (Findings) |
| AuthServices.TimestampCheckCharacterised | log-collector-service-domain/src/main/java/cn/cug/sxy/domain/auth/service/AuthService.java:62-72 | for clocks in [0, 2^62], the written check accepts exactly the timestamps within 300000 ms, plus the one timestamp whose difference wraps (Findings) |
| AuthServices.SignThenVerify | log-collector-service-domain/src/main/java/cn/cug/sxy/domain/auth/service/AuthService.java:74-85 | a request signed with the application's secret is accepted exactly when that secret is non-empty |
| AuthServices.NullBodySignsAsText | log-collector-service-domain/src/main/java/cn/cug/sxy/domain/auth/service/AuthService.java:74-85 | a request without a body verifies exactly like one whose body is the text "null" |
| AuthServices.AuthenticateSucceedsIff | log-collector-service-domain/src/main/java/cn/cug/sxy/domain/auth/service/AuthService.java:46-99 | authentication succeeds exactly for a well-formed registered key of an ACTIVE, unexpired application with a parsable timestamp within the window and, for HMAC requests, a matching signature; the context carries that application's rights and the client IP |
| AuthServices.StatusCheckedBeforeTimestamp | log-collector-service-domain/src/main/java/cn/cug/sxy/domain/auth/service/AuthService.java:52-58 | a non-ACTIVE application fails with AUTH_002 whatever else is wrong with the request |
| AuthServices.DecisionMeaning | log-collector-service-domain/src/main/java/cn/cug/sxy/domain/auth/service/AuthService.java:106-135 | a permission is granted exactly to an ACTIVE context whose IP is empty or whitelisted and, for endpoint access, whose endpoint is allowed |
| AuthServices.CachedVerdictCrossesIps | log-collector-service-domain/src/main/java/cn/cug/sxy/domain/auth/service/AuthService.java:102-107 | because the cache key leaves out the client IP, a verdict for a whitelisted IP is served to a non-whitelisted IP of the same application |
| AuthServices.IsIpWhitelisted | log-collector-service-domain/src/main/java/cn/cug/sxy/domain/auth/service/AuthService.java:144-155 | a null or empty IP passes, an unknown application fails, otherwise the application's whitelist decides |
| AuthServices.AuthService.constructor | log-collector-service-domain/src/main/java/cn/cug/sxy/domain/auth/service/AuthService.java:38-44 | the service uses the given cache |
| AuthServices.AuthService.Authorize | log-collector-service-domain/src/main/java/cn/cug/sxy/domain/auth/service/AuthService.java:102-136 | the verdict and the cache are the expiring-cache lookup of the decision under "auth:appId:permission" |
| AuthServices.AuthService.AuthorizeEndpoint | log-collector-service-domain/src/main/java/cn/cug/sxy/domain/auth/service/AuthService.java:138-141 | the same, for the endpoint-access permission |
| BatchProcessing.BackoffDoubles | log-collector-service-domain/src/main/java/cn/cug/sxy/domain/reception/service/BatchProcessingService.java:358-376 | the first back-off is one interval (1000 ms), each next one doubles it: 1000, 2000, 4000 ms |
| BatchProcessing.ValidatedAppend | log-collector-service-domain/src/main/java/cn/cug/sxy/domain/reception/service/BatchProcessingService.java:229-240 | the validation filter distributes over concatenation, so kept logs stay in their original order |
| BatchProcessing.ValidatedKeepsExactly | log-collector-service-domain/src/main/java/cn/cug/sxy/domain/reception/service/BatchProcessingService.java:229-240 | exactly the validated input logs are kept, and none is kept exactly when none is validated |
| BatchProcessing.Step | log-collector-service-domain/src/main/java/cn/cug/sxy/domain/reception/service/BatchProcessingService.java:65-95 | one pass counts one attempt; the retry count stays or grows by one, and stays only when the pass succeeded or returned |
| BatchProcessing.AfterFetch | log-collector-service-domain/src/main/java/cn/cug/sxy/domain/reception/service/BatchProcessingService.java:66-94 | after the fetch, a pass grows the retry count by one unless it succeeded or returned |
| BatchProcessing.StepCounted | log-collector-service-domain/src/main/java/cn/cug/sxy/domain/reception/service/BatchProcessingService.java:65-95 | one pass keeps the retry count, the attempt count, the exit and the waits in step |
| BatchProcessing.LoopBounded | log-collector-service-domain/src/main/java/cn/cug/sxy/domain/reception/service/BatchProcessingService.java:65-95 | the retry loop makes at most MAX_RETRY_COUNT + 1 = 4 passes, and an interrupted loop leaves with retries remaining |
| BatchProcessing.ProcessOutcome | log-collector-service-domain/src/main/java/cn/cug/sxy/domain/reception/service/BatchProcessingService.java:172-198 | a pass keeps every other batch; storage receives exactly the validated logs, and only when some exist; the pass succeeds exactly when preprocessing succeeds and there is no valid log or storage succeeds; success ends PROCESSED and confirmed with the trace id, failure PROCESSING with the pass's retry count |
| BatchProcessing.IdentityTransitive | log-collector-service-domain/src/main/java/cn/cug/sxy/domain/reception/service/BatchProcessingService.java:56-101 | keeping ids and identity is transitive |
| BatchProcessing.LoopKeepsIdentity | log-collector-service-domain/src/main/java/cn/cug/sxy/domain/reception/service/BatchProcessingService.java:56-101 | the retry loop only updates stored batches: it keeps the set of ids and each batch's identity |
| BatchProcessing.StepKeepsIdentity | log-collector-service-domain/src/main/java/cn/cug/sxy/domain/reception/service/BatchProcessingService.java:65-95 | one pass keeps the set of ids and each batch's identity |
| BatchProcessing.FetchKeepsIdentity | log-collector-service-domain/src/main/java/cn/cug/sxy/domain/reception/service/BatchProcessingService.java:109-145 | the fetch, with its already-stored update, keeps ids and identity |
| BatchProcessing.AfterFetchKeepsIdentity | log-collector-service-domain/src/main/java/cn/cug/sxy/domain/reception/service/BatchProcessingService.java:66-94 | the rest of a pass keeps ids and identity |
| BatchProcessing.NothingToDo | log-collector-service-domain/src/main/java/cn/cug/sxy/domain/reception/service/BatchProcessingService.java:109-128 | a missing, PROCESSED, or FAILED batch with exhausted retries is left alone: no write, no effect, no wait |
| BatchProcessing.AlreadyStored | log-collector-service-domain/src/main/java/cn/cug/sxy/domain/reception/service/BatchProcessingService.java:131-140 | a batch storage already holds is marked PROCESSED and confirmed without a trace id, and is neither preprocessed nor stored again |
| BatchProcessing.InterruptedSkipsFinalFailure | log-collector-service-domain/src/main/java/cn/cug/sxy/domain/reception/service/BatchProcessingService.java:80-97 | an interrupted back-off leaves the loop before retries run out, so no final-failure write follows |
| BatchProcessing.ExhaustedRunFails | log-collector-service-domain/src/main/java/cn/cug/sxy/domain/reception/service/BatchProcessingService.java:97-100 | the final failure is written exactly when the loop ends without success and with retries exhausted; the batch is then FAILED with the last exception's message (corrected half of a finding) |
| BatchProcessing.RunBounded | log-collector-service-domain/src/main/java/cn/cug/sxy/domain/reception/service/BatchProcessingService.java:56-101 | a run makes at most four passes and waits 1000, 2000, 4000 ms in that order, cut short when the loop ends early |
| BatchProcessing.ReturnedFailuresExhaust | log-collector-service-domain/src/main/java/cn/cug/sxy/domain/reception/service/BatchProcessingService.java:65-95 | when every pass fails by returning false, the loop runs out of retries with no exception recorded and the batch PROCESSING |
| BatchProcessing.ReturnedFailuresLeaveProcessing | log-collector-service-domain/src/main/java/cn/cug/sxy/domain/reception/service/BatchProcessingService.java:397-408 | after such a run the written final failure leaves the batch PROCESSING for good, while the corrected one marks it FAILED (Findings) |
| BatchProcessing.ReturnedFailuresExample | log-collector-service-domain/src/main/java/cn/cug/sxy/domain/reception/service/BatchProcessingService.java:397-408 | a concrete PENDING batch with a failing preprocessor ends PROCESSING under the written final failure (Findings) |
| BatchProcessing.BatchProcessingService.constructor | log-collector-service-domain/src/main/java/cn/cug/sxy/domain/reception/service/BatchProcessingService.java:44-54 | the service writes to the given repository |
| BatchProcessing.BatchProcessingService.FetchAndValidateBatch | log-collector-service-domain/src/main/java/cn/cug/sxy/domain/reception/service/BatchProcessingService.java:109-145 | the answer and the repository are those of the fetch specification |
| BatchProcessing.BatchProcessingService.ProcessLogBatch | log-collector-service-domain/src/main/java/cn/cug/sxy/domain/reception/service/BatchProcessingService.java:172-198 | the outcome, the repository and the effects are those of the pass specification |
| BatchProcessing.BatchProcessingService.PublishSuccessEventAndMetrics | log-collector-service-domain/src/main/java/cn/cug/sxy/domain/reception/service/BatchProcessingService.java:326-350 | one success metric with the re-read batch's processing time exactly when the batch is found |
| BatchProcessing.BatchProcessingService.ExecuteRetryWait | log-collector-service-domain/src/main/java/cn/cug/sxy/domain/reception/service/BatchProcessingService.java:358-376 | the wait succeeds exactly when not interrupted; it waits RETRY_INTERVAL_MS · 2^(n−1) after a retry metric for the batch |
| BatchProcessing.BatchProcessingService.HandleFinalFailure | log-collector-service-domain/src/main/java/cn/cug/sxy/domain/reception/service/BatchProcessingService.java:397-408 | the repository and effects are those of the corrected final failure (Findings) |
| BatchProcessing.BatchProcessingService.Pass | log-collector-service-domain/src/main/java/cn/cug/sxy/domain/reception/service/BatchProcessingService.java:66-94 | one loop body's writes, effects, waits and counters are those of one pass of the specification |
| BatchProcessing.BatchProcessingService.ProcessBatchAsync | log-collector-service-domain/src/main/java/cn/cug/sxy/domain/reception/service/BatchProcessingService.java:56-101 | the repository, effects and waits are those of the run specification; a null batch changes nothing |
| BatchRepositories.UpdatesKeepIdentity | log-collector-service-domain/src/main/java/cn/cug/sxy/domain/reception/adapter/repository/ILogBatchRepository.java:67-130 | each status update keeps the stored ids and each batch's identity, logs and reception instant, and leaves every other batch unchanged |
| BatchRepositories.ProcessedBefore | log-collector-service-domain/src/main/java/cn/cug/sxy/domain/reception/adapter/repository/ILogBatchRepository.java:84 | only stored batch ids are returned; what is selected is stated by BatchRepositories.TimeQueries |
| BatchRepositories.LastProcessedBefore | log-collector-service-domain/src/main/java/cn/cug/sxy/domain/reception/adapter/repository/ILogBatchRepository.java:93 | only stored batch ids are returned; what is selected is stated by BatchRepositories.TimeQueries |
| BatchRepositories.TimeQueries | log-collector-service-domain/src/main/java/cn/cug/sxy/domain/reception/adapter/repository/ILogBatchRepository.java:84-93 | both time queries select by status and threshold: different statuses give disjoint answers, a later threshold a superset, and a batch without that time is never selected |
| BatchRepositories.BatchRepository.constructor | log-collector-service-domain/src/main/java/cn/cug/sxy/domain/reception/adapter/repository/ILogBatchRepository.java:20-28 | the repository starts empty |
| BatchRepositories.BatchRepository.Save | log-collector-service-domain/src/main/java/cn/cug/sxy/domain/reception/adapter/repository/ILogBatchRepository.java:28 | the batch is stored under its id, replacing any batch there |
| BatchRepositories.BatchRepository.Delete | log-collector-service-domain/src/main/java/cn/cug/sxy/domain/reception/adapter/repository/ILogBatchRepository.java:136 | the batch's id is removed and nothing else changes |
| BatchRepositories.BatchRepository.UpdateStatus | log-collector-service-domain/src/main/java/cn/cug/sxy/domain/reception/adapter/repository/ILogBatchRepository.java:67 | the batch, when stored, gets the status and error message |
| BatchRepositories.BatchRepository.UpdateStatusAndProcessTime | log-collector-service-domain/src/main/java/cn/cug/sxy/domain/reception/adapter/repository/ILogBatchRepository.java:103-104 | the batch, when stored, gets the status and both times |
| BatchRepositories.BatchRepository.UpdateStatusAndRetryCount | log-collector-service-domain/src/main/java/cn/cug/sxy/domain/reception/adapter/repository/ILogBatchRepository.java:114-115 | the batch, when stored, gets the status, retry count and last process time |
| BatchRepositories.BatchRepository.UpdateProcessedBatchStatus | log-collector-service-domain/src/main/java/cn/cug/sxy/domain/reception/adapter/repository/ILogBatchRepository.java:127-129 | the batch, when stored, gets the status, both times, the trace id and the confirmed flag |
| LogBuffers.AppendsAccumulate | log-collector-service-domain/src/main/java/cn/cug/sxy/domain/reception/service/buffer/LogBufferManager.java:85-92 | appending logs to one key puts them in order after what its buffer held, keeps the buffer's creation instant once it exists, and leaves every other buffer alone |
| LogBuffers.FirstLogNeverTriggers | log-collector-service-domain/src/main/java/cn/cug/sxy/domain/reception/service/buffer/LogBufferManager.java:89-95 | the first log of a new buffer never triggers a flush |
| LogBuffers.Thresholds | log-collector-service-domain/src/main/java/cn/cug/sxy/domain/reception/service/buffer/LogBufferManager.java:39-44 | the 100th log triggers a flush; a buffer exactly 5000 ms old does not, one 5001 ms old does |
| LogBuffers.FlushOfNothing | log-collector-service-domain/src/main/java/cn/cug/sxy/domain/reception/service/buffer/LogBufferManager.java:125-128 | an absent or empty buffer saves no batch and fires no callback |
| LogBuffers.FlushSavesBuffer | log-collector-service-domain/src/main/java/cn/cug/sxy/domain/reception/service/buffer/LogBufferManager.java:129-150 | a non-empty buffer is saved as one PENDING batch with its logs, application and endpoint and no retries; nothing else is stored; the callback gets the id exactly when one is set |
| LogBuffers.DistinctCardinality | log-collector-service-domain/src/main/java/cn/cug/sxy/domain/reception/service/buffer/LogBufferManager.java:111 | a snapshot of distinct keys has as many elements as keys |
| LogBuffers.NothingLeft | log-collector-service-domain/src/main/java/cn/cug/sxy/domain/reception/service/buffer/LogBufferManager.java:107-116 | once every key of a full snapshot has been removed, no buffer is left |
| LogBuffers.FlushInOrderSnoc | log-collector-service-domain/src/main/java/cn/cug/sxy/domain/reception/service/buffer/LogBufferManager.java:113-115 | flushing one more key continues from where the earlier flushes left off |
| LogBuffers.FlushInOrderSavesAll | log-collector-service-domain/src/main/java/cn/cug/sxy/domain/reception/service/buffer/LogBufferManager.java:107-116 | flushing under distinct ids saves each non-empty buffer as its PENDING batch and keeps every other stored batch |
| LogBuffers.FlushInOrderCalls | log-collector-service-domain/src/main/java/cn/cug/sxy/domain/reception/service/buffer/LogBufferManager.java:107-116 | flushing only appends to the callback's calls: the id of each non-empty buffer when a callback is set, nothing otherwise |
| LogBuffers.LogBuffer.constructor | log-collector-service-domain/src/main/java/cn/cug/sxy/domain/reception/service/buffer/LogBufferManager.java:203-207 | a new buffer is empty, with its application, endpoint and creation instant |
| LogBuffers.LogBuffer.AddLog | log-collector-service-domain/src/main/java/cn/cug/sxy/domain/reception/service/buffer/LogBufferManager.java:209-211 | the log is appended at the end |
| LogBuffers.LogBufferManager.Held | log-collector-service-domain/src/main/java/cn/cug/sxy/domain/reception/service/buffer/LogBufferManager.java:125 | the buffer held under a key is the key's entry in the contents |
| LogBuffers.LogBufferManager.constructor | log-collector-service-domain/src/main/java/cn/cug/sxy/domain/reception/service/buffer/LogBufferManager.java:51-75 | no buffer, no callback and no scheduled flusher at first |
| LogBuffers.LogBufferManager.Start | log-collector-service-domain/src/main/java/cn/cug/sxy/domain/reception/service/buffer/LogBufferManager.java:157-167 | the periodic flusher is scheduled |
| LogBuffers.LogBufferManager.SetBatchProcessCallback | log-collector-service-domain/src/main/java/cn/cug/sxy/domain/reception/service/buffer/LogBufferManager.java:70-71 | records whether a callback is set |
| LogBuffers.LogBufferManager.ContentsAfterUpdate | log-collector-service-domain/src/main/java/cn/cug/sxy/domain/reception/service/buffer/LogBufferManager.java:89-92 | when one buffer changes, the contents change at that key only |
| LogBuffers.LogBufferManager.BufferFor | log-collector-service-domain/src/main/java/cn/cug/sxy/domain/reception/service/buffer/LogBufferManager.java:89-90 | the key's existing buffer, or a new empty one stamped now, stored under the key |
| LogBuffers.LogBufferManager.AddLog | log-collector-service-domain/src/main/java/cn/cug/sxy/domain/reception/service/buffer/LogBufferManager.java:85-102 | the contents are those of appending the log to its key's buffer, and a flush is reported exactly when that buffer holds 100 logs or is older than 5000 ms |
| LogBuffers.LogBufferManager.FlushBuffer | log-collector-service-domain/src/main/java/cn/cug/sxy/domain/reception/service/buffer/LogBufferManager.java:123-154 | the key's buffer is removed; the repository and callback calls are those of the flush specification |
| LogBuffers.LogBufferManager.FlushAllBuffers | log-collector-service-domain/src/main/java/cn/cug/sxy/domain/reception/service/buffer/LogBufferManager.java:107-116 | every buffer of the key snapshot is flushed in order; no buffer is left; the repository and calls are those of the in-order flush |
| LogBuffers.LogBufferManager.Destroy | log-collector-service-domain/src/main/java/cn/cug/sxy/domain/reception/service/buffer/LogBufferManager.java:170-184 | all buffers are flushed as above and the flusher stops |
| BatchCleanup.MarkedFailed | log-collector-service-domain/src/main/java/cn/cug/sxy/domain/reception/service/cleanup/BatchCleanupService.java:128-131 | marking keeps the set of stored ids |
| BatchCleanup.CleanupMeaning | log-collector-service-domain/src/main/java/cn/cug/sxy/domain/reception/service/cleanup/BatchCleanupService.java:55-72 | after a run a batch survives exactly unless it is PROCESSED past the processed retention or FAILED past the failed retention; a survivor PROCESSING past the timeout is FAILED with "处理超时", every other survivor unchanged |
| BatchCleanup.PendingUntouched | log-collector-service-domain/src/main/java/cn/cug/sxy/domain/reception/service/cleanup/BatchCleanupService.java:55-72 | a PENDING batch is never touched by a run |
| BatchCleanup.TimedOutSurvivesRun | log-collector-service-domain/src/main/java/cn/cug/sxy/domain/reception/service/cleanup/BatchCleanupService.java:55-133 | the failed sweep runs before the timeout sweep, so a batch timing out in this run ends FAILED, stamped now, with its identity, but is not deleted |
| BatchCleanup.BatchCleanupService.constructor | log-collector-service-domain/src/main/java/cn/cug/sxy/domain/reception/service/cleanup/BatchCleanupService.java:32-36 | the service uses the given repository and settings |
| BatchCleanup.BatchCleanupService.CleanupProcessedBatches | log-collector-service-domain/src/main/java/cn/cug/sxy/domain/reception/service/cleanup/BatchCleanupService.java:77-92 | exactly the PROCESSED batches processed before now minus the processed retention are deleted |
| BatchCleanup.BatchCleanupService.CleanupFailedBatches | log-collector-service-domain/src/main/java/cn/cug/sxy/domain/reception/service/cleanup/BatchCleanupService.java:97-112 | exactly the FAILED batches last processed before now minus the failed retention are deleted |
| BatchCleanup.BatchCleanupService.DeleteAll | log-collector-service-domain/src/main/java/cn/cug/sxy/domain/reception/service/cleanup/BatchCleanupService.java:88-90 | exactly the listed batches are deleted |
| BatchCleanup.BatchCleanupService.CleanupTimeoutBatches | log-collector-service-domain/src/main/java/cn/cug/sxy/domain/reception/service/cleanup/BatchCleanupService.java:117-133 | exactly the PROCESSING batches last processed before now minus the timeout are marked FAILED and saved; ids stay keyed |
| BatchCleanup.BatchCleanupService.CleanupBatches | log-collector-service-domain/src/main/java/cn/cug/sxy/domain/reception/service/cleanup/BatchCleanupService.java:55-72 | the repository after the three sweeps is that of the cleanup specification |
| EndpointConfigs.LimitsInclusiveAndMonotone | log-collector-service-domain/src/main/java/cn/cug/sxy/domain/reception/service/config/EndpointConfig.java:53-75 | a size or count equal to its limit is within it, and an exceeded limit stays exceeded for anything larger |
| EndpointConfigs.NonPositiveCountLimitDisablesCheck | log-collector-service-domain/src/main/java/cn/cug/sxy/domain/reception/service/config/EndpointConfig.java:73-75 | a batch-count limit of zero or less never reports an excess |
| ExpiringCache.Lookup | log-collector-service-domain/src/main/java/cn/cug/sxy/domain/auth/service/cache/AuthorizationCache.java:90-103 | afterwards the key is present and answers the returned verdict; the supplier's verdict is returned exactly unless a live entry exists; no other entry is touched, and no live entry is replaced or shortened; the key set grows by the key only; with a non-negative lifetime the key is live afterwards |
| ExpiringCache.ServedForTtl | log-collector-service-domain/src/main/java/cn/cug/sxy/domain/auth/service/cache/AuthorizationCache.java:90-103 | a verdict computed at t0 is served up to and including t0 + ttl whatever the supplier says, and recomputed after |
| ExpiringCache.Cleaned | log-collector-service-domain/src/main/java/cn/cug/sxy/domain/auth/service/cache/AuthorizationCache.java:157-181 | exactly the live entries remain, unchanged |
| ExpiringCache.CleanupInvisible | log-collector-service-domain/src/main/java/cn/cug/sxy/domain/auth/service/cache/AuthorizationCache.java:157-181 | removing expired entries changes no lookup made at that instant or later |
| ExpiringCache.Cleanup | log-collector-service-domain/src/main/java/cn/cug/sxy/domain/auth/service/cache/AuthorizationCache.java:159-173 | the loop leaves the cleaned cache and counts the entries removed |
| Ipv4.ThreeDigitValue | log-collector-service-domain/src/main/java/cn/cug/sxy/domain/reception/model/aggregate/AppAccess.java:78-79 | the value of three digits is their positional sum |
| Ipv4.TwoDigitValue | log-collector-service-domain/src/main/java/cn/cug/sxy/domain/reception/model/aggregate/AppAccess.java:78-79 | the value of two digits is their positional sum |
| Ipv4.OctetHasNoDot | log-collector-service-domain/src/main/java/cn/cug/sxy/domain/reception/model/aggregate/AppAccess.java:78-79 | an octet of the pattern holds no dot |
| Ipv4.OctetMeaning | log-collector-service-domain/src/main/java/cn/cug/sxy/domain/reception/model/aggregate/AppAccess.java:78-79 | the octet alternatives match exactly one to three digits of value at most 255, leading zeros allowed |
| Ipv4.DottedQuadIsValid | log-collector-service-domain/src/main/java/cn/cug/sxy/domain/reception/model/aggregate/AppAccess.java:78-79 | four octets joined by dots always match the address pattern |
| Ipv4.SplitTwo | log-collector-service-domain/src/main/java/cn/cug/sxy/domain/reception/model/aggregate/AppAccess.java:78-79 | splitting two dot-free pieces joined by a dot gives them back |
| Ipv4.SplitThree | log-collector-service-domain/src/main/java/cn/cug/sxy/domain/reception/model/aggregate/AppAccess.java:78-79 | the same for three pieces |
| Ipv4.SplitFour | log-collector-service-domain/src/main/java/cn/cug/sxy/domain/reception/model/aggregate/AppAccess.java:78-79 | splitting four dot-free pieces joined by dots gives them back |
| Ipv4.ValidIpv4Octets | log-collector-service-domain/src/main/java/cn/cug/sxy/domain/reception/model/aggregate/AppAccess.java:78-79 | every dot-separated piece of a matching address is a decimal number from 0 to 255 |
| JavaInt.WrapInt32 | log-collector-service-domain/src/main/java/cn/cug/sxy/domain/reception/model/aggregate/AppAccess.java:88 | the 32-bit wrap lands in int range, differs from the exact value by a multiple of 2^32, and is the identity in range |
| JavaInt.WrapInt64 | log-collector-service-domain/src/main/java/cn/cug/sxy/domain/auth/service/AuthService.java:67 | the 64-bit wrap lands in long range, differs by a multiple of 2^64, and is the identity in range |
| JavaInt.AbsInt64 | log-collector-service-domain/src/main/java/cn/cug/sxy/domain/auth/service/AuthService.java:67 | Math.abs on a long: Long.MIN_VALUE stays negative, anything else gives its non-negative magnitude |
| LogBatches.NewBatch | log-collector-service-domain/src/main/java/cn/cug/sxy/domain/reception/model/entity/LogBatchEntity.java:74-85 | a new batch holds the given id, application, endpoint, logs, status and reception instant, with no retries, priority 0, unconfirmed and nothing processed yet |
| LogBatches.WaitTimeMs | log-collector-service-domain/src/main/java/cn/cug/sxy/domain/reception/model/entity/LogBatchEntity.java:160-163 | a processed batch waited exactly its processing time |
| LogBatches.ContentBytesAppend | log-collector-service-domain/src/main/java/cn/cug/sxy/domain/reception/model/entity/LogBatchEntity.java:140-144 | the payload of two runs of logs is the sum of their payloads |
| LogBatches.PayloadBounds | log-collector-service-domain/src/main/java/cn/cug/sxy/domain/reception/model/entity/LogBatchEntity.java:140-144 | the payload is at least each log's character count and at least the first log's UTF-8 length |
| LogBatches.ProcessedMeaning | log-collector-service-domain/src/main/java/cn/cug/sxy/domain/reception/model/entity/LogBatchEntity.java:98-104 | a processed batch is PROCESSED and confirmed with the trace id, processed and last-processed now, needs no confirmation, cannot be retried, takes now minus reception to process, and keeps its identity and retry count |
| LogBatches.FailedMeaning | log-collector-service-domain/src/main/java/cn/cug/sxy/domain/reception/model/entity/LogBatchEntity.java:109-113 | a failed batch is FAILED with the message, stamped now, retryable exactly while retries remain, and keeps its identity and processed instant |
| LogBatches.RetriesRunOut | log-collector-service-domain/src/main/java/cn/cug/sxy/domain/reception/model/entity/LogBatchEntity.java:125-127 | k increments add exactly k; a FAILED batch stays retryable exactly while its count plus k is below the maximum |
| LogBatches.UnprocessedTakesNoTime | log-collector-service-domain/src/main/java/cn/cug/sxy/domain/reception/model/entity/LogBatchEntity.java:149-154 | an unprocessed batch has processing time 0 |
| LogBatches.LogBatchEntity.constructor | log-collector-service-domain/src/main/java/cn/cug/sxy/domain/reception/model/entity/LogBatchEntity.java:74-85 | the new entity's state is the new-batch value |
| LogBatches.LogBatchEntity.MarkAsProcessing | log-collector-service-domain/src/main/java/cn/cug/sxy/domain/reception/model/entity/LogBatchEntity.java:90-93 | PROCESSING, stamped now, nothing else changes |
| LogBatches.LogBatchEntity.MarkAsProcessed | log-collector-service-domain/src/main/java/cn/cug/sxy/domain/reception/model/entity/LogBatchEntity.java:98-104 | the state is the processed transition of the old state |
| LogBatches.LogBatchEntity.MarkAsFailed | log-collector-service-domain/src/main/java/cn/cug/sxy/domain/reception/model/entity/LogBatchEntity.java:109-113 | the state is the failed transition of the old state |
| LogBatches.LogBatchEntity.MarkAsConfirmed | log-collector-service-domain/src/main/java/cn/cug/sxy/domain/reception/model/entity/LogBatchEntity.java:118-120 | only the confirmed flag is set |
| LogBatches.LogBatchEntity.IncrementRetryCount | log-collector-service-domain/src/main/java/cn/cug/sxy/domain/reception/model/entity/LogBatchEntity.java:125-127 | only the retry count grows, by one |
| LogBatches.LogBatchEntity.SetLogs | log-collector-service-domain/src/main/java/cn/cug/sxy/domain/reception/model/entity/LogBatchEntity.java:18 | only the logs change |
| Metrics.AddSample | log-collector-service-domain/src/main/java/cn/cug/sxy/domain/reception/service/metrics/LogProcessingMetrics.java:94-115 | one more sample: the count grows by one, the total by the sample, the maximum and minimum move to include it and only then |
| Metrics.AddSampleConsistent | log-collector-service-domain/src/main/java/cn/cug/sxy/domain/reception/service/metrics/LogProcessingMetrics.java:94-115 | a sample added to fresh or consistent statistics gives consistent ones: count·min ≤ total ≤ count·max |
| Metrics.AverageBetweenMinAndMax | log-collector-service-domain/src/main/java/cn/cug/sxy/domain/reception/service/metrics/LogProcessingMetrics.java:165-175 | with consistent statistics the average lies between minimum and maximum |
| Metrics.SampleKeepsStatsValid | log-collector-service-domain/src/main/java/cn/cug/sxy/domain/reception/service/metrics/LogProcessingMetrics.java:94-115 | writing one sample into the four maps keeps them valid, changes that key's statistics by the sample and leaves every other key alone |
| Metrics.LogProcessingMetrics.constructor | log-collector-service-domain/src/main/java/cn/cug/sxy/domain/reception/service/metrics/LogProcessingMetrics.java:21-39 | every counter and statistic starts empty |
| Metrics.LogProcessingMetrics.RecordLogReceived | log-collector-service-domain/src/main/java/cn/cug/sxy/domain/reception/service/metrics/LogProcessingMetrics.java:51-54 | the key's received-log count grows by the count, no other counter changes |
| Metrics.LogProcessingMetrics.RecordBatchReceived | log-collector-service-domain/src/main/java/cn/cug/sxy/domain/reception/service/metrics/LogProcessingMetrics.java:59-62 | the key's received-batch count grows by one |
| Metrics.LogProcessingMetrics.RecordProcessSuccess | log-collector-service-domain/src/main/java/cn/cug/sxy/domain/reception/service/metrics/LogProcessingMetrics.java:67-73 | the success count grows by the log count and the processing time is one more sample for the key; the statistics stay valid |
| Metrics.LogProcessingMetrics.RecordProcessFailure | log-collector-service-domain/src/main/java/cn/cug/sxy/domain/reception/service/metrics/LogProcessingMetrics.java:78-81 | the key's failure count grows by one |
| Metrics.LogProcessingMetrics.RecordRetry | log-collector-service-domain/src/main/java/cn/cug/sxy/domain/reception/service/metrics/LogProcessingMetrics.java:86-89 | the key's retry count grows by one |
| Metrics.LogProcessingMetrics.RecordProcessingTime | log-collector-service-domain/src/main/java/cn/cug/sxy/domain/reception/service/metrics/LogProcessingMetrics.java:94-115 | the key's statistics gain the sample, the others are untouched, and validity is kept |
| Metrics.LogProcessingMetrics.Reset | log-collector-service-domain/src/main/java/cn/cug/sxy/domain/reception/service/metrics/LogProcessingMetrics.java:198-208 | every counter and statistic is forgotten |
| Metrics.NeverRecordedReadsZero | log-collector-service-domain/src/main/java/cn/cug/sxy/domain/reception/service/metrics/LogProcessingMetrics.java:120-194 | every getter reads 0 for a key never recorded |
| Metrics.ReportedAverageInRange | log-collector-service-domain/src/main/java/cn/cug/sxy/domain/reception/service/metrics/LogProcessingMetrics.java:165-194 | once a key has a sample, the reported average lies between the reported minimum and maximum, and min ≤ max |
| Paging.CeilDiv | log-collector-service-types/src/main/java/cn/cug/sxy/types/model/Page.java:40-47 | the result is the ceiling: b·(q−1) < a ≤ b·q |
| Paging.NewPage | log-collector-service-types/src/main/java/cn/cug/sxy/types/model/Page.java:40-47 | the page keeps its content and numbers; no pages for a non-positive size, otherwise the least page count covering the elements |
| Paging.PageNavigation | log-collector-service-types/src/main/java/cn/cug/sxy/types/model/Page.java:62-91 | for an existing page, hasNext is exactly not isLast and hasPrevious exactly not isFirst |
| Paging.CeilDivUnique | log-collector-service-types/src/main/java/cn/cug/sxy/types/model/Page.java:40-47 | the ceiling is the only q with b·(q−1) < a ≤ b·q |
| Paging.PageCountMinimal | log-collector-service-types/src/main/java/cn/cug/sxy/types/model/Page.java:40-47 | no pages exactly when no elements, and pageSize more elements take exactly one more page |
| Paging.NoNextPageWithoutPageSize | log-collector-service-domain/src/main/java/cn/cug/sxy/domain/storage/model/valobj/LogQueryResult.java:42-56 | a non-positive page size gives no pages and no next page |
| Paging.QueryHasNextMeaning | log-collector-service-domain/src/main/java/cn/cug/sxy/domain/storage/model/valobj/LogQueryResult.java:42-56 | with 1-based pages, page p has a next page exactly when the hits reach past p·pageSize |
| Permissions.ForEndpoint | log-collector-service-domain/src/main/java/cn/cug/sxy/domain/auth/model/valobj/Permission.java:45-47 | an endpoint-access permission on the endpoint with action "access" |
| Permissions.ForApiCall | log-collector-service-domain/src/main/java/cn/cug/sxy/domain/auth/model/valobj/Permission.java:52-54 | an API-call permission on the path with the HTTP method as action |
| Permissions.ForResource | log-collector-service-domain/src/main/java/cn/cug/sxy/domain/auth/model/valobj/Permission.java:59-61 | a resource-operation permission on "type:id" with the operation |
| Permissions.ForFeature | log-collector-service-domain/src/main/java/cn/cug/sxy/domain/auth/model/valobj/Permission.java:66-68 | a feature-access permission with action "access" |
| Permissions.ToStringSeparatesTypes | log-collector-service-domain/src/main/java/cn/cug/sxy/domain/auth/model/valobj/Permission.java:86-89 | permissions with the same string form have the same type |
| Permissions.EqualityIsFieldwise | log-collector-service-domain/src/main/java/cn/cug/sxy/domain/auth/model/valobj/Permission.java:71-79 | two permissions are equal exactly when type, resource and action are |
| Preprocess.PreprocessOutcome | log-collector-service-domain/src/main/java/cn/cug/sxy/domain/preprocess/service/LogPreprocessService.java:34-68 | preprocess never fails and keeps the raw log's content, format, application and endpoint; without a strategy the log stays validated; when the strategy throws, the result is a fresh log with the raw metadata, no structured fields, marked failed with "预处理失败: " followed by the message |
| Preprocess.Group | log-collector-service-domain/src/main/java/cn/cug/sxy/domain/preprocess/service/LogPreprocessService.java:73-74 | a format's group is drawn from the input and holds only logs of that format |
| Preprocess.ProcessGroupKeys | log-collector-service-domain/src/main/java/cn/cug/sxy/domain/preprocess/service/LogPreprocessService.java:82-104 | processing one group, batch-wise or log by log, keeps every log's content and format at its position |
| Preprocess.BatchSpecKeys | log-collector-service-domain/src/main/java/cn/cug/sxy/domain/preprocess/service/LogPreprocessService.java:77-107 | the result of preprocessBatch lists the (content, format) pairs of the groups in the order they were visited |
| Preprocess.GroupsConcatIsFilter | log-collector-service-domain/src/main/java/cn/cug/sxy/domain/preprocess/service/LogPreprocessService.java:73-77 | grouping by distinct formats and concatenating the groups yields, as a multiset, exactly the logs whose format is among them |
| Preprocess.BatchIsPermutation | log-collector-service-domain/src/main/java/cn/cug/sxy/domain/preprocess/service/LogPreprocessService.java:71-107 | preprocessBatch neither loses nor duplicates a log: its output is a permutation of the input's (content, format) pairs, with the same length |
| Preprocess.BatchCarriesIds | log-collector-service-domain/src/main/java/cn/cug/sxy/domain/preprocess/service/LogPreprocessService.java:86-102 | every processed log of a batch carries the call's application, endpoint and processing instant |
| Preprocess.BatchFailsOnlyByBatchStrategy | log-collector-service-domain/src/main/java/cn/cug/sxy/domain/preprocess/service/LogPreprocessService.java:82-97 | preprocessBatch fails exactly when some present format's batch-capable strategy throws on its group; a per-log strategy's exception never escapes |
| Preprocess.Preprocess | log-collector-service-domain/src/main/java/cn/cug/sxy/domain/preprocess/service/LogPreprocessService.java:34-68 | the method builds a fresh ProcessedLog whose state is the preprocess specification, including the recovery path |
| Preprocess.ProcessGroupLogs | log-collector-service-domain/src/main/java/cn/cug/sxy/domain/preprocess/service/LogPreprocessService.java:80-104 | one loop iteration: fresh logs whose states are the group's specification, or the batch strategy's exception |
| Preprocess.PreprocessBatch | log-collector-service-domain/src/main/java/cn/cug/sxy/domain/preprocess/service/LogPreprocessService.java:71-107 | the loop over the grouping map builds fresh logs whose states are exactly the batch specification, or propagates the first batch exception |
| Preprocess.BatchSpecStep | log-collector-service-domain/src/main/java/cn/cug/sxy/domain/preprocess/service/LogPreprocessService.java:77-105 | visiting one more format appends its group's result, or fails with its exception, or leaves an earlier failure unchanged |
| Preprocess.BatchSpecStaysFailed | log-collector-service-domain/src/main/java/cn/cug/sxy/domain/preprocess/service/LogPreprocessService.java:77-105 | once a format's batch strategy has thrown, the rest of the formats cannot change the outcome |
| Preprocess.PreprocessFromBatch | log-collector-service-domain/src/main/java/cn/cug/sxy/domain/preprocess/service/LogPreprocessService.java:111-113 | preprocessFromBatch is preprocessBatch on the batch's logs, application and endpoint: it fails exactly when the batch specification fails, with the same strategy exception, and otherwise returns fresh logs equal to the specification's |
| ProcessedLogs.Initial | log-collector-service-domain/src/main/java/cn/cug/sxy/domain/reception/model/valobj/ProcessedLog.java:60-70 | a new processed log copies content, format and metadata, starts validated, with no failure reason and no structured fields |
| ProcessedLogs.EditsKeepIdentityAndFailure | log-collector-service-domain/src/main/java/cn/cug/sxy/domain/reception/model/valobj/ProcessedLog.java:24-39 | no mutator touches the final fields (content, format, application, endpoint, processing time); a log is validated after a run of edits exactly when it was before and no edit marked it failed. Also lines 77-127. |
| ProcessedLogs.ApplyEditsAppend | log-collector-service-domain/src/main/java/cn/cug/sxy/domain/reception/model/valobj/ProcessedLog.java:77-127 | performing edits one after another composes: one more edit acts on the state the earlier ones left |
| ProcessedLogs.ClientIp | log-collector-service-domain/src/main/java/cn/cug/sxy/domain/reception/model/valobj/ProcessedLog.java:87-89 | getClientIp is the "clientIp" metadata entry, or the empty string when there is none |
| ProcessedLogs.Size | log-collector-service-domain/src/main/java/cn/cug/sxy/domain/reception/model/valobj/ProcessedLog.java:96-98 | getSize is the UTF-8 byte length of the content: between one and four bytes per character |
| ProcessedLogs.ProcessedLog.constructor | log-collector-service-domain/src/main/java/cn/cug/sxy/domain/reception/model/valobj/ProcessedLog.java:60-70 | the object's state is the initial record of its arguments |
| ProcessedLogs.ProcessedLog.MarkValidationFailed | log-collector-service-domain/src/main/java/cn/cug/sxy/domain/reception/model/valobj/ProcessedLog.java:77-80 | the log is no longer validated and carries the reason; nothing else changes |
| ProcessedLogs.ProcessedLog.UpdateMetadata | log-collector-service-domain/src/main/java/cn/cug/sxy/domain/reception/model/valobj/ProcessedLog.java:105-107 | the metadata is replaced by a copy of the new map; nothing else changes |
| ProcessedLogs.ProcessedLog.AddMetadata | log-collector-service-domain/src/main/java/cn/cug/sxy/domain/reception/model/valobj/ProcessedLog.java:115-117 | one metadata entry is set, so getClientIp changes only when the key is "clientIp" |
| ProcessedLogs.ProcessedLog.AddStructuredField | log-collector-service-domain/src/main/java/cn/cug/sxy/domain/reception/model/valobj/ProcessedLog.java:125-127 | one structured field is set; nothing else changes |
| ProcessedLogs.ProcessedLog.Apply | log-collector-service-domain/src/main/java/cn/cug/sxy/domain/reception/model/valobj/ProcessedLog.java:77-127 | performing one strategy edit through the matching mutator has exactly that edit's effect |
| ProcessedLogs.ProcessedLog.ApplyAll | log-collector-service-domain/src/main/java/cn/cug/sxy/domain/reception/model/valobj/ProcessedLog.java:77-127 | a strategy's edits performed in order leave the state the edit list specifies |
| AuthRateLimit.LevelsNeverCollide | log-collector-service-domain/src/main/java/cn/cug/sxy/domain/auth/service/ratelimit/RateLimitService.java:251-264 | an application-level key can equal an endpoint-level key only if the application id contains ':' |
| AuthRateLimit.LevelsCollideWithColon | log-collector-service-domain/src/main/java/cn/cug/sxy/domain/auth/service/ratelimit/RateLimitService.java:251-264 | the collision needs a colon in an application id, which the AppId pattern (AppId.java:21) rejects; for such ids, application "a:b" and endpoint "b" of application "a" share one bucket |
| AuthRateLimit.AppConfig | log-collector-service-domain/src/main/java/cn/cug/sxy/domain/auth/service/ratelimit/RateLimitService.java:123-143 | a cached config wins; with no limiter configured, a disabled default that is not cached; otherwise the limiter's rate, cached under the key |
| AuthRateLimit.EndpointConfig | log-collector-service-domain/src/main/java/cn/cug/sxy/domain/auth/service/ratelimit/RateLimitService.java:154-174 | a cached endpoint config wins; with no limiter for the endpoint, the application-level answer; otherwise the endpoint's config, cached |
| AuthRateLimit.CachedConfigIsSticky | log-collector-service-domain/src/main/java/cn/cug/sxy/domain/auth/service/ratelimit/RateLimitService.java:123-143 | once a config is cached, later lookups return it whatever the limiter now holds, since updates clear only the verdict cache. Also lines 184-190. |
| AuthRateLimit.RateLimitService.constructor | log-collector-service-domain/src/main/java/cn/cug/sxy/domain/auth/service/ratelimit/RateLimitService.java:22-29 | the service holds the limiter and starts with empty verdict and config caches |
| AuthRateLimit.RateLimitService.IsRateLimited | log-collector-service-domain/src/main/java/cn/cug/sxy/domain/auth/service/ratelimit/RateLimitService.java:43-79 | the verdict and the new caches and buckets are those of the cached single check on the key |
| AuthRateLimit.RateLimitService.IsAppRateLimited | log-collector-service-domain/src/main/java/cn/cug/sxy/domain/auth/service/ratelimit/RateLimitService.java:43-57 | isRateLimited(appId) is the cached check on the application key |
| AuthRateLimit.RateLimitService.IsEndpointRateLimited | log-collector-service-domain/src/main/java/cn/cug/sxy/domain/auth/service/ratelimit/RateLimitService.java:66-79 | isRateLimited(appId, endpointId) is the cached check on the endpoint key |
| AuthRateLimit.RateLimitService.IsRateLimitedCount | log-collector-service-domain/src/main/java/cn/cug/sxy/domain/auth/service/ratelimit/RateLimitService.java:88-114 | the counted check always asks the limiter for count tokens and overwrites the cached verdict |
| AuthRateLimit.RateLimitService.GetAppConfig | log-collector-service-domain/src/main/java/cn/cug/sxy/domain/auth/service/ratelimit/RateLimitService.java:123-143 | the returned config and the new config cache are those of the application-level lookup |
| AuthRateLimit.RateLimitService.GetEndpointConfig | log-collector-service-domain/src/main/java/cn/cug/sxy/domain/auth/service/ratelimit/RateLimitService.java:154-174 | the returned config and the new config cache are those of the endpoint-level lookup |
| AuthRateLimit.RateLimitService.UpdateRateLimit | log-collector-service-domain/src/main/java/cn/cug/sxy/domain/auth/service/ratelimit/RateLimitService.java:184-210 | the key's bucket is replaced (full, at the new rate) or removed when the limit is not positive; its cached verdict is dropped; cached configs stay |
| AuthRateLimit.RateLimitService.RemoveRateLimit | log-collector-service-domain/src/main/java/cn/cug/sxy/domain/auth/service/ratelimit/RateLimitService.java:219-241 | the key's bucket and cached verdict are dropped; cached configs stay |
| RateLimitChecks.CountCheck | log-collector-service-domain/src/main/java/cn/cug/sxy/domain/auth/service/ratelimit/RateLimitService.java:88-96 | the counted check is limited exactly when the limiter refuses count tokens, and caches that verdict under the key |
| RateLimitChecks.CachedVerdictIsSticky | log-collector-service-domain/src/main/java/cn/cug/sxy/domain/auth/service/ratelimit/RateLimitService.java:43-57 | once a verdict is cached, every later single check repeats it without touching any bucket, whatever the buckets then hold |
| RateLimitChecks.CachedAdmitsAll | log-collector-service-domain/src/main/java/cn/cug/sxy/domain/auth/service/ratelimit/RateLimitService.java:43-57 | as written: when a key's cached verdict is "not limited", every one of n further checks is admitted |
| RateLimitChecks.CachedCheckOverAdmits | log-collector-service-domain/src/main/java/cn/cug/sxy/domain/auth/service/ratelimit/RateLimitService.java:43-57 | as written: with one token in the bucket, three successive checks are all admitted |
| RateLimitChecks.UncachedAdmissionsBounded | log-collector-service-domain/src/main/java/cn/cug/sxy/domain/auth/service/ratelimit/RateLimitService.java:43-57 | corrected: without refills, n checks of a key admit at most as many requests as its bucket holds tokens |
| RateLimitChecks.UncachedCheckLimits | log-collector-service-domain/src/main/java/cn/cug/sxy/domain/auth/service/ratelimit/RateLimitService.java:43-57 | corrected: with one token in the bucket, only the first of three checks is admitted |
| ReceptionRateLimit.KeyInjective | log-collector-service-domain/src/main/java/cn/cug/sxy/domain/reception/service/ratelimit/RateLimitService.java:147-149 | two (application, endpoint) pairs whose application ids hold no ':' get equal keys only if they are the same pair |
| ReceptionRateLimit.DisabledNeverLimits | log-collector-service-domain/src/main/java/cn/cug/sxy/domain/reception/service/ratelimit/RateLimitService.java:46-62 | a missing or disabled config never limits, leaves the buckets alone and caches "not limited" for the key |
| ReceptionRateLimit.RateLimitService.constructor | log-collector-service-domain/src/main/java/cn/cug/sxy/domain/reception/service/ratelimit/RateLimitService.java:26-31 | the service holds the limiter and starts with an empty verdict cache |
| ReceptionRateLimit.RateLimitService.IsRateLimited | log-collector-service-domain/src/main/java/cn/cug/sxy/domain/reception/service/ratelimit/RateLimitService.java:46-71 | the verdict, the new cache and the buckets are those of the single check: a cached verdict, else "not limited" for a disabled config, else the limiter's answer, cached |
| ReceptionRateLimit.RateLimitService.IsRateLimitedCount | log-collector-service-domain/src/main/java/cn/cug/sxy/domain/reception/service/ratelimit/RateLimitService.java:81-99 | a disabled config answers "not limited" and changes nothing; otherwise the limiter is asked for count tokens and the verdict is cached |
| ReceptionRateLimit.RateLimitService.IsRateLimitedFixed | log-collector-service-domain/src/main/java/cn/cug/sxy/domain/reception/service/ratelimit/RateLimitService.java:46-71 | corrected single check: a disabled config never limits; otherwise every call asks the limiter for one token and nothing is cached |
| ReceptionRateLimit.RateLimitService.UpdateRateLimit | log-collector-service-domain/src/main/java/cn/cug/sxy/domain/reception/service/ratelimit/RateLimitService.java:109-120 | the pair's bucket is replaced (full, at the new rate) or removed when the limit is not positive, and its cached verdict is dropped |
| ReceptionRateLimit.RateLimitService.RemoveRateLimit | log-collector-service-domain/src/main/java/cn/cug/sxy/domain/reception/service/ratelimit/RateLimitService.java:128-138 | the pair's bucket and cached verdict are dropped and nothing else changes |
| RawLogs.WithAddedMetadata | log-collector-service-domain/src/main/java/cn/cug/sxy/domain/reception/model/valobj/RawLog.java:55-59 | withAddedMetadata returns a log with the same content, source, format and timestamp whose metadata is the old map plus the entry, every other key unchanged |
| RawLogs.WithAddedMetadataLastWins | log-collector-service-domain/src/main/java/cn/cug/sxy/domain/reception/model/valobj/RawLog.java:55-59 | adding the same key twice leaves only the last value, which a lookup then returns |
| RawLogs.SameLogIsEquality | log-collector-service-domain/src/main/java/cn/cug/sxy/domain/reception/model/valobj/RawLog.java:62-71 | equals compares all five fields, so two logs are equal exactly when they are the same value |
| ReceiverEndpoints.DisallowNarrows | log-collector-service-domain/src/main/java/cn/cug/sxy/domain/reception/model/aggregate/ReceiverEndpoint.java:168-177 | disallowing an application from a list that stays non-empty admits no new application and refuses the removed one |
| ReceiverEndpoints.DisallowLastReopens | log-collector-service-domain/src/main/java/cn/cug/sxy/domain/reception/model/aggregate/ReceiverEndpoint.java:168-177 | disallowing the last allowed application empties the list, which admits every application |
| ReceiverEndpoints.ReceiverEndpoint.Init | log-collector-service-domain/src/main/java/cn/cug/sxy/domain/reception/model/aggregate/ReceiverEndpoint.java:92-109 | a new endpoint is INACTIVE, uncompressed, open to every application, with batch count 1000 and buffering off at 1000 ms and 100 logs |
| ReceiverEndpoints.ReceiverEndpoint.New | log-collector-service-domain/src/main/java/cn/cug/sxy/domain/reception/model/aggregate/ReceiverEndpoint.java:92-126 | construction succeeds exactly when validateEndpoint passes (payload in (0, 100 MiB], an HTTP path, a TCP or UDP port), and then yields the default state |
| ReceiverEndpoints.ReceiverEndpoint.Activate | log-collector-service-domain/src/main/java/cn/cug/sxy/domain/reception/model/aggregate/ReceiverEndpoint.java:131-133 | the endpoint becomes ACTIVE |
| ReceiverEndpoints.ReceiverEndpoint.Deactivate | log-collector-service-domain/src/main/java/cn/cug/sxy/domain/reception/model/aggregate/ReceiverEndpoint.java:138-140 | the endpoint becomes INACTIVE |
| ReceiverEndpoints.ReceiverEndpoint.EnableCompression | log-collector-service-domain/src/main/java/cn/cug/sxy/domain/reception/model/aggregate/ReceiverEndpoint.java:145-148 | compression is on with the given algorithm |
| ReceiverEndpoints.ReceiverEndpoint.DisableCompression | log-collector-service-domain/src/main/java/cn/cug/sxy/domain/reception/model/aggregate/ReceiverEndpoint.java:153-156 | compression is off and no algorithm is set |
| ReceiverEndpoints.ReceiverEndpoint.AllowApp | log-collector-service-domain/src/main/java/cn/cug/sxy/domain/reception/model/aggregate/ReceiverEndpoint.java:161-177 | the application joins the allow-list and is then admitted |
| ReceiverEndpoints.ReceiverEndpoint.DisallowApp | log-collector-service-domain/src/main/java/cn/cug/sxy/domain/reception/model/aggregate/ReceiverEndpoint.java:168-170 | the application leaves the allow-list |
| ReceiverEndpoints.ReceiverEndpoint.UpdateConfig | log-collector-service-domain/src/main/java/cn/cug/sxy/domain/reception/model/aggregate/ReceiverEndpoint.java:182-191 | the new values are stored before validation, and the call succeeds exactly when the resulting endpoint is valid |
| ReceiverEndpoints.ReceiverEndpoint.SetMaxBatchCount | log-collector-service-domain/src/main/java/cn/cug/sxy/domain/reception/model/aggregate/ReceiverEndpoint.java:196-201 | a positive count is stored, anything else is refused and leaves the old count, so a positive count stays positive |
| ReceiverEndpoints.ReceiverEndpoint.SetPreprocessStrategy | log-collector-service-domain/src/main/java/cn/cug/sxy/domain/reception/model/aggregate/ReceiverEndpoint.java:206-208 | the strategy name (or null) is stored |
| ReceiverEndpoints.ReceiverEndpoint.EnableBuffering | log-collector-service-domain/src/main/java/cn/cug/sxy/domain/reception/model/aggregate/ReceiverEndpoint.java:213-223 | buffering is on with the given time and size exactly when both are positive; otherwise nothing changes |
| ReceiverEndpoints.ReceiverEndpoint.DisableBuffering | log-collector-service-domain/src/main/java/cn/cug/sxy/domain/reception/model/aggregate/ReceiverEndpoint.java:228-230 | buffering is off; the configured time and size stay |
| ReceptionAppAccess.NoExpiryNeverExpires | log-collector-service-domain/src/main/java/cn/cug/sxy/domain/reception/model/aggregate/AppAccess.java:244-246 | isExpired: an application with no expiry time is never expired, whatever the instant |
| ReceptionAppAccess.DoubledBurst | log-collector-service-domain/src/main/java/cn/cug/sxy/domain/reception/model/aggregate/AppAccess.java:88 | the derived burst is rate * 2 in 32-bit int arithmetic; for a positive rate below 2^30 it is exactly twice the rate and no smaller than it. Also line 212. |
| ReceptionAppAccess.DoubledBurstOverflow | log-collector-service-domain/src/main/java/cn/cug/sxy/domain/reception/model/aggregate/AppAccess.java:88 | a rate of 2^30 passes validation but its doubled burst wraps below the rate. Also lines 209-214. |
| ReceptionAppAccess.RateUpdateBreaksLimits | log-collector-service-domain/src/main/java/cn/cug/sxy/domain/reception/model/aggregate/AppAccess.java:219-273 | as written: raising the rate from 10 to 50 with burst 20 is accepted, although the burst is then below the rate |
| ReceptionAppAccess.FixedRateUpdateKeepsLimits | log-collector-service-domain/src/main/java/cn/cug/sxy/domain/reception/model/aggregate/AppAccess.java:219-273 | corrected: an update accepted against the new rate leaves a positive rate and a burst no smaller than it |
| ReceptionAppAccess.AppAccess.Init | log-collector-service-domain/src/main/java/cn/cug/sxy/domain/reception/model/aggregate/AppAccess.java:82-115 | a new application is INACTIVE, with empty endpoint and IP lists, no expiry and no access yet, created at the given instant |
| ReceptionAppAccess.AppAccess.NewShort | log-collector-service-domain/src/main/java/cn/cug/sxy/domain/reception/model/aggregate/AppAccess.java:82-95 | the short constructor succeeds exactly for a positive rate, with burst = rate * 2; below 2^30 the limits are then valid. Also lines 260-264. |
| ReceptionAppAccess.AppAccess.NewFull | log-collector-service-domain/src/main/java/cn/cug/sxy/domain/reception/model/aggregate/AppAccess.java:100-115 | the full constructor succeeds exactly for a positive rate and a burst no smaller than it, and then holds valid limits. Also lines 260-273. |
| ReceptionAppAccess.AppAccess.Activate | log-collector-service-domain/src/main/java/cn/cug/sxy/domain/reception/model/aggregate/AppAccess.java:120-125 | a BLOCKED application cannot be activated and stays BLOCKED; any other becomes ACTIVE |
| ReceptionAppAccess.AppAccess.Deactivate | log-collector-service-domain/src/main/java/cn/cug/sxy/domain/reception/model/aggregate/AppAccess.java:130-135 | a BLOCKED application cannot be deactivated and stays BLOCKED; any other becomes INACTIVE |
| ReceptionAppAccess.AppAccess.Block | log-collector-service-domain/src/main/java/cn/cug/sxy/domain/reception/model/aggregate/AppAccess.java:140-142 | the application becomes BLOCKED |
| ReceptionAppAccess.AppAccess.UpdateAccessKey | log-collector-service-domain/src/main/java/cn/cug/sxy/domain/reception/model/aggregate/AppAccess.java:147-150 | the access key and secret are replaced |
| ReceptionAppAccess.AppAccess.SetExpiryTime | log-collector-service-domain/src/main/java/cn/cug/sxy/domain/reception/model/aggregate/AppAccess.java:155-160 | an expiry strictly before now is refused and the old one stays; a later instant or none is stored |
| ReceptionAppAccess.AppAccess.AllowEndpoint | log-collector-service-domain/src/main/java/cn/cug/sxy/domain/reception/model/aggregate/AppAccess.java:165-167 | the endpoint joins the allowed set |
| ReceptionAppAccess.AppAccess.DisallowEndpoint | log-collector-service-domain/src/main/java/cn/cug/sxy/domain/reception/model/aggregate/AppAccess.java:172-174 | the endpoint leaves the allowed set |
| ReceptionAppAccess.AppAccess.AddIpToWhitelist | log-collector-service-domain/src/main/java/cn/cug/sxy/domain/reception/model/aggregate/AppAccess.java:78-79 | an address is added exactly when it is a dotted quad of octets 0 to 255; null or anything else is refused and the whitelist stays. Also lines 186-189, 251-255. |
| ReceptionAppAccess.AppAccess.RemoveIpFromWhitelist | log-collector-service-domain/src/main/java/cn/cug/sxy/domain/reception/model/aggregate/AppAccess.java:194-196 | the address leaves the whitelist |
| ReceptionAppAccess.AppAccess.UpdateRateLimit | log-collector-service-domain/src/main/java/cn/cug/sxy/domain/reception/model/aggregate/AppAccess.java:209-214 | a positive rate is stored with burst = rate * 2; otherwise nothing changes; below 2^30 the limits are then valid |
| ReceptionAppAccess.AppAccess.UpdateRateLimitAndBurst | log-collector-service-domain/src/main/java/cn/cug/sxy/domain/reception/model/aggregate/AppAccess.java:219-273 | as written: the update is accepted when the rate is positive and the burst is no smaller than the rate held before, and then both are stored |
| ReceptionAppAccess.AppAccess.UpdateRateLimitAndBurstFixed | log-collector-service-domain/src/main/java/cn/cug/sxy/domain/reception/model/aggregate/AppAccess.java:219-224 | corrected: the burst is checked against the new rate, so valid limits stay valid |
| ReceptionAppAccess.AppAccess.UpdateBurstCapacity | log-collector-service-domain/src/main/java/cn/cug/sxy/domain/reception/model/aggregate/AppAccess.java:229-273 | a burst below the current rate is refused; otherwise it is stored, so valid limits stay valid |
| ReceptionAppAccess.AppAccess.RecordAccess | log-collector-service-domain/src/main/java/cn/cug/sxy/domain/reception/model/aggregate/AppAccess.java:237-239 | the last access time becomes the given instant |
| ReceptionCache.NullIpSharesEmptyIpEntry | log-collector-service-domain/src/main/java/cn/cug/sxy/domain/reception/service/cache/AuthorizationCache.java:156-158 | a request with a null client IP is keyed like one with an empty IP, so the two share a cached verdict |
| ReceptionCache.AuthorizationCache.constructor | log-collector-service-domain/src/main/java/cn/cug/sxy/domain/reception/service/cache/AuthorizationCache.java:51-58 | both caches start empty |
| ReceptionCache.AuthorizationCache.GetAuthorizationResult | log-collector-service-domain/src/main/java/cn/cug/sxy/domain/reception/service/cache/AuthorizationCache.java:23-39 | the verdict and the new cache are the expiring-cache lookup under the (application, endpoint, IP) key: a live entry is returned, otherwise the supplied verdict is stored until now plus the TTL (60 s by default). Also lines 44, 69-97. |
| ReceptionCache.AuthorizationCache.GetRateLimitResult | log-collector-service-domain/src/main/java/cn/cug/sxy/domain/reception/service/cache/AuthorizationCache.java:106-130 | the same lookup on the rate-limit cache, keyed by the application id |
| ReceptionCache.AuthorizationCache.InvalidateAuthorizationCache | log-collector-service-domain/src/main/java/cn/cug/sxy/domain/reception/service/cache/AuthorizationCache.java:139-142 | exactly that key's entry is dropped |
| ReceptionCache.AuthorizationCache.InvalidateRateLimitCache | log-collector-service-domain/src/main/java/cn/cug/sxy/domain/reception/service/cache/AuthorizationCache.java:149-151 | exactly that application's entry is dropped |
| ReceptionCache.InvalidationForcesRecompute | log-collector-service-domain/src/main/java/cn/cug/sxy/domain/reception/service/cache/AuthorizationCache.java:84-142 | after invalidation the next lookup of the key returns the freshly supplied verdict, at any instant |
| ReceptionChains.BasicCheck | log-collector-service-domain/src/main/java/cn/cug/sxy/domain/reception/service/rule/chain/impl/ReceptionBasicNode.java:31-57 | the basic node fails with "参数不能为空" on a null or empty log list or a null id, then "接收端点不存在" for an unknown endpoint, then "接收端点未激活" for a non-ACTIVE one, and otherwise passes with the stored endpoint |
| ReceptionChains.PartitionAppend | log-collector-service-domain/src/main/java/cn/cug/sxy/domain/reception/service/rule/chain/impl/ReceptionFormatSizeNode.java:34-51 | the per-log split composes over concatenation, so both lists keep the input order |
| ReceptionChains.PartitionMembers | log-collector-service-domain/src/main/java/cn/cug/sxy/domain/reception/service/rule/chain/impl/ReceptionFormatSizeNode.java:34-51 | a log lands in the valid list exactly when its format is the endpoint's and its size is within the limit, and in the invalid list exactly when not |
| ReceptionChains.PartitionCounts | log-collector-service-domain/src/main/java/cn/cug/sxy/domain/reception/service/rule/chain/impl/ReceptionFormatSizeNode.java:34-51 | together the valid and invalid lists hold the input exactly, duplicates included, so their lengths add up to the input's |
| ReceptionChains.SizeLimitInclusive | log-collector-service-domain/src/main/java/cn/cug/sxy/domain/reception/service/rule/chain/impl/ReceptionFormatSizeNode.java:36-49 | a format mismatch is rejected whatever the size; a log of the right format whose UTF-8 size equals the limit passes, and one above it is rejected |
| ReceptionChains.FormatSizeCheck | log-collector-service-domain/src/main/java/cn/cug/sxy/domain/reception/service/rule/chain/impl/ReceptionFormatSizeNode.java:27-63 | the format/size node fails with "所有日志均不合规" exactly when no log passes; otherwise it hands on both lists |
| ReceptionChains.Partition | log-collector-service-domain/src/main/java/cn/cug/sxy/domain/reception/service/rule/chain/impl/ReceptionFormatSizeNode.java:32-51 | the node's loop builds exactly the valid and invalid lists of the specification |
| ReceptionChains.AuthLimitOrder | log-collector-service-domain/src/main/java/cn/cug/sxy/domain/reception/service/rule/chain/impl/ReceptionAuthLimitNode.java:33-61 | authorization, the IP whitelist and the rate limit run in that order and the first refusal names the message; a malformed application id throws the invalid-id error, from authorize or from the whitelist check, instead of refusing; the rate limiter's cache and buckets change only when the first two pass for a well-formed id |
| ReceptionChains.MalformedIdRaises | log-collector-service-domain/src/main/java/cn/cug/sxy/domain/reception/service/rule/chain/impl/ReceptionAuthLimitNode.java:41-47 | a raised admission always carries the invalid-id error and has a malformed id; a malformed id is never admitted; past the basic node, a malformed id with no remembered context raises that error and leaves the gateway state unchanged |
| ReceptionChains.LegacyAuthLimitOrder | log-collector-service-domain/src/main/java/cn/cug/sxy/domain/reception/service/rule/chain/impl/reception/ReceptionAuthLimitNode.java:39-58 | the older node refuses an unauthorized request before the rate limiter sees it, and otherwise passes exactly when the reception rate limiter does not limit |
| ReceptionChains.LegacyStubRefusesAll | log-collector-service-domain/src/main/java/cn/cug/sxy/domain/reception/service/AuthenticationService.java:31-33 | with the bundled authentication service, which refuses every authorization, the older node stops every request as unauthorized and leaves the limiter untouched |
| ReceptionChains.LegacyAuthLimitNode | log-collector-service-domain/src/main/java/cn/cug/sxy/domain/reception/service/rule/chain/impl/reception/ReceptionAuthLimitNode.java:39-58 | the node's verdict and the limiter's new cache and buckets are those of the older node's specification |
| ReceptionChains.AdmissionBasicFirst | log-collector-service-domain/src/main/java/cn/cug/sxy/domain/reception/service/rule/chain/impl/ReceptionBasicNode.java:37-52 | a request the basic node refuses fails with its message and leaves the gateway state untouched |
| ReceptionChains.AdmissionMeaning | log-collector-service-domain/src/main/java/cn/cug/sxy/domain/reception/service/rule/chain/assembler/ReceptionSingletonRuleNodeAssembler.java:26-33 | the chain admits a request exactly when the endpoint is active, the auth/limit node passes and some log is valid; the admitted lists then partition all the request's logs and no invalid log is among the valid ones |
| ReceptionChains.ReceptionContext.constructor | log-collector-service-domain/src/main/java/cn/cug/sxy/domain/reception/model/entity/ReceptionDynamicContext.java:19-31 | a new context holds no endpoint and no lists |
| ReceptionChains.FormatSizeNode | log-collector-service-domain/src/main/java/cn/cug/sxy/domain/reception/service/rule/chain/impl/ReceptionFormatSizeNode.java:27-63 | the node's result is the format/size specification; it records both lists in the context only when it passes |
| ReceptionChains.Admit | log-collector-service-domain/src/main/java/cn/cug/sxy/domain/reception/service/rule/chain/assembler/ReceptionSingletonRuleNodeAssembler.java:27-30 | running the basic, auth/limit and format/size nodes in the assembled order yields the admission specification (admitted, refused with a message, or raised with the exception's message) and the gateway state after it |
| ReceptionChains.SingletonDefaultNode | log-collector-service-domain/src/main/java/cn/cug/sxy/domain/reception/service/rule/chain/impl/ReceptionSingletonDefaultNode.java:33-48 | only the first log is buffered, one received log is counted for (application, endpoint) and no other counter changes, and the answer is "buffered" with no batch id |
| ReceptionChains.ReceiveSingleton | log-collector-service-domain/src/main/java/cn/cug/sxy/domain/reception/service/rule/chain/assembler/ReceptionSingletonRuleNodeAssembler.java:26-33 | an exception raised in the chain propagates as an error with its message; a refused request fails with the first failing node's message; neither touches the buffer nor the metrics; an admitted one buffers its first log and counts it under its (application, endpoint) key alone |
| ReceptionChains.BatchDefaultNode | log-collector-service-domain/src/main/java/cn/cug/sxy/domain/reception/service/rule/chain/impl/reception/ReceptionBatchDefaultNode.java:64-93 | the valid logs are saved as one PENDING batch under the new id, one batch and that many logs are counted under the (application, endpoint) key, every other key's counts unchanged, and the answer is success with that id |
| ReceptionChains.StoredBatchHoldsValidLogs | log-collector-service-domain/src/main/java/cn/cug/sxy/domain/reception/service/rule/chain/impl/reception/ReceptionBatchDefaultNode.java:71-82 | the stored batch holds exactly the valid logs, PENDING, under the id the answer carries, and no invalid log |
| ReceptionChains.ChainNode.constructor | log-collector-service-domain/src/main/java/cn/cug/sxy/domain/reception/service/rule/chain/AbstractLogicChainNode.java:10-12 | a new node has no successor |
| ReceptionChains.ChainNode.AppendNext | log-collector-service-domain/src/main/java/cn/cug/sxy/domain/reception/service/rule/chain/AbstractLogicChainNode.java:14-18 | appendNext links the successor and returns it, so calls chain |
| ReceptionChains.AssembleSingleton | log-collector-service-domain/src/main/java/cn/cug/sxy/domain/reception/service/rule/chain/assembler/ReceptionSingletonRuleNodeAssembler.java:26-33 | the head is the basic node, linked to auth/limit, then format/size, then the single-log default node, whose own link is untouched |
| ReceptionResults.Success | log-collector-service-domain/src/main/java/cn/cug/sxy/domain/reception/model/valobj/ReceptionResult.java:48-76 | a success result is not buffered and carries the batch id it was made with |
| ReceptionResults.Buffered | log-collector-service-domain/src/main/java/cn/cug/sxy/domain/reception/model/valobj/ReceptionResult.java:57-76 | a buffered result is a success with no batch id |
| ReceptionResults.Failure | log-collector-service-domain/src/main/java/cn/cug/sxy/domain/reception/model/valobj/ReceptionResult.java:67-76 | a failure is neither a success nor buffered, has no batch id and carries its message |
| ReceptionResults.FactoriesDistinct | log-collector-service-domain/src/main/java/cn/cug/sxy/domain/reception/model/valobj/ReceptionResult.java:79-87 | under equals the three factories never produce equal results, since (success, buffered) tells them apart |
| Text.Utf8Width | log-collector-service-domain/src/main/java/cn/cug/sxy/domain/reception/service/rule/chain/impl/ReceptionFormatSizeNode.java:43 | getBytes() encodes one character in one to four bytes, and in one byte exactly when it is ASCII |
| Text.Utf8Length | log-collector-service-domain/src/main/java/cn/cug/sxy/domain/reception/model/valobj/ProcessedLog.java:96-98 | the UTF-8 byte length of a string lies between its character count and four times that |
| Text.Utf8LengthAppend | log-collector-service-domain/src/main/java/cn/cug/sxy/domain/reception/model/entity/LogBatchEntity.java:140-144 | the byte length of a concatenation is the sum of the byte lengths, so per-log sizes add up |
| Text.Utf8LengthAscii | log-collector-service-domain/src/main/java/cn/cug/sxy/domain/reception/service/rule/chain/impl/ReceptionFormatSizeNode.java:43-44 | a string's byte length equals its character count exactly when it is all ASCII |
| Text.FirstIndexOf | log-collector-service-domain/src/main/java/cn/cug/sxy/domain/auth/model/valobj/Permission.java:86-89 | the first index of a character is the position of its first occurrence, or the length when there is none |
| Text.FirstIndexOfSeparator | log-collector-service-domain/src/main/java/cn/cug/sxy/domain/auth/model/valobj/Permission.java:86-89 | in "a" + ":" + "b" with no ':' in a, the first ':' is the separator |
| Text.JoinInjective | log-collector-service-domain/src/main/java/cn/cug/sxy/domain/reception/service/buffer/LogBufferManager.java:189-191 | the composite key "appId:endpointId" determines both ids when application ids hold no ':' |
| Text.JoinCollides | log-collector-service-domain/src/main/java/cn/cug/sxy/domain/reception/service/metrics/LogProcessingMetrics.java:44-46 | without that restriction two different pairs share a key: ("a:b", "c") and ("a", "b:c") |
| Text.Split | log-collector-service-domain/src/main/java/cn/cug/sxy/domain/reception/model/aggregate/AppAccess.java:78-79 | splitting at a separator yields at least one piece, none of which holds the separator |
| Text.SplitNone | log-collector-service-domain/src/main/java/cn/cug/sxy/domain/reception/model/aggregate/AppAccess.java:78-79 | a string without the separator is a single piece |
| Text.SplitCons | log-collector-service-domain/src/main/java/cn/cug/sxy/domain/reception/model/aggregate/AppAccess.java:78-79 | splitting "a" + separator + rest, with no separator in a, yields a and then the pieces of rest |
| Text.MatchRepeatMeaning | log-collector-service-domain/src/main/java/cn/cug/sxy/domain/reception/model/valobj/AppId.java:21 | the pattern [class]{lo,hi} matches exactly the strings of lo to hi characters, all in the class |
| TokenBuckets.Refill | log-collector-service-domain/src/main/java/cn/cug/sxy/domain/reception/service/ratelimit/TokenBucketIRateLimiter.java:133-149 | a refill at an instant not after the last one changes nothing; otherwise it moves the refill time to that instant and leaves at most the capacity, keeping rate and capacity |
| TokenBuckets.RefillBounds | log-collector-service-domain/src/main/java/cn/cug/sxy/domain/reception/service/ratelimit/TokenBucketIRateLimiter.java:133-149 | a refill never lowers the tokens nor lifts them above the capacity, and never moves the refill time back |
| TokenBuckets.RefillIdempotent | log-collector-service-domain/src/main/java/cn/cug/sxy/domain/reception/service/ratelimit/TokenBucketIRateLimiter.java:133-149 | refilling twice at the same instant is refilling once |
| TokenBuckets.TokenBucket.constructor | log-collector-service-domain/src/main/java/cn/cug/sxy/domain/reception/service/ratelimit/TokenBucketIRateLimiter.java:107-112 | a new bucket is full, with the rate in tokens per millisecond and the refill time at creation, and within its budget |
| TokenBuckets.TokenBucket.TryConsume | log-collector-service-domain/src/main/java/cn/cug/sxy/domain/reception/service/ratelimit/TokenBucketIRateLimiter.java:120-126 | the bucket grants exactly when it holds at least count tokens and then takes them; a non-negative count keeps the bucket within zero and its capacity and within its budget |
| TokenBuckets.TokenBucket.GenerateTokens | log-collector-service-domain/src/main/java/cn/cug/sxy/domain/reception/service/ratelimit/TokenBucketIRateLimiter.java:133-149 | the bucket's new state is the refill of its old one, and the invariant is kept |
| TokenBuckets.RefillStepKeepsBudget | log-collector-service-domain/src/main/java/cn/cug/sxy/domain/reception/service/ratelimit/TokenBucketIRateLimiter.java:133-149 | tokens handed out plus tokens held never exceed the capacity plus what the rate added since creation, across a refill |
| TokenBuckets.Acquire | log-collector-service-domain/src/main/java/cn/cug/sxy/domain/reception/service/ratelimit/TokenBucketIRateLimiter.java:39-52 | a key with no bucket is always granted and changes nothing; otherwise the grant is "at least count tokens", only that bucket changes, and it loses count tokens when granted |
| TokenBuckets.RateLimiter.constructor | log-collector-service-domain/src/main/java/cn/cug/sxy/domain/reception/service/ratelimit/TokenBucketIRateLimiter.java:20-36 | a new limiter has no buckets |
| TokenBuckets.RateLimiter.TryAcquire | log-collector-service-domain/src/main/java/cn/cug/sxy/domain/reception/service/ratelimit/TokenBucketIRateLimiter.java:39-52 | the grant and the new bucket states are those of the acquire specification |
| TokenBuckets.RateLimiter.CreateOrUpdate | log-collector-service-domain/src/main/java/cn/cug/sxy/domain/reception/service/ratelimit/TokenBucketIRateLimiter.java:55-68 | a non-positive rate or capacity removes the key's bucket; otherwise the key gets a new full bucket at rate/1000 tokens per millisecond |
| TokenBuckets.RateLimiter.Remove | log-collector-service-domain/src/main/java/cn/cug/sxy/domain/reception/service/ratelimit/TokenBucketIRateLimiter.java:71-74 | exactly that key's bucket is dropped |
| TokenBuckets.RateLimiter.GenerateTokens | log-collector-service-domain/src/main/java/cn/cug/sxy/domain/reception/service/ratelimit/TokenBucketIRateLimiter.java:79-89 | every bucket is refilled at the same instant and the set of keys is unchanged |
| AuthorizationChains.BasicCheck | log-collector-service-domain/src/main/java/cn/cug/sxy/domain/reception/service/rule/chain/impl/authorization/AuthorizationBasicNode.java:29-63 | the basic node hands on exactly when both ids are present and the stored application is ACTIVE and not expired, and then hands on that application |
| AuthorizationChains.AuthorizeMeaning | log-collector-service-domain/src/main/java/cn/cug/sxy/domain/reception/service/rule/chain/assembler/AuthorizationRuleNodeAssembler.java:26-31 | the basic → permission chain authorizes exactly a stored, ACTIVE, unexpired application whose whitelist admits the client IP (or the IP is empty) and whose endpoint list admits the endpoint |
| AuthorizationChains.BasicRefusalIsFinal | log-collector-service-domain/src/main/java/cn/cug/sxy/domain/reception/service/rule/chain/impl/authorization/AuthorizationBasicNode.java:33-58 | a request the basic node refuses is refused whatever its client IP or endpoint |
| AuthorizationChains.EmptyIpSkipsWhitelist | log-collector-service-domain/src/main/java/cn/cug/sxy/domain/reception/service/rule/chain/impl/authorization/AuthorizationPermissionNode.java:31-36 | with an empty client IP the whitelist plays no part: only the basic guards and the endpoint list decide |
| AuthorizationChains.AuthorizationContext.constructor | log-collector-service-domain/src/main/java/cn/cug/sxy/domain/reception/model/entity/AuthorizationDynamicContext.java:16-24 | a new context holds no application |
| AuthorizationChains.PermissionNode | log-collector-service-domain/src/main/java/cn/cug/sxy/domain/reception/service/rule/chain/impl/authorization/AuthorizationPermissionNode.java:25-45 | the permission node's verdict is the whitelist check on a non-empty IP followed by the endpoint check, and it never hands on |
| AuthorizationChains.BasicNode | log-collector-service-domain/src/main/java/cn/cug/sxy/domain/reception/service/rule/chain/impl/authorization/AuthorizationBasicNode.java:29-63 | the chain's verdict is the authorization specification, and the context records the application exactly when the basic guards pass |

## Left out

- Concurrency is not modelled. This covers the flush, token-generation and cleanup schedulers, the asynchronous batch processing started by the batch node, thread pools, and ConcurrentHashMap atomicity. Every operation runs sequentially.
- Metrics.LogProcessingMetrics.RecordProcessingTime: the compare-and-set loop that lowers the minimum is modelled as one sequential minimum.
- Clocks are parameters. Instant.now() and System.currentTimeMillis() become a `now` argument.
- Preprocess.PreprocessBatch: the whole call uses one `now`, although the source reads the clock once per log.
- Thread.sleep and its interruption in executeRetryWait are not modelled. Whether a wait is interrupted is an input of each attempt (`BatchProcessing.Attempt`). The waits taken are recorded instead of slept.
- Logging, notifyProcessingFailure and event publication are left out. The metric calls of batch processing are returned as a list of effects.
- The Spring self-proxy and @Transactional boundaries become direct sequential calls.
- HMAC-SHA256 (RFC 2104) and Base64 (section 4 of RFC 4648) are function parameters. Only the order in which the signed text is composed and the equality check are modelled.
- Repositories, storage, the preprocess gateway, the endpoint lookup and the application lookup are maps or function parameters. A repository write never fails here; where the source catches such a failure, the lines below name the members affected. The stub implementations in the source return empty values and are not modelled.
- The Text and Json preprocess strategies and the strategy factory are left out. A strategy is abstract: a function from a log to the edits it makes, or to the exception it throws.
- Preprocess.BatchSpec: the iteration order of the grouping HashMap is a parameter, `order`. Within one format the input order is kept.
- ReceptionConfigService is left out, because it calls accessors the endpoint aggregate does not define. The reception rate limiter therefore takes the pair's configuration as a parameter.
- Floating point is replaced by reals. Token counts and the average processing time are reals, so rounding is not modelled.
- The UTF-8 byte length assumes that String.getBytes() uses UTF-8, with one Dafny character per Unicode scalar value. Lone UTF-16 surrogates are not modelled.
- Most integers are unbounded. Java wrap-around is modelled only for the doubled burst (`ReceptionAppAccess.DoubledBurst`) and the long timestamp difference (`AuthServices.TimestampStaleAsWritten`). Counter overflow of the AtomicLong metrics is not modelled.
- Paging.NewPage: the page count is the exact ceiling. The source computes `(int) Math.ceil((double) total / size)`, which saturates at Integer.MAX_VALUE and can be inexact above 2^53 elements. Neither effect is modelled.
- Paging.QueryTotalPages: the same exact ceiling stands for the saturating, double-based count of LogQueryResult.java:42-47.
- Paging.QueryHasNextMeaning: proved for the exact ceiling only, so it does not cover hit counts large enough to saturate or round the count.
- Paging.PageCountMinimal: proved for the exact ceiling only, with the same limit.
- AuthServices.ParseLong: only ASCII digits are read. Long.parseLong also accepts the other Unicode decimal digits, which the model rejects.
- AuthServices.Authenticate: the timestamp check is the corrected `AuthServices.TimestampStale`, not the wrapping check as written (`AuthServices.TimestampStaleAsWritten`, see Findings). The auth-package AccessKey it builds is not part of this model; it is taken to validate like the reception-side AccessKey (`AccessKeys.NewAccessKey`, 16 to 64 characters from [a-zA-Z0-9_-]), so "well-formed key" in `AuthServices.AuthenticateSucceedsIff` rests on that.
- AuthRateLimit.RateLimitService: the auth-side IRateLimiter is an interface with no implementation in the source. The service is given the reception token-bucket limiter (`TokenBuckets.RateLimiter`), so its bucket behaviour, including the replacement or removal in `AuthRateLimit.RateLimitService.UpdateRateLimit`, is that limiter's.
- AuthServices.AuthenticateSucceedsIff: states the window for the corrected check. For the code as written, the one wrapping timestamp is also accepted (`AuthServices.StaleTimestampAccepted`). Its "parsable timestamp" is the ASCII-only `AuthServices.ParseLong`, narrower than the source.
- BatchProcessing.Run: the final failure is the corrected `BatchProcessing.FinalFailure`, not the null-dereferencing one as written (`BatchProcessing.FinalFailureAsWritten`, see Findings).
- BatchProcessing.BatchProcessingService.HandleFinalFailure: follows the corrected final failure. As written, a run whose attempts all returned false leaves the batch PROCESSING (`BatchProcessing.ReturnedFailuresLeaveProcessing`).
- BatchProcessing.BatchProcessingService.ProcessBatchAsync: follows `BatchProcessing.Run` and so the corrected final failure.
- BatchProcessing.BatchProcessingService.ProcessLogBatch: repository updates are taken to succeed. An update that throws inside processLogBatch (BatchProcessingService.java:175-196) turns the pass into a failure; that path is not modelled.
- LogBuffers.LogBufferManager.FlushBuffer: saving is taken to succeed. The source removes the buffer before saving (LogBufferManager.java:125) and swallows a failing save (lines 151-153), which loses the buffered logs; that loss is not modelled.
- LogBuffers.FlushSpec: the flush specification has no failing save, for the same reason.
- LogBuffers.FlushSavesBuffer: states the flush with a save that succeeds, for the same reason.
- LogBuffers.FlushInOrderSavesAll: states the in-order flush with saves that succeed, for the same reason.
- AuthGateways.CheckedAppId: the gateway builds the auth-side AppId, which is not part of this model. It is taken to validate like the reception-side AppId (AppId.java:21-36), with the same pattern and the same error message.
- Strings are never null unless the source tests for null. Where it does, the value is an `Option`.
- ProcessedLogs.Size: the source's null-content case (size 0) is not modelled, because content is always present here.
- LogBatches.WaitTimeMs: requires the received instant, since the source dereferences it without a null check.
- AuthGateways.AuthGateway.GetRateLimitConfig: the source's null return cannot happen, because the auth-side lookup always returns a config.
- The chain's next() dispatch is replaced by fixed composition. `ReceptionChains.Admit` and `ReceptionChains.ReceiveSingleton` run the nodes in the assembled order. `ReceptionChains.AssembleSingleton` proves that order on the linked nodes.
- ReceptionChains.Admit: the authorization gateway's state (contexts, caches and buckets) is passed through the chain as a value, not held in an AuthGateway object. The object form is `AuthGateways.AuthGateway`, proved against the same functions.
- There is no batch assembler in the source, so `ReceptionChains.BatchDefaultNode` stands alone. BatchId.generate() becomes a `batchId` parameter.
- The AuthorizationRuleNodeAssembler only links basic to permission. That link is folded into `AuthorizationChains.BasicNode`, which calls `AuthorizationChains.PermissionNode`.
- The LogBatch type that preprocessFromBatch and the buffer flush construct is not part of the source shown. It is modelled by the batch entity's fields (`LogBatches.BatchRecord`) and by `Preprocess.LogBatch`.
- The reception-package AuthResult is left out, because no modelled logic uses it.
- The HTTP layer, the Elasticsearch and Redis infrastructure and the storage query services are left out.

## Findings

| source | as written | input that shows it | evidently intended | confidence | as-written member | corrected member |
|---|---|---|---|---|---|---|
| log-collector-service-domain/src/main/java/cn/cug/sxy/domain/reception/service/BatchProcessingService.java:97-100, 397-408 | When every failed attempt returned false, lastException is still null. handleFinalFailure then throws at exception.getMessage() and swallows that exception. The FAILED update is skipped. | A PENDING batch whose preprocessing fails on all four attempts, with no exception thrown. | After the last retry the batch is marked FAILED, with a message even when no exception was recorded. | high (not executed) | BatchProcessing.FinalFailureAsWritten, BatchProcessing.ReturnedFailuresLeaveProcessing, BatchProcessing.ReturnedFailuresExample | BatchProcessing.FinalFailure, BatchProcessing.ExhaustedRunFails |
| log-collector-service-domain/src/main/java/cn/cug/sxy/domain/auth/service/ratelimit/RateLimitService.java:43-57 | The single check caches its verdict with no expiry. Once "not limited" is cached, later checks never consume a token again, so the limiter stops limiting that key. The reception-side service does the same. | A bucket holding one token, then three checks of its key: all three are admitted. | Each request asks the bucket for a token. | high (not executed) | RateLimitChecks.CachedCheck, RateLimitChecks.CachedAdmitsAll, RateLimitChecks.CachedCheckOverAdmits | RateLimitChecks.UncachedCheck, RateLimitChecks.UncachedCheckLimits, RateLimitChecks.UncachedAdmissionsBounded, ReceptionRateLimit.RateLimitService.IsRateLimitedFixed |
| log-collector-service-domain/src/main/java/cn/cug/sxy/domain/reception/model/aggregate/AppAccess.java:219-224, 269-273 | updateRateLimit(rate, burst) validates the burst against the rate held before the update. | Rate 10; updateRateLimit(50, 20) is accepted and leaves the burst below the rate. | The burst is validated against the new rate. | high (not executed) | ReceptionAppAccess.AcceptsRateUpdate, ReceptionAppAccess.RateUpdateBreaksLimits, ReceptionAppAccess.AppAccess.UpdateRateLimitAndBurst | ReceptionAppAccess.AcceptsRateUpdateFixed, ReceptionAppAccess.FixedRateUpdateKeepsLimits, ReceptionAppAccess.AppAccess.UpdateRateLimitAndBurstFixed |
| log-collector-service-domain/src/main/java/cn/cug/sxy/domain/auth/service/AuthService.java:64-69 | The window test takes Math.abs of a long difference that can wrap. For now - timestamp = 2^63 the difference wraps to Long.MIN_VALUE, whose absolute value is negative, so the test passes. | Clock 1700000000000 and timestamp 1700000000000 - 2^63. | A timestamp more than 300000 ms from the clock, on either side, is rejected. | medium (not executed) | AuthServices.TimestampStaleAsWritten, AuthServices.StaleTimestampAccepted | AuthServices.TimestampStale, AuthServices.TimestampCheckCharacterised |

The retry loop (`BatchProcessing.Run`) and authentication (`AuthServices.Authenticate`) use the
corrected definitions of the first and last rows; "## Left out" lists the members this affects. For the verdict cache and the rate update, the
services keep the code as written, because the admission chain's verdicts depend on them. The
corrected members sit beside the as-written ones: `RateLimitChecks.UncachedCheck`,
`ReceptionRateLimit.RateLimitService.IsRateLimitedFixed` and
`ReceptionAppAccess.AppAccess.UpdateRateLimitAndBurstFixed`.
