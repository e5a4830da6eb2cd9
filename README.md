# node-uptime-monitor, modelled in Dafny

node-uptime-monitor is a small uptime monitor written in Node.js. It has five parts:

- **An HTTP/HTTPS API.** lib/server.js routes requests to the handlers in lib/handlers.js. Those handlers create, read, update and delete users and issue login tokens, against a key-value store.
- **A worker.** lib/workers.js periodically reads every stored check and validates it. It probes the check's URL and classifies the check as up or down. It appends a log record to the check's log, writes the check back, and sends an SMS when the state changed.
- **A rotation job.** Also in lib/workers.js, it compresses each active log (lib/logs.js) and then truncates it.
- **Helpers.** lib/helpers.js holds phone validation, password hashing and JSON parsing.
- **Configuration.** config.js holds the two deployment environments.

This project models those six files in Dafny. It has one module per file, plus three shared modules:

- `Text`: string trimming, case mapping and suffix replacement.
- `Js`: JavaScript values, truthiness, `typeof`, property lookup and string conversion.
- `Data`: the `lib/data` key-value store. Its source is not part of this model. It is represented by a class holding `collection -> id -> document`, whose writes may fail.

The code changes state in place, and the model does too:

- **Classes** own that state:
  - the store (`Data.Store`);
  - the log directory (`Logs.LogDir`, a map from file name to contents);
  - a check object (`Workers.CheckData`);
  - a probe's outcome record and flag (`Workers.Probe`);
  - the worker (`Workers.Worker`);
  - the handlers (`Handlers.Api`);
  - the server (`Server.HttpServer`).
- **Methods** carry `modifies` clauses. Most methods are proved equal to a pure specification function: `ProcessEffect`, `RotatedFiles`, `RotatedReplies`, `Replies`, `UsersPostOutcome`, `TokensPostOutcome`, `Serve` and others. The store's listing order is abstract, so `Data.Store.List` and `Workers.Worker.GatherAllChecks` are characterised up to that order: the listing holds each stored id exactly once, and the scan equals `ScanEffect` over some such listing.
- **Lemmas** prove what the code promises about those functions.
- **Foreign code** is a function-typed parameter or a constant field. This covers HMAC-SHA512, JSON.parse and JSON.stringify, gzip+base64, `Date.now()`, randomness, and the helpers the other files call but helpers.js never defines (`validateId`, `validateMethod`, …, `isFileType`).
- **Outside events are parameters:**
  - each request's `Handlers.Context`: its `Date.now()`, its random draws and its store write failures, passed to every `Handlers.Api` method and to `Server.HttpServer.UnifiedServer` call by call;
  - a store write failure;
  - an append or truncate failure;
  - the order of `readdir` entries;
  - the order of a probe's events.

## Model

| member | source | states |
|---|---|---|
| `Config.Select` | config.js:27-30 | With the corrected selection (see Findings, config.js:30): the exported environment is staging or production. It is production exactly when NODE_ENV, lower-cased, is "production". |
| `Config.SelectAsWritten` | config.js:30 | As written, the lookup exports Object.prototype exactly when the lower-cased NODE_ENV is "__proto__". |
| `Config.ProtoKeyEscapesFallback` | config.js:30 | NODE_ENV=__PROTO__ exports Object.prototype instead of falling back to staging. |
| `Config.SelectAgreesWithSource` | config.js:27-30 | On every name except "__proto__", the written lookup exports exactly the environment `Select` chooses. |
| `Config.UpperCaseSelectsProduction` | config.js:27 | NODE_ENV is lower-cased before lookup: "PRODUCTION" selects production and "Staging" selects staging. |
| `Config.UnsetSelectsStaging` | config.js:27-30 | An unset or non-string NODE_ENV selects staging. |
| `Config.UnknownNameSelectsStaging` | config.js:30 | With the corrected selection, a name that is not "production", ignoring case, falls back to staging. As written, so does every such name whose lower-cased form is not "__proto__". |
| `Config.EnvironmentConstants` | config.js:9-24 | Staging uses ports 3000/3001 and production 5000/5001. Both allow 5 checks, and their hashing secrets differ. |
| `Helpers.Hash` | lib/helpers.js:12-19 | The result is `false` exactly when the input is not a non-empty string. Otherwise it is the keyed HMAC digest of that string. |
| `Helpers.HashTruthy` | lib/helpers.js:12-19 | With a real (non-empty) digest, the hash is truthy exactly when the input is a non-empty string. |
| `Helpers.ValidatePhone` | lib/helpers.js:21 | The result is `false` or a string. It is a string exactly when the input is a string whose trimmed length is 10. That string has length 10 and no surrounding whitespace. |
| `Helpers.ValidatePhoneIdempotent` | lib/helpers.js:21 | Validating a validated phone returns it unchanged. |
| `Helpers.ValidPhoneTruthy` | lib/helpers.js:21 | A validated phone is truthy exactly when it is a string, so it passes the handlers' `if (isPhone)`. |
| `Helpers.ParseJsonToObject` | lib/helpers.js:26-33 | Never throws. It returns the parsed value when the parse succeeds, and `{Error: e}` holding the thrown error otherwise. |
| `Helpers.CreateRandomStringAsWritten` | lib/helpers.js:23-26 | The chained assignment makes createRandomString the very function parseJsonToObject is. |
| `Helpers.RandomStringIsAlwaysTwenty` | lib/helpers.js:23-26 | As written, `createRandomString(20)` is the number 20, not a random string. |
| `Helpers.CreateRandomString` | lib/handlers.js:238 | The corrected helper returns a string exactly for a positive length. The string has that length and draws every character from the alphabet. Any other input gives `false`. |
| `Logs.AppendKeepsHistory` | lib/logs.js:19-40 | After append, the old contents of `<name>.log` are a prefix of the new contents, followed by the string and "\n". No other file changes. |
| `Logs.Appended` | lib/logs.js:21 | Append creates `<name>.log` when it is absent and adds no other file. |
| `Logs.LogDir.Append` | lib/logs.js:19-40 | A successful append leaves the directory as `Appended`. A failed one leaves it unchanged. |
| `Logs.ListingWithoutArchives` | lib/logs.js:47-57 | Without `includeCompressedLogs`, the listing is exactly the `.log` entries with their suffix removed, in directory order. |
| `Logs.ListingWithArchives` | lib/logs.js:47-57 | With `includeCompressedLogs`, the listing holds exactly the `.log` names and the `.gz.b64` names, each with its suffix removed, as a multiset. |
| `Logs.Replies` | lib/logs.js:47-59 | There is one callback per directory entry. |
| `Logs.RepliesAt` | lib/logs.js:47-59 | The k-th callback carries the names gathered from the first k+1 entries. |
| `Logs.ListedLogName` | lib/logs.js:52-53 | An active log `<base>.log` whose name has no earlier `.log` is listed as `<base>`. |
| `Logs.ListedArchiveName` | lib/logs.js:56-57 | With compressed logs included, `<base>.gz.b64` whose name has no earlier `.gz.b64` is listed as `<base>`. |
| `Logs.LogDir.List` | lib/logs.js:43-66 | A read error or an empty directory calls back once, with an error. Otherwise the callbacks are exactly `Replies` of the entries; the loop invariant ties the pushed names to `Gathered`. |
| `Logs.CompressAddsOnly` | lib/logs.js:69-107 | Compress only ever adds `<newFileId>.gz.b64`. Every existing file, the source included, keeps its contents. On success the new file holds encode(source). |
| `Logs.CompressNeverOverwrites` | lib/logs.js:80-98 | When the destination exists and the source is non-empty, compress reports an error and the directory is as it was. |
| `Logs.LogDir.Compress` | lib/logs.js:69-107 | The reply and the new directory follow `CompressReplyOf` and `CompressedFiles`. A missing or empty source never calls back. |
| `Logs.TruncatedFiles` | lib/logs.js:114-123 | When truncate succeeds, `<fileId>.log` is emptied. No other file changes and no file is added. |
| `Logs.LogDir.Truncate` | lib/logs.js:114-123 | The result and the new directory follow `TruncateFails` and `TruncatedFiles`. |
| `Workers.ValidatedIdentity` | lib/workers.js:47-48 | After validation, `id` and `userPhone` hold the validators' results. `url` keeps its stored value, since it is never validated. |
| `Workers.ValidatedRequest` | lib/workers.js:49-52 | After validation, `method`, `protocol`, `successCodes` and `timeoutSeconds` hold the validators' results. |
| `Workers.MissingFieldSkipped` | lib/workers.js:59-71 | With validators that reject a missing value, a check lacking any of the seven required fields is not eligible. |
| `Workers.UnvalidatedFieldsGate` | lib/workers.js:59-71 | A check without a truthy `url`, or without a valid phone, is skipped whatever the other validators do. |
| `Workers.EligibleShape` | lib/workers.js:44-71 | An eligible check was stored as an object. Its phone is the trimmed 10-character phone, its method and protocol are non-empty strings, its success codes are an array, and its url is as stored. |
| `Workers.Worker.ValidateCheckData` | lib/workers.js:44-72 | Returns a fresh check holding exactly the validated fields, and whether every required field is truthy. |
| `Workers.Step` | lib/workers.js:101-139 | Every event sets `outcomeSent`. An event delivers exactly when `outcomeSent` was false. |
| `Workers.Probe.constructor` | lib/workers.js:77-83 | A probe starts with `{error: false, responseCode: false}` and `outcomeSent` false. |
| `Workers.Probe.Handle` | lib/workers.js:101-139 | The corrected listeners (see Findings, lib/workers.js:116): a listener records its event in the outcome, then delivers the outcome only if none was delivered before. |
| `Workers.SentGateIgnores` | lib/workers.js:107-110 | Once the outcome was sent, no later event delivers anything. |
| `Workers.FirstEventWins` | lib/workers.js:83-139 | processCheckOutcome runs at most once per probe, and it receives the outcome recorded by the first event. |
| `Workers.ErrorFirstNeverProcessedAsWritten` | lib/workers.js:114-139 | As written, a probe whose first event is an error or a timeout never reaches processCheckOutcome. |
| `Workers.Worker.PerformCheck` | lib/workers.js:75-143 | With the corrected listeners: after the probe's events, the world is unchanged if there were none. Otherwise it is processCheckOutcome's effect for the first event's outcome. |
| `Workers.NewState` | lib/workers.js:149 | The new state is "up" or "down". |
| `Workers.StateRule` | lib/workers.js:149 | The state is "up" exactly when there is no error, the response code is truthy and the success codes include it. An error is always "down". |
| `Workers.AlertRule` | lib/workers.js:152 | An alert is needed exactly when `lastChecked` is truthy and the stored state differs from the new one, so a never-checked check never alerts. |
| `Workers.WriteBackChangesStateAndTime` | lib/workers.js:165-167 | The written-back check equals the original except that `state` is the computed state and `lastChecked` is the time of the check. |
| `Workers.SaveStoresWrittenBack` | lib/workers.js:171 | The store holds the written-back check under its id when the update succeeds, and is unchanged otherwise. No document is added or removed. |
| `Workers.LogRecordPrecedesUpdate` | lib/workers.js:155-162 | The record is appended to the check's own log. It is serialised before the write-back, so it carries the old state and old `lastChecked` next to the new state. |
| `Workers.FailedAppendKeepsLogs` | lib/workers.js:225-231 | A failed append changes no log file, and processing goes on. |
| `Workers.AlertOnlyAfterSave` | lib/workers.js:171-181 | An SMS goes out exactly when the update succeeded and an alert is needed. It carries the alert text for the written-back check and goes to the check's phone. |
| `Workers.FirstRunNeverAlerts` | lib/workers.js:152 | A check whose `lastChecked` is falsy sends no SMS. |
| `Workers.AlertMessageShape` | lib/workers.js:186 | The text is `Alert: Your check for <METHOD> <protocol>://<url> is currently <STATE>.`, with method and state upper-cased. |
| `Workers.TimeoutMeansDown` | lib/workers.js:128-139 | An outcome recorded by a timeout always classifies as "down". |
| `Workers.DownAlertText` | lib/workers.js:186 | The alert for a check that went down ends with "is currently DOWN.". |
| `Workers.TimeoutAfterUpAlertsDown` | lib/workers.js:147-182 | With the corrected timeout listener: a check that was up and times out goes down, and its owner gets the DOWN alert. |
| `Workers.ProcessGrows` | lib/workers.js:147-182 | processCheckOutcome adds or removes no document and changes only checks. SMS are only added. Log files only grow, and every new one is an active log. |
| `Workers.Worker.ProcessCheckOutcome` | lib/workers.js:147-182 | The check object, store, log directory and outbox become exactly `ProcessEffect` of their old values. The check is updated in place. |
| `Workers.Worker.Log` | lib/workers.js:208-232 | The record {check, outcome, state, alert, time} is serialised and appended to `<id>.log`. A failed append changes nothing. |
| `Workers.Worker.AlertUserToStatusChange` | lib/workers.js:185-198 | Exactly one SMS is added, with the alert text, to the check's phone. |
| `Workers.SkippedCheckUntouched` | lib/workers.js:28-35 | A listed check that cannot be read, is falsy or fails the gate of lines 59-71 leaves the store, the logs and the outbox as they were. |
| `Workers.MissingFieldNeverProbed` | lib/workers.js:59-71 | With validators that reject a missing value, a stored check lacking any of the seven required fields is skipped: nothing is logged, saved or sent for it. |
| `Workers.ScanSkipsIneligible` | lib/workers.js:22-41 | A scan in which every listed check is skipped changes nothing. |
| `Workers.Worker.ScanOne` | lib/workers.js:28-35 | With the corrected listeners, reading, validating and probing one listed check has exactly the effect `CheckEffect` gives: nothing for a skipped check or a probe without events, otherwise processCheckOutcome's effect for the first event. The world only grows. |
| `Workers.Worker.GatherAllChecks` | lib/workers.js:22-41 | With the corrected listeners: a failed listing changes nothing. Otherwise the new world is `ScanEffect` over a listing of every stored check id, each once: each check is processed as `CheckEffect` says, in listing order. When every stored check is skipped, nothing changes. The world only grows. |
| `Workers.TruncateOnlyAfterCompress` | lib/workers.js:243-256 | Rotation changes an active log only after compress reported success. The log is then empty and the new `<logId>-<now>.gz.b64` holds its encoded contents. A compress error leaves the log untouched. |
| `Workers.RotationPreserves` | lib/workers.js:241-256 | One rotation loses nothing: every changed active log is empty and its former contents sit encoded in a compressed log. New files are compressed logs. |
| `Workers.RotationScenario` | lib/workers.js:241-256 | For a `logIdOf` that maps `chk123` to itself, rotating the listed name `chk123` along rotateOne's route yields an empty `chk123.log` and `chk123-<now>.gz.b64` holding the encoded content. |
| `Workers.UnparsableLogNameNotRotated` | lib/workers.js:241 | When the name does not parse as a number, the id is NaN. Compress then reads the absent `NaN.log` and never calls back, so the directory is left as it was. |
| `Workers.Worker.RotateOne` | lib/workers.js:241-256 | The directory after one log's rotation is `RotatedFiles` for the id `logIdOf(name)` and the file `<logId>-<now>`. |
| `Workers.RotatedNamesPreserve` | lib/workers.js:239-256 | Rotating one callback's names in turn loses no log contents: `Preserved` holds between the old and the new directory. |
| `Workers.RotatedRepliesPreserve` | lib/workers.js:235-263 | Rotating the names of every callback in turn loses no log contents. |
| `Workers.LastReplyListsEveryLog` | lib/workers.js:237-239 | The last list callback carries every active log of the directory, so rotateLogs attempts each one at least once. |
| `Workers.Worker.RotateNames` | lib/workers.js:239-256 | One callback's body: the directory becomes `RotatedNames`, each name rotated in order, the i-th as the next numbered attempt. |
| `Workers.Worker.RotateLogs` | lib/workers.js:235-263 | A read error or an empty directory changes nothing. Otherwise the directory becomes `RotatedReplies` over exactly the callbacks `Replies` gives: every callback's names rotated in callback order, with the attempts numbered across them. No log contents are lost. |
| `Handlers.NonBlank` | lib/handlers.js:31-36 | The trimmed value is truthy exactly when it is a string. That happens exactly when the input is a string that is not blank once trimmed. |
| `Handlers.SignupRejectsIncomplete` | lib/handlers.js:29-40 | A payload without the five valid fields yields 400 and changes nothing. A null or undefined payload throws. |
| `Handlers.SignupNeverOverwrites` | lib/handlers.js:42-76 | For the corrected users.post (see Findings, lib/handlers.js:46): it changes no existing document. A 200 means the trimmed phone was free and now holds the user, with trimmed names and phone, the digest of the trimmed password and `tosAgreement: true`. Any other reply changes nothing. |
| `Handlers.SignupWithShape` | lib/handlers.js:42-76 | For a given digest, the sign-up either creates the new user under the free trimmed phone and answers 200, or changes nothing. |
| `Handlers.SignupSucceeds` | lib/handlers.js:59-61 | A complete sign-up for an unknown phone, with a digest and a create that succeeds, stores the new user and answers 200. |
| `Handlers.SignupCreateFails` | lib/handlers.js:63-66 | A failed create answers 500 and changes nothing. |
| `Handlers.PaddedPhoneOfExistingUser` | lib/handlers.js:42 | The existence check reads the raw phone. A padded phone of an existing user therefore answers 500 ("Could not create new user."), not 400. |
| `Handlers.PaddedPhoneTrims` | lib/helpers.js:21 | " 5551234567" validates to "5551234567". |
| `Handlers.PaddedPasswordLocksOutAsWritten` | lib/handlers.js:46 | As written, signing up with a padded password succeeds. tokens.post with the same payload then answers 400 "Password did not match". |
| `Handlers.PaddedSignupStoresRawDigest` | lib/handlers.js:46-59 | As written, the sign-up stores the digest of the untrimmed password. |
| `Handlers.SignupStoresUser` | lib/handlers.js:50-59 | After a 200 sign-up, the user document is readable under the trimmed phone. |
| `Handlers.SignupThenLogin` | lib/handlers.js:236 | With the corrected sign-up, a user who signed up passes tokens.post's password check with the same payload. The reply is 200, or 500 if the token cannot be created. |
| `Handlers.LoginWithMatchingUser` | lib/handlers.js:236-253 | For a stored user whose digest matches, tokens.post answers 200, or 500 if the create fails. |
| `Handlers.WithoutHash` | lib/handlers.js:96 | The returned user object has no `hashedPassword`. |
| `Handlers.UsersGetCases` | lib/handlers.js:86-108 | users.get answers 200 with the stored user minus `hashedPassword`. It answers 404 when the user is absent and 400 for an invalid phone. |
| `Handlers.UpdatedUserChangesOnlyProvided` | lib/handlers.js:133-142 | For the corrected update (see Findings, lib/handlers.js:141): only `firstName`, `lastName` and `hashedPassword` can change. A name changes only when the request's value is truthy, and then takes the untrimmed value. The digest changes only for a non-blank password, and then becomes the digest of the trimmed password. Every other field is kept. |
| `Handlers.UsersPutCases` | lib/handlers.js:114-167 | With no non-blank optional field, users.put answers 400. A 200 replaces exactly the named, existing user with the updated user. Any other reply changes nothing. |
| `Handlers.PutPaddedPasswordLocksOutAsWritten` | lib/handlers.js:140-141 | As written, users.put with a padded new password answers 200 and stores the digest of the padded string. tokens.post with the same payload then answers 400 "Password did not match". |
| `Handlers.PutThenLogin` | lib/handlers.js:236 | With the corrected users.put, a user who set a non-blank password passes tokens.post's password check with the same payload. The reply is 200, or 500 if the token cannot be created. |
| `Handlers.UsersDeleteCases` | lib/handlers.js:173-202 | A 200 removes exactly the named, existing user. A missing user or an invalid phone answers 400. No reply other than 200 changes anything. |
| `Handlers.TokenOnlyForMatchingPassword` | lib/handlers.js:224-269 | A 200 means the stored user's digest matched. The reply is `{phone, id, expires = now + 3600000}`, stored under that previously unused id. With the corrected random-string helper (see Findings, lib/helpers.js:23-26) the id is a 20-character string. |
| `Handlers.TokensPostFailuresChangeNothing` | lib/handlers.js:224-269 | No tokens.post reply other than 200 changes the store. |
| `Handlers.TokenIssued` | lib/handlers.js:238-253 | Past the password check, the token is `{phone, id, expires}`, its id drawn by the corrected random-string helper (20 characters). It answers 200 and is stored, or answers 500 and the store is unchanged. |
| `Handlers.LoginMismatch` | lib/handlers.js:255-257 | For a stored user whose digest does not match, tokens.post answers 400 and creates no token. |
| `Handlers.UsersPostStatuses` | lib/handlers.js:27-82 | users.post answers only 200, 400 or 500. |
| `Handlers.SignupWithStatuses` | lib/handlers.js:42-76 | Once the fields are checked, the sign-up answers only 200, 400 or 500. |
| `Handlers.UsersPutStatuses` | lib/handlers.js:114-167 | users.put answers only 200, 400 or 500. |
| `Handlers.UsersDeleteStatuses` | lib/handlers.js:173-202 | users.delete answers only 200, 400 or 500. |
| `Handlers.TokensPostStatuses` | lib/handlers.js:224-269 | tokens.post answers only 200, 400 or 500. |
| `Handlers.DispatchOnlyAcceptable` | lib/handlers.js:13-22 | users and tokens dispatch only post, get, put and delete. Any other method answers 405 and changes nothing, and no dispatched handler answers 405. |
| `Handlers.Api.UsersPost` | lib/handlers.js:27-82 | The reply and the new store are exactly `UsersPostOutcome`, the corrected sign-up that hashes the trimmed password. |
| `Handlers.Api.UsersGet` | lib/handlers.js:86-108 | The reply is exactly `UsersGetReply` of the store. |
| `Handlers.Api.UsersPut` | lib/handlers.js:114-167 | The reply and the new store are exactly `UsersPutOutcome`, the corrected update that hashes the trimmed password. The fields of the read document are assigned in place. |
| `Handlers.Api.UsersDelete` | lib/handlers.js:173-202 | The reply and the new store are exactly `UsersDeleteOutcome`. |
| `Handlers.Api.TokensPost` | lib/handlers.js:224-269 | The reply and the new store are exactly `TokensPostOutcome`, whose token id comes from the corrected random-string helper. |
| `Handlers.Api.IssueToken` | lib/handlers.js:238-253 | Past the password check, the reply and store are exactly `TokensPostOutcome`, with the token id from the corrected random-string helper. |
| `Handlers.Api.TokensGet` | lib/handlers.js:273-293 | The reply is exactly `TokensGetReply` of the store. |
| `Handlers.Api.Users` | lib/handlers.js:13-22 | The reply and store are exactly `UsersOutcome`: each accepted method goes to its handler, and any other method gets 405. |
| `Handlers.Api.Tokens` | lib/handlers.js:207-216 | The reply and store are exactly `TokensOutcome`. The empty put and delete handlers never call back. |
| `Server.TrimPath` | lib/server.js:44 | The trimmed path neither starts nor ends with "/" and is no longer than the path. |
| `Server.TrimPathRemovesOuterSlashes` | lib/server.js:44 | Trimming removes exactly the leading and trailing runs of slashes and keeps the interior. |
| `Server.TrimPathIdempotent` | lib/server.js:44 | Trimming a trimmed path changes nothing. |
| `Server.ChooseHandlerAsWritten` | lib/server.js:65-67 | As written, a path naming a member of Object.prototype selects that inherited member as the handler. |
| `Server.ChooseHandler` | lib/server.js:65-67 | The corrected router never selects an inherited member. It picks a handler other than notFound exactly for users, tokens and ping. |
| `Server.ChooseHandlerAgreesWithSource` | lib/server.js:101-102 | The two routers agree on every path that is not a prototype member name. `checks` routes to notFound, since handlers.js defines no checks handler. |
| `Server.StatusOf` | lib/server.js:81 | The status is the handler's status when it is a number, and 200 otherwise. |
| `Server.PayloadOf` | lib/server.js:84 | The payload is kept when `typeof` gives 'object' (object, array or null), and is `{}` otherwise. |
| `Server.AnswerDefaults` | lib/server.js:79-92 | A handler's reply is answered with its own status. An object, array or null payload is sent as it is, and a reply without a payload sends `{}`. |
| `Server.InheritedPathUnansweredAsWritten` | lib/server.js:65-79 | As written, a path that trims to a prototype member name is never answered and the store is unchanged. |
| `Server.ConstructorPathNeverAnsweredAsWritten` | lib/server.js:65-67 | As written, `/constructor` is never answered. The corrected router answers it 404 `{}`. |
| `Server.UnknownPathIsNotFound` | lib/handlers.js:313-315 | With the corrected router (see Findings, lib/server.js:65-67), every path that does not trim to users, tokens or ping is answered 404 with the body `{}`, and changes nothing. |
| `Server.PingAnswers` | lib/handlers.js:307-310 | A path that trims to `ping` is answered 200 with `{pinged: "Server ping successful."}`, whatever the method. |
| `Server.MethodCaseIgnored` | lib/server.js:50 | The method is lower-cased before dispatch: `POST` and `post` are served alike. |
| `Server.TokensPutNeverAnswered` | lib/handlers.js:296-298 | tokens with method put is never answered. |
| `Server.HttpServer.UnifiedServer` | lib/server.js:38-98 | The response and the new store are exactly `Serve` of the request, which routes with the corrected router (see Findings, lib/server.js:65-67). `ctx` is this request's clock reading, random draws and write faults. The status and payload are defaulted by reassignment. |

## Left out

- `Workers.EligibleShape`: the string and array shapes it states come from how the model types three helpers that lib/helpers.js never defines. `validateMethod` and `validateProtocol` are assumed to return a string or `false`, and `validateSuccessCodes` an array or `false`. A validator that returned another truthy value (say `true`) would make `method.toUpperCase()` (lib/workers.js:94 and 186) or `successCodes.includes` (line 149) throw. The model does not capture that.
- `Workers.Worker.AlertUserToStatusChange`: its string `requires` on `method` rests on the same assumed validator shape.
- `Helpers.ValidatePhone`: counts length in characters, while JavaScript's `.length` counts UTF-16 code units. A string of five characters outside the Basic Multilingual Plane (such as five emoji) has length 10 in JavaScript and validates there, but not in the model. Lone surrogates cannot be represented.
- `Handlers.SignupNeverOverwrites`: models the corrected sign-up, which hashes the trimmed password. As written, lib/handlers.js:46 hashes the raw one (`Handlers.UsersPostAsWritten`, see Findings).
- `Handlers.Api.UsersPost`: models the corrected sign-up, which hashes the trimmed password. As written, lib/handlers.js:46 hashes the raw one (`Handlers.UsersPostAsWritten`, see Findings).
- `Handlers.UpdatedUserChangesOnlyProvided`: models the corrected update, which hashes the trimmed password when it is non-blank. As written, lib/handlers.js:140-141 hashes the raw password whenever it is truthy (`Handlers.UpdatedUserAsWritten`, see Findings).
- `Handlers.Api.UsersPut`: models the corrected update, which hashes the trimmed password when it is non-blank. As written, lib/handlers.js:140-141 hashes the raw password whenever it is truthy (`Handlers.UpdatedUserAsWritten`, see Findings).
- `Handlers.TokenOnlyForMatchingPassword`: the token id comes from the corrected random-string helper. As written, lib/handlers.js:238 gets the number 20 from the JSON parser (`Helpers.RandomStringIsAlwaysTwenty`), so every token after the first collides with it and the reply is 500.
- `Handlers.TokenIssued`: the token id comes from the corrected random-string helper. As written, lib/handlers.js:238 gets the number 20 from the JSON parser (`Helpers.RandomStringIsAlwaysTwenty`), so every token after the first collides with it and the reply is 500.
- `Handlers.Api.TokensPost`: the token id comes from the corrected random-string helper. As written, lib/handlers.js:238 gets the number 20 from the JSON parser (`Helpers.RandomStringIsAlwaysTwenty`), so every token after the first collides with it and the reply is 500.
- `Handlers.Api.IssueToken`: the token id comes from the corrected random-string helper. As written, lib/handlers.js:238 gets the number 20 from the JSON parser (`Helpers.RandomStringIsAlwaysTwenty`), so every token after the first collides with it and the reply is 500.
- `Server.HttpServer.UnifiedServer`: routes with the corrected router. As written, lib/server.js:65-67 also routes paths that name Object.prototype members, and those requests are never answered (`Server.ServeAsWritten`, see Findings).
- `Workers.Probe.Handle`: models the corrected error and timeout listeners, which record the event and pass the outcome on once. As written, lib/workers.js:116 and 130 assign to the undeclared `checkoutCome` and throw a ReferenceError before the gate (`Workers.StepAsWritten`), so an error- or timeout-first probe is never processed and the process ends (`Workers.ErrorFirstNeverProcessedAsWritten`, see Findings).
- `Workers.Worker.PerformCheck`: for a probe whose first event is an error or a timeout, it states processCheckOutcome's effect, which only the corrected listeners reach. As written, lib/workers.js:116 and 130 assign to the undeclared `checkoutCome` and throw a ReferenceError before the gate (`Workers.StepAsWritten`), so an error- or timeout-first probe is never processed and the process ends (`Workers.ErrorFirstNeverProcessedAsWritten`, see Findings).
- `Workers.TimeoutAfterUpAlertsDown`: the DOWN alert it proves comes from the corrected timeout listener. As written, lib/workers.js:116 and 130 assign to the undeclared `checkoutCome` and throw a ReferenceError before the gate (`Workers.StepAsWritten`), so an error- or timeout-first probe is never processed and the process ends (`Workers.ErrorFirstNeverProcessedAsWritten`, see Findings).
- `Workers.Worker.ScanOne`: `Workers.CheckEffect` processes error- and timeout-first probes through the corrected listeners. As written, lib/workers.js:116 and 130 assign to the undeclared `checkoutCome` and throw a ReferenceError before the gate (`Workers.StepAsWritten`), so an error- or timeout-first probe is never processed and the process ends (`Workers.ErrorFirstNeverProcessedAsWritten`, see Findings).
- `Workers.Worker.GatherAllChecks`: `Workers.ScanEffect` inherits the corrected listeners from `Workers.CheckEffect`. As written, lib/workers.js:116 and 130 assign to the undeclared `checkoutCome` and throw a ReferenceError before the gate (`Workers.StepAsWritten`), so an error- or timeout-first probe is never processed and the process ends (`Workers.ErrorFirstNeverProcessedAsWritten`, see Findings).
- `Config.Select`: models the corrected selection. As written, config.js:30 exports Object.prototype for a NODE_ENV that lower-cases to "__proto__" (`Config.ProtoKeyEscapesFallback`, see Findings).
- `Config.UnknownNameSelectsStaging`: its first clause is about the corrected selection. For the selection as written it promises staging only for names that do not lower-case to "__proto__".
- `Server.UnknownPathIsNotFound`: models the corrected router. As written, lib/server.js:65-67 sends Object.prototype member names such as `constructor` to a "handler" that never answers (`Server.ConstructorPathNeverAnsweredAsWritten`, see Findings).
- Timers (`workers.loop`, `workers.logRotationLoop`, `workers.init`, `server.init`): each tick is a method call, with its time and faults as parameters.
- The probe's HTTP(S) request: its construction and its sending are network I/O. The events the request produces, and their order, are a parameter.
- The TLS server setup, `listen`, and the streaming of the request body: the body arrives as one string.
- `url.parse`: the pathname and the query object are fields of the request. A missing (null) pathname, which would make the trim throw, is not modelled.
- HMAC-SHA512, JSON.parse, JSON.stringify, gzip and base64 are uninterpreted functions. Their own properties (digest length, round trips) are assumed only where a lemma's `requires` states them.
- `Number(logName.replace('log', ''))` is the function `logIdOf`. Its NaN result, rendered as "NaN", is described only by `Workers.UnparsableLogNameNotRotated`.
- `Workers.RotationScenario`: holds only for a `logIdOf` that gives `chk123` back. As written, `Number("chk123")` is NaN, and `Workers.UnparsableLogNameNotRotated` shows that nothing is then rotated.
- The other files call helpers (`validateId` … `validateLastChecked`, `sendSMS`, `isFileType`) that lib/helpers.js does not define. They are function-typed parameters. Sending an SMS appends to an outbox, and its outcome is not modelled.
- lib/data.js is not part of this model. The store is an abstract map with read, list, create, update and delete. create fails on an existing id, update and delete fail on a missing one, and any write may also fail for unmodelled reasons.
- Concurrency: overlapping worker ticks and interleaved asynchronous callbacks. Every callback chain runs to completion before the next starts, in source order.
- JavaScript numbers are integers here. Floating point, NaN and `Infinity` are not modelled, and neither is `timeoutSeconds * 1000`.
- `toLowerCase`, `toUpperCase` and `trim` act on characters only. Case mapping covers ASCII letters; trim uses the full ECMAScript whitespace set.
- Loose equality `==`, where the source uses it (the password comparison, `tosAgreement == true`), is structural equality of values.
  - For `tosAgreement`, the `typeof` guard in front makes the two equalities agree.
  - For the password, they differ only when the digest of a blank password (`false`) meets a stored digest string that converts to the number 0. A hex HMAC-SHA512 digest of all zeros is the only such string.
- Partial writes: a failed append, write or close is all-or-nothing, except that a failed compress write leaves the empty destination file created.
- `lib.decompress` is an empty stub and is not modelled.
- `Logs.LogDir.Truncate`: models the intended truncation of `<fileId>.log`. As written, lib/logs.js:116 hands `fs.ftruncate` a path where it expects a file descriptor. That call throws synchronously inside compress's callback, so the first successful compress during rotation ends the process. `Workers.TruncateOnlyAfterCompress`, `Workers.RotationPreserves`, `Workers.RotatedNamesPreserve`, `Workers.RotatedRepliesPreserve`, `Workers.Worker.RotateNames` and `Workers.Worker.RotateLogs` rest on this intended truncation.
- The index.js call of `logs.list` with a string argument, and every `console.log`.
- `Logs.LogDir.List`: the list callback receives the same array object, still growing, on every call. The model hands each callback the names gathered so far, which is what each call sees when it runs.
- The stored document read by users.put is updated in place. When it is not an object, the model drops the assignments (JavaScript would set them on a wrapper and lose them too).
- `Server.InheritedPathUnansweredAsWritten` covers all inherited prototype members alike, as "no response". The model does not distinguish the members that return quietly (`constructor`, `toString`, …) from those that throw a TypeError and bring the process down.
- `Workers.InitialFields`: a stored check that is an array is treated as `{}`, which is skipped either way because it has no `url`.

## Findings

| source | as written | input that shows it | evidently intended | confidence | as-written member | corrected member |
|---|---|---|---|---|---|---|
| lib/workers.js:116 | The error and timeout listeners (lines 116 and 130) assign to `checkoutCome`, a name declared nowhere, so each throws a ReferenceError before its `outcomeSent` gate. index.js installs no `uncaughtException` handler, so the throw also ends the process. | A probe whose first event is a network error or a timeout: processCheckOutcome is never called and the check is never marked down. | Record `{error: true, value}` in `checkOutcome` and pass it on once. | high, not executed | `Workers.ErrorFirstNeverProcessedAsWritten` (over `Workers.StepAsWritten`) | `Workers.FirstEventWins` (over `Workers.Step`) |
| lib/helpers.js:23-26 | `helpers.createRandomString =` is followed by the parseJsonToObject definition, so both names are bound to the JSON parser. | `createRandomString(20)` returns the number 20, so every token gets the id 20 and the second token for any user collides. | A random 20-character string. | high, not executed | `Helpers.RandomStringIsAlwaysTwenty` (over `Helpers.CreateRandomStringAsWritten`) | `Helpers.CreateRandomString` |
| lib/server.js:65-67 | `typeof server.router[trimmedPath] !== 'undefined'` also accepts members inherited from Object.prototype. | GET `/constructor` calls `Object` as the handler, which never calls back, so the request hangs. `/hasOwnProperty` throws a TypeError. | Route only the router's own entries; everything else goes to notFound (404). | high, not executed | `Server.ConstructorPathNeverAnsweredAsWritten` (over `Server.ChooseHandlerAsWritten`) | `Server.UnknownPathIsNotFound` (over `Server.ChooseHandler`) |
| config.js:30 | `typeof environments[currentEnv] === 'object'` also accepts the prototype reached through the key `__proto__`. | NODE_ENV=`__PROTO__` exports Object.prototype, which has no ports or secret, instead of falling back to staging. | Unknown names fall back to staging. | high, not executed | `Config.ProtoKeyEscapesFallback` (over `Config.SelectAsWritten`) | `Config.Select` |
| lib/handlers.js:141 | users.put validates the trimmed password `isPassword` but hashes the raw `password`. tokens.post (line 236) hashes the trimmed one. | Change an existing user's password to " secret": 200. Log in with the same payload: 400 "Password did not match the user's password." | Hash the trimmed password, as login does. | high, not executed | `Handlers.PutPaddedPasswordLocksOutAsWritten` (over `Handlers.UsersPutAsWritten`) | `Handlers.PutThenLogin` (over `Handlers.UsersPutOutcome`) |
| lib/handlers.js:46 | users.post validates the trimmed password `isPassword` but hashes the raw `password`. tokens.post (line 236) hashes the trimmed one. | Sign up with password " secret": 200. Log in with the same payload: 400 "Password did not match the user's password." | Hash the trimmed password, as login does. | high, not executed | `Handlers.PaddedPasswordLocksOutAsWritten` (over `Handlers.UsersPostAsWritten`) | `Handlers.SignupThenLogin` (over `Handlers.UsersPostOutcome`) |
