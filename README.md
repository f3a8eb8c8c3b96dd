# purr — a Dafny model of the Discord-to-Immich backup bridge

purr is a Discord bot. It offers a "Backup" message command; invoking it on a
message uploads every image and video attached to that message to an Immich
photo server, and answers the invoker with one status line per file. This
project models the deterministic core of that bridge and proves its properties:

- `snowflake.dfy` (`Snowflake`): the decoding of a Discord message id (a "snowflake") into the
  time the message was sent. It uses `decimal.dfy` (`Decimal`), which models Go's
  `strconv.ParseInt(s, 10, 64)`, syntax and range errors included, plus the
  `%d` rendering of a size.
- `response.dfy` (`ImmichResponse`): how an Immich HTTP response is classified. The possible
  results are nothing decoded, a decoded object, a server error, or a decode error.
- `client.dfy` (`ImmichClient`): the Immich client. It covers configuration, the ping,
  current-user and upload requests as data (URL, headers, multipart parts in order),
  the `deviceAssetId` derivation, and the early-exit error handling of every step.
  The multipart writer is a class whose `parts` list grows as fields are written.
- `bot.dfy` (`DiscordBot`): the bot as a class holding its list of registered interactions.
  `AddInteraction` appends to the list. `BotInteraction` handles one command
  invocation. `Shutdown` deletes the commands in order. `BotInteraction` is proved
  against the specification function `Handle`, which folds over the interaction list.
- `transfer.dfy` (`ImmichTransfer`): the callback run for each attachment. It stages the
  file in a cache directory, downloads it, uploads it and removes the staged file.
  The file system is a class over a map from paths to contents.
- `config.dfy` (`Config`): start-up validation of the six `PURR_*` environment variables.
- `text.dfy` (`Text`): `strings.Split`/`Join`, `strings.HasPrefix`, the `%s` rendering of a
  string list, and `filepath.Join`/`filepath.Base` on slash-separated paths.
  `wrappers.dfy` holds `Option`/`Result`. `gotime.dfy` holds a time value that is
  either Go's zero `time.Time` or a Unix-millisecond instant.

Everything outside the program is an input. That covers Discord API outcomes, the
HTTP transport, the JSON decoders, the download, file-system errors, the host name
and the multipart boundary. Faults in request construction come as a map from step
to error. Methods return traces of what they did, such as the callback invocations,
the follow-up content, the session calls, the request sent and the file-system
actions.

## Model

| member | source | states |
|---|---|---|
| Decimal.ScanUint | pkg/discord/utils.go:13 | the unsigned digit loop of `strconv.ParseUint`: multiply by ten and add each digit, failing with the syntax error at a non-digit and with the range error as soon as the value passes 2^64-1; characterised by `ScanUintCorrect` |
| Decimal.ParseUint | pkg/discord/utils.go:13 | an empty string is a syntax error, anything else goes through the digit loop |
| Decimal.ParseInt | pkg/discord/utils.go:13 | a successful parse is always within the int64 range |
| Decimal.ScanUintCorrect | pkg/discord/utils.go:13-16 | the left-to-right digit scan succeeds iff every character is a digit and the accumulator extended by those digits stays at most 2^64-1, and then yields exactly that number; a well-formed digit string fails only with the range error |
| Decimal.FoldIsValue | pkg/discord/utils.go:13 | accumulating digits left to right (times ten plus the next digit) gives the positional decimal value of the string |
| Decimal.ParseIntCorrect | pkg/discord/utils.go:13-16 | `ParseInt` succeeds iff the string is an optional sign followed by at least one digit and its value lies in [-2^63, 2^63-1], and then returns that value; every other well-formed string gives the range error |
| Decimal.FormatNat | pkg/immich/client.go:132 | the `%d` rendering of a size is a non-empty digit string |
| Decimal.ValueOfFormatNat | pkg/immich/client.go:132 | the rendered digits read back as the same number |
| Decimal.FormatInt | pkg/immich/client.go:132 | `%d`: a minus sign for a negative value, then the digits of its magnitude |
| Decimal.FormatNatInjective | pkg/immich/client.go:132 | different sizes render differently |
| Decimal.ParseFormatRoundTrip | pkg/discord/utils.go:13 | parsing the decimal rendering of any int64 gives it back |
| Snowflake.ShiftRight | pkg/discord/utils.go:19 | Go's arithmetic `>>` on a signed integer as repeated halving rounded down; characterised by `ShiftRightIsFloorDiv` |
| Snowflake.SnowflakeMillis | pkg/discord/utils.go:19 | `(id >> 22) + 1420070400000`; characterised by `SnowflakeMillisIsDiv` |
| Snowflake.ShiftRightIsFloorDiv | pkg/discord/utils.go:19 | the arithmetic shift `x >> k` is floor division by 2^k, negative x included |
| Snowflake.Pow2Of22 | pkg/discord/utils.go:19 | the shift by 22 divides by 4194304 |
| Snowflake.ParseSnowflakeToTime | pkg/discord/utils.go:8-21 | there is an error iff the id is not a well-formed base-10 int64; on error the time is the zero time; otherwise it is floor(id / 2^22) + 1420070400000 Unix milliseconds |
| Snowflake.ZeroIdIsDiscordEpoch | pkg/discord/utils.go:10-19 | id "0" decodes to exactly 1420070400000 ms (2015-01-01T00:00:00Z) |
| Snowflake.ShiftRightMonotonic | pkg/discord/utils.go:19 | the arithmetic shift preserves order |
| Snowflake.SnowflakeMonotonic | pkg/discord/utils.go:19 | a larger id never gives an earlier timestamp |
| Snowflake.ParsedSnowflakeMonotonic | pkg/discord/utils.go:13-20 | for two ids that both parse, the larger id gives the later or equal time |
| Snowflake.SameTimeIffSameHighBits | pkg/discord/utils.go:19 | two ids give the same timestamp iff they agree above their low 22 bits |
| Snowflake.SnowflakeMillisIsDiv | pkg/discord/utils.go:19 | the timestamp is the floor of the id divided by 2^22, plus the Discord epoch |
| Snowflake.LowBitsIgnored | pkg/discord/utils.go:19 | an id `high * 2^22 + low` with `0 <= low < 2^22` decodes to `high` plus the Discord epoch, whatever `low` is |
| Snowflake.NoOverflow | pkg/discord/utils.go:19 | for every int64 id the timestamp stays within int64, so the addition never overflows |
| ImmichResponse.ParseResponse | pkg/immich/utils.go:9-34 | the result is an error iff a response with status >= 400 has a body, or a body that should be decoded fails to decode; an object is decoded only for a status below 400 other than 204 with a body |
| ImmichResponse.NilResponseUntouched | pkg/immich/utils.go:10-33 | no response: no error, object untouched |
| ImmichResponse.ErrorStatusWithBodyFails | pkg/immich/utils.go:11-21 | status >= 400 with a body always fails: "can't decode server error: ..." when the envelope does not decode, else "<Status>: [m1 m2 ...]" mentioning every server message |
| ImmichResponse.ErrorStatusWithoutBodyUntouched | pkg/immich/utils.go:11-33 | status >= 400 without a body falls through to "no error, object untouched" |
| ImmichResponse.NoContentNotDecoded | pkg/immich/utils.go:24-28 | 204 with a body: no error and no decoding |
| ImmichResponse.SuccessStatusDecodes | pkg/immich/utils.go:24-30 | any other status below 400 with a body returns exactly the object decoder's result |
| ImmichResponse.ErrorStatusIgnoresObjectDecoder | pkg/immich/utils.go:11-21 | for status >= 400 the object decoder is never consulted |
| ImmichClient.AddHeader | pkg/immich/client.go:65-66 | `Header.Add` appends the value under its name and leaves other names unchanged |
| ImmichClient.NewClient | pkg/immich/client.go:41-56 | fails iff the host name lookup fails, with that error |
| ImmichClient.EndpointUrls | pkg/immich/client.go:48-51 | the endpoint is the URL + "/api", the device id is the host name, and ping, current user and upload go to "/api/server/ping", "/api/users/me" and "/api/assets" |
| ImmichClient.RequestHeaders | pkg/immich/client.go:160-162 | the upload carries exactly the multipart Content-Type with its boundary, Accept: application/json and the API key; the GET requests (lines 65-66 and 87-88) carry exactly the last two |
| ImmichClient.UploadFieldOrder | pkg/immich/client.go:122-147 | the upload body has five parts in the order assetData, deviceAssetId, deviceId, fileCreatedAt, fileModifiedAt, with the file and the two times in place |
| ImmichClient.DeviceAssetIdIgnoresContent | pkg/immich/client.go:132 | two files with the same name and size give the same fields whatever their content |
| ImmichClient.DeviceAssetIdInjective | pkg/immich/client.go:132 | `"<name>-<size>"` determines both the name and the size |
| ImmichClient.Deliver | pkg/immich/client.go:169-174 | the result is an error iff parsing failed, and then exactly the parse error; otherwise the decoded object, or the zero object when nothing was decoded |
| ImmichClient.Exchange | pkg/immich/client.go:164-174 | a transport error is returned as is; otherwise the parsed answer is delivered |
| ImmichClient.UntouchedAnswerIsZero | pkg/immich/client.go:169-174 | an answer without a body, or a 204, whatever its status code, is a success carrying the zero object |
| ImmichClient.FirstFault | pkg/immich/client.go:105-158 | the first construction step that fails, or none |
| ImmichClient.GetRequest | pkg/immich/client.go:60-66 | a GET to the endpoint plus the path, with the JSON and API-key headers and no body |
| ImmichClient.DeviceAssetId | pkg/immich/client.go:132 | `"<name>-<size>"` with the size in decimal; see `DeviceAssetIdInjective` |
| ImmichClient.UploadParts | pkg/immich/client.go:117-150 | the multipart parts in the order they are written; see `UploadFieldOrder` |
| ImmichClient.UploadRequest | pkg/immich/client.go:155-162 | a POST to `<endpoint>/assets` with the multipart content type, the JSON and API-key headers, and the upload parts; see `RequestHeaders` |
| ImmichClient.UploadOutcome | pkg/immich/client.go:104-175 | a missing file, a failing open or any failing construction step gives an error and sends nothing; otherwise the request built from the file's base name and content is sent and the result is the parsed answer to it |
| ImmichClient.OpenFailureOnExistingFile | pkg/immich/client.go:105-108 | a file that exists but cannot be opened ends the upload with the open error, and nothing is sent |
| ImmichClient.UploadFailsAt | pkg/immich/client.go:105-158 | when step k is the first to fail, the upload returns step k's error and sends nothing |
| ImmichClient.UploadSends | pkg/immich/client.go:155-174 | when no step fails, the full request is sent and its answer parsed |
| ImmichClient.MultipartWriter.constructor | pkg/immich/client.go:118-119 | a fresh writer has no parts |
| ImmichClient.MultipartWriter.CreateFormFile | pkg/immich/client.go:122-125 | on success appends an empty file part; on failure changes nothing |
| ImmichClient.MultipartWriter.CopyIntoFilePart | pkg/immich/client.go:127-130 | on success the last file part holds the data; on failure changes nothing |
| ImmichClient.MultipartWriter.WriteField | pkg/immich/client.go:132-150 | on success appends the field; on failure changes nothing |
| ImmichClient.MultipartWriter.Close | pkg/immich/client.go:153 | closes without changing the parts |
| ImmichClient.WriteFilePart | pkg/immich/client.go:121-130 | the file part is complete, or the first failing step's error is returned |
| ImmichClient.WriteUploadFields | pkg/immich/client.go:132-150 | the four fields are appended in order, or the first failing step's error is returned |
| ImmichClient.UploadAsset | pkg/immich/client.go:104-175 | the result and the request sent are exactly `UploadOutcome` |
| ImmichClient.GetJson | pkg/immich/client.go:59-101 | nothing is sent iff request creation fails; otherwise the GET request is sent and the answer parsed |
| ImmichClient.PingServer | pkg/immich/client.go:59-79 | GET "/server/ping" with the standard headers, early error return, parsed answer |
| ImmichClient.GetCurrentUser | pkg/immich/client.go:81-101 | GET "/users/me" with the standard headers, early error return, parsed answer |
| DiscordBot.Bot.constructor | pkg/discord/bot.go:31-35 | a new bot has its application id and no interactions |
| DiscordBot.Bot.AddInteraction | pkg/discord/bot.go:54-77 | the handler is registered every time; the interaction is appended iff command creation succeeds, else the error is returned and the list is unchanged |
| DiscordBot.Caller | pkg/discord/bot.go:124-129 | the invoking user: the direct user when set, else the guild member's user |
| DiscordBot.IsMedia | pkg/discord/bot.go:147 | an attachment is backed up iff its content type starts with `image/` or `video/` |
| DiscordBot.MediaInvocations | pkg/discord/bot.go:144-148 | the callback calls for a message: one per media attachment, in attachment order; see `MediaInvocationsAppend` |
| DiscordBot.Statuses | pkg/discord/bot.go:148-154 | the statuses the callback returns, concatenated in call order whether or not it failed; see `StatusesAppend` |
| DiscordBot.Handle | pkg/discord/bot.go:119-162 | the handler over the interaction list; if any interaction matches, the caller resolved, and if the handler was not refused after a match, the target message resolved |
| DiscordBot.RefusalBeforeMessage | pkg/discord/bot.go:121-137 | a first matching interaction that refuses the caller ends the handler before the message is read, so an unresolved message is allowed and a later accepting interaction never runs |
| DiscordBot.Bot.BotInteraction | pkg/discord/bot.go:106-172 | a failed acknowledgement means no callback and no follow-up; otherwise the callbacks are exactly those of `Handle`, and one follow-up with `Handle`'s statuses is sent iff no matching interaction refused the caller |
| DiscordBot.RunCallback | pkg/discord/bot.go:144-156 | the callback runs once per image or video attachment, in attachment order, and every returned status is appended, error or not |
| DiscordBot.Bot.Shutdown | pkg/discord/bot.go:90-104 | commands are deleted in list order up to and including the first failing one, whose error is returned; the session is closed on every path; the list is not changed |
| DiscordBot.FirstFailedDelete | pkg/discord/bot.go:93-97 | the index of the first command whose deletion fails, or the list length |
| DiscordBot.DeniedIsFinal | pkg/discord/bot.go:131-134 | after an unauthorized caller nothing further runs |
| DiscordBot.HandleNoMatch | pkg/discord/bot.go:119-122 | with no interaction of that name, no callback runs and the follow-up is empty |
| DiscordBot.HandleSingle | pkg/discord/bot.go:121-161 | for one matching interaction: unauthorized gives no calls and no follow-up; attachments give one call per media attachment and their statuses; none gives the "no attachments detected" literal and no call |
| DiscordBot.MediaInvocationsAppend | pkg/discord/bot.go:145-148 | the media filter distributes over concatenation, so it keeps attachment order |
| DiscordBot.MediaInvocationsSingle | pkg/discord/bot.go:147 | one attachment gives a call iff its content type starts with "image/" or "video/" |
| DiscordBot.StatusesAppend | pkg/discord/bot.go:148-154 | statuses are concatenated in call order |
| DiscordBot.FilterExample | pkg/discord/bot.go:145-155 | [image/png, text/plain, video/mp4] gives calls for the first and third, in that order |
| ImmichTransfer.StatusLine | cmd/root.go:174 | every status line starts with "<file>: " and ends with a newline |
| ImmichTransfer.FileSystem.Create | cmd/root.go:149-152 | creates or truncates the file, or changes nothing on failure |
| ImmichTransfer.FileSystem.Write | cmd/root.go:164-167 | on success the file holds the data; on failure it may hold a prefix of it |
| ImmichTransfer.FileSystem.Remove | cmd/root.go:154 | the path is gone and nothing else changes |
| ImmichTransfer.Reached | cmd/root.go:149-167 | the staging is complete iff create, fetch and copy all succeed, and stops at the create iff creating fails |
| ImmichTransfer.ActionOrder | cmd/root.go:149-169 | a failed create performs nothing else; once the file exists the steps run in order up to the first failure and the staged file is removed last; the upload is performed iff the staging completed |
| ImmichTransfer.CallbackOutcome | cmd/root.go:145-175 | the actions are those of the stage reached; the error is nil iff create, fetch, copy and upload all succeed; each failure carries its own error prefix and the "internal error" line and sends nothing unless it is the upload's; the upload sent is the one for the staged bytes; success carries the server's status |
| ImmichTransfer.ImmichCallback | cmd/root.go:145-175 | the result and actions are exactly `CallbackOutcome`; the file system is unchanged if creation failed, and otherwise loses exactly the staged path |
| ImmichTransfer.UntouchedAnswerEmptyStatus | cmd/root.go:169-174 | an upload answer without a body, or a 204, gives no error and the status line with an empty status |
| ImmichTransfer.CreateImmichCallback | cmd/root.go:144-145 | the callback closes over the client and cache directory and returns `CallbackOutcome`'s status line and error |
| ImmichTransfer.UploadOutcomeReadsOnePath | pkg/immich/client.go:104-112 | an upload depends only on the contents of the file it is given, not on the rest of the directory |
| ImmichTransfer.UploadedAsAttachment | cmd/root.go:146-169 | a callback that sends an upload had a successful download, and the request names the file by its attachment name, carries the downloaded bytes, and uses the message time as both creation and modification time |
| Config.UnsetIsMissing | cmd/root.go:110-111 | an unset variable reads as empty, so its setting is missing |
| Config.Missing | cmd/root.go:111-136 | a setting is missing iff its variable is empty, or, for the user ids, its first comma piece is empty |
| Config.Check | cmd/root.go:110-138 | one setting contributes nothing or exactly its "<flag> is required" message |
| Config.FlagErrors | cmd/root.go:107-141 | the messages of the missing settings in the order they are checked; see `MessageReportedIff` and `NoErrorsIff` |
| Config.MessageReportedIff | cmd/root.go:107-141 | each setting's message is reported iff that setting is missing, and then exactly once |
| Config.NoErrorsIff | cmd/root.go:107-141 | there are no errors iff no setting is missing |
| Config.AuthorizedUserIDsMissingIff | cmd/root.go:120-122 | the user id list is missing iff its first comma piece is empty, i.e. the value is empty or starts with a comma; its pieces join back to the value |
| Config.Flags.constructor | cmd/root.go:29-39 | all flag variables start empty |
| Config.Flags.VerifyDiscordFlags | cmd/root.go:110-123 | the three Discord settings are read and checked in order |
| Config.Flags.VerifyFlags | cmd/root.go:107-141 | the errors are exactly those of the missing settings in the fixed order app id, token, user ids, URL, API key, cache path; every flag variable holds its variable's value, the user ids split at commas |
| Text.Split | cmd/root.go:120 | splitting never gives an empty list, so indexing the first piece is safe |
| Text.JoinSplit | cmd/root.go:120 | the comma pieces join back to the original value |
| Text.SplitPiecesOmitSeparator | cmd/root.go:120 | no piece contains a comma |
| Text.FirstPieceEmpty | cmd/root.go:120-122 | the first piece is empty iff the string is empty or starts with the separator |
| Text.FormatList | pkg/immich/utils.go:20 | the `%s` rendering of a string list is bracketed |
| Text.FormatListContainsItem | pkg/immich/utils.go:20 | every server message occurs in the rendered list |
| Text.Base | pkg/immich/client.go:122 | a base name is never empty |
| Text.PathJoin | cmd/root.go:146 | the staged path is the directory, one separator and the file name |
| Text.BaseOfJoin | cmd/root.go:146 | the base name of the staged path is the attachment's file name when that name has no slash |

## Left out

- Discord session lifecycle: `NewBot` (creating the session and its ready handler), `Start` (opening the gateway), and the handler registry's dispatch of events. The bot counts handler registrations but does not model an event reaching several registered handlers.
- The Discord API calls (acknowledgement, command create/delete, follow-up, session close) are inputs or recorded calls. A failed follow-up only logs, so it is not modelled.
- Process bootstrap: flag registration, `Execute`, `launch` and the signal wait in cmd/root.go.
- Network and file I/O are inputs. The transport is a function from request to response. The download is a function from URL to body, and it fails only on a transport error because the HTTP status of the download is not checked. File-system errors (creating, writing, opening and reading the status of a file) are inputs.
- JSON decoding is a pair of supplied decoder functions. A decode that fails after partly filling the object is not modelled.
- The multipart byte encoding and the random boundary: the body is the ordered list of parts, and the boundary is an input.
- RFC 3339 formatting and time zones: a time field holds the time value itself.
- `filepath.Join` path cleaning: a staged path is the directory, a slash and the file name.
- Header name canonicalisation (`X-API-Key` is sent as `X-Api-Key`): header names are kept as written.
- Logging, the 10-second HTTP timeout, the unused contexts, and concurrency between interactions.
- Closing files and response bodies, and a failing `os.Remove`, which the source ignores.
- DiscordBot.Bot.BotInteraction: requires that the caller resolves at the first matching interaction, and that the target message resolves when that interaction authorizes the caller; the source dereferences nil otherwise.
- DiscordBot.HandleSingle and the bot model treat the callback as a pure function of its arguments; its effects are modelled separately by ImmichTransfer.ImmichCallback.
- ImmichResponse.ParseResponse: the ">= 400 before 204" priority holds but is not stated separately, because 204 is below 400.
- Config.Flags.VerifyFlags: the returned errors are the list of messages; the multierror package's rendering of them is not modelled.
