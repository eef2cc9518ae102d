# endfield-auto, modelled in Dafny

endfield-auto is a bot that signs SKPort accounts in to the daily attendance
of Arknights: Endfield. It keeps the accounts' credentials fresh, watches
their stamina and reports to Discord and Telegram. This project models its
core:

- the HTTP client registry and the SKPort client module that signs every call;
- the OAuth exchange and the two request signers;
- the time-to-live cache;
- the game directory and the Endfield game (credentials, start-up, game card);
- the daily check-in;
- the stamina cron;
- the command registry;
- the Discord and Telegram platforms;
- the stand-alone Google Apps Script copy of the check-in.

The model proves properties of all of these.

Each source file is one Dafny module:

| module | file | models |
|---|---|---|
| `Wrappers`, `Strings`, `Hashing` | `wrappers.dfy`, `strings.dfy`, `hashing.dfy` | `Option`/`Result`; ASCII lowercase, split/join and decimal text; bytes and lowercase hex |
| `Config` | `config.dfy` | the configured account and the runtime credential store |
| `Cache` | `cache.dfy` | `skport/cache.ts` |
| `Got` | `got.dfy` | `classes/got.ts` |
| `OAuth` | `oauth.dfy` | `skport/oauth.ts` |
| `SkportGot` | `skport_got.dfy` | `gots/skport/index.ts` and the two static clients under it |
| `Records` | `records.dfy` | the API records and `StoredAccount` of `skport/template.ts` |
| `Template` | `template.dfy` | `skport/template.ts` |
| `Endfield` | `endfield.dfy` | `skport/endfield/index.ts` |
| `CheckIn` | `check_in.dfy` | `skport/endfield/check-in.ts` |
| `Embeds` | `embeds.dfy` | the Discord embed object and its JSON form |
| `StaminaCheck` | `stamina_check.dfy` | `crons/stamina-check/index.ts` |
| `Commands` | `commands.dfy` | `classes/command.ts` |
| `Telegram` | `telegram.dfy` | `platform/telegram.ts` |
| `Discord` | `discord.dfy` | `platform/discord.ts` |
| `GoogleScript` | `google_script.dfy` | `services/google-script/index.js` |

The hash functions (MD5, HMAC-SHA256) are fields of a datatype of function
values, so every property holds for any choice of them. HTTP endpoints are
functions of the request they receive, and `None` stands for a request that
threw. The clock is a `now` parameter in milliseconds. The empty string
stands for an absent value wherever the source tests only truthiness.

Several structures the source mutates in place are classes whose methods
are proved against specification functions:

- the cache, the registries and the credential store;
- the game and its stored accounts;
- the check-in and the platforms.

The proofs of the properties below are about those specification functions.

The rounds of `init` are stated over a `Network` value, which holds the
OAuth endpoints and what booting an account yields for a given cache and
credential store. `Endfield.Endfield.Net` is the game's own, booting with the
profile and stats lookups (`Endfield.BootAfter`).

The game holds the SKPort client registry it sends its requests through
(`Endfield.Endfield.clients`, set to `SkportGot.Clients` by the
constructor); every request function takes that registry as a parameter.

The rounds of `execute` are stated over a `CheckIn.Checker` value, which
holds the OAuth endpoints and the outcome of `#processAccount` once the
credential decision is made. `CheckIn.CheckIn.Net` is the game's own:
`CheckIn.Attended`, the outcome over the replies the status, claim and card
endpoints give to the account's requests. In the same way the rounds of the
stamina cron are stated over a `StaminaCheck.CronRun` value, whose step is,
for the game, `StaminaCheck.StepAfter` over the account's runtime salt and
card reply (`StaminaCheck.CronOf`).

## Model

| member | source | states |
|---|---|---|
| Hashing.UnhexHex | skport/oauth.ts:87 | lowercase hex of a digest decodes back to the digest: the hex text loses nothing |
| Hashing.HexInjective | skport/oauth.ts:100-101 | two digests with the same hex are the same digest, so the MD5 input of v2 determines the HMAC |
| Config.CredentialStore.Set | skport/endfield/index.ts:24-30 | replaces the whole record of the name: a later lookup of that name returns the new record, and a lookup of any other name returns what it did before |
| Cache.TtlCache.constructor | skport/cache.ts:7 | the store starts empty |
| Cache.TtlCache.Get | skport/cache.ts:9-19 | returns the data exactly when the key holds an entry younger than its ttl; an expired entry is deleted, nothing else changes |
| Cache.TtlCache.GetWithMetadata | skport/cache.ts:21-31 | the same expiry rule as `get`, returning the whole entry |
| Cache.TtlCache.Set | skport/cache.ts:33-39 | the key now holds the data stamped with the current time and the ttl; other keys are unchanged |
| Cache.TtlCache.Remove | skport/cache.ts:41-43 | only the key is removed |
| Cache.TtlCache.Cleanup | skport/cache.ts:45-59 | the store keeps exactly its unexpired entries, and the count is the number of entries deleted |
| Cache.TtlCache.Clear | skport/cache.ts:61-63 | the store is empty |
| Cache.SetThenGet | skport/cache.ts:9-39 | with a positive ttl, a read right after a write returns what was written and deletes nothing |
| Cache.SetIsolated | skport/cache.ts:33-39 | a write does not change what any other key reads |
| Cache.ExpiredReadEvicts | skport/cache.ts:13-16 | a read at or after timestamp + ttl finds nothing and deletes the entry (age == ttl is expired) |
| Cache.SweepAgreesWithReads | skport/cache.ts:45-54 | reads see the same before and after a sweep; a read after a sweep deletes nothing; a second sweep changes nothing |
| Cache.SweepExact | skport/cache.ts:49-54 | a key survives the sweep exactly when its entry is unexpired, with its entry unchanged |
| Cache.CeilDiv | skport/cache.ts:80 | the result is the least q with a <= q * b, as `Math.ceil(a / b)` for positive operands |
| Cache.PredictValue | skport/cache.ts:69-89 | the prediction never exceeds `max` (except for the floor at 0 when `max` is negative); with a server time it is `max` once that time has passed and never negative before it; without one, and with a clock that has not gone back, it never falls below `min(current, max)` |
| Cache.PredictFromRecoveryTime | skport/cache.ts:78-84 | with a server time, the prediction ignores `current`; it is `max` once that time has passed, otherwise `max(0, max - ceil(missing / rate))` |
| Cache.PredictFromElapsed | skport/cache.ts:86-88 | without a server time, the prediction never exceeds `max`, never falls below `min(current, max)`, and counts only whole regeneration steps of the elapsed time |
| Cache.PredictMonotone | skport/cache.ts:69-89 | for a non-negative `max`, a later clock never predicts less |
| Got.ResolveInstance | classes/got.ts:75-90 | an unknown name, looked up in lowercase, fails with "module not found" |
| Got.ResolveParentFirst | classes/got.ts:81-89 | a module with a parent is its parent's resolved client extended with the module's own options, and it fails when the parent fails |
| Got.ResolveRoot | classes/got.ts:81-89 | a module without a parent extends the library's own client |
| Got.ResolveCaseInsensitive | classes/got.ts:76 | two spellings of a name that agree in lowercase resolve alike |
| Got.ResolveRanked | classes/got.ts:75-90 | in an acyclic registry, with fuel at least the module's rank, resolution never runs out of depth |
| Got.StripPattern | classes/got.ts:30-31 | a removal pass never lengthens the text, shortens it exactly when the pattern occurs, and otherwise leaves it alone |
| Got.Sanitize | classes/got.ts:28-32 | never lengthens the url, and leaves a url without `..` or `%2E%2E` unchanged |
| Got.StripDotsComplete | classes/got.ts:30 | after the first pass no `..` is left |
| Got.SanitizeLeavesTraversal | classes/got.ts:28-32 | the sanitiser as written turns `.%2E%2E./` into `../`, so its output can still hold a traversal |
| Got.SanitizeFixpoint | classes/got.ts:28-32 | the corrected sanitiser (both passes repeated until nothing changes) returns a fixed point of the written one, never longer than the input |
| Got.SanitizeFixpointClean | classes/got.ts:28-32 | the corrected output holds neither `..` nor `%2E%2E`; a clean url passes unchanged; where one written pass already settles, both agree |
| Got.SanitizeKeepsPlainUrl | classes/got.ts:28-32 | a url without `.` or `%` passes both the written and the corrected sanitiser unchanged |
| Got.Prepare | classes/got.ts:92-100 | preparation succeeds exactly when the module resolves; the client is the resolved one; the url is the one-round sanitised url, never longer, and unchanged when it holds neither `..` nor `%2E%2E` |
| Got.PrepareSendsTraversal | classes/got.ts:92-100 | a request for `.%2E%2E./` through any module that resolves is sent to `../` |
| Got.Request | classes/got.ts:92-109 | the body is returned exactly when preparation succeeds and the send does not throw; a preparation error is passed through |
| Got.RegisteredKeeps | classes/got.ts:42-65 | a lowercased name that no later module claims keeps its registration |
| Got.RegisteredLastWins | classes/got.ts:63-65 | the last module registered under a lowercased name wins, silently |
| Got.GotRegistry.constructor | classes/got.ts:26 | the registry starts empty |
| Got.GotRegistry.Add | classes/got.ts:63-65 | the module is stored under its lowercased name, replacing any earlier one; iteration order keeps first insertion |
| Got.GotRegistry.ValidateHierarchy | classes/got.ts:67-73 | passes exactly when every module's parent is registered; otherwise it reports the first dangling module in iteration order |
| Got.GotRegistry.ImportData | classes/got.ts:42-52 | registers every export that looks like a module, in order, then validates |
| OAuth.PerformOAuthFlow | skport/oauth.ts:61-83 | the three requests go out in order, each only if the previous step succeeded; the result is Ok exactly when all three replies are acceptable, and a failure names the step that failed |
| OAuth.OAuthSuccessFields | skport/oauth.ts:77-82 | on success: cred and userId come from step 3, the salt is step 3's `token`, hgId comes from step 1 |
| OAuth.JsonEscapeVerbatim | skport/oauth.ts:98 | JSON string escaping changes a string exactly when it holds a character that needs escaping |
| OAuth.HeaderJsonText | skport/oauth.ts:98 | for a decimal timestamp the header JSON is `{"platform":"3","timestamp":"…","dId":"","vName":"1.0.0"}` |
| OAuth.SignV1MessageInjective | skport/oauth.ts:86-88 | for decimal timestamps, the v1 message determines the timestamp and the credential |
| OAuth.SignInputsDisjoint | skport/oauth.ts:86-101 | a v1 message never equals the hex text hashed by v2 |
| OAuth.AnyContains | skport/oauth.ts:104-107 | `patterns.some(p => path.includes(p))` |
| OAuth.SignVersionRule | skport/oauth.ts:104-107 | v2 exactly when the path contains one of `/binding`, `/card/detail`, `/wiki/`, `/enums`, `/v2/` |
| OAuth.SignVersionV1 | skport/oauth.ts:104-107 | v1 exactly when the path contains none of them |
| OAuth.SignVersionV2Examples | skport/oauth.ts:104-107 | the wiki and card-detail paths classify as v2 |
| OAuth.SignVersionV1Example | skport/oauth.ts:104-107 | the attendance path classifies as v1 |
| SkportGot.SkportOptions | gots/skport/index.ts:15-52 | fails with the no-credentials message exactly when no credential is found; otherwise the headers carry the credential, the timestamp, the signature and the fixed headers, and the game role unless it is excluded |
| SkportGot.CredPriority | gots/skport/index.ts:20-26 | a non-empty runtime credential wins over the configured one |
| SkportGot.SignatureChoice | gots/skport/index.ts:28-36 | v2 needs a v2 sign path and a runtime salt; without a sign path, without a salt, or on a v1 path, the v1 signature is sent |
| SkportGot.TimestampHeader | gots/skport/index.ts:18-45 | the timestamp header is the decimal whole seconds, the very string that was signed |
| SkportGot.SignV2Input | gots/skport/index.ts:28-36 | the HMAC input of v2 is the sign path, the timestamp and the fixed header JSON |
| SkportGot.ClientsRegistered | classes/got.ts:42-52 | importing the four client modules registers them under their lowercased names |
| SkportGot.ClientsValid | classes/got.ts:67-73 | the registered parent chain is acyclic and complete, so validation accepts it |
| SkportGot.ResolveStaticClient | gots/skport-web/index.ts:3-16 | a call through SKPortWeb or SKPortApp fails exactly when the account has no credential, and otherwise sends the SKPort headers plus the client's own |
| SkportGot.ExtendKeepsSkportHeaders | classes/got.ts:89 | extending with static options whose headers are other names keeps every SKPort header |
| SkportGot.OwnHeadersDisjoint | gots/skport-app/index.ts:8-11 | the static clients' own headers never share a name with the SKPort headers |
| SkportGot.StaticClientHeaders | gots/skport-app/index.ts:3-15 | every SKPort header of the call survives through the static clients, and `platform` is "3" |
| SkportGot.PreparedStatic | classes/got.ts:92-100 | a call to a plain url is prepared exactly when the account has a credential, goes to the client's prefix URL unchanged, and carries every SKPort header |
| Records.KeysDisjoint | skport/endfield/check-in.ts:186 | profile, stats and attendance cache keys never collide, and each kind determines the account name |
| Template.GameDirectory.constructor | skport/template.ts:76 | the directory starts empty |
| Template.GameDirectory.Register | skport/template.ts:76 | the game is stored under its name as given, replacing any earlier one; listing order keeps first insertion; a later `Game.get` finds the new game by every name whose lowercase is the registered name, and reads as before for every other name |
| Template.GameDirectory.ActiveGames | skport/template.ts:90-92 | lists every registered name exactly once |
| Template.UppercaseNameUnreachable | skport/template.ts:86-88 | a game registered under a name with an uppercase letter is never found |
| Template.GetProfile | skport/template.ts:95-121 | `getProfile` behaves as its specification over the cache and the reply: a cache hit first, otherwise an accepted reply is cached for an hour |
| Template.ProfileHitIgnoresNetwork | skport/template.ts:96-98 | on a cache hit the outcome does not depend on the network reply |
| Template.ProfileCachedForAnHour | skport/template.ts:110-113 | an accepted profile is what any lookup in the next hour finds |
| Template.ProfileRequestShape | skport/template.ts:101-108 | the profile request goes through SKPortWeb to `wiki/me`, without the game role, signed for `/web/v1/wiki/me` |
| Endfield.FreshnessRule | skport/endfield/index.ts:38-48 | the stored credential is kept, with no exchange, exactly when it exists, is not forced, and is strictly younger than thirty minutes |
| Endfield.FallbackOrder | skport/endfield/index.ts:50-80 | a successful exchange wins and is stamped now; then the configured credential with an empty salt; with neither, nothing is stored |
| Endfield.DecisionKeepsUsable | skport/endfield/index.ts:38-81 | every decision but a failure leaves a usable credential under the name, and none makes a stored credential unusable |
| Endfield.UidOfRole | skport/endfield/index.ts:94-95 | the uid of `<platform>_<uid>_<server>` is the middle field; a role without `_` is its own uid |
| Endfield.StatsWithoutRequest | skport/endfield/index.ts:144-156 | without the bypass flag a cached value answers with no request; without a salt nothing is asked or cached |
| Endfield.StatsBypassAndCaching | skport/endfield/index.ts:147-203 | with the bypass flag the answer depends only on the salt and the reply; fresh stats are what any read in the next ten minutes finds |
| Endfield.CardRequestShape | skport/endfield/index.ts:159-171 | the card request goes through SKPortApp with the game role, and behind the salt gate it is signed with v2 |
| Endfield.Endfield.constructor | skport/endfield/index.ts:11-14 | the game registers itself under "endfield", with no accounts, and sends its requests through the SKPort client registry |
| Endfield.Endfield.RefreshOAuth | skport/endfield/index.ts:16-36 | without a token nothing happens; otherwise the stored credential is replaced exactly when the exchange succeeds |
| Endfield.Endfield.InitOAuth | skport/endfield/index.ts:38-81 | applies the credential decision to the store, and on success the account has a non-empty credential |
| Endfield.Endfield.FetchGameStats | skport/endfield/index.ts:144-208 | the result and the new cache are the specification's, over the runtime salt and the card reply |
| Endfield.Endfield.StatsWith | skport/endfield/index.ts:147-207 | the same, given the salt and the reply |
| Endfield.BootProfile | skport/endfield/index.ts:105-118 | a non-empty game nickname replaces the profile's nickname and keeps its user id and avatar, or makes a profile with empty user id and avatar; without stats or nickname the profile is unchanged |
| Endfield.Endfield.Boot | skport/endfield/index.ts:93-124 | a new stored account holding the configured account, its uid, the boot time and no attendance; its game stats are the ones the stats lookup gives after the profile lookup, its profile is the looked-up one with the game nickname applied, and the new cache is the profile lookup's followed by the stats lookup's |
| Endfield.Endfield.AddAccount | skport/endfield/index.ts:86-124 | an account is added exactly when the credential decision (made without a forced refresh) leaves credentials, and the store takes that decision; the store, cache and added account follow one round of `init` from the given state, and a skipped account leaves the accounts and that state as they were |
| Endfield.Endfield.InitStep | skport/endfield/index.ts:86-124 | one pass of the loop follows one round of `init` and keeps the accounts added before booted as they were |
| Endfield.Endfield.Init | skport/endfield/index.ts:83-136 | keeps the earlier accounts; the store, the cache and the appended accounts are those of the rounds of `init` over the configured accounts, in order, each appended account a new object booted from its round's record |
| Endfield.NextAppends | skport/endfield/index.ts:86-124 | a round leaves the booted records alone or appends exactly one, for its own account |
| Endfield.SkipRule | skport/endfield/index.ts:38-91 | an account is skipped exactly when no fresh credential is stored for it, its token is missing or its exchange fails, and it has no configured credential; a skipped account changes nothing, a kept one appends one record |
| Endfield.InitKeepsPrefix | skport/endfield/index.ts:86-133 | the rounds never drop or change a record already booted |
| Endfield.InitKeepsOrder | skport/endfield/index.ts:86-133 | the accounts the rounds add are a subsequence of the configured accounts, in configuration order |
| Endfield.InitKeepsCredentialed | skport/endfield/index.ts:68-91 | every configured account that carries a configured credential is kept |
| Endfield.InitKeepsUsable | skport/endfield/index.ts:38-91 | the rounds keep every stored credential usable, and every kept account has a credential under its name |
| CheckIn.DoneEntries | skport/endfield/check-in.ts:99 | only done entries, no more than the calendar holds; empty exactly when nothing is done; the last one is the calendar's last done entry |
| CheckIn.DoneEntriesAppend | skport/endfield/check-in.ts:99 | the filter distributes over concatenation, so each part of the calendar contributes its done entries, in order, none dropped |
| CheckIn.DoneEntriesSingle | skport/endfield/check-in.ts:99 | a single entry is kept exactly when it is done |
| CheckIn.FirstNotDone | skport/endfield/check-in.ts:124 | none exactly when every entry is done, else an entry of the calendar that is not done |
| CheckIn.Bookkeeping | skport/endfield/check-in.ts:96-135 | reading the calendar never changes the result's name, status or error |
| CheckIn.CheckRules | skport/endfield/check-in.ts:185-214 | a cached "signed today" answers without the network; a fresh code-0 reply is cached for thirty minutes and allows a claim exactly when not signed; anything else allows none and caches nothing |
| CheckIn.RewardsFor | skport/endfield/check-in.ts:230-244 | no more rewards than ids; every id known gives one reward per id in order; no id known gives none |
| CheckIn.RewardsForAppend | skport/endfield/check-in.ts:230-244 | the rewards distribute over concatenation of the award ids, so they come in award order |
| CheckIn.RewardsForSingle | skport/endfield/check-in.ts:230-244 | a single award id gives its reward exactly when the resource map knows it, and nothing otherwise |
| CheckIn.RewardsFromKnownIds | skport/endfield/check-in.ts:234-244 | every reward comes from an award id the resource map knows |
| CheckIn.ClaimThenCheck | skport/endfield/check-in.ts:246-264 | after a successful claim, every status check for twelve hours reports the day signed and asks nothing; the cached records have one slot more than the previous count |
| CheckIn.Enrich | skport/endfield/check-in.ts:157-174 | the game card keeps the result's name, status, error and attendance |
| CheckIn.MissingCredentialsStops | skport/endfield/check-in.ts:75-79 | without a credential or a game role: an error result, no reply read, cache and stored account untouched |
| CheckIn.OutcomeConsistent | skport/endfield/check-in.ts:58-183 | every result carries an error message exactly when its status is "error" |
| CheckIn.StatusLadder | skport/endfield/check-in.ts:137-155 | "claimed" exactly when a claim was allowed and succeeded; "already_claimed" exactly when none was allowed and the status had code 0; else "error" |
| CheckIn.SignInCount | skport/endfield/check-in.ts:101-144 | with a done entry, the count is the number of done entries, one more after a successful claim, and the stored account keeps it |
| CheckIn.RewardsFromCalendar | skport/endfield/check-in.ts:108-134 | with nothing to claim, the reward is the last done entry's and the next reward is the first open entry's, when the map knows them |
| CheckIn.StatusRequestShape | skport/endfield/check-in.ts:199-202 | the status GET has no sign path, so it is signed with v1 whatever the salt, and it carries the game role |
| CheckIn.ClaimRequestShape | skport/endfield/check-in.ts:218-225 | the claim is signed for the attendance path, which is v1, so it is signed with v1 whatever the salt |
| CheckIn.CheckIn.constructor | skport/endfield/check-in.ts:33-35 | binds the game instance |
| CheckIn.CheckIn.CheckAttendance | skport/endfield/check-in.ts:185-214 | the reply, the claim permission and the new cache are those of the status-check specification |
| CheckIn.CheckIn.CheckWith | skport/endfield/check-in.ts:185-214 | the same, given the reply |
| CheckIn.CheckIn.ClaimAttendance | skport/endfield/check-in.ts:216-275 | success, rewards and the new cache are those of the claim specification |
| CheckIn.CheckIn.ClaimWith | skport/endfield/check-in.ts:227-270 | the same, given the reply: the rewards in award order, and "signed today" cached for twelve hours |
| CheckIn.CheckIn.ProcessAccount | skport/endfield/check-in.ts:49-183 | refreshes the credential first (no forced refresh), then yields the outcome over the refreshed store and the game's endpoints (`CheckIn.Attended`), authenticated exactly when credentials were found; the result is consistent and carries the account's name |
| CheckIn.CheckIn.Attend | skport/endfield/check-in.ts:75-183 | the result, the new cache and the stored account are the outcome's |
| CheckIn.CheckIn.AttendanceStep | skport/endfield/check-in.ts:94-155 | the result and the new cache are the attendance specification's |
| CheckIn.ExecOneResultEach | skport/endfield/check-in.ts:37-47 | the rounds keep the results they were given and add exactly one per account, in account order, each named after its account and consistent, whenever the processing reports that way |
| CheckIn.ExecLeavesLater | skport/endfield/check-in.ts:40-44 | each account is processed with the stored fields it had before the run: the rounds so far leave the later accounts alone |
| CheckIn.ExecKeepsUsable | skport/endfield/check-in.ts:49-53 | the rounds keep every stored credential usable |
| CheckIn.NoCredentialsRound | skport/endfield/check-in.ts:49-53 | a round for an account with no fresh stored credential, no working token and no configured credential leaves the store as it was and processes the account unauthenticated |
| CheckIn.CheckIn.NetReports | skport/endfield/check-in.ts:58-183 | over the game's endpoints, `#processAccount` always reports consistently and names its account |
| CheckIn.CheckIn.ExecReports | skport/endfield/check-in.ts:37-47 | over the game's endpoints, a run from no results gives one consistent result per account, named after it, in order |
| CheckIn.CheckIn.Execute | skport/endfield/check-in.ts:37-47 | the final credential store, cache, results and stored accounts are those of the rounds of `execute` over the stored accounts, in order, each over what the accounts before it left; one consistent result per stored account, named after it |
| CheckIn.CheckIn.ExecLoop | skport/endfield/check-in.ts:40-44 | round by round the loop's store, cache, results and stored accounts follow the rounds |
| CheckIn.CheckIn.ExecStep | skport/endfield/check-in.ts:40-44 | one pass of the loop is one round: the account's result appended, its stored fields replaced |
| CheckIn.CheckIn.ProcessAt | skport/endfield/check-in.ts:49-183 | `#processAccount` on the i-th stored account: the store takes the credential decision, result, cache and the account's fields are the outcome's, and every other stored account keeps its fields |
| StaminaCheck.LevelRanges | crons/stamina-check/index.ts:28-40 | the embed ladder partitions the range: full from max, almost full in [max-5, max), alert from the target up to max-5, report below both |
| StaminaCheck.EmbedShape | crons/stamina-check/index.ts:12-63 | the embed's title follows the ladder over the stored stamina, 0 when missing (so no stamina reads as full); the first field is current over max; there is always a thumbnail; the footer is the monitor's |
| StaminaCheck.FetchRule | crons/stamina-check/index.ts:85-108 | without stored stamina the card is always fetched; with it, exactly when the prediction reaches the target |
| StaminaCheck.FullStaminaFetched | crons/stamina-check/index.ts:88-106 | stored stamina already at max, with no server time and a clock that has not gone back, is always fetched for a non-positive threshold (the configured default is -10) |
| StaminaCheck.AlertAgreesWithEmbed | crons/stamina-check/index.ts:122-130 | an alert is sent only from the target up, and its text prefix names the same rung as the embed |
| StaminaCheck.Deliveries | crons/stamina-check/index.ts:132-141 | no more deliveries than platforms; every platform in order when all are configured, none when none are |
| StaminaCheck.DeliveriesAppend | crons/stamina-check/index.ts:132-141 | the deliveries distribute over concatenation of the platform list, so they come in platform order |
| StaminaCheck.DeliveriesSingle | crons/stamina-check/index.ts:132-141 | a single platform gets exactly one delivery (the embed for Discord, the text otherwise) when it is configured, and none otherwise |
| StaminaCheck.DeliveriesConfigured | crons/stamina-check/index.ts:132-141 | every delivery goes to a configured platform |
| StaminaCheck.AccountStep | crons/stamina-check/index.ts:79-142 | the stored account, the cache and the deliveries follow the fetch rule and the bypassing fetch; the profile and attendance are not touched |
| StaminaCheck.Notify | crons/stamina-check/index.ts:132-141 | the loop sends exactly the specified deliveries, in platform order |
| StaminaCheck.StepAfterSends | crons/stamina-check/index.ts:79-142 | one account's step sends at most one delivery per platform, each to a configured platform, and keeps the stored profile |
| StaminaCheck.DeliveriesToConfigured | crons/stamina-check/index.ts:132-141 | every delivery of an alert goes to a configured platform of the list |
| StaminaCheck.CronOfStepsWell | crons/stamina-check/index.ts:79-142 | the game's step, over every cache, account and stored fields, sends at most one delivery per platform, only to configured platforms, and keeps the profile |
| StaminaCheck.RunSends | crons/stamina-check/index.ts:132-141 | the rounds keep the deliveries made before them and add at most one per platform and account, each to a configured platform |
| StaminaCheck.RunKeepsProfiles | crons/stamina-check/index.ts:79-142 | the rounds never change a stored profile |
| StaminaCheck.RunLeavesLater | crons/stamina-check/index.ts:79-84 | each account is stepped with the stored fields it had before the run |
| StaminaCheck.QuietRound | crons/stamina-check/index.ts:79-106 | for the game's step, a round for a disabled account, or for one whose prediction is below the target, changes nothing and sends nothing |
| StaminaCheck.RunTraceStep | crons/stamina-check/index.ts:79-142 | consecutive states of the loop are one round apart |
| StaminaCheck.Run | crons/stamina-check/index.ts:69-144 | without the game nothing is sent; with it, the cache, the deliveries and the stored accounts' stamina fields are those of the rounds over the stored accounts, in order, each step over the cache the accounts before it left; no stored profile or attendance is touched |
| StaminaCheck.RunLoop | crons/stamina-check/index.ts:79-143 | round by round the loop's cache, deliveries and stored accounts follow the rounds |
| StaminaCheck.RunRound | crons/stamina-check/index.ts:79-142 | one pass of the loop is one round: the account's deliveries appended, its fields replaced |
| StaminaCheck.StepAt | crons/stamina-check/index.ts:79-142 | the i-th stored account's step is the game's step over the cache and its fields before it; every other stored account keeps its fields |
| StaminaCheck.CronStep | crons/stamina-check/index.ts:79-142 | one account's step over its runtime salt and card reply: deliveries, cache and fields are `StaminaCheck.StepAfter`'s, profile and attendance untouched |
| Commands.AddAliasesSpec | classes/command.ts:60-68 | the alias loop completes exactly when no alias clashes with a command, an existing alias or an earlier alias of the list; then every alias maps to the command |
| Commands.AliasesBeforeClashKept | classes/command.ts:60-68 | aliases registered before a clash stay registered: there is no rollback |
| Commands.Commands.constructor | classes/command.ts:27-28 | both maps start empty |
| Commands.Commands.Add | classes/command.ts:51-71 | a duplicate name fails with the duplicate message and changes nothing; otherwise the command is stored and its aliases added up to the first clash |
| Commands.Commands.GetCaseInsensitive | classes/command.ts:73-77 | two spellings equal in lowercase find the same command |
| Commands.Commands.AliasShadowsCommand | classes/command.ts:75 | an alias is followed even when a command has the same name |
| Commands.Commands.FoundAfterAdd | classes/command.ts:51-77 | after a clean registration the command is found by every alias, and by its own name unless that name is also an alias |
| Commands.Commands.All | classes/command.ts:94-96 | the commands in insertion order |
| Commands.Commands.AllCountsCommands | classes/command.ts:94-96 | lists each command once |
| Commands.Commands.CheckAndRun | classes/command.ts:79-92 | runs exactly when the command is found; a missing command gets the "does not exist" reply, a throwing run the error reply |
| Commands.Commands.ImportData | classes/command.ts:30-39 | the tables and the error are those of `Commands.ImportFrom` over the exports; no command is lost, and without an error every command module among the exports is registered |
| Commands.AddToKeeps | classes/command.ts:51-68 | `#add` never unregisters a command, and registers the name when it reports no error |
| Commands.ImportKeeps | classes/command.ts:30-39 | an import never unregisters a command |
| Commands.ImportRegistersAll | classes/command.ts:30-39 | an import without an error has registered every command module among the exports |
| Commands.ImportStopsAtFirstError | classes/command.ts:30-39 | an import with an error stopped at a command module whose `#add` failed: everything before it was added cleanly, and the tables and message are that `#add`'s |
| Telegram.EscapeHtmlAppend | platform/telegram.ts:161-168 | escaping distributes over concatenation |
| Telegram.EscapeHtmlChar | platform/telegram.ts:161-168 | each of `& < > " '` becomes its entity, and every other character is kept |
| Telegram.EscapeHtmlPerChar | platform/telegram.ts:161-168 | the five chained replacements equal escaping each character independently, so no entity is escaped twice |
| Telegram.EscapedIsSafe | platform/telegram.ts:161-168 | escaped text holds no `<`, `>`, `"` or `'`, so it cannot open or close a tag or an attribute |
| Telegram.EscapeKeepsPlainText | platform/telegram.ts:161-168 | text without the five characters is unchanged |
| Telegram.FieldLines | platform/telegram.ts:69-71 | one `<b>name</b>: value` line per field, in order |
| Telegram.EmbedLineCount | platform/telegram.ts:52-79 | at most three head lines, then a blank and one line per field when there are fields |
| Telegram.EmbedFieldsInOrder | platform/telegram.ts:67-72 | the fields follow the head lines after a blank line, in order |
| Telegram.EmbedFooterLast | platform/telegram.ts:74-77 | a footer text is the last line, in italics, after a blank line |
| Telegram.PushHead | platform/telegram.ts:52-65 | pushes the thumbnail link, title and description lines that are present |
| Telegram.PushFields | platform/telegram.ts:67-72 | pushes a blank line and the field lines |
| Telegram.RenderEmbed | platform/telegram.ts:46-80 | the text is the rendered lines joined by newlines |
| Telegram.ParseCommand | platform/telegram.ts:141-146 | the command name is lowercase |
| Telegram.CommandToken | platform/telegram.ts:145 | `/cmd@bot` names `cmd` |
| Telegram.ParseCommandShape | platform/telegram.ts:141-146 | `/cmd@bot rest` names the lowercased `cmd`, with the words of `rest` as arguments |
| Telegram.CommandMessages | platform/telegram.ts:121-126 | at most one message per update; none when no update is a command |
| Telegram.CommandMessagesAreCommands | platform/telegram.ts:121-126 | every handled message comes from an update whose text starts with `/` |
| Telegram.CommandMessagesSnoc | platform/telegram.ts:121-126 | one more update adds its message to the handled ones exactly when it is a command |
| Telegram.TelegramPlatform.CommandRepliesSnoc | platform/telegram.ts:121-126 | one more handled message adds its reply, when it has one, after the earlier replies |
| Telegram.TelegramPlatform.constructor | platform/telegram.ts:28-32 | keeps the token and the chat id; polling starts from update 0 |
| Telegram.TelegramPlatform.Send | platform/telegram.ts:38-80 | sends exactly when there is a token and a destination (the override first); the text is the string or the rendered embed, in HTML mode |
| Telegram.TelegramPlatform.HandleCommand | platform/telegram.ts:140-159 | runs the parsed command through the command table; the reply is `Telegram.TelegramPlatform.CommandReply`'s: an unknown or throwing command is answered in the message's own chat |
| Telegram.TelegramPlatform.CommandRepliesBound | platform/telegram.ts:119-124 | at most one reply per handled message, none without a token, and each to the chat of a handled message |
| Telegram.TelegramPlatform.Poll | platform/telegram.ts:112-135 | asks from one past the last update id, hands the command updates to `#handleCommand` in order, sends exactly the replies of those messages, in order, and records the last id seen |
| Discord.TrimStart | platform/discord.ts:137 | empty exactly when the text is all whitespace; otherwise it starts with a non-whitespace character |
| Discord.TrimEnd | platform/discord.ts:137 | empty exactly when the text is all whitespace |
| Discord.TrimEmptyIff | platform/discord.ts:137 | `url.trim()` is empty exactly when the url is all JavaScript whitespace |
| Discord.ValidWebhookIff | platform/discord.ts:134-140 | a webhook is valid exactly when it is present and starts with `http` |
| Discord.Payload | platform/discord.ts:149-162 | the payload always carries the bot name and avatar |
| Discord.PayloadShape | platform/discord.ts:149-162 | a string becomes `content`; an object with embeds is spread; any other object or array becomes the `embeds` list |
| Discord.EmbedAlertPayload | platform/discord.ts:156-162 | the stamina alert's `{embeds: [embed]}` is posted with the embed unchanged |
| Discord.InteractionArgs | platform/discord.ts:63 | at most one argument per option, none empty |
| Discord.InteractionArgsKeepAll | platform/discord.ts:63 | options with non-empty values all pass, in order |
| Discord.Ephemeral | platform/discord.ts:72-88 | the payload's keys and values are kept and the ephemeral flag is added; a follow-up exactly when the interaction was answered or deferred |
| Discord.EphemeralText | platform/discord.ts:73-80 | plain text becomes `{content, flags}` |
| Discord.EphemeralParsed | platform/discord.ts:73-80 | a string that looks like a JSON object and parses is sent as the parsed object with the ephemeral flag |
| Discord.DiscordPlatform.constructor | platform/discord.ts:22-27 | keeps the configuration, with no client running |
| Discord.DiscordPlatform.Send | platform/discord.ts:142-179 | posts exactly when the webhook is valid, and posts the payload of the content |
| Discord.DiscordPlatform.HandleInteraction | platform/discord.ts:59-90 | runs the command with the interaction's arguments; a reply is the ephemeral answer |
| Discord.DiscordPlatform.StartBot | platform/discord.ts:41-93 | a client runs afterwards exactly when one ran before or the bot is configured |
| Discord.DiscordPlatform.StopBot | platform/discord.ts:126-132 | no client runs afterwards |
| GoogleScript.ByteHexDigits | services/google-script/index.js:157 | every byte is two hex digits, high nibble first |
| GoogleScript.ToHexIsHex | services/google-script/index.js:154-159 | the script's hex of signed bytes is the lowercase hex of the unsigned bytes, two digits per byte |
| GoogleScript.GasSignersAgree | services/google-script/index.js:135-152 | the script's v1 and v2 signatures equal the server's, platform "3" and version "1.0.0" |
| GoogleScript.GasOAuthAgrees | services/google-script/index.js:105-133 | the script's exchange succeeds exactly when the server's does, yielding the same credential and salt |
| GoogleScript.MissingCredentialsFirst | services/google-script/index.js:33-46 | without a credential or a game role, the script throws before any attendance call |
| GoogleScript.SignatureBySalt | services/google-script/index.js:48-62 | signs with v2 exactly when it has a salt, even on the attendance path, which the server signs with v1 |
| GoogleScript.StatusDecides | services/google-script/index.js:64-81 | a signed day ends after the status check; a non-zero code throws; a claim is made only otherwise, with the same headers |
| GoogleScript.ClaimNotice | services/google-script/index.js:90-102 | a successful claim (code 0) gives the "Daily Sign-in Claimed" notice in the success colour, whose description is the account's header line, a blank line and the award lines joined by newlines, line i naming award i by name and count when the map knows it and by id otherwise; the thumbnail is the first award's icon when known |
| GoogleScript.ProcessAccount | services/google-script/index.js:33-103 | `processAccount` as the specification: the notice or the thrown failure, and the attendance calls made |
| GoogleScript.AttendAccount | services/google-script/index.js:48-103 | the status check and the claim, as the specification |
| GoogleScript.RunAll | services/google-script/index.js:22-31 | with a webhook, exactly one payload per account, in order, a failure reported as "Sign-in Failed"; without one, nothing |

## Left out

- I/O is not modelled: logging, the network transport, `fetch`, the discord.js client, `setTimeout` pacing, the cron scheduler and `process` entry points.
- The canvas renderer of the check-in card is not part of this model.
- `utils/time-units` is not part of this model. `formatTimeRemaining` is a parameter of the stamina embed.
- The ISO timestamp of embeds is a parameter.
- The code of `getRuntimeCredentials`/`setRuntimeCredentials` is not part of this model. `Config.CredentialStore` stands for a plain per-name map.
- Got.Extend: `instance.extend` belongs to the got library. It is modelled as an assumption: the child's prefix URL wins when set, and headers merge key by key with the child winning.
- Got.ResolveInstance: the source recurses with no cycle check. A cyclic parent chain overflows the stack. The model bounds the depth by `fuel` and returns `ResolutionTooDeep` instead. `Got.ResolveRanked` shows the bound is never reached in an acyclic registry.
- `Number(...)` conversions, NaN and floating-point stamina values are not modelled. Counts and times are integers.
- JSON key order is not modelled. Payloads are maps, and the header JSON of v2 is written out as text.
- `toLowerCase` is modelled for ASCII letters only.
- Time is one `now` per operation. The source reads `Date.now()` several times within one call.
- Request methods (GET/POST) and URLs beyond the prepared path are not modelled. Replies are functions of the prepared request.
- The profile stored in the cache and the one in a stored account are copies in the model. The source shares one object, so a later nickname override also changes the cached profile.
- A cache key that holds a value of the wrong kind reads as a miss. This cannot happen, because the kinds of key never collide (`Records.KeysDisjoint`).
- The ephemeral output a command sends during a successful run (through the platform's `ephemeral` or `defer`) is not modelled. Only the reply for a missing or throwing command is.
- StaminaCheck.Run: requires the stored account objects to be distinct. The game only ever appends new objects, and its invariant `Endfield.Endfield.Valid` includes this, so the requirement holds for every game the model builds.
- The Discord `registerCommands` REST calls are not modelled. The client lifecycle is reduced to a flag.
- The chat id of an incoming Telegram message is modelled as an integer, rendered as decimal text when replying; the source types it `number | string`. Configured chat ids are strings, and update ids are integers. Slash-command option values that are floats are not modelled.
- GoogleScript.ProcessAccount: exceptions raised by the Apps Script runtime (a failed fetch, a reply that is not JSON, a property read on a missing object) are one failure kind. Their message is not modelled, and `RunAll` takes it as a parameter.
- GoogleScript.GasOAuth: an absent `msg` or `message` is rendered as "" rather than JavaScript's `undefined`.
- The script's constant `ACCOUNTS` and `DISCORD_WEBHOOK_URL` are parameters of `GoogleScript.RunAll`.

## Findings

| source | as written | input that shows it | evidently intended | confidence | as-written member | corrected member |
|---|---|---|---|---|---|---|
| classes/got.ts:28-32 | one `..` pass followed by one `%2E%2E` pass, so removing the encoded dots can join the dots around them into a new `..` | `.%2E%2E./` becomes `../` | a sanitised url never holds `..` or `%2E%2E`: repeat both passes until nothing changes | not executed | Got.SanitizeLeavesTraversal | Got.SanitizeFixpointClean |

Requests are modelled as written: `Got.Prepare` sends the one-round result,
and `Got.PrepareSendsTraversal` shows the traversal reaching the network.
The corrected sanitiser agrees with the written one on every url the modelled
callers send (`Got.SanitizeKeepsPlainUrl`).
