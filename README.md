# Tournament bot decision core, in Dafny

This project models the decision logic of the BSEU tournament bot, a Discord bot
(`TournamentBot` in `index.js`). The bot checks BeatLeader players, verifies a
player who reacts with ✅ in the verification channel, and mirrors its reports to a log channel.
Discord and the BeatLeader HTTP API are replaced by plain inputs. What `fetch`
yields for an endpoint is a `Ranking.Fetched` value given by an `Api`. The guild as discord.js caches it forms a `Platform.Guild` object. It holds the member cache in cache order,
the roles each cached member holds, the role cache, the roles the bot may grant, and the channel cache.
A role's members are the cached members holding it, in cache order. Every outward
Discord call the bot makes, except `deferReply`, is recorded as a `Platform.Effect`, in order.

Modules, one per component of the bot:

- `Wrappers`: `Option` (JavaScript `null`/`undefined`) and `Result` (a value or a thrown error).
- `Region`: `isEUCountry`. It upper-cases the code and tests membership in the fixed list of 27 codes.
- `Ranking`: the three `getBeatleaderInfo*` lookups. They share one payload-to-record mapping.
- `Platform`: messages, effects, log-channel resolution, a role's members, and the guild with `roles.add`.
- `Commands`: the `check-player` selector and replies, and the `check-all` report lines and their joined text.
- `Bot`: the `TournamentBot` class. It holds the configuration fields, `setup`, the `check-all` loop, `verifyPlayer` and both event listeners.

The model follows the code in these details:

- `check-player` accepts several identifiers at once and uses the first by priority: user, then BeatLeader id, then name. It does not demand exactly one.
- A non-administrator's `setup` gets a private text reply. There is no separate error kind.
- The lookups have no dedicated "malformed response" or "not found" errors. They fail because JavaScript throws: on a non-ok status (`Failed to fetch player info`), on an unreadable body, and on `data[0]` being `undefined` for an empty search.
- `setup` mirrors its confirmation to the new log channel only when the guild's channel cache holds that channel.

## Model

| member | source | states |
|---|---|---|
| `Region.Upper` | index.js:256 | the upper-cased code has the input's length and each character upper-cased |
| `Region.IsEUCountry` | index.js:249-257 | `isEUCountry`; its contract is stated by `IsEUCountryIgnoresCase` and `EuCodesHaveTwoLetters` |
| `Region.CodesAreUpperPairs` | index.js:250-255 | the list holds 27 distinct codes, each two upper-case letters |
| `Region.IsEUCountryIgnoresCase` | index.js:249-257 | `isEUCountry(c)` holds exactly when `c` equals a listed code ignoring case |
| `Region.SameClassificationIgnoringCase` | index.js:256 | two codes that differ only in case classify the same |
| `Region.EuCodesHaveTwoLetters` | index.js:249-257 | only two-character strings classify as EU (with ASCII upper-casing); "de" and "DE" are EU; "GB", "" and "DEU" are not |
| `Ranking.ToPlayerInfo` | index.js:193-200 | the record copies name, avatar, rank, country rank and country unchanged, and its `isEU` is `isEUCountry(country)` |
| `Ranking.MappingRoundTrip` | index.js:193-200 | every record whose `isEU` agrees with its country is the mapping of the payload it was copied from, so the mapping is a bijection onto such records |
| `Ranking.FromPlayerResponse` | index.js:189-200 | the result is a record exactly when fetch resolved, `ok` is true and the body reads as a player; a rejected fetch, a non-ok status and an unreadable body are each their own error |
| `Ranking.FromSearchResponse` | index.js:229-242 | the search yields a record exactly when the response is ok and `data[0]` exists and reads as a player; `data[0]` is read as a per-player response is; an empty list is an error |
| `Ranking.InfoByDiscord` | index.js:187-205 | a record exactly when `/player/discord/<id>` answers ok with a readable player, and then it is that player's record |
| `Ranking.InfoById` | index.js:207-225 | a record exactly when `/player/<id>` answers ok with a readable player, and then it is that player's record |
| `Ranking.InfoByName` | index.js:227-247 | a record exactly when the search answers ok with a readable first hit, and then it is that hit's record |
| `Ranking.SearchUsesFirstHit` | index.js:232-233 | hits after the first, even unreadable ones, never affect the name search |
| `Ranking.LookupsShareOneMapping` | index.js:187-247 | lookups by Discord id, by BeatLeader id and by name give the same record for the same payload |
| `Ranking.ZatlerExample` | index.js:227-247 | searching "Zatler" with one German hit at rank 12 gives an EU record with rank 12 |
| `Platform.Holders` | index.js:139 | `role.members` lists exactly the cached members holding the role, each once |
| `Platform.HoldersSplit` | index.js:139 | the members of a role over a cache split in two are those of the first part followed by those of the second, so cache order is kept |
| `Platform.HoldersAgree` | index.js:139 | a role's members depend only on who holds it among the cached members |
| `Platform.GrantedHolds` | index.js:173 | `roles.add` makes the user a holder of the role and changes nobody else's roles |
| `Platform.GrantKeepsCacheOrder` | index.js:139-173 | a new holder appears among the role's members at its own cache position, between the holders cached before and after it |
| `Platform.GrantLeavesOtherRoles` | index.js:173 | granting one role leaves every other role's members unchanged |
| `Platform.Guild.constructor` | index.js:169-170 | a guild holds a duplicate-free member cache with a role set for each cached member |
| `Platform.Guild.AddRole` | index.js:173 | `roles.add` is accepted exactly for a role the bot may grant; then only that member's role set gains the role; otherwise nothing changes |
| `Commands.ChooseSelector` | index.js:94-102 | picks an offered identifier of highest priority (user, id, name) and none exactly when nothing is offered; empty strings are not offered |
| `Commands.ChoiceIsUnique` | index.js:94-102 | any offered identifier of minimal priority is the one chosen, so the chain is fully determined |
| `Commands.CheckPlayerReplies` | index.js:85-126 | `handleCheckPlayerCommand`; its contract is stated by the four `CheckPlayer*` lemmas below |
| `Commands.CheckPlayerMissingInput` | index.js:100-102 | with no identifier the only reply is "Please provide at least one player identifier."; the service and log channel play no part |
| `Commands.CheckPlayerPrefersDiscordUser` | index.js:94-96 | with a user given, the id and name are ignored; only the `/player/discord/<user>` response matters |
| `Commands.CheckPlayerPrefersIdOverName` | index.js:96-98 | without a user, a non-empty BeatLeader id wins over the name |
| `Commands.CheckPlayerReplyShape` | index.js:104-125 | the caller gets exactly one reply, first; the log gets one copy of the same embed, only when it resolves and the lookup succeeded |
| `Commands.ReportLine` | index.js:143-148 | one `playerChecks` entry; stated by `LineMarksFailure` |
| `Commands.ReportLines` | index.js:142-149 | one line per role member in enumeration order; line i reports member i's own lookup |
| `Commands.LineMarksFailure` | index.js:143-148 | a report line ends in ": Unknown : Error checking" exactly when that member's lookup failed |
| `Commands.ReportMarksFailuresInPlace` | index.js:142-149 | a failed lookup turns only its own line into an error line; the loop never stops early |
| `Commands.ErrorLinesCountFailures` | index.js:142-149 | the report has exactly as many error lines as failed lookups |
| `Commands.CheckAllReplies` | index.js:133-161 | `handleCheckAllCommand`'s replies; the loop `HandleCheckAll` is proved to produce them, and the report they carry is stated by the report lemmas |
| `Commands.Join` | index.js:153 | `playerChecks.join('\n')`; stated by `SplitJoin` |
| `Commands.SplitJoin` | index.js:153 | splitting the `'\n'`-joined lines on line breaks gives the lines back, when no line contains a break |
| `Commands.ReportHasOneLinePerMember` | index.js:139-153 | the `check-all` description reads back as exactly one line per member, in order, when ids and names contain no line breaks |
| `Bot.SetupReplies` | index.js:54-83 | a non-administrator gets only the private refusal; an administrator gets a private confirmation, copied once to the new log channel exactly when it is cached, and nothing more |
| `Bot.RolesAfterVerify` | index.js:168-173 | the reacting member gains the verified role only if it is configured, cached and grantable and the member is cached; nobody else's roles change |
| `Bot.VerifyReplies` | index.js:168-185 | no request means nothing is sent; the role request comes first; the log entry follows only when Discord accepted the grant and the log channel resolves, and then exactly once |
| `Bot.VerifyWithoutRoleIsSilent` | index.js:169-172 | with no verified role configured, verification changes no role and sends nothing |
| `Bot.VerifiedMemberKeepsCacheOrder` | index.js:139-173 | a newly verified member joins the verified role's members at its cache position; the other holders keep their order and other roles are untouched |
| `Bot.VerifyTwiceGrantsOnce` | index.js:168-185 | a second qualifying reaction leaves roles unchanged but is logged again |
| `Bot.NothingLoggedBeforeSetup` | index.js:15-16 | while unconfigured, check-player, check-all and verification send nothing to any channel |
| `Bot.TournamentBot.constructor` | index.js:5-21 | a bot starts with no log channel and no verified role; the EU role and verify channel come from the environment |
| `Bot.TournamentBot.HandleSetup` | index.js:54-83 | only an administrator changes the configuration, and sets both fields together; both-or-neither is preserved |
| `Bot.TournamentBot.HandleCheckAll` | index.js:128-166 | the loop builds exactly the `ReportLines` of the EU role's cached members in cache order; "EU role not found." when the role is not cached; the report is copied to a resolved log channel |
| `Bot.TournamentBot.VerifyPlayer` | index.js:168-185 | the guild's role sets become `RolesAfterVerify` and the calls made are `VerifyReplies`; the rest of the guild is unchanged |
| `Bot.TournamentBot.OnInteraction` | index.js:28-42 | non-chat-input interactions and unknown command names do nothing; `setup`, `check-player` and `check-all` run their handlers; only `setup` changes the configuration |
| `Bot.TournamentBot.OnReaction` | index.js:44-51 | only ✅ on a message in the verification channel runs verification, for the reacting user; any other reaction changes nothing and sends nothing |

## Left out

- The discord.js client, intents, login and the `ready` log line. These are foreign library calls.
- `deferReply` is left out. Replies after it are modelled as `EditReply`.
- Embed styling is left out (titles, colours, thumbnails, field layout). Embeds are modelled by the data they carry.
- Embed validation by discord.js is not modelled. An empty description (an EU role with no members) and an over-long one make the builder throw, and the outer catch then replies "Error checking players: …".
- `fetch` and the BeatLeader endpoints are given as an `Api`. URL building, `encodeURIComponent` and JSON decoding are not modelled. A response body that cannot be read, including a payload whose `country` is missing so that `toUpperCase` throws, is one `Malformed` error. The payload's `name`, `avatar`, `rank` and `countryRank` are assumed present: in JavaScript a missing one reads as `undefined` without throwing (check-all would print `undefined` in its line), and only a missing or non-string `country` throws.
- The message of a rejected `fetch` and of a decoding failure is taken as given.
- The empty-search error text is the V8 `TypeError` message for reading `name` of `undefined`.
- Throwing failures of the reply, `editReply` and log `send` calls are not modelled. Each of these calls is assumed to succeed. A failed log `send` at index.js:120 or 160 is caught and turned into the error reply, which the model does not produce. The sends at index.js:81 and 182 are outside any `try`. index.js installs no `unhandledRejection` handler, so under Node's default handling a failure there exits the process, and the in-memory configuration is lost until `setup` runs again. The model does not model a process exit; its bot keeps its configuration.
- `member.roles.add` (index.js:173) is rejected in the model only for a role the bot may not grant (the `manageable` set: a role ranked above the bot's own, or a missing Manage Roles permission). Rejections for other reasons, such as network errors, are not modelled. A rejection stops `verifyPlayer` before the log entry and is unhandled in the source; the model sends nothing after the request. index.js installs no `unhandledRejection` handler, so under Node's default handling the process exits there and the in-memory configuration is lost until `setup` runs again; the model does not model a process exit, and its bot keeps its configuration.
- A rejected `guild.members.fetch` in `verifyPlayer` (the reacting user is not a member) is modelled as "nothing happens". In the source it is an unhandled promise rejection. index.js installs no `unhandledRejection` handler, so under Node's default handling the process exits there and the in-memory configuration is lost until `setup` runs again; the model does not model a process exit, and its bot keeps its configuration.
- A reacting guild member is assumed to be in the member cache, since the reaction event carries and caches the member. `members.fetch` adding an uncached member to the cache is not modelled; such a user is treated like a non-member.
- Members outside the member cache are not in any role's member list, as in discord.js. How the cache fills is not modelled; it is a given sequence.
- Commands used outside a guild are not modelled. They are registered as guild commands.
- The guild channel cache (`setup`) and the client channel cache (other handlers) are one `channels` set.
- `Region.Upper` implements `toUpperCase` for ASCII letters only. Unicode special cases such as U+017F (`ſ`), U+0131 (`ı`) and ligatures like U+FB01 (`ﬁ`) upper-case to ASCII letters in JavaScript, so `isEUCountry` accepts strings like `"ſe"` that the model rejects. For the same reason `Region.EuCodesHaveTwoLetters` does not hold in JavaScript: the one-character `"ﬁ"` upper-cases to `"FI"`.
- `Bot.TournamentBot.OnInteraction` requires `setup` to carry both of its options. register-slash-commands.js registers them as required, so Discord always sends them; a missing option would throw in the source.
- Concurrency between events and async scheduling are not modelled. Each handler is one sequential step.
- `console.log`/`console.error` diagnostics, dotenv loading, and register-slash-commands.js are not modelled.
