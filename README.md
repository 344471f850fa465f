# dc_bot core, modelled in Dafny

This project models the logic of the Discord bot `dc_bot` that does not depend on I/O. It has five parts, each with its proofs:

- **The match store** (`match_store.dfy`, `codec.dfy`). A per-scope key-value store with four trees:
  - `matches`: match id → compressed JSON blob;
  - `by_puuid`: puuid → history of `(ts, match_id)` entries, newest insertion first, de-duplicated by match id and capped at 1000;
  - `riot_to_puuid`: lowercased `name#tag` → puuid;
  - `latest_by_player`: lowercased `name#tag` → `(ts, match_id)`, replaced only when the new timestamp is `>=` the stored one.

  `MatchStore` is a class whose four trees are `map` fields. `upsert_match` is a method with a per-player loop. Its result and new state are tied to folds over the participant list, and the folds' properties are proved as lemmas. The class invariant `Valid` is preserved: histories stay capped and de-duplicated, and every index entry names a stored match. Reads (`get_latest_for_player`, `get_puuid_for_riot`, `get_page_by_puuid`) are a function or a method against that state.
- **The tolerant match-record parser** (`match_data.dfy`). `from_match_json` turns a JSON tree into a fixed `MatchData` record, defaulting every missing field. It fails only when the metadata block or its `match_id` is missing. The model has:
  - a `ParseMatch` function, and a method `FromMatchJson` proved equal to it, whose loops build the players and kills and reassign red and blue;
  - the serde layout of the record (`ToJson`), with the round trip `ParseMatch(ToJson(m)) == Some(m)`, so that a saved record reads back unchanged;
  - the file-name rule of `save_match_to_disk`.
- **The YouTube subscription table** (`youtube_schema.dfy`). A class holding the nested `guild → key → subscription` map, with in-place upsert and remove, and `normalize_youtube_id`.
- **The custom-match fetch** (`custom_match.dfy`, with its control flow in `custom_fetch.dfy`):
  - rank-label normalisation and the emoji-table loader;
  - region/platform validation;
  - the candidate-selection loop with its quota;
  - the three-path rank fallback, and the index-preserving rank write-back;
  - the cache-completeness test;
  - the scoreboard integer helpers.

  The control flow of `fetch_custom_match_data` is a function of all its inputs. That function returns the result and the trace of requests and saves the fetch makes, and it is proved about: at most `store_matches` match requests are made, and every one of them is for a selected id. A record saved during the run is read back by a later look-up of the same file, so an id selected twice is requested once when its first fetch saved a complete record for it.
- **The YouTube commands** (`youtube_feed.dfy`):
  - `parse_channel_id`, proved to read back every printed u64, plain or as a `<#id>` mention;
  - the notification-flag defaulting of `sub`;
  - the table effects of `sub` and `unsub`;
  - the `extract_channel_id_from_html` scanning loop;
  - `resolve_feed_url`, with the page fetches passed in as a function.

Support modules:

- `json.dfy`: the JSON value tree and the `get`/`as_*` accessor chains, including `as i32` wrap-around.
- `text.dfy`: Rust string helpers, namely trimming by the Unicode White_Space set, ASCII lowercasing, `split_whitespace`, `find` and `lines`.
- `wrappers.dfy`: `Option` and `Result`.

Everything outside the program is a parameter:

- every HTTP reply (`listReply`, `matchReply`, `fetchRank`, `fetch`);
- the local cache file read at the start of a fetch (`cache`);
- the RFC 3339 parser (`parseRfc3339`);
- the wall clock (`now`).

## Model

| member | source | states |
|---|---|---|
| MatchStore.DbPath | src/data/matches/store.rs:23-32 | the database directory is `matches/guild/platform/region/mode[/mode_type]/db` (6 or 7 components) |
| MatchStore.DbPathInjective | src/data/matches/store.rs:23-32 | two different scopes never share a database directory |
| MatchStore.MatchStore.Open | src/data/matches/store.rs:21-42 | a freshly opened store has four empty trees and satisfies the store invariant |
| MatchStore.MatchStore.GetLatestForPlayer | src/data/matches/store.rs:44-55 | looks up the trimmed, lowercased riot id; a hit decodes the blob its latest entry names; no entry gives `None`; in a consistent store the read never fails and finds something exactly when the key is indexed |
| MatchStore.MatchStore.GetPuuidForRiot | src/data/matches/store.rs:57-64 | returns the puuid stored under the trimmed, lowercased riot id, and `None` exactly when there is none |
| MatchStore.MatchStore.GetPageByPuuid | src/data/matches/store.rs:66-81 | returns the decoded records of the history slice `[start, min(start+size, len))` in order, skipping ids without a blob; at most `size` results; empty when `start >= len`; in a consistent store, one record per slice entry |
| MatchStore.PageSlice | src/data/matches/store.rs:70-72 | the page is empty when `start >= len`, otherwise `l[start..min(start+size, len)]`, so never more than `size` entries |
| MatchStore.LoadPage | src/data/matches/store.rs:72-78 | the page read returns at most one record per id and fails only on a corrupt blob |
| MatchStore.LoadPageComplete | src/data/matches/store.rs:72-78 | when every id is stored and every blob was written by the codec, the read returns one record per id, each the decoding of its blob |
| MatchStore.LoadPageFailurePersists | src/data/matches/store.rs:72-78 | once a prefix of the page hits a corrupt blob, the whole page read fails (the `?` in the loop) |
| MatchStore.ConsistentPage | src/data/matches/store.rs:66-81 | in a store whose histories only name stored frames, every page reads in full |
| MatchStore.MatchStore.UpsertMatch | src/data/matches/store.rs:83-129 | with no string `match_id`, it fails and writes nothing; otherwise `matches[id]` holds the encoding of the wrapped root, and the three indexes are the player folds of the old indexes; the store invariant is preserved |
| MatchStore.MatchStore.IndexPlayers | src/data/matches/store.rs:100-125 | the per-player loop leaves `matches` alone and sets each index to its fold over the players in order |
| MatchStore.MatchStore.IndexPlayer | src/data/matches/store.rs:101-123 | a participant missing puuid, name or tag (as strings) changes nothing; otherwise the riot key is overwritten, `latest` follows the `>=` rule and the history gets its dedupe-and-prepend step |
| MatchStore.Listed | src/data/matches/store.rs:119 | the scan answers true exactly when the history already holds an entry for the match id |
| MatchStore.Prepended | src/data/matches/store.rs:120-121 | the new entry comes first, the old entries follow in order, and the length is capped at 1000 |
| MatchStore.RiotFoldLastWriter | src/data/matches/store.rs:100-104 | after the loop, `riot_to_puuid[k]` is the puuid of the last indexable participant with riot key `k` |
| MatchStore.RiotFoldUntouched | src/data/matches/store.rs:100-104 | a riot key no participant carries keeps its old entry, or stays absent |
| MatchStore.LatestFoldSpec | src/data/matches/store.rs:107-113 | a key some participant carries ends as the new stamp when the stored timestamp was absent or `<=` the new one, and otherwise keeps its old stamp; other keys are untouched |
| MatchStore.LatestNeverOlder | src/data/matches/store.rs:107-113 | a stored `latest` timestamp never decreases |
| MatchStore.HistoryFoldSpec | src/data/matches/store.rs:116-123 | a participant's history is unchanged when the match is already listed, and otherwise gets the new stamp prepended (capped); puuids of no participant are untouched |
| MatchStore.UpdatedHistoryIdempotent | src/data/matches/store.rs:119-123 | after one visit the match is listed, and a second visit with the same match changes nothing |
| MatchStore.HistoryStepValid | src/data/matches/store.rs:116-123 | one history update keeps every history at most 1000 long, free of duplicate match ids and naming only stored matches |
| MatchStore.HistoryFoldValid | src/data/matches/store.rs:100-125 | the whole loop keeps those three history properties |
| MatchStore.LatestFoldRefs | src/data/matches/store.rs:107-113 | after the loop every `latest` entry still names a stored match |
| MatchStore.FoldsWithoutIndexable | src/data/matches/store.rs:100-125 | when no participant is indexable, all three indexes are left as they were, so only `matches` changes |
| MatchStore.NormalizeToWrapped | src/data/matches/store.rs:132-142 | a value with `data` is kept as is; any value is either kept or wrapped as `{data: raw}`; the data seen through it is the same |
| MatchStore.NormalizeIdempotent | src/data/matches/store.rs:132-142 | wrapping a wrapped value changes nothing |
| MatchStore.FirstSome | src/data/matches/store.rs:144-151 | the result is the first present source, or the default when none is |
| MatchStore.ExtractTsOrder | src/data/matches/store.rs:144-151 | the timestamp is the parsed `started_at` if it parses, else `game_start`, else `game_length_in_ms`, else the clock |
| MatchStore.ExtractAll | src/data/matches/store.rs:166-172 | one reference per element, in order, each built by `extract_p` |
| MatchStore.CollectPlayers | src/data/matches/store.rs:155-164 | the first shape that applies: flat `players` array, else `players.all`, else `red` then `blue` of an object, else nothing |
| Codec.Encode | src/data/matches/store.rs:96-98 | what is written to `matches` decodes back to the value written (the read path at 48-50 and 73-75) |
| Json.WrapI32 | src/data/matches/match_data.rs:147 | `as i32` keeps a value in range and otherwise wraps it modulo 2^32 |
| MatchData.ParseMetadata | src/data/matches/match_data.rs:153-158 | present exactly when `metadata` is an object with a string `match_id`; the id is that string exactly; the map name defaults to "" |
| MatchData.GameLength | src/data/matches/match_data.rs:160-163 | the metadata's `game_length_in_ms` is preferred, else the top-level one, else 0 |
| MatchData.StartedAt | src/data/matches/match_data.rs:164-168 | the metadata's string `started_at` is preferred, else the top-level string, else "" |
| MatchData.QueueOf | src/data/matches/match_data.rs:169-177 | the metadata's `queue` is preferred, else the top-level one, else null; each field defaults to "" |
| MatchData.ParsePlayer | src/data/matches/match_data.rs:181-210 | `rank` is `Some(s)` exactly when the element's `rank` is a string `s`; the strings default to "" |
| MatchData.LastOnSide | src/data/matches/match_data.rs:216-232 | finds the last team entry naming the side, or reports that none does |
| MatchData.ParseTeams | src/data/matches/match_data.rs:214-249 | the array form wins over the object form; anything else gives two defaults |
| MatchData.LaterEntryWins | src/data/matches/match_data.rs:217-231 | in the array form an entry for a side overwrites it, and an entry for neither side is ignored |
| MatchData.UnnamedSideDefaults | src/data/matches/match_data.rs:214-232 | a side that no entry names keeps `won = false`, 0, 0 |
| MatchData.ParseMatch | src/data/matches/match_data.rs:151-281 | present exactly when the metadata parses; then it carries that metadata, one player per element of the flat `players` array and one kill per element of `kills` |
| MatchData.FromMatchJson | src/data/matches/match_data.rs:151-281 | the imperative parser with its push loops and team reassignments computes exactly `ParseMatch` |
| MatchData.ReadPlayers | src/data/matches/match_data.rs:179-212 | one player record per element, in order |
| MatchData.ReadTeamArray | src/data/matches/match_data.rs:216-232 | the loop's final red and blue are the last entries for each side, or defaults |
| MatchData.ReadKills | src/data/matches/match_data.rs:251-269 | one kill record per element, in order, with missing strings as "" |
| MatchData.ParseMatchFails | src/data/matches/match_data.rs:152-155 | parsing fails exactly when `data.metadata` is not an object or its `match_id` is not a string |
| MatchData.ParseMatchOrder | src/data/matches/match_data.rs:179-212 | the i-th player and the i-th kill are parsed from the i-th array element |
| MatchData.StatsRoundTrip | src/data/matches/match_data.rs:187-200 | the serialized stats block reads back as the same stats |
| MatchData.EconomyRoundTrip | src/data/matches/match_data.rs:201-208 | the serialized economy block reads back as the same `spent.overall` |
| MatchData.PlayerRoundTrip | src/data/matches/match_data.rs:180-210 | a serialized player reads back as the same player |
| MatchData.TeamRoundTrip | src/data/matches/match_data.rs:233-248 | a serialized team result reads back through the object form |
| MatchData.KillRoundTrip | src/data/matches/match_data.rs:251-268 | a serialized kill reads back as the same kill |
| MatchData.MetadataRoundTrip | src/data/matches/match_data.rs:153-158 | the serialized metadata reads back |
| MatchData.TimingRoundTrip | src/data/matches/match_data.rs:160-168 | the serialized game length and start time read back |
| MatchData.QueueRoundTrip | src/data/matches/match_data.rs:169-177 | the serialized queue reads back |
| MatchData.TeamsRoundTrip | src/data/matches/match_data.rs:214-249 | the serialized teams read back |
| MatchData.ListsRoundTrip | src/data/matches/match_data.rs:179-269 | the serialized players and kills read back in order |
| MatchData.RoundTrip | src/data/matches/match_data.rs:151-290 | a record written in its serde layout reads back as the same record |
| MatchData.SavePath | src/data/matches/match_data.rs:308-312 | the file is one component, `<match_id>.json`, under the base directory |
| MatchData.SavePathInjective | src/data/matches/match_data.rs:309 | two records share a file only when they share a match id |
| YoutubeSchema.Upserted | src/data/youtube_schema.rs:30-33 | the guild's map is created if absent and the key holds the new subscription; every other guild and key is unchanged |
| YoutubeSchema.Removed | src/data/youtube_schema.rs:35-40 | the key leaves the guild's map, which itself stays; a missing guild changes nothing; every other guild and key is unchanged |
| YoutubeSchema.RemoveAfterUpsert | src/data/youtube_schema.rs:30-40 | right after an upsert the key is present, so the removal reports true, and it leaves the guild as it was without that key |
| YoutubeSchema.UpsertIdempotent | src/data/youtube_schema.rs:30-33 | upserting the same subscription twice is the same as once |
| YoutubeSchema.YoutubeSchema.constructor | src/data/youtube_schema.rs:20-27 | the default schema has no guilds and no notification marks |
| YoutubeSchema.YoutubeSchema.UpsertSubscription | src/data/youtube_schema.rs:30-33 | the table becomes `Upserted` of the old table; `last_notified` is unchanged |
| YoutubeSchema.YoutubeSchema.RemoveSubscription | src/data/youtube_schema.rs:35-40 | returns true exactly when the key was in the guild's map; the table becomes `Removed` of the old table; `last_notified` is unchanged |
| YoutubeSchema.YoutubeSchema.ListGuild | src/data/youtube_schema.rs:42-44 | the guild's map exactly when the guild is present |
| YoutubeSchema.NormalizeYoutubeId | src/data/youtube_schema.rs:80-82 | the key is no longer than the input and has no whitespace at either edge |
| YoutubeSchema.NormalizeIdempotent | src/data/youtube_schema.rs:80-82 | normalising a key again changes nothing |
| CustomMatch.BaseNorm | src/commands/valorant/custom/custom_match.rs:15-18 | "unrated" and "unranked" both give "unranked"; any other word is kept |
| CustomMatch.NormalizeRankKey | src/commands/valorant/custom/custom_match.rs:9-24 | a blank label gives "unranked"; otherwise the key is built from its first two lowercased words |
| CustomMatch.RankKeyShape | src/commands/valorant/custom/custom_match.rs:9-24 | every key is non-empty and has no whitespace |
| CustomMatch.RankKeyOneWord | src/commands/valorant/custom/custom_match.rs:10-18 | a one-word label gives its lowercase form, with "unrated" read as "unranked" |
| CustomMatch.RankKeyTwoWords | src/commands/valorant/custom/custom_match.rs:19-22 | a second word "1" is dropped; any other second word is appended without a space |
| CustomMatch.RankKeyIgnoresRest | src/commands/valorant/custom/custom_match.rs:12-14 | words after the second do not change the key |
| CustomMatch.EmojiEntry | src/commands/valorant/custom/custom_match.rs:31-38 | a line adds an entry only when it is not blank or a `#` comment; then key and emoji are both non-empty |
| CustomMatch.EmojiEntryOfWords | src/commands/valorant/custom/custom_match.rs:33-37 | a `key emoji` line adds the lowercased key with that emoji |
| CustomMatch.Entries | src/commands/valorant/custom/custom_match.rs:30 | one entry per line, in order |
| CustomMatch.LastDefining | src/commands/valorant/custom/custom_match.rs:30-39 | finds the last entry defining a key, or reports that none does |
| CustomMatch.TableOfLastWriter | src/commands/valorant/custom/custom_match.rs:30-39 | a key is in the table exactly when some line defines it, and it maps to the emoji of the last such line |
| CustomMatch.LoadEmojiMap | src/commands/valorant/custom/custom_match.rs:26-42 | the loader loop builds exactly the table of the asset's lines |
| CustomMatch.RankEmoji | src/commands/valorant/custom/custom_match.rs:44-48 | the table entry of the normalised rank key, `None` exactly when it is absent |
| CustomMatch.AgentEmoji | src/commands/valorant/custom/custom_match.rs:68-72 | the table entry of the trimmed, lowercased agent name, `None` exactly when it is absent |
| CustomMatch.ValidateScope | src/commands/valorant/custom/custom_match.rs:87-94 | succeeds exactly for a listed region and platform; the region is checked first |
| CustomMatch.PlayerCount | src/commands/valorant/custom/custom_match.rs:141-151 | the length of `players`, else of `players.all`, else 0 |
| CustomMatch.ItemMatchId | src/commands/valorant/custom/custom_match.rs:153-158 | `metadata.match_id`, else `match_id`, when a string |
| CustomMatch.AllowedIds | src/commands/valorant/custom/custom_match.rs:140-178 | the ids of selectable items, at most one per item |
| CustomMatch.AllowedIdsSound | src/commands/valorant/custom/custom_match.rs:160-177 | every selected id belongs to an item that is allowed for the mode (deathmatch, or ten players and not deathmatch) and carries that id |
| CustomMatch.AllowedIdsPrefix | src/commands/valorant/custom/custom_match.rs:140-178 | reading more of the list only extends the selection, keeping list order |
| CustomMatch.AllowedIdsStep | src/commands/valorant/custom/custom_match.rs:172-177 | one more item adds its id exactly when it is selectable |
| CustomMatch.Take | src/commands/valorant/custom/custom_match.rs:175 | a prefix of the list, of length `n` when the list is that long |
| CustomMatch.Quota | src/commands/valorant/custom/custom_match.rs:175 | the loop keeps `store_matches` ids, and one when it is 0 (the test only runs after a push) |
| CustomMatch.QuotaMetAt | src/commands/valorant/custom/custom_match.rs:175 | after a push, the eight-bit exit test fires exactly when the quota is reached |
| CustomMatch.QuotaReached | src/commands/valorant/custom/custom_match.rs:172-177 | breaking at the quota leaves exactly the quota-length prefix of the full selection |
| CustomMatch.SelectMatchIds | src/commands/valorant/custom/custom_match.rs:135-178 | a `data` that is not an array is an error; otherwise the selection loop returns the first `Quota` selectable ids in list order |
| CustomMatch.RankOf | src/commands/valorant/custom/custom_match.rs:280-311 | `data.current.tier.name`, else `data.tier.name`, else `data.peak.tier.name`, else "Unrated", also when the lookup failed |
| CustomMatch.IndexedPuuids | src/commands/valorant/custom/custom_match.rs:235-238 | every pair names an element of the array and that element's string puuid |
| CustomMatch.PlayersArray | src/commands/valorant/custom/custom_match.rs:229-251 | the puuids are read from `data.players` when it is an array, else from `data.players.all` |
| CustomMatch.PlayersArrayAt | src/commands/valorant/custom/custom_match.rs:319-336 | the write-back path addresses the same array the puuids were read from |
| CustomMatch.SetRank | src/commands/valorant/custom/custom_match.rs:321-323 | an object element gets `rank` set and keeps every other field; any other element is left alone |
| CustomMatch.SetRankTwice | src/commands/valorant/custom/custom_match.rs:320-323 | a later rank for the same element replaces an earlier one |
| CustomMatch.ApplyRanks | src/commands/valorant/custom/custom_match.rs:320-324 | the write-back keeps the array length |
| CustomMatch.ApplyRanksAt | src/commands/valorant/custom/custom_match.rs:320-324 | each element receives exactly the last rank written at its own index, and an index past the end is skipped |
| CustomMatch.RankResults | src/commands/valorant/custom/custom_match.rs:253-318 | one result per indexed puuid, in order, pairing its index with the rank of the lookup |
| CustomMatch.RanksOfIndexed | src/commands/valorant/custom/custom_match.rs:229-318 | the last result for index `j` is the rank of element `j`'s own puuid, and there is none when it has no string puuid |
| CustomMatch.WriteBackIndexPreserving | src/commands/valorant/custom/custom_match.rs:229-336 | after the fetch each element carries the rank of its own puuid, and elements without a puuid are unchanged |
| CustomMatch.AtSetAt | src/commands/valorant/custom/custom_match.rs:319-336 | writing at an existing path makes it read back the value written |
| CustomMatch.WriteBack | src/commands/valorant/custom/custom_match.rs:319-336 | the write-back loop replaces the players array with its ranked copy, at the path it was read from |
| CustomMatch.IncompleteOfSaved | src/commands/valorant/custom/custom_match.rs:188-189 | a record this program saved is refetched exactly when its start time is empty or its length is 0 |
| CustomMatch.TagCached | src/commands/valorant/custom/custom_match.rs:192-199 | an object gets `"__source": "cache"` and keeps every other field; any other value is returned as is |
| CustomMatch.LocalPath | src/commands/valorant/custom/custom_match.rs:184 | the cache file is `<match_id>.json` under `src/data/matches/guild/platform/region/custom/mode`, with `\` read as the path separator |
| CustomMatch.SavedWhereLookedUp | src/commands/valorant/custom/custom_match.rs:184-342 | with `\` as the path separator (as on Windows), the file a fetched match is saved to is the file a later look-up consults for its id |
| CustomMatch.ClampArg | src/commands/valorant/custom/custom_match.rs:376-377 | a clamped argument is in 1..10, equals the argument when that is in range, and equals the default when the argument is absent |
| CustomMatch.ModeTypeDir | src/commands/valorant/custom/custom_match.rs:381-382 | "deathmatch" for any ASCII casing of it, "standard" for everything else |
| CustomMatch.RoundsPlayed | src/commands/valorant/custom/custom_match.rs:397-398 | `rounds_won + rounds_lost`, exact when it fits in i32 |
| CustomMatch.TotalRounds | src/commands/valorant/custom/custom_match.rs:399 | at least 1 and at least either side's rounds, and equal to one of those |
| CustomMatch.Winner | src/commands/valorant/custom/custom_match.rs:400 | red wins exactly when red has won; blue exactly when blue has won and red has not |
| CustomMatch.ColourMatchesWinner | src/commands/valorant/custom/custom_match.rs:400-401 | the embed colour always agrees with the winner in the title |
| CustomMatch.Score | src/commands/valorant/custom/custom_match.rs:438 | blue's rounds, then red's, each clamped at 0 |
| CustomMatch.MatchLength | src/commands/valorant/custom/custom_match.rs:485-489 | whole minutes and seconds (< 60) of the length, with a negative length read as 0 |
| CustomFetch.LookupRanks | src/commands/valorant/custom/custom_match.rs:253-318 | one rank request and one result per indexed puuid, in order |
| CustomFetch.RankRequests | src/commands/valorant/custom/custom_match.rs:256-279 | one rank request per indexed puuid, in order |
| CustomFetch.Selected | src/commands/valorant/custom/custom_match.rs:135-178 | the selection never exceeds the quota |
| CustomFetch.FetchOutcome | src/commands/valorant/custom/custom_match.rs:74-347 | an invalid region or platform, or an invalid authorization header, fails before any request; otherwise the first request is the match-list request |
| CustomFetch.FetchCustomMatchData | src/commands/valorant/custom/custom_match.rs:74-347 | the imperative fetch returns exactly the result and trace of `FetchOutcome` |
| CustomFetch.RunSelected | src/commands/valorant/custom/custom_match.rs:182-346 | the loop over selected ids returns the first record met, stops at the first failed match request, and reads the files it saved earlier in the run in place of the cache |
| CustomFetch.Visit | src/commands/valorant/custom/custom_match.rs:184-227 | a complete stored record (saved earlier in the run, else cached) is skipped or used (tagged); otherwise the match is requested |
| CustomFetch.FetchOne | src/commands/valorant/custom/custom_match.rs:229-342 | the rank lookups, write-back and save of one reply compute exactly `Processed`, and the files afterwards are `SaveTo` |
| CustomFetch.SaveRecord | src/commands/valorant/custom/custom_match.rs:339-341 | a body that parses as a record is saved, in its serialized layout, at its `SavePath`; any other body saves nothing |
| CustomFetch.MatchRequestsConcat | src/commands/valorant/custom/custom_match.rs:183-344 | match requests of two traces add up |
| CustomFetch.ProcessedNoMatchRequest | src/commands/valorant/custom/custom_match.rs:229-342 | handling a reply makes rank requests and a save, never another match request |
| CustomFetch.FetchStepsWellFormed | src/commands/valorant/custom/custom_match.rs:183-344 | handling a fetched match adds no match request beyond the one for its own id |
| CustomFetch.RunFromRequests | src/commands/valorant/custom/custom_match.rs:183-344 | the loop makes at most one match request per selected id |
| CustomFetch.FetchRequestsBounded | src/commands/valorant/custom/custom_match.rs:172-227 | a fetch never makes more match requests than the quota (`store_matches`, at least 1) |
| CustomFetch.RunFromRequestsSelected | src/commands/valorant/custom/custom_match.rs:183-227 | every match request of the loop is for one of its ids |
| CustomFetch.FetchOutcomeCases | src/commands/valorant/custom/custom_match.rs:87-183 | a fetch that stops before the loop makes no match request; one that reaches it is the list request followed by the loop's trace |
| CustomFetch.FetchRequestsSelected | src/commands/valorant/custom/custom_match.rs:139-227 | every match request a fetch makes is for an id the list reply selected |
| CustomFetch.AllCachedSkipped | src/commands/valorant/custom/custom_match.rs:185-191 | with `skip_stored`, ids whose records are all stored and complete cost no request and return nothing |
| CustomFetch.SavedRecordFound | src/commands/valorant/custom/custom_match.rs:184-201 | once a complete record for an id is saved, the next look-up of that id skips it or returns it tagged, with no request |
| CustomFetch.FetchThenStored | src/commands/valorant/custom/custom_match.rs:183-344 | a fetch followed by a look-up that finds a stored record makes one match request and keeps the fetched body as the result |
| CustomFetch.RepeatedIdOneRequest | src/commands/valorant/custom/custom_match.rs:172-344 | an id selected twice costs one match request when its first fetch saved a complete record for it |
| YoutubeFeed.ParseU64 | src/commands/social_notifications/youtube.rs:9 | `parse::<u64>` never accepts the empty string or a lone '+' |
| YoutubeFeed.DecimalValue | src/commands/social_notifications/youtube.rs:9-15 | a printed number is a non-empty digit string whose value is that number |
| YoutubeFeed.ParseDecimal | src/commands/social_notifications/youtube.rs:9-15 | `parse::<u64>` reads a printed number back exactly when it is below 2^64, with or without a '+' |
| YoutubeFeed.ParseChannelId | src/commands/social_notifications/youtube.rs:4-18 | blank input gives nothing; a `<#d>` mention with a u64 `d` gives `d`, and one whose `d` is not a u64 gives nothing; otherwise only an all-digit string is read, overflow giving nothing |
| YoutubeFeed.MentionRoundTrip | src/commands/social_notifications/youtube.rs:5-13 | the mention `<#id>` of every u64 id reads back as that id |
| YoutubeFeed.BareDigits | src/commands/social_notifications/youtube.rs:14-15 | a non-empty digit string is read by the bare-number branch |
| YoutubeFeed.BareRoundTrip | src/commands/social_notifications/youtube.rs:14-17 | a printed number reads back when it fits in u64, and gives nothing otherwise |
| YoutubeFeed.ResolveFlags | src/commands/social_notifications/youtube.rs:50-71 | with no flag given every kind is on; with any flag given exactly the flags given as true are on |
| YoutubeFeed.NothingEnabled | src/commands/social_notifications/youtube.rs:50-71 | a subscription notifies about nothing exactly when some flag was given and none was true |
| YoutubeFeed.NewSubscription | src/commands/social_notifications/youtube.rs:73-86 | the record keeps the raw text, uses its normalised form as key and notifies the parsed channel |
| YoutubeFeed.Sub | src/commands/social_notifications/youtube.rs:21-92 | outside a guild or with an unreadable channel the table is unchanged; otherwise the new subscription is upserted and is then present under the normalised key |
| YoutubeFeed.Unsub | src/commands/social_notifications/youtube.rs:142-170 | outside a guild nothing changes; otherwise the normalised key is removed and the answer says whether it was there |
| YoutubeFeed.UnsubMatchesSub | src/commands/social_notifications/youtube.rs:73-92 | two spellings that normalise alike address the same subscription |
| YoutubeFeed.IdRunLen | src/commands/social_notifications/youtube.rs:189-192 | the length of the longest run of id characters at the start |
| YoutubeFeed.CappedIdRun | src/commands/social_notifications/youtube.rs:252-260 | what the character loop collects is a run of id characters at the position, at most 65 long |
| YoutubeFeed.CandidateAt | src/commands/social_notifications/youtube.rs:248-263 | an id found after an occurrence starts with "UC", is 6 to 65 characters long and uses only `[A-Za-z0-9_-]` |
| YoutubeFeed.ExtractFrom | src/commands/social_notifications/youtube.rs:245-266 | the scan from a position yields only such ids, and nothing when "channelId" does not occur after it |
| YoutubeFeed.ExtractChannelId | src/commands/social_notifications/youtube.rs:240-268 | a found id starts with "UC", is 6 to 65 characters long and uses only id characters; nothing is found when "channelId" does not occur |
| YoutubeFeed.CollectId | src/commands/social_notifications/youtube.rs:252-260 | the `for ch` loop collects exactly the capped run of id characters |
| YoutubeFeed.ExtractFindsId | src/commands/social_notifications/youtube.rs:240-268 | an id of at most 65 characters written as `"channelId":"<id>"`, after text holding no "channelId", is the id found |
| YoutubeFeed.ExtractChannelIdFromHtml | src/commands/social_notifications/youtube.rs:240-268 | the `while let` loop computes exactly `ExtractChannelId` |
| YoutubeFeed.ChannelPathId | src/commands/social_notifications/youtube.rs:187-196 | an id taken after "/channel/" starts with "UC", is at least 6 long and uses only id characters |
| YoutubeFeed.Candidates | src/commands/social_notifications/youtube.rs:209-220 | an '@' input gives the single page URL; an input containing "youtube.com/" gives itself; everything else gives three page URLs |
| YoutubeFeed.PlainNameCandidates | src/commands/social_notifications/youtube.rs:214-220 | a plain name is tried as `@name`, then `c/name`, then `user/name` |
| YoutubeFeed.CandidateUrls | src/commands/social_notifications/youtube.rs:209-220 | the pushes build exactly `Candidates` |
| YoutubeFeed.Plan | src/commands/social_notifications/youtube.rs:184-220 | a direct plan names a "UC" id made of id characters |
| YoutubeFeed.FirstFeed | src/commands/social_notifications/youtube.rs:222-237 | a found feed is the feed URL of a valid channel id |
| YoutubeFeed.ResolvedFeed | src/commands/social_notifications/youtube.rs:183-238 | every resolved feed URL is the feed prefix followed by a "UC" id of id characters |
| YoutubeFeed.FirstFeedFinds | src/commands/social_notifications/youtube.rs:222-237 | when page `k` yields an id and no page before it does, the feed is that id's |
| YoutubeFeed.FirstFeedNone | src/commands/social_notifications/youtube.rs:222-237 | no feed is found exactly when no page yields an id |
| YoutubeFeed.SearchPages | src/commands/social_notifications/youtube.rs:222-237 | the page loop returns the feed of the first page that holds a channel id |
| YoutubeFeed.ResolveFeedUrl | src/commands/social_notifications/youtube.rs:183-238 | the imperative resolution computes exactly `ResolvedFeed` |
| YoutubeFeed.BareIdFeed | src/commands/social_notifications/youtube.rs:199-202 | a bare valid channel id is used as it stands, without fetching any page |
| YoutubeFeed.ChannelUrlId | src/commands/social_notifications/youtube.rs:187-196 | the id of a `.../channel/UC...` URL is the id after the path |
| YoutubeFeed.ChannelUrlFeed | src/commands/social_notifications/youtube.rs:187-202 | a channel URL and the bare id it names resolve to the same feed, without fetching any page |

## Left out

- HTTP: the request building, headers, URL encoding and status handling are not modelled. Every reply is a parameter, and a non-success status or an unparseable body is `None`. This covers:
  - the list, match and rank requests of `custom_match.rs`;
  - the page requests of `resolve_feed_url`;
  - `fetch_latest_uploads` (youtube.rs:270-307), which is network and XML parsing only.
- Concurrency is left out: the five-permit semaphore, the `tokio::spawn` fan-out, the rate-limit mutex and its two-second sleeps, `FILE_LOCKS`, and the `RwLock` around the subscription table. The model performs the rank lookups one after another, in order. The "at most five in flight" bound belongs to a foreign semaphore.
- CustomFetch.FetchOutcome: a spawned rank task whose `h.await` fails drops its result in the source (custom_match.rs:317). The model gives every indexed puuid a result.
- CustomFetch.FetchOutcome: every save is taken to succeed. The source ignores a failed save (custom_match.rs:341), after which the file keeps its old content; the model always reads back the record it wrote.
- CustomMatch.LocalPath: paths are lists of components, and the `\` in the source's path strings is read as a separator, which it is on Windows. On Linux and macOS `\` is an ordinary character. There the look-up (custom_match.rs:184) names one file called `src\data\…\<mode>\<match_id>.json`, while the save (custom_match.rs:340, match_data.rs:308-309) writes `<match_id>.json` inside a directory called `src\data\…\<mode>`. A saved record is then never found again.
- CustomMatch.SavedWhereLookedUp: holds under Windows path semantics only, as the line above explains.
- sled, zstd and bincode: the trees are maps and the blob codec is abstract. A blob is either a frame the codec wrote or damaged bytes that fail to decode. Byte formats, `flush` and I/O errors of the storage engine are not modelled.
- chrono: RFC 3339 parsing and `Utc::now()` are the parameters `parseRfc3339` and `now`. The date formatting of the footer is left out.
- Floating point: the ACS sort, HS%, K/D, `Spent.average` and the duration formatting are not modelled.
- File persistence: `save_to_disk` with its tmp-file rename, and `load_from_disk`, are not modelled. The record files as they were when a fetch starts are the parameter `cache`. A file that is missing, unreadable or not JSON is `None`. The records the fetch saves itself are kept as a map from path to record, and later look-ups in the same run read that map first.
- Presentation: the embed and scoreboard text are not modelled, except their integer parts (rounds, winner, colour, score, match length). custom_match.rs:403-464 is interleaved text that calls helpers which are not part of this model (`resolve_puuid`, `fetch_and_cache_matches_by_puuid`).
- Other modules, with no logic of this core: the event handler with its console table and YouTube poller, `main.rs`, the command registration, the twitch stubs, `stats.rs`, `prune_match.rs` and `player_data.rs`.
- Unicode: `to_lowercase` in `normalize_rank_key`, the riot keys and the emoji loader is modelled as ASCII lowercasing. Non-ASCII letters keep their case in the model. Strings are sequences of characters, and byte offsets are taken as character offsets, which agree on ASCII text.
- MatchStore.MatchStore.GetPageByPuuid: `start + size` is unbounded, where the source's `usize` sum could overflow.
- CustomMatch.Quota: `match_ids.len() as u8` wraps at 256. This is harmless because the loop stops at the quota, which is at most 255, and `QuotaMetAt` proves the test exact for every length it meets.
- YoutubeFeed.Sub and YoutubeFeed.Unsub: only the table effect is modelled, not the replies, the snapshot save or the feed preview.
- MatchStore.MatchStore.UpsertMatch: a failure of `serde_json::to_vec` and any storage error are left out. The model's upsert of a payload with a match id always succeeds.

Where the code and the system's description differ, the code is followed:

- `from_match_json` reads only a flat `players` array. The `all` wrapper and the red/blue split are read only by `collect_players` of the store.
- `from_match_json` fails only on a missing metadata object or `match_id`, not on a missing queue.
- The rank write-back reaches the flat array and `players.all`, not a red/blue split.
- A `by_puuid` history is ordered by insertion: a new match is prepended whatever its timestamp.
- A page read returns the stored JSON values, skipping ids without a blob.
