/**
 * The request-free logic of the custom-match fetch: rank-label keys and the
 * emoji tables they index, validation of the region and platform, selection
 * of match ids from a Henrik match list, the rank fallback of an MMR reply,
 * the write-back of ranks into the players array, the completeness test of a
 * cached record and the integer scoreboard helpers.
 */
module CustomMatch {

  import opened Wrappers
  import opened Json
  import opened Text
  import opened MatchData

  newtype u8 = x: int | 0 <= x < 0x100

  // --------------------------------------------------------------- rank keys

  /** "unrated" and "unranked" share one key. */
  function BaseNorm(base: string): (r: string)
    ensures r == "unranked" <==> base == "unrated" || base == "unranked"
    ensures r != "unranked" ==> r == base
  {
    if base == "unrated" || base == "unranked" then "unranked" else base
  }

  /** The key made of the words of a trimmed, lowercased label. */
  function RankKeyOfWords(parts: seq<string>): string {
    var baseNorm := BaseNorm(if |parts| > 0 then parts[0] else "");
    if |parts| > 1 then (if parts[1] == "1" then baseNorm else baseNorm + parts[1])
    else baseNorm
  }

  /** The words `normalize_rank_key` looks at. */
  function RankWords(rank: string): seq<string> {
    Tokens(AsciiLower(Trim(rank)))
  }

  /**
   * `normalize_rank_key`: trim and lowercase, then the first word (with
   * "unrated" read as "unranked") joined to the second word unless that is
   * "1"; further words are ignored.
   */
  function NormalizeRankKey(rank: string): (r: string)
    ensures Trim(rank) == [] ==> r == "unranked"
    ensures Trim(rank) != [] ==> r == RankKeyOfWords(RankWords(rank))
  {
    if AsciiLower(Trim(rank)) == [] then "unranked" else RankKeyOfWords(RankWords(rank))
  }

  lemma NoWhitespaceConcat(a: string, b: string)
    requires NoWhitespace(a) && NoWhitespace(b)
    ensures NoWhitespace(a + b)
  {
  }

  lemma FirstWordOf(t: string)
    requires t != [] && !IsWhitespace(t[0])
    ensures Tokens(t) != []
  {
  }

  lemma RankWordsNonEmpty(rank: string)
    requires Trim(rank) != []
    ensures RankWords(rank) != []
  {
    var t := Trim(rank);
    assert AsciiLower(t)[0] == LowerChar(t[0]);
    FirstWordOf(AsciiLower(t));
  }

  lemma RankKeyOfWordsShape(parts: seq<string>)
    requires parts != [] && forall k :: 0 <= k < |parts| ==> parts[k] != [] && NoWhitespace(parts[k])
    ensures RankKeyOfWords(parts) != [] && NoWhitespace(RankKeyOfWords(parts))
  {
    assert NoWhitespace("unranked");
    var b := BaseNorm(parts[0]);
    if |parts| > 1 {
      NoWhitespaceConcat(b, parts[1]);
    }
  }

  /** Every key has at least one character and no whitespace. */
  lemma RankKeyShape(rank: string)
    ensures NormalizeRankKey(rank) != [] && NoWhitespace(NormalizeRankKey(rank))
  {
    if Trim(rank) == [] {
      assert NoWhitespace("unranked");
    } else {
      RankWordsNonEmpty(rank);
      RankKeyOfWordsShape(RankWords(rank));
    }
  }

  lemma LowerKeepsWords(w: string)
    requires NoWhitespace(w)
    ensures NoWhitespace(AsciiLower(w))
  {
  }

  lemma TokensSkipSpace(s: string)
    ensures Tokens(" " + s) == Tokens(s)
  {
    assert (" " + s)[1..] == s;
  }

  /** The tokens of a line made of words separated by single spaces. */
  lemma TokensOfWords(a: string, b: string)
    requires a != [] && NoWhitespace(a) && b != [] && NoWhitespace(b)
    ensures Tokens(a + " " + b) == [a, b]
  {
    assert a + " " + b == a + (" " + b);
    TokensOfWordThen(a, " " + b);
    TokensSkipSpace(b);
    TokensOfWordThen(b, []);
    assert b + [] == b;
  }

  lemma TrimmedWords(a: string, b: string)
    requires a != [] && NoWhitespace(a) && b != [] && NoWhitespace(b)
    ensures Trim(a + " " + b) == a + " " + b
  {
    TrimOfTrimmed(a + " " + b);
  }

  /** One word: its lowercase form, with "unrated" read as "unranked". */
  lemma RankKeyOneWord(w: string)
    requires w != [] && NoWhitespace(w)
    ensures NormalizeRankKey(w) == BaseNorm(AsciiLower(w))
  {
    TrimOfTrimmed(w);
    LowerKeepsWords(w);
    TokensOfWordThen(AsciiLower(w), []);
    assert AsciiLower(w) + [] == AsciiLower(w);
    assert RankWords(w) == [AsciiLower(w)];
  }

  lemma WordsOfTwo(b: string, n: string)
    requires b != [] && NoWhitespace(b) && n != [] && NoWhitespace(n)
    ensures AsciiLower(Trim(b + " " + n)) == AsciiLower(b) + " " + AsciiLower(n)
  {
    TrimmedWords(b, n);
    AsciiLowerConcat(b + " ", n);
    AsciiLowerConcat(b, " ");
  }

  lemma RankWordsOfTwo(b: string, n: string)
    requires b != [] && NoWhitespace(b) && n != [] && NoWhitespace(n)
    ensures RankWords(b + " " + n) == [AsciiLower(b), AsciiLower(n)]
  {
    WordsOfTwo(b, n);
    LowerKeepsWords(b);
    LowerKeepsWords(n);
    TokensOfWords(AsciiLower(b), AsciiLower(n));
  }

  /** Two words: the tier number "1" is dropped, any other second word is appended without a space. */
  lemma RankKeyTwoWords(b: string, n: string)
    requires b != [] && NoWhitespace(b) && n != [] && NoWhitespace(n)
    ensures NormalizeRankKey(b + " " + n) ==
      var lb, ln := AsciiLower(b), AsciiLower(n);
      if ln == "1" then BaseNorm(lb) else BaseNorm(lb) + ln
  {
    RankWordsOfTwo(b, n);
    TrimmedWords(b, n);
  }

  lemma TrimOfThree(b: string, n: string, x: string)
    requires b != [] && NoWhitespace(b) && n != [] && NoWhitespace(n) && x != [] && NoWhitespace(x)
    ensures Trim(b + " " + n + " " + x) == b + " " + n + " " + x
  {
    TrimOfTrimmed(b + " " + n + " " + x);
  }

  lemma LowerOfThree(b: string, n: string, x: string)
    ensures AsciiLower(b + " " + n + " " + x) == AsciiLower(b) + " " + AsciiLower(n) + " " + AsciiLower(x)
  {
    AsciiLowerConcat(b + " " + n + " ", x);
    AsciiLowerConcat(b + " " + n, " ");
    AsciiLowerConcat(b + " ", n);
    AsciiLowerConcat(b, " ");
  }

  lemma TokensOfThree(b: string, n: string, x: string)
    requires b != [] && NoWhitespace(b) && n != [] && NoWhitespace(n) && x != [] && NoWhitespace(x)
    ensures Tokens(b + " " + n + " " + x) == [b, n, x]
  {
    assert b + " " + n + " " + x == b + (" " + (n + " " + x));
    TokensOfWordThen(b, " " + (n + " " + x));
    TokensSkipSpace(n + " " + x);
    TokensOfWords(n, x);
  }

  lemma RankWordsOfThree(b: string, n: string, x: string)
    requires b != [] && NoWhitespace(b) && n != [] && NoWhitespace(n) && x != [] && NoWhitespace(x)
    ensures RankWords(b + " " + n + " " + x) == [AsciiLower(b), AsciiLower(n), AsciiLower(x)]
  {
    TrimOfThree(b, n, x);
    LowerOfThree(b, n, x);
    LowerKeepsWords(b);
    LowerKeepsWords(n);
    LowerKeepsWords(x);
    TokensOfThree(AsciiLower(b), AsciiLower(n), AsciiLower(x));
  }

  /** Words after the second are ignored. */
  lemma RankKeyIgnoresRest(b: string, n: string, x: string)
    requires b != [] && NoWhitespace(b) && n != [] && NoWhitespace(n) && x != [] && NoWhitespace(x)
    ensures NormalizeRankKey(b + " " + n + " " + x) == NormalizeRankKey(b + " " + n)
  {
    RankWordsOfThree(b, n, x);
    RankWordsOfTwo(b, n);
    TrimOfThree(b, n, x);
    TrimmedWords(b, n);
  }

  // ------------------------------------------------------------ emoji tables

  /** One line of an emoji asset: a lowercased key and its emoji, or nothing. */
  function EmojiEntry(line: string): (r: Option<(string, string)>)
    ensures r.Some? ==> Trim(line) != [] && Trim(line)[0] != '#'
    ensures r.Some? ==> r.value.0 != [] && r.value.1 != [] && NoWhitespace(r.value.1)
  {
    var l := Trim(line);
    if l == [] || l[0] == '#' then None
    else
      var parts := Tokens(l);
      var key := AsciiLower(if |parts| > 0 then parts[0] else "");
      var emoji := if |parts| > 1 then parts[1] else "";
      if key != [] && emoji != [] then Some((key, emoji)) else None
  }

  /** A "key emoji" line contributes the lowercased key and the emoji. */
  lemma EmojiEntryOfWords(k: string, e: string)
    requires k != [] && NoWhitespace(k) && e != [] && NoWhitespace(e) && k[0] != '#'
    ensures EmojiEntry(k + " " + e) == Some((AsciiLower(k), e))
  {
    TrimmedWords(k, e);
    TokensOfWords(k, e);
  }

  /** The entries of the lines, one per line. */
  function Entries(lines: seq<string>): (r: seq<Option<(string, string)>>)
    ensures |r| == |lines| && forall i :: 0 <= i < |lines| ==> r[i] == EmojiEntry(lines[i])
  {
    seq(|lines|, i requires 0 <= i < |lines| => EmojiEntry(lines[i]))
  }

  /** The map the loader builds from the entries: a later entry overwrites an earlier key. */
  function TableOf(es: seq<Option<(string, string)>>): map<string, string>
    decreases |es|
  {
    if es == [] then map[]
    else
      var prev := TableOf(es[..|es| - 1]);
      var e := es[|es| - 1];
      if e.Some? then prev[e.value.0 := e.value.1] else prev
  }

  /** The index of the last entry that defines `key`. */
  function LastDefining(es: seq<Option<(string, string)>>, key: string): (r: Option<nat>)
    ensures r.Some? ==> r.value < |es| && es[r.value].Some? && es[r.value].value.0 == key
    ensures r.Some? ==> forall i :: r.value < i < |es| ==> es[i].None? || es[i].value.0 != key
    ensures r.None? ==> forall i :: 0 <= i < |es| ==> es[i].None? || es[i].value.0 != key
    decreases |es|
  {
    if es == [] then None
    else if es[|es| - 1].Some? && es[|es| - 1].value.0 == key then Some(|es| - 1)
    else LastDefining(es[..|es| - 1], key)
  }

  /** A key is in the table iff some entry defines it, and it maps to the emoji of the last such entry. */
  lemma {:induction false} TableOfLastWriter(es: seq<Option<(string, string)>>, key: string)
    ensures key in TableOf(es) <==> LastDefining(es, key).Some?
    ensures key in TableOf(es) ==> TableOf(es)[key] == es[LastDefining(es, key).value].value.1
    decreases |es|
  {
    if es != [] {
      TableOfLastWriter(es[..|es| - 1], key);
    }
  }

  /**
   * `load_rank_emoji_map` / `load_agent_emoji_map`: one pass over the
   * asset's lines, each line read as `EmojiEntry` does.
   */
  method LoadEmojiMap(asset: string) returns (m: map<string, string>)
    ensures m == TableOf(Entries(Lines(asset)))
  {
    var ls := Lines(asset);
    ghost var es := Entries(ls);
    m := map[];
    var i := 0;
    while i < |ls|
      invariant 0 <= i <= |ls|
      invariant m == TableOf(es[..i])
    {
      assert es[..i + 1][..i] == es[..i];
      var e := EmojiEntry(ls[i]);
      if e.Some? {
        m := m[e.value.0 := e.value.1];
      }
      i := i + 1;
    }
    assert es[..|ls|] == es;
  }

  /** `get_rank_emoji`: the table entry of the normalised rank label. */
  function RankEmoji(table: map<string, string>, rankText: string): (r: Option<string>)
    ensures r.Some? <==> NormalizeRankKey(rankText) in table
    ensures r.Some? ==> r.value == table[NormalizeRankKey(rankText)]
  {
    var key := NormalizeRankKey(rankText);
    if key in table then Some(table[key]) else None
  }

  /** `get_agent_emoji`: the table entry of the trimmed, lowercased agent name. */
  function AgentEmoji(table: map<string, string>, agentName: string): (r: Option<string>)
    ensures r.Some? <==> AsciiLower(Trim(agentName)) in table
    ensures r.Some? ==> r.value == table[AsciiLower(Trim(agentName))]
  {
    var key := AsciiLower(Trim(agentName));
    if key in table then Some(table[key]) else None
  }

  // -------------------------------------------------------------- validation

  const REGIONS: seq<string> := ["eu", "na", "latam", "br", "ap", "kr"]
  const PLATFORMS: seq<string> := ["pc", "console"]

  datatype FetchError =
    | InvalidRegion(region: string)
    | InvalidPlatform(platform: string)
    | InvalidHeader
    | ListRequestFailed
    | DataNotArray
    | MatchRequestFailed(matchId: string)

  /** The region check comes first, then the platform check. */
  function ValidateScope(region: string, platform: string): (r: Result<(), FetchError>)
    ensures r.Success? <==> region in REGIONS && platform in PLATFORMS
    ensures region !in REGIONS ==> r == Failure(InvalidRegion(region))
    ensures region in REGIONS && platform !in PLATFORMS ==> r == Failure(InvalidPlatform(platform))
  {
    if region !in REGIONS then Failure(InvalidRegion(region))
    else if platform !in PLATFORMS then Failure(InvalidPlatform(platform))
    else Success(())
  }

  /** `HeaderValue::from_str`: every character is a tab or at least ' ' and not DEL. */
  predicate HeaderValueValid(s: string) {
    forall i :: 0 <= i < |s| ==> s[i] == '\t' || (s[i] >= ' ' && s[i] != '\U{7F}')
  }

  // ------------------------------------------------------- candidate selection

  /** `eq_ignore_ascii_case`. */
  predicate EqIgnoreAsciiCase(a: string, b: string) {
    AsciiLower(a) == AsciiLower(b)
  }

  /** The length of `players`, else of `players.all`, else 0. */
  function PlayerCount(item: Json): (n: nat)
    ensures AsArray(Get(item, "players")).Some? ==> n == |AsArray(Get(item, "players")).value|
    ensures AsArray(Get(item, "players")).None? && AsArray(At(item, ["players", "all"])).Some? ==>
              n == |AsArray(At(item, ["players", "all"])).value|
    ensures AsArray(Get(item, "players")).None? && AsArray(At(item, ["players", "all"])).None? ==> n == 0
  {
    var flat := AsArray(Get(item, "players"));
    if flat.Some? then |flat.value|
    else
      var all := AsArray(GetOpt(Get(item, "players"), "all"));
      if all.Some? then |all.value| else 0
  }

  /** `metadata.match_id`, else `match_id`, when a string. */
  function ItemMatchId(item: Json): (r: Option<string>)
    ensures AsStr(At(item, ["metadata", "match_id"])).Some? ==> r == AsStr(At(item, ["metadata", "match_id"]))
    ensures AsStr(At(item, ["metadata", "match_id"])).None? ==> r == AsStr(Get(item, "match_id"))
  {
    AsStr(GetOpt(Get(item, "metadata"), "match_id")).OrElse(AsStr(Get(item, "match_id")))
  }

  /** `metadata.queue.mode_type`, else `queue.mode_type`, else "", lowercased. */
  function ItemModeType(item: Json): string {
    var inMeta := AsStr(At(item, ["metadata", "queue", "mode_type"]));
    AsciiLower(inMeta.OrElse(AsStr(At(item, ["queue", "mode_type"]))).GetOr(""))
  }

  /** Deathmatch lists keep deathmatch items; other lists keep ten-player items that are not deathmatch. */
  predicate IsAllowed(item: Json, modeType: string) {
    if EqIgnoreAsciiCase(modeType, "deathmatch") then ItemModeType(item) == "deathmatch"
    else PlayerCount(item) == 10 && ItemModeType(item) != "deathmatch"
  }

  /** Whether an item contributes an id to the selection. */
  predicate Selectable(item: Json, modeType: string) {
    IsAllowed(item, modeType) && ItemMatchId(item).Some?
  }

  /** The ids of the selectable items, in list order. */
  function AllowedIds(items: seq<Json>, modeType: string): (r: seq<string>)
    ensures |r| <= |items|
    decreases |items|
  {
    if items == [] then []
    else
      var prev := AllowedIds(items[..|items| - 1], modeType);
      var it := items[|items| - 1];
      if Selectable(it, modeType) then prev + [ItemMatchId(it).value] else prev
  }

  /** Every selected id is the id of a selectable item. */
  lemma {:induction false} AllowedIdsSound(items: seq<Json>, modeType: string, k: nat)
    requires k < |AllowedIds(items, modeType)|
    ensures exists i :: 0 <= i < |items| && Selectable(items[i], modeType)
                        && ItemMatchId(items[i]).value == AllowedIds(items, modeType)[k]
    decreases |items|
  {
    var init := items[..|items| - 1];
    if k < |AllowedIds(init, modeType)| {
      AllowedIdsSound(init, modeType, k);
      var i :| 0 <= i < |init| && Selectable(init[i], modeType)
               && ItemMatchId(init[i]).value == AllowedIds(init, modeType)[k];
      assert items[i] == init[i];
    } else {
      assert Selectable(items[|items| - 1], modeType);
    }
  }

  /** Reading more of the list only extends the selection. */
  lemma {:induction false} AllowedIdsPrefix(items: seq<Json>, modeType: string, i: nat)
    requires i <= |items|
    ensures AllowedIds(items[..i], modeType) <= AllowedIds(items, modeType)
    decreases |items|
  {
    if i < |items| {
      var init := items[..|items| - 1];
      assert init[..i] == items[..i];
      AllowedIdsPrefix(init, modeType, i);
      PrefixTrans(AllowedIds(items[..i], modeType), AllowedIds(init, modeType), AllowedIds(items, modeType));
    } else {
      assert items[..i] == items;
    }
  }

  lemma PrefixTrans<T>(a: seq<T>, b: seq<T>, c: seq<T>)
    requires a <= b && b <= c
    ensures a <= c
  {
    assert c[..|b|][..|a|] == c[..|a|];
  }

  lemma AllowedIdsStep(items: seq<Json>, modeType: string, i: nat)
    requires i < |items|
    ensures AllowedIds(items[..i + 1], modeType) ==
      AllowedIds(items[..i], modeType) + (if Selectable(items[i], modeType) then [ItemMatchId(items[i]).value] else [])
  {
    assert items[..i + 1][..i] == items[..i];
  }

  function Take<T>(s: seq<T>, n: nat): (r: seq<T>)
    ensures |r| <= n && r <= s
    ensures |s| >= n ==> |r| == n
    ensures |s| < n ==> r == s
  {
    if |s| <= n then s else s[..n]
  }

  /** `match_ids.len() as u8 >= store_matches` ends the loop after a push: at least one id survives. */
  function Quota(storeMatches: u8): (q: nat)
    ensures 1 <= q <= 255
    ensures storeMatches >= 1 ==> q == storeMatches as nat
  {
    if storeMatches == 0 then 1 else storeMatches as nat
  }

  /** The loop's exit test, `match_ids.len() as u8 >= store_matches`, on a length truncated to eight bits. */
  predicate QuotaMet(n: nat, storeMatches: u8) {
    ((n % 256) as u8) >= storeMatches
  }

  /** After a push the test fires exactly when the quota is reached. */
  lemma QuotaMetAt(n: nat, storeMatches: u8)
    requires 1 <= n <= Quota(storeMatches)
    ensures QuotaMet(n, storeMatches) <==> n == Quota(storeMatches)
  {
  }

  /** Once the selection so far reaches the quota, it is the whole selection. */
  lemma QuotaReached(items: seq<Json>, modeType: string, i: nat, storeMatches: u8)
    requires i < |items|
    requires |AllowedIds(items[..i + 1], modeType)| == Quota(storeMatches)
    ensures Take(AllowedIds(items, modeType), Quota(storeMatches)) == AllowedIds(items[..i + 1], modeType)
  {
    AllowedIdsPrefix(items, modeType, i + 1);
  }

  /**
   * The selection loop of `fetch_custom_match_data`: the list must sit in
   * `data` as an array; the ids of allowed items are collected in order
   * until the quota is met.
   */
  method SelectMatchIds(body: Json, modeType: string, storeMatches: u8) returns (r: Result<seq<string>, FetchError>)
    ensures AsArray(Get(body, "data")).None? ==> r == Failure(DataNotArray)
    ensures AsArray(Get(body, "data")).Some? ==>
              r == Success(Take(AllowedIds(AsArray(Get(body, "data")).value, modeType), Quota(storeMatches)))
  {
    var dataArr := AsArray(Get(body, "data"));
    if dataArr.None? {
      return Failure(DataNotArray);
    }
    var items := dataArr.value;
    var ids: seq<string> := [];
    var i := 0;
    while i < |items|
      invariant 0 <= i <= |items|
      invariant ids == AllowedIds(items[..i], modeType)
      invariant |ids| < Quota(storeMatches)
    {
      AllowedIdsStep(items, modeType, i);
      var item := items[i];
      if IsAllowed(item, modeType) {
        var mid := ItemMatchId(item);
        if mid.Some? {
          ids := ids + [mid.value];
          QuotaMetAt(|ids|, storeMatches);
          if QuotaMet(|ids|, storeMatches) {
            QuotaReached(items, modeType, i, storeMatches);
            return Success(ids);
          }
        }
      }
      i := i + 1;
    }
    assert items[..|items|] == items;
    return Success(ids);
  }

  // ------------------------------------------------------------ rank replies

  /** The rank of an MMR reply: current tier, else tier, else peak tier, else "Unrated". */
  function RankOf(reply: Option<Json>): (r: string)
    ensures reply.None? ==> r == "Unrated"
    ensures reply.Some? ==>
      var current := AsStr(At(reply.value, ["data", "current", "tier", "name"]));
      var tier := AsStr(At(reply.value, ["data", "tier", "name"]));
      var peak := AsStr(At(reply.value, ["data", "peak", "tier", "name"]));
      && (current.Some? ==> r == current.value)
      && (current.None? && tier.Some? ==> r == tier.value)
      && (current.None? && tier.None? && peak.Some? ==> r == peak.value)
      && (current.None? && tier.None? && peak.None? ==> r == "Unrated")
  {
    if reply.None? then "Unrated"
    else
      var v := reply.value;
      AsStr(At(v, ["data", "current", "tier", "name"]))
        .OrElse(AsStr(At(v, ["data", "tier", "name"])))
        .OrElse(AsStr(At(v, ["data", "peak", "tier", "name"])))
        .GetOr("Unrated")
  }

  // ---------------------------------------------------------------- write-back

  /** The (index, puuid) pairs of the elements that carry a string puuid, in order. */
  function IndexedPuuids(players: seq<Json>): (r: seq<(nat, string)>)
    ensures forall k :: 0 <= k < |r| ==> r[k].0 < |players| && AsStr(Get(players[r[k].0], "puuid")) == Some(r[k].1)
    decreases |players|
  {
    if players == [] then []
    else
      var prev := IndexedPuuids(players[..|players| - 1]);
      var puuid := AsStr(Get(players[|players| - 1], "puuid"));
      if puuid.Some? then prev + [(|players| - 1, puuid.value)] else prev
  }

  /** The players array the fetch reads puuids from and writes ranks into: flat, else `all`. */
  function PlayersArray(body: Json): (r: Option<seq<Json>>)
    ensures AsArray(At(body, ["data", "players"])).Some? ==> r == AsArray(At(body, ["data", "players"]))
    ensures AsArray(At(body, ["data", "players"])).None? ==> r == AsArray(At(body, ["data", "players", "all"]))
  {
    var flat := AsArray(At(body, ["data", "players"]));
    if flat.Some? then flat else AsArray(At(body, ["data", "players", "all"]))
  }

  /** The path of that array. */
  function PlayersPath(body: Json): seq<string> {
    if AsArray(At(body, ["data", "players"])).Some? then ["data", "players"] else ["data", "players", "all"]
  }

  lemma PlayersArrayAt(body: Json)
    requires PlayersArray(body).Some?
    ensures AsArray(At(body, PlayersPath(body))) == PlayersArray(body)
  {
  }

  /** `idx_puuids`. */
  function CollectIndexedPuuids(body: Json): seq<(nat, string)> {
    if PlayersArray(body).Some? then IndexedPuuids(PlayersArray(body).value) else []
  }

  /** `po.insert("rank", rank)` on an object element; any other element is left as it is. */
  function SetRank(p: Json, rank: string): (r: Json)
    ensures p.JObj? ==> r.JObj? && Get(r, "rank") == Some(JStr(rank))
    ensures p.JObj? ==> forall k :: k != "rank" ==> Get(r, k) == Get(p, k)
    ensures !p.JObj? ==> r == p
  {
    if p.JObj? then JObj(p.fields["rank" := JStr(rank)]) else p
  }

  lemma SetRankTwice(p: Json, a: string, b: string)
    ensures SetRank(SetRank(p, a), b) == SetRank(p, b)
  {
    if p.JObj? {
      assert p.fields["rank" := JStr(a)]["rank" := JStr(b)] == p.fields["rank" := JStr(b)];
    }
  }

  /** The array after the results were written in order; indices past the end are skipped. */
  function ApplyRanks(players: seq<Json>, results: seq<(nat, string)>): (r: seq<Json>)
    ensures |r| == |players|
    decreases |results|
  {
    if results == [] then players
    else
      var prev := ApplyRanks(players, results[..|results| - 1]);
      var (idx, rank) := results[|results| - 1];
      if idx < |prev| then prev[idx := SetRank(prev[idx], rank)] else prev
  }

  /** The rank the last result for index `j` carries. */
  function LastRankFor(results: seq<(nat, string)>, j: nat): Option<string>
    decreases |results|
  {
    if results == [] then None
    else if results[|results| - 1].0 == j then Some(results[|results| - 1].1)
    else LastRankFor(results[..|results| - 1], j)
  }

  /** Each element receives the last rank written at its own index, and no other. */
  lemma {:induction false} ApplyRanksAt(players: seq<Json>, results: seq<(nat, string)>, j: nat)
    requires j < |players|
    ensures ApplyRanks(players, results)[j] ==
      if LastRankFor(results, j).Some? then SetRank(players[j], LastRankFor(results, j).value) else players[j]
    decreases |results|
  {
    if results != [] {
      var init := results[..|results| - 1];
      ApplyRanksAt(players, init, j);
      if results[|results| - 1].0 == j && LastRankFor(init, j).Some? {
        SetRankTwice(players[j], LastRankFor(init, j).value, results[|results| - 1].1);
      }
    }
  }

  /** The rank results of the lookups, one per indexed puuid, in order. */
  function RankResults(pairs: seq<(nat, string)>, fetchRank: string -> Option<Json>): (r: seq<(nat, string)>)
    ensures |r| == |pairs|
    ensures forall k :: 0 <= k < |pairs| ==> r[k] == (pairs[k].0, RankOf(fetchRank(pairs[k].1)))
  {
    seq(|pairs|, k requires 0 <= k < |pairs| => (pairs[k].0, RankOf(fetchRank(pairs[k].1))))
  }

  lemma RankResultsSnoc(pairs: seq<(nat, string)>, x: (nat, string), fetchRank: string -> Option<Json>)
    ensures RankResults(pairs + [x], fetchRank) == RankResults(pairs, fetchRank) + [(x.0, RankOf(fetchRank(x.1)))]
  {
    var l := RankResults(pairs + [x], fetchRank);
    var r := RankResults(pairs, fetchRank) + [(x.0, RankOf(fetchRank(x.1)))];
    assert |l| == |r|;
    forall k | 0 <= k < |l|
      ensures l[k] == r[k]
    {
      if k < |pairs| {
        assert (pairs + [x])[k] == pairs[k];
      }
    }
  }

  lemma LastRankForSnoc(results: seq<(nat, string)>, y: (nat, string), j: nat)
    ensures LastRankFor(results + [y], j) == if y.0 == j then Some(y.1) else LastRankFor(results, j)
  {
    assert (results + [y])[..|results|] == results;
  }

  /** One more element changes the lookup for its own index only, and only when it has a puuid. */
  lemma RanksStep(players: seq<Json>, fetchRank: string -> Option<Json>, j: nat)
    requires players != []
    ensures var puuid := AsStr(Get(players[|players| - 1], "puuid"));
      LastRankFor(RankResults(IndexedPuuids(players), fetchRank), j) ==
        if puuid.Some? && j == |players| - 1 then Some(RankOf(fetchRank(puuid.value)))
        else LastRankFor(RankResults(IndexedPuuids(players[..|players| - 1]), fetchRank), j)
  {
    var prev := IndexedPuuids(players[..|players| - 1]);
    var puuid := AsStr(Get(players[|players| - 1], "puuid"));
    if puuid.Some? {
      var x := (|players| - 1, puuid.value);
      assert IndexedPuuids(players) == prev + [x];
      RankResultsSnoc(prev, x, fetchRank);
      LastRankForSnoc(RankResults(prev, fetchRank), (x.0, RankOf(fetchRank(x.1))), j);
    } else {
      assert IndexedPuuids(players) == prev;
    }
  }

  /** Of the indexed lookups, the one for index `j` is the lookup of that element's own puuid. */
  lemma {:induction false} RanksOfIndexed(players: seq<Json>, fetchRank: string -> Option<Json>, j: nat)
    ensures LastRankFor(RankResults(IndexedPuuids(players), fetchRank), j) ==
      if j < |players| && AsStr(Get(players[j], "puuid")).Some?
      then Some(RankOf(fetchRank(AsStr(Get(players[j], "puuid")).value))) else None
    decreases |players|
  {
    if players != [] {
      var init := players[..|players| - 1];
      RanksOfIndexed(init, fetchRank, j);
      RanksStep(players, fetchRank, j);
      if j < |init| {
        assert players[j] == init[j];
      }
    }
  }

  /** The rank each element ends with after the whole fetch: its own puuid's rank, or none written. */
  lemma WriteBackIndexPreserving(players: seq<Json>, fetchRank: string -> Option<Json>, j: nat)
    requires j < |players|
    ensures var after := ApplyRanks(players, RankResults(IndexedPuuids(players), fetchRank));
      after[j] == if AsStr(Get(players[j], "puuid")).Some?
                  then SetRank(players[j], RankOf(fetchRank(AsStr(Get(players[j], "puuid")).value)))
                  else players[j]
  {
    var rs := RankResults(IndexedPuuids(players), fetchRank);
    ApplyRanksAt(players, rs, j);
    RanksOfIndexed(players, fetchRank, j);
  }

  /** Replace the value at a path of nested objects; a path that does not exist changes nothing. */
  function SetAt(v: Json, path: seq<string>, x: Json): Json
    decreases |path|
  {
    if path == [] then x
    else if v.JObj? && path[0] in v.fields then JObj(v.fields[path[0] := SetAt(v.fields[path[0]], path[1..], x)])
    else v
  }

  lemma {:induction false} AtSetAt(v: Json, path: seq<string>, x: Json)
    requires At(v, path).Some?
    ensures At(SetAt(v, path, x), path) == Some(x)
    decreases |path|
  {
    if path != [] {
      AtSetAt(v.fields[path[0]], path[1..], x);
    }
  }

  /** The body after the write-back: the players array replaced by its ranked copy. */
  function WithRanks(body: Json, results: seq<(nat, string)>): Json {
    if PlayersArray(body).Some?
    then SetAt(body, PlayersPath(body), JArr(ApplyRanks(PlayersArray(body).value, results)))
    else body
  }

  /** The write-back loop: each result is written at its index of the array it was read from. */
  method WriteBack(body: Json, results: seq<(nat, string)>) returns (out: Json)
    ensures out == WithRanks(body, results)
    ensures PlayersArray(body).Some? ==>
              AsArray(At(out, PlayersPath(body))) == Some(ApplyRanks(PlayersArray(body).value, results))
  {
    var arr := PlayersArray(body);
    if arr.None? {
      return body;
    }
    var players := arr.value;
    var i := 0;
    while i < |results|
      invariant 0 <= i <= |results|
      invariant players == ApplyRanks(arr.value, results[..i])
    {
      assert results[..i + 1][..i] == results[..i];
      var (idx, rank) := results[i];
      if idx < |players| {
        players := players[idx := SetRank(players[idx], rank)];
      }
      i := i + 1;
    }
    assert results[..|results|] == results;
    PlayersArrayAt(body);
    AtSetAt(body, PlayersPath(body), JArr(players));
    out := SetAt(body, PlayersPath(body), JArr(players));
  }

  // ------------------------------------------------------------ cached records

  /** A cached record is refetched when `started_at` is missing or empty, or `game_length_in_ms` is missing or 0. */
  predicate IsIncomplete(local: Json) {
    AsStr(Get(local, "started_at")).GetOr("") == []
    || AsI64(Get(local, "game_length_in_ms")).GetOr(0) == 0
  }

  /** A record this program wrote is complete iff its start time is set and its length is non-zero. */
  lemma IncompleteOfSaved(m: Match)
    ensures IsIncomplete(ToJson(m)) <==> m.startedAt == [] || m.gameLengthInMs == 0
  {
    ToJsonHead(m);
  }

  /** A complete cached record is returned with `"__source": "cache"` added when it is an object. */
  function TagCached(local: Json): (r: Json)
    ensures local.JObj? ==> Get(r, "__source") == Some(JStr("cache"))
    ensures local.JObj? ==> forall k :: k != "__source" ==> Get(r, k) == Get(local, k)
    ensures !local.JObj? ==> r == local
  {
    if local.JObj? then JObj(local.fields["__source" := JStr("cache")]) else local
  }

  /** The cache directory of a guild, platform, region and mode (as path components). */
  function BaseDir(guildId: string, platform: string, region: string, modeType: string): seq<string> {
    ["src", "data", "matches", guildId, platform, region, "custom", modeType]
  }

  /** The cache file the fetch consults for a match id. */
  function LocalPath(guildId: string, platform: string, region: string, modeType: string, mid: string): (p: seq<string>)
    ensures |p| == 9 && p[..8] == BaseDir(guildId, platform, region, modeType)
  {
    BaseDir(guildId, platform, region, modeType) + [mid + ".json"]
  }

  /** The file a fetched match is saved to is the file a later fetch consults for its id. */
  lemma SavedWhereLookedUp(guildId: string, platform: string, region: string, modeType: string, m: Match)
    ensures SavePath(BaseDir(guildId, platform, region, modeType), m)
            == LocalPath(guildId, platform, region, modeType, m.metadata.matchId)
  {
  }

  // ---------------------------------------------------------- caller defaults

  /** `.clamp(1, 10)` of an optional u8 argument with its default. */
  function ClampArg(arg: Option<u8>, default: u8): (r: u8)
    ensures 1 <= r <= 10
    ensures arg.Some? && 1 <= arg.value <= 10 ==> r == arg.value
    ensures arg.None? && 1 <= default <= 10 ==> r == default
  {
    var v := arg.GetOr(default);
    if v < 1 then 1 else if v > 10 then 10 else v
  }

  /** `mode_type_dir`: "deathmatch" for any casing of it, "standard" for everything else. */
  function ModeTypeDir(modeType: Option<string>): (r: string)
    ensures r == "deathmatch" || r == "standard"
    ensures r == "deathmatch" <==> EqIgnoreAsciiCase(modeType.GetOr("Standard"), "deathmatch")
  {
    if EqIgnoreAsciiCase(modeType.GetOr("Standard"), "deathmatch") then "deathmatch" else "standard"
  }

  // -------------------------------------------------------------- scoreboard

  /** `rounds_won + rounds_lost` in 32-bit arithmetic (wrapping, as a release build does). */
  function RoundsPlayed(t: TeamResult): (r: i32)
    ensures -0x8000_0000 <= t.roundsWon as int + t.roundsLost as int < 0x8000_0000 ==>
              r as int == t.roundsWon as int + t.roundsLost as int
  {
    WrapI32(t.roundsWon as int + t.roundsLost as int)
  }

  /** At least 1, and at least as many as either side played. */
  function TotalRounds(teams: Teams): (r: i32)
    ensures r >= 1 && r >= RoundsPlayed(teams.red) && r >= RoundsPlayed(teams.blue)
    ensures r == 1 || r == RoundsPlayed(teams.red) || r == RoundsPlayed(teams.blue)
  {
    var red, blue := RoundsPlayed(teams.red), RoundsPlayed(teams.blue);
    var m := if red >= blue then red else blue;
    if m >= 1 then m else 1
  }

  datatype Outcome = RedWon | BlueWon | Tie

  /** Red is checked first, so a record claiming two winners shows red. */
  function Winner(teams: Teams): (w: Outcome)
    ensures w == RedWon <==> teams.red.hasWon
    ensures w == BlueWon <==> !teams.red.hasWon && teams.blue.hasWon
  {
    if teams.red.hasWon then RedWon else if teams.blue.hasWon then BlueWon else Tie
  }

  function WinnerLabel(w: Outcome): string {
    match w
    case RedWon => "RED"
    case BlueWon => "BLUE"
    case Tie => "TIE"
  }

  /** The embed colour: red, blue or grey, decided by the same tests as the winner. */
  function Colour(teams: Teams): nat {
    if teams.red.hasWon then 0xFF0000 else if teams.blue.hasWon then 0x3B82F6 else 0x808080
  }

  function ColourOf(w: Outcome): nat {
    match w
    case RedWon => 0xFF0000
    case BlueWon => 0x3B82F6
    case Tie => 0x808080
  }

  /** The colour always agrees with the winner shown in the title. */
  lemma ColourMatchesWinner(teams: Teams)
    ensures Colour(teams) == ColourOf(Winner(teams))
  {
  }

  /** The title's score: blue's rounds, then red's, each at least 0. */
  function Score(teams: Teams): (r: (int, int))
    ensures r.0 >= 0 && r.1 >= 0
    ensures teams.blue.roundsWon >= 0 ==> r.0 == teams.blue.roundsWon as int
    ensures teams.red.roundsWon >= 0 ==> r.1 == teams.red.roundsWon as int
  {
    (if teams.blue.roundsWon >= 0 then teams.blue.roundsWon as int else 0,
     if teams.red.roundsWon >= 0 then teams.red.roundsWon as int else 0)
  }

  /** The footer's match length in whole minutes and seconds; a negative length counts as 0. */
  function MatchLength(ms: i32): (r: (nat, nat))
    ensures r.1 < 60
    ensures r.0 * 60 + r.1 == (if ms >= 0 then ms as int else 0) / 1000
  {
    var totalMs: nat := if ms >= 0 then ms as int else 0;
    var totalSecs := totalMs / 1000;
    (totalSecs / 60, totalSecs % 60)
  }
}
