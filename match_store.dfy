/**
 * The per-scope match cache: four key-value trees (match blobs, per-player
 * history, riot id to puuid, latest match per riot id), the shape helpers
 * that find the match id, a timestamp and the participants in an upstream
 * payload, and the upsert that keeps all four trees consistent.
 */
module MatchStore {

  import opened Wrappers
  import opened Json
  import opened Text
  import opened Codec

  /** The longest per-player history `by_puuid` keeps. */
  const HISTORY_CAP: nat := 1000

  // ------------------------------------------------------------------ scope

  /** The partition a store is opened for. */
  datatype Scope = Scope(guildId: string, platform: string, region: string, mode: string,
                         modeType: Option<string>)

  /** The directory components `open` passes to sled: matches/guild/platform/region/mode[/mode_type]/db. */
  function DbPath(scope: Scope): (p: seq<string>)
    ensures |p| == if scope.modeType.Some? then 7 else 6
    ensures p[0] == "matches" && p[|p| - 1] == "db"
  {
    ["matches", scope.guildId, scope.platform, scope.region, scope.mode]
      + (if scope.modeType.Some? then [scope.modeType.value] else [])
      + ["db"]
  }

  /** Two different scopes never share a database directory. */
  lemma DbPathInjective(a: Scope, b: Scope)
    requires DbPath(a) == DbPath(b)
    ensures a == b
  {
    var p, q := DbPath(a), DbPath(b);
    assert p[1] == a.guildId && q[1] == b.guildId;
    assert p[2] == a.platform && q[2] == b.platform;
    assert p[3] == a.region && q[3] == b.region;
    assert p[4] == a.mode && q[4] == b.mode;
    if a.modeType.Some? {
      assert p[5] == a.modeType.value && q[5] == b.modeType.value;
    }
  }

  // ---------------------------------------------------------- payload helpers

  /** An entry of `latest_by_player` and of a `by_puuid` history: `(ts, match_id)`. */
  datatype Stamp = Stamp(ts: int, matchId: string)

  /** What the indexer reads of one participant; each field only when it is a string. */
  datatype PlayerRef = PlayerRef(puuid: Option<string>, name: Option<string>, tag: Option<string>)

  datatype StoreError = MissingMatchId | Corrupt

  /**
   * `normalize_to_wrapped`: a payload without a `data` key but with `metadata`
   * or `players` is wrapped as `{"data": raw}`; anything else is kept.
   */
  function NormalizeToWrapped(raw: Json): (r: Json)
    ensures Get(raw, "data").Some? ==> r == raw
    ensures r == raw || r == JObj(map["data" := raw])
    ensures DataView(r) == DataView(raw)
  {
    if Get(raw, "data").Some? then raw
    else if Get(raw, "metadata").Some? || Get(raw, "players").Some? then JObj(map["data" := raw])
    else raw
  }

  lemma NormalizeIdempotent(raw: Json)
    ensures NormalizeToWrapped(NormalizeToWrapped(raw)) == NormalizeToWrapped(raw)
  {
    var r := NormalizeToWrapped(raw);
    if r != raw {
      assert Get(r, "data") == Some(raw);
    }
  }

  /** `data.metadata.match_id`, else `data.match_id`, when a string. */
  function MatchIdOf(data: Json): Option<string> {
    AsStr(At(data, ["metadata", "match_id"])).OrElse(AsStr(Get(data, "match_id")))
  }

  /**
   * The ordered timestamp sources of `extract_ts_ms`: `metadata.started_at`
   * when it is a string that `parseRfc3339` accepts (in milliseconds), then
   * `metadata.game_start`, then `metadata.game_length_in_ms`, as i64 values.
   */
  function TimestampSources(data: Json, parseRfc3339: string -> Option<int>): seq<Option<int>> {
    var started := AsStr(At(data, ["metadata", "started_at"]));
    [ if started.Some? then parseRfc3339(started.value) else None,
      AsI64(At(data, ["metadata", "game_start"])),
      AsI64(At(data, ["metadata", "game_length_in_ms"])) ]
  }

  /** The first present value of an ordered chain of optional sources, else `default`. */
  function FirstSome(sources: seq<Option<int>>, default: int): (r: int)
    ensures (forall i :: 0 <= i < |sources| ==> sources[i].None?) ==> r == default
    ensures forall i :: (0 <= i < |sources| && sources[i].Some? &&
                         (forall j :: 0 <= j < i ==> sources[j].None?)) ==> r == sources[i].value
  {
    if sources == [] then default
    else if sources[0].Some? then sources[0].value
    else FirstSome(sources[1..], default)
  }

  /** `extract_ts_ms`, with the wall clock `Utc::now()` passed in as `now`. */
  function ExtractTs(data: Json, parseRfc3339: string -> Option<int>, now: int): int {
    FirstSome(TimestampSources(data, parseRfc3339), now)
  }

  /** The fallback order of `extract_ts_ms`, written out. */
  lemma ExtractTsOrder(data: Json, parseRfc3339: string -> Option<int>, now: int)
    ensures var started := AsStr(At(data, ["metadata", "started_at"]));
            var start := AsI64(At(data, ["metadata", "game_start"]));
            var length := AsI64(At(data, ["metadata", "game_length_in_ms"]));
            ExtractTs(data, parseRfc3339, now) ==
              if started.Some? && parseRfc3339(started.value).Some? then parseRfc3339(started.value).value
              else if start.Some? then start.value
              else if length.Some? then length.value
              else now
  {
    var s := TimestampSources(data, parseRfc3339);
    if s[0].None? && s[1].None? {
      assert forall j :: 0 <= j < 2 ==> s[j].None?;
    }
    if s[0].None? && s[1].None? && s[2].None? {
      assert forall j :: 0 <= j < 3 ==> s[j].None?;
    }
  }

  /** `extract_p`. */
  function ExtractP(p: Json): PlayerRef {
    PlayerRef(AsStr(Get(p, "puuid")), AsStr(Get(p, "name")), AsStr(Get(p, "tag")))
  }

  function ExtractAll(arr: seq<Json>): (r: seq<PlayerRef>)
    ensures |r| == |arr| && forall i :: 0 <= i < |arr| ==> r[i] == ExtractP(arr[i])
  {
    seq(|arr|, i requires 0 <= i < |arr| => ExtractP(arr[i]))
  }

  /**
   * `collect_players`: the first shape that applies among a flat `players`
   * array, a `players.all` array, and a `players` object whose `red` then
   * `blue` arrays are concatenated (a missing side contributes nothing).
   */
  function CollectPlayers(data: Json): (r: seq<PlayerRef>)
    ensures AsArray(Get(data, "players")).Some? ==>
              r == ExtractAll(AsArray(Get(data, "players")).value)
    ensures AsArray(Get(data, "players")).None? && AsArray(At(data, ["players", "all"])).Some? ==>
              r == ExtractAll(AsArray(At(data, ["players", "all"])).value)
    ensures AsArray(Get(data, "players")).None? && AsArray(At(data, ["players", "all"])).None? &&
            AsObject(Get(data, "players")).Some? ==>
              r == ExtractAll(AsArray(At(data, ["players", "red"])).GetOr([]))
                   + ExtractAll(AsArray(At(data, ["players", "blue"])).GetOr([]))
    ensures AsObject(Get(data, "players")).None? && AsArray(Get(data, "players")).None? ==> r == []
  {
    var pl := Get(data, "players");
    if AsArray(pl).Some? then ExtractAll(AsArray(pl).value)
    else if AsArray(GetOpt(pl, "all")).Some? then ExtractAll(AsArray(GetOpt(pl, "all")).value)
    else if AsObject(pl).Some? then
      ExtractAll(AsArray(GetOpt(pl, "red")).GetOr([])) + ExtractAll(AsArray(GetOpt(pl, "blue")).GetOr([]))
    else []
  }

  // ------------------------------------------------------------ index folds

  /** A participant is indexed only when puuid, name and tag are all strings. */
  predicate Indexable(p: PlayerRef) {
    p.puuid.Some? && p.name.Some? && p.tag.Some?
  }

  /** The lowercased riot id `"name#tag"` that keys two of the indexes. */
  function RiotKey(name: string, tag: string): string {
    AsciiLower(name) + "#" + AsciiLower(tag)
  }

  function KeyOf(p: PlayerRef): string
    requires Indexable(p)
  {
    RiotKey(p.name.value, p.tag.value)
  }

  /** `riot_to_puuid` after the per-player loop has visited `ps`: plain overwrite. */
  function RiotFold(m: map<string, string>, ps: seq<PlayerRef>): map<string, string>
    decreases |ps|
  {
    if ps == [] then m
    else
      var prev := RiotFold(m, ps[..|ps| - 1]);
      var p := ps[|ps| - 1];
      if Indexable(p) then prev[KeyOf(p) := p.puuid.value] else prev
  }

  /** The `>=` freshness rule of `latest_by_player`: ties favour the incoming write. */
  function LatestStep(m: map<string, Stamp>, k: string, s: Stamp): map<string, Stamp> {
    if k !in m || s.ts >= m[k].ts then m[k := s] else m
  }

  function LatestFold(m: map<string, Stamp>, ps: seq<PlayerRef>, s: Stamp): map<string, Stamp>
    decreases |ps|
  {
    if ps == [] then m
    else
      var prev := LatestFold(m, ps[..|ps| - 1], s);
      var p := ps[|ps| - 1];
      if Indexable(p) then LatestStep(prev, KeyOf(p), s) else prev
  }

  function HistoryOf(h: map<string, seq<Stamp>>, puuid: string): seq<Stamp> {
    if puuid in h then h[puuid] else []
  }

  predicate HasMatch(l: seq<Stamp>, mid: string) {
    exists i :: 0 <= i < |l| && l[i].matchId == mid
  }

  predicate DistinctIds(l: seq<Stamp>) {
    forall i, j :: 0 <= i < j < |l| ==> l[i].matchId != l[j].matchId
  }

  /** `insert(0, s)` followed by `truncate(1000)` when longer. */
  function Prepended(l: seq<Stamp>, s: Stamp): (r: seq<Stamp>)
    ensures |r| == if |l| + 1 > HISTORY_CAP then HISTORY_CAP else |l| + 1
    ensures r[0] == s
    ensures forall i :: 1 <= i < |r| ==> r[i] == l[i - 1]
  {
    var l' := [s] + l;
    if |l'| > HISTORY_CAP then l'[..HISTORY_CAP] else l'
  }

  /** The scan of `upsert_match` for an entry of the same match id. */
  method Listed(history: seq<Stamp>, mid: string) returns (listed: bool)
    ensures listed <==> HasMatch(history, mid)
  {
    listed := false;
    var j := 0;
    while j < |history|
      invariant 0 <= j <= |history|
      invariant listed <==> exists k :: 0 <= k < j && history[k].matchId == mid
    {
      if history[j].matchId == mid { listed := true; }
      j := j + 1;
    }
  }

  /** One history after one visit: unchanged when the match is already listed. */
  function UpdatedHistory(l: seq<Stamp>, s: Stamp): seq<Stamp> {
    if HasMatch(l, s.matchId) then l else Prepended(l, s)
  }

  function HistoryStep(h: map<string, seq<Stamp>>, puuid: string, s: Stamp): map<string, seq<Stamp>> {
    if HasMatch(HistoryOf(h, puuid), s.matchId) then h
    else h[puuid := Prepended(HistoryOf(h, puuid), s)]
  }

  function HistoryFold(h: map<string, seq<Stamp>>, ps: seq<PlayerRef>, s: Stamp): map<string, seq<Stamp>>
    decreases |ps|
  {
    if ps == [] then h
    else
      var prev := HistoryFold(h, ps[..|ps| - 1], s);
      var p := ps[|ps| - 1];
      if Indexable(p) then HistoryStep(prev, p.puuid.value, s) else prev
  }

  // ------------------------------------------------------- lemmas on the folds

  /** `riot_to_puuid[k]` ends as the puuid of the last indexable participant with riot key `k`. */
  lemma {:induction false} RiotFoldLastWriter(m: map<string, string>, ps: seq<PlayerRef>, k: string, i: nat)
    requires i < |ps| && Indexable(ps[i]) && KeyOf(ps[i]) == k
    requires forall j :: i < j < |ps| && Indexable(ps[j]) ==> KeyOf(ps[j]) != k
    ensures k in RiotFold(m, ps) && RiotFold(m, ps)[k] == ps[i].puuid.value
    decreases |ps|
  {
    var init := ps[..|ps| - 1];
    if i < |ps| - 1 {
      RiotFoldLastWriter(m, init, k, i);
    }
  }

  /** Riot keys of no indexable participant keep their old entry, or stay absent. */
  lemma {:induction false} RiotFoldUntouched(m: map<string, string>, ps: seq<PlayerRef>, k: string)
    requires forall j :: 0 <= j < |ps| && Indexable(ps[j]) ==> KeyOf(ps[j]) != k
    ensures (k in RiotFold(m, ps)) == (k in m)
    ensures k in m ==> RiotFold(m, ps)[k] == m[k]
    decreases |ps|
  {
    if ps != [] {
      RiotFoldUntouched(m, ps[..|ps| - 1], k);
    }
  }

  predicate SomeKeyed(ps: seq<PlayerRef>, k: string) {
    exists i :: 0 <= i < |ps| && Indexable(ps[i]) && KeyOf(ps[i]) == k
  }

  /**
   * For a riot key of some indexable participant, `latest_by_player[k]` ends as
   * the incoming stamp exactly when there was no entry or `ts >= prev_ts`;
   * otherwise the old entry stays. Other keys are untouched.
   */
  lemma {:induction false} LatestFoldSpec(m: map<string, Stamp>, ps: seq<PlayerRef>, s: Stamp, k: string)
    ensures SomeKeyed(ps, k) ==>
              k in LatestFold(m, ps, s) &&
              LatestFold(m, ps, s)[k] == (if k !in m || s.ts >= m[k].ts then s else m[k])
    ensures !SomeKeyed(ps, k) ==>
              (k in LatestFold(m, ps, s)) == (k in m) &&
              (k in m ==> LatestFold(m, ps, s)[k] == m[k])
    decreases |ps|
  {
    if ps != [] {
      var init := ps[..|ps| - 1];
      var p := ps[|ps| - 1];
      assert forall i :: 0 <= i < |init| ==> init[i] == ps[i];
      assert SomeKeyed(ps, k) <==> SomeKeyed(init, k) || (Indexable(p) && KeyOf(p) == k);
      LatestFoldSpec(m, init, s, k);
    }
  }

  /** A stored timestamp never decreases. */
  lemma LatestNeverOlder(m: map<string, Stamp>, ps: seq<PlayerRef>, s: Stamp, k: string)
    requires k in m
    ensures k in LatestFold(m, ps, s) && LatestFold(m, ps, s)[k].ts >= m[k].ts
  {
    LatestFoldSpec(m, ps, s, k);
  }

  /** Visiting a history twice with the same match is the same as once. */
  lemma UpdatedHistoryIdempotent(l: seq<Stamp>, s: Stamp)
    ensures HasMatch(UpdatedHistory(l, s), s.matchId)
    ensures UpdatedHistory(UpdatedHistory(l, s), s) == UpdatedHistory(l, s)
  {
    if !HasMatch(l, s.matchId) {
      assert Prepended(l, s)[0].matchId == s.matchId;
    }
  }

  predicate SomeWithPuuid(ps: seq<PlayerRef>, puuid: string) {
    exists i :: 0 <= i < |ps| && Indexable(ps[i]) && ps[i].puuid.value == puuid
  }

  /**
   * For a puuid of some indexable participant, its history ends as the old
   * history with the match prepended (and the list cut to 1000), or unchanged
   * when the match was already listed. Other puuids are untouched.
   */
  lemma {:induction false} HistoryFoldSpec(h: map<string, seq<Stamp>>, ps: seq<PlayerRef>, s: Stamp, puuid: string)
    ensures SomeWithPuuid(ps, puuid) ==>
              puuid in HistoryFold(h, ps, s) &&
              HistoryFold(h, ps, s)[puuid] == UpdatedHistory(HistoryOf(h, puuid), s)
    ensures !SomeWithPuuid(ps, puuid) ==>
              (puuid in HistoryFold(h, ps, s)) == (puuid in h) &&
              (puuid in h ==> HistoryFold(h, ps, s)[puuid] == h[puuid])
    decreases |ps|
  {
    if ps != [] {
      var init := ps[..|ps| - 1];
      var p := ps[|ps| - 1];
      assert forall i :: 0 <= i < |init| ==> init[i] == ps[i];
      assert SomeWithPuuid(ps, puuid) <==>
             SomeWithPuuid(init, puuid) || (Indexable(p) && p.puuid.value == puuid);
      HistoryFoldSpec(h, init, s, puuid);
      UpdatedHistoryIdempotent(HistoryOf(h, puuid), s);
    }
  }

  /** Every history is at most `HISTORY_CAP` long and lists each match once. */
  ghost predicate HistoryValid(h: map<string, seq<Stamp>>) {
    forall p :: p in h ==> |h[p]| <= HISTORY_CAP && DistinctIds(h[p])
  }

  ghost predicate HistoryRefsIn(h: map<string, seq<Stamp>>, keys: set<string>) {
    forall p, i :: p in h && 0 <= i < |h[p]| ==> h[p][i].matchId in keys
  }

  ghost predicate LatestRefsIn(m: map<string, Stamp>, keys: set<string>) {
    forall k :: k in m ==> m[k].matchId in keys
  }

  /** The cap and the de-duplication survive one visit. */
  lemma HistoryStepValid(h: map<string, seq<Stamp>>, puuid: string, s: Stamp, keys: set<string>)
    requires HistoryValid(h) && HistoryRefsIn(h, keys) && s.matchId in keys
    ensures HistoryValid(HistoryStep(h, puuid, s)) && HistoryRefsIn(HistoryStep(h, puuid, s), keys)
  {
    var l := HistoryOf(h, puuid);
    if !HasMatch(l, s.matchId) {
      var r := Prepended(l, s);
      forall i, j | 0 <= i < j < |r| ensures r[i].matchId != r[j].matchId {
        if i == 0 {
          assert r[j] == l[j - 1];
        } else {
          assert r[i] == l[i - 1] && r[j] == l[j - 1];
        }
      }
      var h': map<string, seq<Stamp>> := HistoryStep(h, puuid, s);
      forall p: string, i: int | p in h' && 0 <= i < |h'[p]| ensures h'[p][i].matchId in keys {
        if p == puuid && i > 0 {
          assert h'[p][i] == l[i - 1];
        }
      }
    }
  }

  lemma {:induction false} HistoryFoldValid(h: map<string, seq<Stamp>>, ps: seq<PlayerRef>, s: Stamp, keys: set<string>)
    requires HistoryValid(h) && HistoryRefsIn(h, keys) && s.matchId in keys
    ensures HistoryValid(HistoryFold(h, ps, s)) && HistoryRefsIn(HistoryFold(h, ps, s), keys)
    decreases |ps|
  {
    if ps != [] {
      HistoryFoldValid(h, ps[..|ps| - 1], s, keys);
      var p := ps[|ps| - 1];
      if Indexable(p) {
        HistoryStepValid(HistoryFold(h, ps[..|ps| - 1], s), p.puuid.value, s, keys);
      }
    }
  }

  lemma {:induction false} LatestFoldRefs(m: map<string, Stamp>, ps: seq<PlayerRef>, s: Stamp, keys: set<string>)
    requires LatestRefsIn(m, keys) && s.matchId in keys
    ensures LatestRefsIn(LatestFold(m, ps, s), keys)
    decreases |ps|
  {
    if ps != [] {
      LatestFoldRefs(m, ps[..|ps| - 1], s, keys);
    }
  }

  /** A payload without indexable participants leaves all three indexes as they were. */
  lemma {:induction false} FoldsWithoutIndexable(ps: seq<PlayerRef>, riot: map<string, string>,
                                                 latest: map<string, Stamp>, h: map<string, seq<Stamp>>, s: Stamp)
    requires forall i :: 0 <= i < |ps| ==> !Indexable(ps[i])
    ensures RiotFold(riot, ps) == riot && LatestFold(latest, ps, s) == latest && HistoryFold(h, ps, s) == h
    decreases |ps|
  {
    if ps != [] {
      FoldsWithoutIndexable(ps[..|ps| - 1], riot, latest, h, s);
    }
  }

  // ---------------------------------------------------------------- page slice

  function Min(a: int, b: int): int { if a <= b then a else b }

  /** `vec_ts_mids[start..min(start + size, len)]`, empty when `start >= len`. */
  function PageSlice(l: seq<Stamp>, start: nat, size: nat): (r: seq<Stamp>)
    ensures |r| <= size
    ensures start >= |l| ==> r == []
    ensures start < |l| ==> r == l[start..Min(start + size, |l|)]
  {
    if start >= |l| then [] else l[start..Min(start + size, |l|)]
  }

  /** The stored records of `ids`, in order, skipping ids with no blob; a corrupt blob fails the read. */
  function LoadPage(matches: map<string, Blob>, ids: seq<Stamp>): (r: Result<seq<Json>, StoreError>)
    ensures r.Success? ==> |r.value| <= |ids|
    ensures r.Failure? ==> r.error == Corrupt
    decreases |ids|
  {
    if ids == [] then Success([])
    else
      var prev := LoadPage(matches, ids[..|ids| - 1]);
      var mid := ids[|ids| - 1].matchId;
      if prev.Failure? then prev
      else if mid !in matches then prev
      else match Decode(matches[mid])
        case Failure(_) => Failure(Corrupt)
        case Success(v) => Success(prev.value + [v])
  }

  ghost predicate AllFrames(matches: map<string, Blob>) {
    forall k :: k in matches ==> matches[k].Frame?
  }

  /** When every id is present and every blob was written by the codec, nothing is skipped. */
  lemma {:induction false} LoadPageComplete(matches: map<string, Blob>, ids: seq<Stamp>)
    requires AllFrames(matches)
    requires forall i :: 0 <= i < |ids| ==> ids[i].matchId in matches
    ensures LoadPage(matches, ids).Success?
    ensures |LoadPage(matches, ids).value| == |ids|
    ensures forall i :: 0 <= i < |ids| ==>
              LoadPage(matches, ids).value[i] == matches[ids[i].matchId].root
    decreases |ids|
  {
    if ids != [] {
      var init := ids[..|ids| - 1];
      assert forall i :: 0 <= i < |init| ==> init[i] == ids[i];
      LoadPageComplete(matches, init);
    }
  }

  // --------------------------------------------------------------- the store

  class MatchStore {
    var matches: map<string, Blob>
    var byPuuid: map<string, seq<Stamp>>
    var riotToPuuid: map<string, string>
    var latestByPlayer: map<string, Stamp>

    /** Histories are capped and de-duplicated, and every index entry names a stored match. */
    ghost predicate Valid()
      reads this
    {
      && HistoryValid(byPuuid)
      && HistoryRefsIn(byPuuid, matches.Keys)
      && LatestRefsIn(latestByPlayer, matches.Keys)
    }

    /** Every blob in `matches` was written by `Encode`. */
    ghost predicate SelfWritten()
      reads this
    {
      AllFrames(matches)
    }

    /** `open` on a directory that holds no database yet. */
    constructor Open(scope: Scope)
      ensures Valid() && SelfWritten()
      ensures matches == map[] && byPuuid == map[] && riotToPuuid == map[] && latestByPlayer == map[]
    {
      matches := map[];
      byPuuid := map[];
      riotToPuuid := map[];
      latestByPlayer := map[];
    }

    /** The key `get_latest_for_player` and `get_puuid_for_riot` look up: trimmed, lowercased. */
    static function LookupKey(riotId: string): string {
      AsciiLower(Trim(riotId))
    }

    /** `get_latest_for_player`: the blob the latest entry of the riot id names, decoded. */
    function GetLatestForPlayer(riotId: string): (r: Result<Option<Json>, StoreError>)
      reads this
      ensures r.Success? && r.value.Some? ==>
                LookupKey(riotId) in latestByPlayer &&
                latestByPlayer[LookupKey(riotId)].matchId in matches &&
                Decode(matches[latestByPlayer[LookupKey(riotId)].matchId]) == Success(r.value.value)
      ensures LookupKey(riotId) !in latestByPlayer ==> r == Success(None)
      ensures LatestRefsIn(latestByPlayer, matches.Keys) && SelfWritten() ==>
                r.Success? && (r.value.Some? <==> LookupKey(riotId) in latestByPlayer)
    {
      var key := LookupKey(riotId);
      if key in latestByPlayer then
        var mid := latestByPlayer[key].matchId;
        if mid in matches then
          match Decode(matches[mid])
          case Success(v) => Success(Some(v))
          case Failure(_) => Failure(Corrupt)
        else Success(None)
      else Success(None)
    }

    /** `get_puuid_for_riot`. */
    function GetPuuidForRiot(riotId: string): (r: Option<string>)
      reads this
      ensures r.Some? <==> LookupKey(riotId) in riotToPuuid
      ensures r.Some? ==> r.value == riotToPuuid[LookupKey(riotId)]
    {
      var key := LookupKey(riotId);
      if key in riotToPuuid then Some(riotToPuuid[key]) else None
    }

    /** `get_page_by_puuid`: the stored records of one page of a player's history, in history order. */
    method GetPageByPuuid(puuid: string, start: nat, size: nat) returns (r: Result<seq<Json>, StoreError>)
      ensures r == LoadPage(matches, PageSlice(HistoryOf(byPuuid, puuid), start, size))
      ensures r.Success? ==> |r.value| <= size
      ensures start >= |HistoryOf(byPuuid, puuid)| ==> r == Success([])
      ensures Valid() && SelfWritten() ==>
                var page := PageSlice(HistoryOf(byPuuid, puuid), start, size);
                r.Success? && |r.value| == |page| &&
                forall i :: 0 <= i < |page| ==> Decode(matches[page[i].matchId]) == Success(r.value[i])
    {
      var out: seq<Json> := [];
      if puuid !in byPuuid {
        return Success(out);
      }
      var l := byPuuid[puuid];
      if start >= |l| {
        return Success(out);
      }
      var end := Min(start + size, |l|);
      var ids := l[start..end];
      var k := 0;
      while k < |ids|
        invariant 0 <= k <= |ids|
        invariant LoadPage(matches, ids[..k]) == Success(out)
      {
        var mid := ids[k].matchId;
        assert ids[..k + 1][..k] == ids[..k];
        if mid in matches {
          var d := Decode(matches[mid]);
          if d.Failure? {
            LoadPageFailurePersists(matches, ids[..k + 1], ids);
            return Failure(Corrupt);
          }
          out := out + [d.value];
        }
        k := k + 1;
      }
      assert ids[..|ids|] == ids;
      r := Success(out);
      if Valid() && SelfWritten() {
        ConsistentPage(matches, byPuuid, puuid, start, size);
      }
    }

    /**
     * `upsert_match`: store the wrapped payload under its match id, then
     * visit the participants in order and update the three indexes. Fails,
     * writing nothing, when the payload carries no string match id.
     */
    method UpsertMatch(raw: Json, parseRfc3339: string -> Option<int>, now: int) returns (r: Result<(), StoreError>)
      requires Valid()
      modifies this
      ensures Valid()
      ensures old(SelfWritten()) ==> SelfWritten()
      ensures MatchIdOf(DataView(raw)).None? ==> r == Failure(MissingMatchId) && unchanged(this)
      ensures MatchIdOf(DataView(raw)).Some? ==>
                var data := DataView(raw);
                var s := Stamp(ExtractTs(data, parseRfc3339, now), MatchIdOf(data).value);
                var players := CollectPlayers(data);
                && r == Success(())
                && matches == old(matches)[s.matchId := Encode(NormalizeToWrapped(raw))]
                && riotToPuuid == RiotFold(old(riotToPuuid), players)
                && latestByPlayer == LatestFold(old(latestByPlayer), players, s)
                && byPuuid == HistoryFold(old(byPuuid), players, s)
    {
      var root := NormalizeToWrapped(raw);
      var data := DataView(root);
      var midOpt := MatchIdOf(data);
      if midOpt.None? {
        return Failure(MissingMatchId);
      }
      var mid := midOpt.value;
      var ts := ExtractTs(data, parseRfc3339, now);
      var players := CollectPlayers(data);
      var s := Stamp(ts, mid);

      matches := matches[mid := Encode(root)];
      IndexPlayers(players, s);
      return Success(());
    }

    /** The per-player loop of `upsert_match`, over the players of a match already stored. */
    method IndexPlayers(players: seq<PlayerRef>, s: Stamp)
      requires Valid() && s.matchId in matches
      modifies this
      ensures Valid()
      ensures matches == old(matches)
      ensures riotToPuuid == RiotFold(old(riotToPuuid), players)
      ensures latestByPlayer == LatestFold(old(latestByPlayer), players, s)
      ensures byPuuid == HistoryFold(old(byPuuid), players, s)
    {
      var i := 0;
      while i < |players|
        invariant 0 <= i <= |players|
        invariant matches == old(matches)
        invariant riotToPuuid == RiotFold(old(riotToPuuid), players[..i])
        invariant latestByPlayer == LatestFold(old(latestByPlayer), players[..i], s)
        invariant byPuuid == HistoryFold(old(byPuuid), players[..i], s)
        invariant Valid()
      {
        assert players[..i + 1][..i] == players[..i];
        IndexPlayer(players[i], s);
        i := i + 1;
      }
      assert players[..|players|] == players;
    }

    /** One turn of the per-player loop of `upsert_match`. */
    method IndexPlayer(p: PlayerRef, s: Stamp)
      requires Valid() && s.matchId in matches
      modifies this
      ensures Valid()
      ensures matches == old(matches)
      ensures riotToPuuid == if Indexable(p) then old(riotToPuuid)[KeyOf(p) := p.puuid.value] else old(riotToPuuid)
      ensures latestByPlayer == if Indexable(p) then LatestStep(old(latestByPlayer), KeyOf(p), s) else old(latestByPlayer)
      ensures byPuuid == if Indexable(p) then HistoryStep(old(byPuuid), p.puuid.value, s) else old(byPuuid)
    {
      if p.puuid.Some? && p.name.Some? && p.tag.Some? {
        var puuid := p.puuid.value;
        HistoryStepValid(byPuuid, puuid, s, matches.Keys);
        var riotKey := RiotKey(p.name.value, p.tag.value);
        riotToPuuid := riotToPuuid[riotKey := puuid];

        var writeLatest := if riotKey in latestByPlayer then s.ts >= latestByPlayer[riotKey].ts else true;
        if writeLatest {
          latestByPlayer := latestByPlayer[riotKey := s];
        }

        var history := if puuid in byPuuid then byPuuid[puuid] else [];
        var listed := Listed(history, s.matchId);
        if !listed {
          history := [s] + history;
          if |history| > HISTORY_CAP { history := history[..HISTORY_CAP]; }
          byPuuid := byPuuid[puuid := history];
        }
      }
    }
  }

  /** In a consistent store every entry of a page names a stored frame, so the page reads in full. */
  lemma ConsistentPage(matches: map<string, Blob>, h: map<string, seq<Stamp>>, puuid: string, start: nat, size: nat)
    requires HistoryRefsIn(h, matches.Keys) && AllFrames(matches)
    ensures var page := PageSlice(HistoryOf(h, puuid), start, size);
              && LoadPage(matches, page).Success? && |LoadPage(matches, page).value| == |page|
              && forall i :: 0 <= i < |page| ==> Decode(matches[page[i].matchId]) == Success(LoadPage(matches, page).value[i])
  {
    var l := HistoryOf(h, puuid);
    var page := PageSlice(l, start, size);
    forall j | 0 <= j < |page| ensures page[j].matchId in matches {
      assert page[j] == l[start + j];
    }
    LoadPageComplete(matches, page);
  }

  /** Once a page read hits a corrupt blob, reading any longer page fails too. */
  lemma {:induction false} LoadPageFailurePersists(matches: map<string, Blob>, ids: seq<Stamp>, longer: seq<Stamp>)
    requires ids <= longer
    requires LoadPage(matches, ids).Failure?
    ensures LoadPage(matches, longer) == Failure(Corrupt)
    decreases |longer|
  {
    if |longer| > |ids| {
      assert ids <= longer[..|longer| - 1];
      LoadPageFailurePersists(matches, ids, longer[..|longer| - 1]);
    } else {
      assert ids == longer;
    }
  }
}
