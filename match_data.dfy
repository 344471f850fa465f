/**
 * The tolerant reader of a Henrik match payload (`MatchData::from_match_json`)
 * and the layout `serde` gives a `MatchData` when it is written to the match
 * cache. The reader accepts the v4 payload (`"teams"` as an array of
 * `{team_id, won, rounds}`) and the older object form (`"teams": {red, blue}`),
 * fills every missing field with its default, and fails only when the
 * metadata or its match id is missing.
 */
module MatchData {

  import opened Wrappers
  import opened Json

  // ------------------------------------------------------------------ records

  /** `Killer` and `Victim`: the same three fields. */
  datatype Participant = Participant(puuid: string, name: string, tag: string)

  /** `Red` and `Blue`: the same three fields; `Default` is `Red::default()`. */
  datatype TeamResult = TeamResult(hasWon: bool, roundsWon: i32, roundsLost: i32)

  const NoResult := TeamResult(false, 0, 0)

  /** `Spent`; its `average: f32` is not modelled. */
  datatype Spent = Spent(overall: i32)

  datatype Economy = Economy(spent: Spent)

  datatype Damage = Damage(dealt: i32, received: i32)

  datatype Stats = Stats(
    score: i32, kills: i32, deaths: i32, assists: i32,
    headshots: i32, legshots: i32, bodyshots: i32, damage: Damage)

  datatype Agent = Agent(name: string)

  datatype MapInfo = MapInfo(name: string)

  datatype Kill = Kill(killer: Participant, victim: Participant)

  datatype Teams = Teams(red: TeamResult, blue: TeamResult)

  datatype Player = Player(
    puuid: string, name: string, tag: string, rank: Option<string>,
    teamId: string, agent: Agent, stats: Stats, economy: Economy)

  datatype Queue = Queue(id: string, name: string, modeType: string)

  datatype Metadata = Metadata(matchId: string, mapInfo: MapInfo)

  datatype Match = Match(
    metadata: Metadata, gameLengthInMs: i32, startedAt: string, queue: Queue,
    players: seq<Player>, teams: Teams, kills: seq<Kill>)

  // ------------------------------------------------------------ field readers

  /** The metadata block: `None` unless it is an object holding a string `match_id`. */
  function ParseMetadata(data: Json): (r: Option<Metadata>)
    ensures r.Some? <==> AsObject(Get(data, "metadata")).Some? && AsStr(At(data, ["metadata", "match_id"])).Some?
    ensures r.Some? ==> r.value.matchId == AsStr(At(data, ["metadata", "match_id"])).value
    ensures r.Some? ==> r.value.mapInfo.name == StrOrEmpty(At(data, ["metadata", "map", "name"]))
  {
    var meta := Get(data, "metadata");
    if AsObject(meta).None? then None
    else
      var mid := AsStr(GetOpt(meta, "match_id"));
      if mid.None? then None
      else Some(Metadata(mid.value, MapInfo(StrOrEmpty(At(meta.value, ["map", "name"])))))
  }

  /**
   * `game_length_in_ms`: the metadata field when present (of any kind, read
   * by `as_i32`), else the top-level field, else 0.
   */
  function GameLength(data: Json): (r: i32)
    ensures At(data, ["metadata", "game_length_in_ms"]).Some? ==> r == AsI32(At(data, ["metadata", "game_length_in_ms"]).value)
    ensures At(data, ["metadata", "game_length_in_ms"]).None? ==> r == I32Or0(Get(data, "game_length_in_ms"))
  {
    var inMeta := GetOpt(Get(data, "metadata"), "game_length_in_ms");
    if inMeta.Some? then AsI32(inMeta.value) else I32Or0(Get(data, "game_length_in_ms"))
  }

  /** `started_at`: a string in the metadata, else a top-level string, else "". */
  function StartedAt(data: Json): (r: string)
    ensures AsStr(At(data, ["metadata", "started_at"])).Some? ==> r == AsStr(At(data, ["metadata", "started_at"])).value
    ensures AsStr(At(data, ["metadata", "started_at"])).None? ==> r == StrOrEmpty(Get(data, "started_at"))
  {
    AsStr(GetOpt(Get(data, "metadata"), "started_at")).OrElse(AsStr(Get(data, "started_at"))).GetOr("")
  }

  /** The queue block: the metadata's `queue` if present, else the top-level one, else null. */
  function QueueOf(data: Json): (r: Queue)
    ensures var q := GetOpt(Get(data, "metadata"), "queue").OrElse(Get(data, "queue"));
      r == Queue(StrOrEmpty(GetOpt(q, "id")), StrOrEmpty(GetOpt(q, "name")), StrOrEmpty(GetOpt(q, "mode_type")))
  {
    var q := GetOpt(Get(data, "metadata"), "queue").OrElse(Get(data, "queue")).GetOr(JNull);
    Queue(StrOrEmpty(Get(q, "id")), StrOrEmpty(Get(q, "name")), StrOrEmpty(Get(q, "mode_type")))
  }

  /** The `stats` block of a player: every counter defaults to 0. */
  function ParseStats(sv: Json): Stats {
    Stats(
      I32Or0(Get(sv, "score")), I32Or0(Get(sv, "kills")), I32Or0(Get(sv, "deaths")),
      I32Or0(Get(sv, "assists")), I32Or0(Get(sv, "headshots")), I32Or0(Get(sv, "legshots")),
      I32Or0(Get(sv, "bodyshots")),
      Damage(I32Or0(At(sv, ["damage", "dealt"])), I32Or0(At(sv, ["damage", "received"]))))
  }

  /** The `economy` block of a player: `spent.overall`, defaulting to 0. */
  function ParseEconomy(ev: Json): Economy {
    Economy(Spent(I32Or0(Get(Get(ev, "spent").GetOr(JNull), "overall"))))
  }

  /** One entry of `players`: every field defaults; `rank` is kept only when it is a string. */
  function ParsePlayer(p: Json): (r: Player)
    ensures r.rank.Some? <==> AsStr(Get(p, "rank")).Some?
    ensures r.rank.Some? ==> r.rank.value == AsStr(Get(p, "rank")).value
    ensures r.puuid == StrOrEmpty(Get(p, "puuid"))
  {
    Player(
      StrOrEmpty(Get(p, "puuid")), StrOrEmpty(Get(p, "name")), StrOrEmpty(Get(p, "tag")),
      AsStr(Get(p, "rank")),
      StrOrEmpty(Get(p, "team_id")),
      Agent(StrOrEmpty(At(p, ["agent", "name"]))),
      ParseStats(Get(p, "stats").GetOr(JNull)),
      ParseEconomy(Get(p, "economy").GetOr(JNull)))
  }

  /** The side a v4 team entry's `team_id` names: `"Red" | "red"` or `"Blue" | "blue"`. */
  predicate OnSide(t: Json, red: bool) {
    var id := StrOrEmpty(Get(t, "team_id"));
    if red then id == "Red" || id == "red" else id == "Blue" || id == "blue"
  }

  /** A v4 team entry: `won` and the `rounds` object's `won` / `lost`, each defaulting. */
  function TeamEntry(t: Json): TeamResult {
    TeamResult(
      AsBool(Get(t, "won")).GetOr(false),
      I32Or0(At(t, ["rounds", "won"])),
      I32Or0(At(t, ["rounds", "lost"])))
  }

  /** The index of the last entry of `arr` on the given side. */
  function LastOnSide(arr: seq<Json>, red: bool): (r: Option<nat>)
    ensures r.Some? ==> r.value < |arr| && OnSide(arr[r.value], red)
    ensures r.Some? ==> forall k :: r.value < k < |arr| ==> !OnSide(arr[k], red)
    ensures r.None? ==> forall k :: 0 <= k < |arr| ==> !OnSide(arr[k], red)
    decreases |arr|
  {
    if arr == [] then None
    else if OnSide(arr[|arr| - 1], red) then Some(|arr| - 1)
    else LastOnSide(arr[..|arr| - 1], red)
  }

  /** In the array form a later entry for a side overwrites an earlier one. */
  function SideFromArray(arr: seq<Json>, red: bool): TeamResult {
    var k := LastOnSide(arr, red);
    if k.Some? then TeamEntry(arr[k.value]) else NoResult
  }

  /** The object form: `has_won`, `rounds_won`, `rounds_lost` of an object, or the default. */
  function SideFromObject(o: Option<Json>): TeamResult {
    if AsObject(o).None? then NoResult
    else TeamResult(
      AsBool(GetOpt(o, "has_won")).GetOr(false),
      I32Or0(GetOpt(o, "rounds_won")),
      I32Or0(GetOpt(o, "rounds_lost")))
  }

  /** `teams`: the array form wins over the object form; anything else gives two defaults. */
  function ParseTeams(data: Json): (r: Teams)
    ensures AsArray(Get(data, "teams")).Some? ==>
      var arr := AsArray(Get(data, "teams")).value;
      r == Teams(SideFromArray(arr, true), SideFromArray(arr, false))
    ensures AsObject(Get(data, "teams")).Some? ==>
      r == Teams(SideFromObject(At(data, ["teams", "red"])), SideFromObject(At(data, ["teams", "blue"])))
    ensures AsArray(Get(data, "teams")).None? && AsObject(Get(data, "teams")).None? ==> r == Teams(NoResult, NoResult)
  {
    var t := Get(data, "teams");
    if AsArray(t).Some? then Teams(SideFromArray(AsArray(t).value, true), SideFromArray(AsArray(t).value, false))
    else if AsObject(t).Some? then Teams(SideFromObject(GetOpt(t, "red")), SideFromObject(GetOpt(t, "blue")))
    else Teams(NoResult, NoResult)
  }

  function ParseParticipant(o: Option<Json>): Participant {
    Participant(StrOrEmpty(GetOpt(o, "puuid")), StrOrEmpty(GetOpt(o, "name")), StrOrEmpty(GetOpt(o, "tag")))
  }

  function ParseKill(k: Json): Kill {
    Kill(ParseParticipant(Get(k, "killer")), ParseParticipant(Get(k, "victim")))
  }

  /** The elements of an array field, or nothing when the field is not an array. */
  function Items(data: Json, key: string): seq<Json> {
    AsArray(Get(data, key)).GetOr([])
  }

  function ParsePlayers(data: Json): seq<Player> {
    var ps := Items(data, "players");
    seq(|ps|, i requires 0 <= i < |ps| => ParsePlayer(ps[i]))
  }

  function ParseKills(data: Json): seq<Kill> {
    var ks := Items(data, "kills");
    seq(|ks|, i requires 0 <= i < |ks| => ParseKill(ks[i]))
  }

  /**
   * The reference reading of a payload: the result `from_match_json` must
   * produce, `None` exactly when the metadata or its match id is missing.
   */
  function ParseMatch(root: Json): (r: Option<Match>)
    ensures r.Some? <==> ParseMetadata(DataView(root)).Some?
    ensures r.Some? ==> r.value.metadata == ParseMetadata(DataView(root)).value
    ensures r.Some? ==> |r.value.players| == |Items(DataView(root), "players")|
    ensures r.Some? ==> |r.value.kills| == |Items(DataView(root), "kills")|
  {
    var data := DataView(root);
    var meta := ParseMetadata(data);
    if meta.None? then None
    else
      Some(Match(
        meta.value, GameLength(data), StartedAt(data), QueueOf(data),
        ParsePlayers(data), ParseTeams(data), ParseKills(data)))
  }

  /**
   * `from_match_json`: the metadata first (its absence ends the reading), the
   * fallback chains, then one pass each over `players`, `teams` and `kills`.
   */
  method FromMatchJson(root: Json) returns (r: Option<Match>)
    ensures r == ParseMatch(root)
  {
    var data := DataView(root);
    var meta := ParseMetadata(data);
    if meta.None? {
      return None;
    }
    var players: seq<Player> := [];
    var pArr := AsArray(Get(data, "players"));
    if pArr.Some? {
      players := ReadPlayers(pArr.value);
    }

    var red, blue := NoResult, NoResult;
    var t := Get(data, "teams");
    if AsArray(t).Some? {
      red, blue := ReadTeamArray(AsArray(t).value);
    } else if AsObject(t).Some? {
      if AsObject(GetOpt(t, "red")).Some? {
        red := SideFromObject(GetOpt(t, "red"));
      }
      if AsObject(GetOpt(t, "blue")).Some? {
        blue := SideFromObject(GetOpt(t, "blue"));
      }
    }

    var kills: seq<Kill> := [];
    var kArr := AsArray(Get(data, "kills"));
    if kArr.Some? {
      kills := ReadKills(kArr.value);
    }

    assert players == ParsePlayers(data);
    assert kills == ParseKills(data);
    r := Some(Match(meta.value, GameLength(data), StartedAt(data), QueueOf(data),
                    players, Teams(red, blue), kills));
  }

  /** The `players` loop: one record per element, in order. */
  method ReadPlayers(ps: seq<Json>) returns (players: seq<Player>)
    ensures |players| == |ps|
    ensures forall j :: 0 <= j < |ps| ==> players[j] == ParsePlayer(ps[j])
  {
    players := [];
    var i := 0;
    while i < |ps|
      invariant 0 <= i <= |ps|
      invariant |players| == i
      invariant forall j :: 0 <= j < i ==> players[j] == ParsePlayer(ps[j])
    {
      players := players + [ParsePlayer(ps[i])];
      i := i + 1;
    }
  }

  /** The `teams` loop over the array form: each matching entry overwrites its side. */
  method ReadTeamArray(ts: seq<Json>) returns (red: TeamResult, blue: TeamResult)
    ensures red == SideFromArray(ts, true)
    ensures blue == SideFromArray(ts, false)
  {
    red, blue := NoResult, NoResult;
    var i := 0;
    while i < |ts|
      invariant 0 <= i <= |ts|
      invariant red == SideFromArray(ts[..i], true)
      invariant blue == SideFromArray(ts[..i], false)
    {
      assert ts[..i + 1][..i] == ts[..i];
      var id := StrOrEmpty(Get(ts[i], "team_id"));
      if id == "Red" || id == "red" {
        red := TeamEntry(ts[i]);
      } else if id == "Blue" || id == "blue" {
        blue := TeamEntry(ts[i]);
      }
      i := i + 1;
    }
    assert ts[..|ts|] == ts;
  }

  /** The `kills` loop: one record per element, in order. */
  method ReadKills(ks: seq<Json>) returns (kills: seq<Kill>)
    ensures |kills| == |ks|
    ensures forall j :: 0 <= j < |ks| ==> kills[j] == ParseKill(ks[j])
  {
    kills := [];
    var i := 0;
    while i < |ks|
      invariant 0 <= i <= |ks|
      invariant |kills| == i
      invariant forall j :: 0 <= j < i ==> kills[j] == ParseKill(ks[j])
    {
      kills := kills + [ParseKill(ks[i])];
      i := i + 1;
    }
  }

  // ------------------------------------------------------------------- lemmas

  /** The reading fails exactly when the metadata is not an object or its `match_id` is not a string. */
  lemma ParseMatchFails(root: Json)
    ensures ParseMatch(root).None? <==>
      AsObject(At(DataView(root), ["metadata"])).None? || AsStr(At(DataView(root), ["metadata", "match_id"])).None?
  {
    assert At(DataView(root), ["metadata"]) == Get(DataView(root), "metadata");
  }

  /** Players and kills keep the payload's order, one record per element. */
  lemma ParseMatchOrder(root: Json, i: nat)
    requires ParseMatch(root).Some?
    ensures i < |Items(DataView(root), "players")| ==>
      ParseMatch(root).value.players[i] == ParsePlayer(Items(DataView(root), "players")[i])
    ensures i < |Items(DataView(root), "kills")| ==>
      ParseMatch(root).value.kills[i] == ParseKill(Items(DataView(root), "kills")[i])
  {
  }

  /** The array form of `teams` takes each side from its last entry, and ignores entries for neither side. */
  lemma {:induction false} LaterEntryWins(arr: seq<Json>, t: Json, red: bool)
    ensures OnSide(t, red) ==> SideFromArray(arr + [t], red) == TeamEntry(t)
    ensures !OnSide(t, red) ==> SideFromArray(arr + [t], red) == SideFromArray(arr, red)
  {
    assert (arr + [t])[..|arr|] == arr;
  }

  /** A side no entry names keeps its default, whatever the other entries say. */
  lemma UnnamedSideDefaults(arr: seq<Json>, red: bool)
    requires forall k :: 0 <= k < |arr| ==> !OnSide(arr[k], red)
    ensures SideFromArray(arr, red) == NoResult
  {
  }

  // ------------------------------------------------- the serde layout on disk

  function I(x: i32): Json { JInt(x as int) }

  function ParticipantJson(p: Participant): Json {
    JObj(map["puuid" := JStr(p.puuid), "name" := JStr(p.name), "tag" := JStr(p.tag)])
  }

  function TeamJson(t: TeamResult): Json {
    JObj(map["has_won" := JBool(t.hasWon), "rounds_won" := I(t.roundsWon), "rounds_lost" := I(t.roundsLost)])
  }

  function StatsJson(s: Stats): Json {
    JObj(map[
      "score" := I(s.score), "kills" := I(s.kills), "deaths" := I(s.deaths),
      "assists" := I(s.assists), "headshots" := I(s.headshots), "legshots" := I(s.legshots),
      "bodyshots" := I(s.bodyshots),
      "damage" := JObj(map["dealt" := I(s.damage.dealt), "received" := I(s.damage.received)])])
  }

  function EconomyJson(e: Economy): Json {
    JObj(map["spent" := JObj(map["overall" := I(e.spent.overall)])])
  }

  function PlayerJson(p: Player): Json {
    JObj(map[
      "puuid" := JStr(p.puuid), "name" := JStr(p.name), "tag" := JStr(p.tag),
      "rank" := (if p.rank.Some? then JStr(p.rank.value) else JNull),
      "team_id" := JStr(p.teamId),
      "agent" := JObj(map["name" := JStr(p.agent.name)]),
      "stats" := StatsJson(p.stats),
      "economy" := EconomyJson(p.economy)])
  }

  function KillJson(k: Kill): Json {
    JObj(map["killer" := ParticipantJson(k.killer), "victim" := ParticipantJson(k.victim)])
  }

  function MetadataJson(md: Metadata): Json {
    JObj(map["match_id" := JStr(md.matchId), "map" := JObj(map["name" := JStr(md.mapInfo.name)])])
  }

  function QueueJson(q: Queue): Json {
    JObj(map["id" := JStr(q.id), "name" := JStr(q.name), "mode_type" := JStr(q.modeType)])
  }

  function TeamsJson(t: Teams): Json {
    JObj(map["red" := TeamJson(t.red), "blue" := TeamJson(t.blue)])
  }

  /** The `#[derive(Serialize)]` layout of a `MatchData`, as `save_to_disk` writes it. */
  function ToJson(m: Match): Json {
    JObj(map[
      "metadata" := MetadataJson(m.metadata),
      "game_length_in_ms" := I(m.gameLengthInMs),
      "started_at" := JStr(m.startedAt),
      "queue" := QueueJson(m.queue),
      "players" := JArr(seq(|m.players|, i requires 0 <= i < |m.players| => PlayerJson(m.players[i]))),
      "teams" := TeamsJson(m.teams),
      "kills" := JArr(seq(|m.kills|, i requires 0 <= i < |m.kills| => KillJson(m.kills[i])))])
  }

  lemma AsI32OfI32(x: i32)
    ensures AsI32(I(x)) == x
  {
  }

  /** A value whose fields hold the encodings of a stats record reads back as that record. */
  lemma ReadStats(j: Json, s: Stats)
    requires Get(j, "score") == Some(I(s.score)) && Get(j, "kills") == Some(I(s.kills))
    requires Get(j, "deaths") == Some(I(s.deaths)) && Get(j, "assists") == Some(I(s.assists))
    requires Get(j, "headshots") == Some(I(s.headshots)) && Get(j, "legshots") == Some(I(s.legshots))
    requires Get(j, "bodyshots") == Some(I(s.bodyshots))
    requires At(j, ["damage", "dealt"]) == Some(I(s.damage.dealt))
    requires At(j, ["damage", "received"]) == Some(I(s.damage.received))
    ensures ParseStats(j) == s
  {
  }

  lemma StatsRoundTrip(s: Stats)
    ensures ParseStats(StatsJson(s)) == s
  {
    var j := StatsJson(s);
    var d := JObj(map["dealt" := I(s.damage.dealt), "received" := I(s.damage.received)]);
    assert Get(j, "damage") == Some(d);
    ReadStats(j, s);
  }

  lemma EconomyRoundTrip(e: Economy)
    ensures ParseEconomy(EconomyJson(e)) == e
  {
  }

  lemma PlayerJsonNames(p: Player)
    ensures Get(PlayerJson(p), "puuid") == Some(JStr(p.puuid)) && Get(PlayerJson(p), "name") == Some(JStr(p.name))
    ensures Get(PlayerJson(p), "tag") == Some(JStr(p.tag)) && Get(PlayerJson(p), "team_id") == Some(JStr(p.teamId))
  {
  }

  lemma PlayerJsonBlocks(p: Player)
    ensures AsStr(Get(PlayerJson(p), "rank")) == p.rank
    ensures At(PlayerJson(p), ["agent", "name"]) == Some(JStr(p.agent.name))
    ensures Get(PlayerJson(p), "stats") == Some(StatsJson(p.stats))
    ensures Get(PlayerJson(p), "economy") == Some(EconomyJson(p.economy))
  {
  }

  /** A value whose fields hold the encodings of a player's fields reads back as that player. */
  lemma ReadPlayer(j: Json, p: Player)
    requires Get(j, "puuid") == Some(JStr(p.puuid)) && Get(j, "name") == Some(JStr(p.name))
    requires Get(j, "tag") == Some(JStr(p.tag)) && Get(j, "team_id") == Some(JStr(p.teamId))
    requires AsStr(Get(j, "rank")) == p.rank
    requires At(j, ["agent", "name"]) == Some(JStr(p.agent.name))
    requires ParseStats(Get(j, "stats").GetOr(JNull)) == p.stats
    requires ParseEconomy(Get(j, "economy").GetOr(JNull)) == p.economy
    ensures ParsePlayer(j) == p
  {
  }

  lemma PlayerRoundTrip(p: Player)
    ensures ParsePlayer(PlayerJson(p)) == p
  {
    StatsRoundTrip(p.stats);
    EconomyRoundTrip(p.economy);
    PlayerJsonNames(p);
    PlayerJsonBlocks(p);
    ReadPlayer(PlayerJson(p), p);
  }

  lemma TeamRoundTrip(t: TeamResult)
    ensures SideFromObject(Some(TeamJson(t))) == t
  {
    AsI32OfI32(t.roundsWon);
    AsI32OfI32(t.roundsLost);
  }

  lemma KillRoundTrip(k: Kill)
    ensures ParseKill(KillJson(k)) == k
  {
  }

  /** The top-level fields of the cache layout. */
  lemma ToJsonHead(m: Match)
    ensures Get(ToJson(m), "data") == None
    ensures Get(ToJson(m), "metadata") == Some(MetadataJson(m.metadata))
    ensures Get(ToJson(m), "game_length_in_ms") == Some(I(m.gameLengthInMs))
    ensures Get(ToJson(m), "started_at") == Some(JStr(m.startedAt))
  {
  }

  lemma ToJsonBody(m: Match)
    ensures Get(ToJson(m), "queue") == Some(QueueJson(m.queue))
    ensures Get(ToJson(m), "players") == Some(JArr(seq(|m.players|, i requires 0 <= i < |m.players| => PlayerJson(m.players[i]))))
    ensures Get(ToJson(m), "teams") == Some(TeamsJson(m.teams))
    ensures Get(ToJson(m), "kills") == Some(JArr(seq(|m.kills|, i requires 0 <= i < |m.kills| => KillJson(m.kills[i]))))
  {
  }

  lemma MetadataRoundTrip(m: Match)
    ensures ParseMetadata(ToJson(m)) == Some(m.metadata)
  {
    ToJsonHead(m);
  }

  lemma TimingRoundTrip(m: Match)
    ensures GameLength(ToJson(m)) == m.gameLengthInMs
    ensures StartedAt(ToJson(m)) == m.startedAt
  {
    ToJsonHead(m);
    AsI32OfI32(m.gameLengthInMs);
    assert At(ToJson(m), ["metadata", "game_length_in_ms"]) == None;
  }

  lemma QueueRoundTrip(m: Match)
    ensures QueueOf(ToJson(m)) == m.queue
  {
    ToJsonHead(m);
    ToJsonBody(m);
  }

  lemma TeamsRoundTrip(m: Match)
    ensures ParseTeams(ToJson(m)) == m.teams
  {
    ToJsonBody(m);
    TeamRoundTrip(m.teams.red);
    TeamRoundTrip(m.teams.blue);
  }

  lemma {:induction false} ListsRoundTrip(m: Match)
    ensures ParsePlayers(ToJson(m)) == m.players
    ensures ParseKills(ToJson(m)) == m.kills
  {
    ToJsonBody(m);
    var ps := Items(ToJson(m), "players");
    forall i | 0 <= i < |m.players|
      ensures ParsePlayer(ps[i]) == m.players[i]
    {
      PlayerRoundTrip(m.players[i]);
    }
    var ks := Items(ToJson(m), "kills");
    forall i | 0 <= i < |m.kills|
      ensures ParseKill(ks[i]) == m.kills[i]
    {
      KillRoundTrip(m.kills[i]);
    }
  }

  /** A match written to the cache reads back as the same match. */
  lemma {:induction false} RoundTrip(m: Match)
    ensures ParseMatch(ToJson(m)) == Some(m)
  {
    ToJsonHead(m);
    assert DataView(ToJson(m)) == ToJson(m);
    MetadataRoundTrip(m);
    TimingRoundTrip(m);
    QueueRoundTrip(m);
    TeamsRoundTrip(m);
    ListsRoundTrip(m);
  }

  // -------------------------------------------------------------- file naming

  /** `save_match_to_disk`: the file is `<match_id>.json` under the base directory (paths as components). */
  function SavePath(baseDir: seq<string>, m: Match): (p: seq<string>)
    ensures |p| == |baseDir| + 1 && p[..|baseDir|] == baseDir
  {
    baseDir + [m.metadata.matchId + ".json"]
  }

  /** Two matches share a file only when they share a match id. */
  lemma {:induction false} SavePathInjective(baseDir: seq<string>, m1: Match, m2: Match)
    requires SavePath(baseDir, m1) == SavePath(baseDir, m2)
    ensures m1.metadata.matchId == m2.metadata.matchId
  {
    var a := m1.metadata.matchId + ".json";
    var b := m2.metadata.matchId + ".json";
    assert a == SavePath(baseDir, m1)[|baseDir|];
    assert b == SavePath(baseDir, m2)[|baseDir|];
    assert a[..|a| - 5] == m1.metadata.matchId;
    assert b[..|b| - 5] == m2.metadata.matchId;
  }
}
