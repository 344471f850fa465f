/**
 * The control flow of `fetch_custom_match_data`: validation, the match-list
 * request, selection, and per selected id either the cached record or the
 * match request, the rank lookups and the save. Every reply, cache read and
 * rank lookup is a parameter; the run reports the requests and saves it
 * makes, in order, as a trace of effects, and the files it has saved so far
 * are read in place of the cache when a later id names the same file.
 */
module CustomFetch {

  import opened Wrappers
  import opened Json
  import opened MatchData
  import opened CustomMatch

  /** What the fetch does to the outside world. */
  datatype Effect =
    | ListRequest(name: string, tag: string, size: u8, start: nat)
    | MatchRequest(matchId: string)
    | RankRequest(puuid: string)
    | SaveMatch(path: seq<string>)

  /**
   * The arguments of the fetch that are fixed for the whole run, and its
   * inputs from outside; `cache` is the record files as they were when the
   * run started.
   */
  datatype Ctx = Ctx(
    guildId: string, platform: string, region: string, modeType: string, skipStored: bool,
    cache: seq<string> -> Option<Json>,
    matchReply: string -> Option<Json>,
    fetchRank: string -> Option<Json>)

  datatype Query = Query(auth: string, name: string, tag: string, start: nat, querySize: u8, storeMatches: u8)

  datatype Run = Run(result: Result<Option<Json>, FetchError>, effects: seq<Effect>)

  function RankRequests(pairs: seq<(nat, string)>): (e: seq<Effect>)
    ensures |e| == |pairs|
    ensures forall k :: 0 <= k < |pairs| ==> e[k] == RankRequest(pairs[k].1)
  {
    seq(|pairs|, k requires 0 <= k < |pairs| => RankRequest(pairs[k].1))
  }

  /** The rank lookups of one match: one request and one result per indexed puuid. */
  method LookupRanks(pairs: seq<(nat, string)>, fetchRank: string -> Option<Json>)
    returns (results: seq<(nat, string)>, effects: seq<Effect>)
    ensures results == RankResults(pairs, fetchRank)
    ensures effects == RankRequests(pairs)
  {
    results := [];
    effects := [];
    var k := 0;
    while k < |pairs|
      invariant 0 <= k <= |pairs|
      invariant results == RankResults(pairs[..k], fetchRank)
      invariant effects == RankRequests(pairs[..k])
    {
      var (idx, puuid) := pairs[k];
      effects := effects + [RankRequest(puuid)];
      results := results + [(idx, RankOf(fetchRank(puuid)))];
      k := k + 1;
    }
    assert pairs[..|pairs|] == pairs;
  }

  /** A fetched match body after its ranks are written back (when it has indexed puuids). */
  function Ranked(ctx: Ctx, body: Json): Json {
    var pairs := CollectIndexedPuuids(body);
    if pairs == [] then body else WithRanks(body, RankResults(pairs, ctx.fetchRank))
  }

  /** The files a run has saved so far, by path, with the record each now holds. */
  type Written = map<seq<string>, Json>

  /** A record file as the run sees it: what it saved there itself, else what was there before. */
  function Lookup(ctx: Ctx, written: Written, path: seq<string>): Option<Json> {
    if path in written then Some(written[path]) else ctx.cache(path)
  }

  /** The files after the save of a ranked body: a parsed record is written, in its serialized layout. */
  function SaveTo(ctx: Ctx, ranked: Json, written: Written): Written {
    var md := ParseMatch(ranked);
    if md.Some? then written[SavePath(BaseDir(ctx.guildId, ctx.platform, ctx.region, ctx.modeType), md.value) := ToJson(md.value)]
    else written
  }

  /** The save of a ranked body: only a body that parses as a match record is written. */
  function SaveEffects(ctx: Ctx, ranked: Json): seq<Effect> {
    var md := ParseMatch(ranked);
    if md.Some? then [SaveMatch(SavePath(BaseDir(ctx.guildId, ctx.platform, ctx.region, ctx.modeType), md.value))] else []
  }

  /** The handling of a match reply: the ranked body, and the rank requests and save it causes. */
  function Processed(ctx: Ctx, body: Json): (Json, seq<Effect>) {
    (Ranked(ctx, body), RankRequests(CollectIndexedPuuids(body)) + SaveEffects(ctx, Ranked(ctx, body)))
  }

  /** What happens for one selected id. */
  datatype Step =
    | Skipped
    | FromCache(json: Json)
    | Fetched(body: Json, effects: seq<Effect>, written: Written)
    | RequestFailed

  /** What happens for `mid` once the run has saved `written`. */
  function StepFor(ctx: Ctx, written: Written, mid: string): Step {
    var local := Lookup(ctx, written, LocalPath(ctx.guildId, ctx.platform, ctx.region, ctx.modeType, mid));
    if local.Some? && !IsIncomplete(local.value) then
      (if ctx.skipStored then Skipped else FromCache(TagCached(local.value)))
    else
      var reply := ctx.matchReply(mid);
      if reply.None? then RequestFailed
      else
        var p := Processed(ctx, reply.value);
        Fetched(p.0, p.1, SaveTo(ctx, p.0, written))
  }

  /** The step function of a fetch: what happens for each id, given the files saved so far. */
  function Stepper(ctx: Ctx): (Written, string) -> Step {
    (written, mid) => StepFor(ctx, written, mid)
  }

  /**
   * The loop over the selected ids from `first` on, for any step function:
   * the first record seen is the one returned, a failed request ends the run,
   * and each fetch hands its saved files on to the ids after it.
   */
  function RunFrom(step: (Written, string) -> Step, ids: seq<string>, first: Option<Json>, written: Written): Run
    decreases |ids|
  {
    if ids == [] then Run(Success(first), [])
    else
      match step(written, ids[0])
      case Skipped => RunFrom(step, ids[1..], first, written)
      case FromCache(j) => RunFrom(step, ids[1..], first.OrElse(Some(j)), written)
      case RequestFailed => Run(Failure(MatchRequestFailed(ids[0])), [MatchRequest(ids[0])])
      case Fetched(b, e, w) =>
        var rest := RunFrom(step, ids[1..], first.OrElse(Some(b)), w);
        Run(rest.result, [MatchRequest(ids[0])] + e + rest.effects)
  }

  /** The ids the list reply selects. */
  function Selected(body: Json, modeType: string, storeMatches: u8): (r: Result<seq<string>, FetchError>)
    ensures r.Success? ==> |r.value| <= Quota(storeMatches)
  {
    var items := AsArray(Get(body, "data"));
    if items.None? then Failure(DataNotArray)
    else Success(Take(AllowedIds(items.value, modeType), Quota(storeMatches)))
  }

  /** `fetch_custom_match_data` as a function of its arguments and everything it reads. */
  function FetchOutcome(q: Query, ctx: Ctx, listReply: Option<Json>): (run: Run)
    ensures ValidateScope(ctx.region, ctx.platform).Failure? ==>
              run == Run(Failure(ValidateScope(ctx.region, ctx.platform).error), [])
    ensures ValidateScope(ctx.region, ctx.platform).Success? && !HeaderValueValid(q.auth) ==>
              run == Run(Failure(InvalidHeader), [])
    ensures ValidateScope(ctx.region, ctx.platform).Success? && HeaderValueValid(q.auth) ==>
              |run.effects| >= 1 && run.effects[0] == ListRequest(q.name, q.tag, q.querySize, q.start)
  {
    var scope := ValidateScope(ctx.region, ctx.platform);
    if scope.Failure? then Run(Failure(scope.error), [])
    else if !HeaderValueValid(q.auth) then Run(Failure(InvalidHeader), [])
    else
      var list := [ListRequest(q.name, q.tag, q.querySize, q.start)];
      if listReply.None? then Run(Failure(ListRequestFailed), list)
      else
        var ids := Selected(listReply.value, ctx.modeType, q.storeMatches);
        if ids.Failure? then Run(Failure(ids.error), list)
        else if ids.value == [] then Run(Success(None), list)
        else
          var rest := RunFrom(Stepper(ctx), ids.value, None, map[]);
          Run(rest.result, list + rest.effects)
  }

  /**
   * `fetch_custom_match_data`: returns the first record met (cached or
   * fetched), `None` when nothing was selected or everything was skipped,
   * or the first error.
   */
  method FetchCustomMatchData(q: Query, ctx: Ctx, listReply: Option<Json>)
    returns (result: Result<Option<Json>, FetchError>, effects: seq<Effect>)
    ensures Run(result, effects) == FetchOutcome(q, ctx, listReply)
  {
    var scope := ValidateScope(ctx.region, ctx.platform);
    if scope.Failure? {
      return Failure(scope.error), [];
    }
    if !HeaderValueValid(q.auth) {
      return Failure(InvalidHeader), [];
    }
    effects := [ListRequest(q.name, q.tag, q.querySize, q.start)];
    if listReply.None? {
      return Failure(ListRequestFailed), effects;
    }
    var selected := SelectMatchIds(listReply.value, ctx.modeType, q.storeMatches);
    if selected.Failure? {
      return Failure(selected.error), effects;
    }
    var ids := selected.value;
    if ids == [] {
      return Success(None), effects;
    }
    var rest, restEffects := RunSelected(ctx, ids);
    return rest, effects + restEffects;
  }

  /** The loop over the selected ids. */
  method RunSelected(ctx: Ctx, ids: seq<string>) returns (result: Result<Option<Json>, FetchError>, effects: seq<Effect>)
    ensures Run(result, effects) == RunFrom(Stepper(ctx), ids, None, map[])
  {
    ghost var stepper := Stepper(ctx);
    ghost var whole := RunFrom(stepper, ids, None, map[]);
    effects := [];
    var first: Option<Json> := None;
    var written: Written := map[];
    var i := 0;
    while i < |ids|
      invariant 0 <= i <= |ids|
      invariant RunFrom(stepper, ids[i..], first, written).result == whole.result
      invariant effects + RunFrom(stepper, ids[i..], first, written).effects == whole.effects
    {
      var mid := ids[i];
      assert ids[i..][0] == mid && ids[i..][1..] == ids[i + 1..];
      var step := Visit(ctx, written, mid);
      match step {
        case Skipped =>
        case FromCache(j) =>
          if first.None? {
            first := Some(j);
          }
        case RequestFailed =>
          return Failure(MatchRequestFailed(mid)), effects + [MatchRequest(mid)];
        case Fetched(b, e, w) =>
          ghost var rest := RunFrom(stepper, ids[i + 1..], first.OrElse(Some(b)), w);
          assert effects + ([MatchRequest(mid)] + e + rest.effects) == effects + ([MatchRequest(mid)] + e) + rest.effects;
          effects := effects + ([MatchRequest(mid)] + e);
          written := w;
          if first.None? {
            first := Some(b);
          }
      }
      i := i + 1;
    }
    assert effects + [] == effects;
    return Success(first), effects;
  }

  /** One selected id: a complete stored record is used (or skipped); otherwise the match is requested. */
  method Visit(ctx: Ctx, written: Written, mid: string) returns (step: Step)
    ensures step == Stepper(ctx)(written, mid)
  {
    var path := LocalPath(ctx.guildId, ctx.platform, ctx.region, ctx.modeType, mid);
    var local := if path in written then Some(written[path]) else ctx.cache(path);
    if local.Some? && !IsIncomplete(local.value) {
      if ctx.skipStored {
        return Skipped;
      }
      return FromCache(TagCached(local.value));
    }
    var reply := ctx.matchReply(mid);
    if reply.None? {
      return RequestFailed;
    }
    var p, saved := FetchOne(ctx, reply.value, written);
    return Fetched(p.0, p.1, saved);
  }

  /** The handling of one match reply: rank lookups and write-back when there are puuids, then the save. */
  method FetchOne(ctx: Ctx, reply: Json, written: Written) returns (step: (Json, seq<Effect>), saved: Written)
    ensures step == Processed(ctx, reply)
    ensures saved == SaveTo(ctx, Ranked(ctx, reply), written)
  {
    var body := reply;
    var effects: seq<Effect> := [];
    var pairs := CollectIndexedPuuids(body);
    if pairs != [] {
      var results, rankEffects := LookupRanks(pairs, ctx.fetchRank);
      effects := rankEffects;
      body := WriteBack(body, results);
    }
    assert body == Ranked(ctx, reply);
    assert effects == RankRequests(pairs);
    var saveEffects;
    saveEffects, saved := SaveRecord(ctx, body, written);
    return (body, effects + saveEffects), saved;
  }

  /** The save of a ranked body: a body that parses as a match record is written under the base directory. */
  method SaveRecord(ctx: Ctx, body: Json, written: Written) returns (effects: seq<Effect>, saved: Written)
    ensures effects == SaveEffects(ctx, body)
    ensures saved == SaveTo(ctx, body, written)
  {
    var md := FromMatchJson(body);
    if md.Some? {
      var path := SavePath(BaseDir(ctx.guildId, ctx.platform, ctx.region, ctx.modeType), md.value);
      return [SaveMatch(path)], written[path := ToJson(md.value)];
    }
    return [], written;
  }

  // ------------------------------------------------------------- properties

  /** The number of match requests in a trace. */
  function MatchRequests(e: seq<Effect>): nat
    decreases |e|
  {
    if e == [] then 0 else (if e[0].MatchRequest? then 1 else 0) + MatchRequests(e[1..])
  }

  lemma {:induction false} MatchRequestsConcat(a: seq<Effect>, b: seq<Effect>)
    ensures MatchRequests(a + b) == MatchRequests(a) + MatchRequests(b)
    decreases |a|
  {
    if a == [] {
      assert a + b == b;
    } else {
      assert (a + b)[0] == a[0];
      assert (a + b)[1..] == a[1..] + b;
      MatchRequestsConcat(a[1..], b);
    }
  }

  lemma {:induction false} NoMatchRequests(e: seq<Effect>)
    requires forall k :: 0 <= k < |e| ==> !e[k].MatchRequest?
    ensures MatchRequests(e) == 0
    decreases |e|
  {
    if e != [] {
      NoMatchRequests(e[1..]);
    }
  }

  /** Processing a reply makes rank requests and saves, never another match request. */
  lemma ProcessedNoMatchRequest(ctx: Ctx, body: Json)
    ensures forall k :: 0 <= k < |Processed(ctx, body).1| ==> !Processed(ctx, body).1[k].MatchRequest?
    ensures MatchRequests(Processed(ctx, body).1) == 0
  {
    var e := Processed(ctx, body).1;
    var ranks := RankRequests(CollectIndexedPuuids(body));
    forall k | 0 <= k < |e|
      ensures !e[k].MatchRequest?
    {
      if k < |ranks| {
        assert e[k] == ranks[k];
      }
    }
    NoMatchRequests(e);
  }

  /** A step function whose fetched steps carry no match request of their own. */
  ghost predicate OneRequestPerFetch(step: (Written, string) -> Step) {
    forall written, mid :: step(written, mid).Fetched? ==> MatchRequests(step(written, mid).effects) == 0
  }

  lemma FetchStepsWellFormed(ctx: Ctx)
    ensures OneRequestPerFetch(Stepper(ctx))
  {
    forall written, mid | Stepper(ctx)(written, mid).Fetched?
      ensures MatchRequests(Stepper(ctx)(written, mid).effects) == 0
    {
      ProcessedNoMatchRequest(ctx, ctx.matchReply(mid).value);
    }
  }

  /** Each id costs at most one match request. */
  lemma {:induction false} RunFromRequests(step: (Written, string) -> Step, ids: seq<string>, first: Option<Json>, written: Written)
    requires OneRequestPerFetch(step)
    ensures MatchRequests(RunFrom(step, ids, first, written).effects) <= |ids|
    decreases |ids|
  {
    if ids != [] {
      var one := [MatchRequest(ids[0])];
      assert MatchRequests(one) == 1 by {
        assert one[1..] == [];
      }
      match step(written, ids[0])
      case Skipped => RunFromRequests(step, ids[1..], first, written);
      case FromCache(j) => RunFromRequests(step, ids[1..], first.OrElse(Some(j)), written);
      case RequestFailed =>
      case Fetched(b, e, w) =>
        var rest := RunFrom(step, ids[1..], first.OrElse(Some(b)), w);
        RunFromRequests(step, ids[1..], first.OrElse(Some(b)), w);
        MatchRequestsConcat(one + e, rest.effects);
        MatchRequestsConcat(one, e);
    }
  }

  /** A fetch makes at most `store_matches` match requests (at least one is allowed when it is 0). */
  lemma FetchRequestsBounded(q: Query, ctx: Ctx, listReply: Option<Json>)
    ensures MatchRequests(FetchOutcome(q, ctx, listReply).effects) <= Quota(q.storeMatches)
  {
    var list := [ListRequest(q.name, q.tag, q.querySize, q.start)];
    assert MatchRequests(list) == 0 by {
      assert list[1..] == [];
    }
    if ValidateScope(ctx.region, ctx.platform).Success? && HeaderValueValid(q.auth) && listReply.Some? {
      var ids := Selected(listReply.value, ctx.modeType, q.storeMatches);
      if ids.Success? && ids.value != [] {
        FetchStepsWellFormed(ctx);
        RunFromRequests(Stepper(ctx), ids.value, None, map[]);
        MatchRequestsConcat(list, RunFrom(Stepper(ctx), ids.value, None, map[]).effects);
      }
    }
  }

  lemma {:induction false} NoMatchRequestAt(e: seq<Effect>, k: nat)
    requires MatchRequests(e) == 0 && k < |e|
    ensures !e[k].MatchRequest?
    decreases k
  {
    if k > 0 {
      NoMatchRequestAt(e[1..], k - 1);
    }
  }

  lemma InTail(ids: seq<string>, x: string)
    requires ids != [] && x in ids[1..]
    ensures x in ids
  {
    var i :| 0 <= i < |ids[1..]| && ids[1..][i] == x;
    assert ids[i + 1] == x;
  }

  /** Every match request is for one of the ids, and the first effect of a run that has any is one. */
  lemma {:induction false} RunFromRequestsSelected(step: (Written, string) -> Step, ids: seq<string>, first: Option<Json>,
                                                   written: Written, k: nat)
    requires OneRequestPerFetch(step)
    requires k < |RunFrom(step, ids, first, written).effects| && RunFrom(step, ids, first, written).effects[k].MatchRequest?
    ensures RunFrom(step, ids, first, written).effects[k].matchId in ids
    decreases |ids|
  {
    var all := RunFrom(step, ids, first, written).effects;
    match step(written, ids[0])
    case Skipped =>
      RunFromRequestsSelected(step, ids[1..], first, written, k);
      InTail(ids, all[k].matchId);
    case FromCache(j) =>
      RunFromRequestsSelected(step, ids[1..], first.OrElse(Some(j)), written, k);
      InTail(ids, all[k].matchId);
    case RequestFailed =>
    case Fetched(b, e, w) =>
      var rest := RunFrom(step, ids[1..], first.OrElse(Some(b)), w);
      assert all == [MatchRequest(ids[0])] + e + rest.effects;
      if k == 0 {
      } else if k <= |e| {
        assert all[k] == e[k - 1];
        NoMatchRequestAt(e, k - 1);
      } else {
        assert all[k] == rest.effects[k - 1 - |e|];
        RunFromRequestsSelected(step, ids[1..], first.OrElse(Some(b)), w, k - 1 - |e|);
        InTail(ids, all[k].matchId);
      }
  }

  /** Behind one effect that is not a match request, every match request of a run is still for one of its ids. */
  lemma AfterListSelected(head: Effect, step: (Written, string) -> Step, ids: seq<string>, k: nat)
    requires !head.MatchRequest? && OneRequestPerFetch(step)
    requires k < |[head] + RunFrom(step, ids, None, map[]).effects|
    ensures ([head] + RunFrom(step, ids, None, map[]).effects)[k].MatchRequest? ==>
              ([head] + RunFrom(step, ids, None, map[]).effects)[k].matchId in ids
  {
    var rest := RunFrom(step, ids, None, map[]).effects;
    if k >= 1 && ([head] + rest)[k].MatchRequest? {
      assert ([head] + rest)[k] == rest[k - 1];
      RunFromRequestsSelected(step, ids, None, map[], k - 1);
    }
  }

  /** Whether a fetch gets as far as the loop over selected ids. */
  predicate ReachesLoop(q: Query, ctx: Ctx, listReply: Option<Json>) {
    && ValidateScope(ctx.region, ctx.platform).Success? && HeaderValueValid(q.auth) && listReply.Some?
    && Selected(listReply.value, ctx.modeType, q.storeMatches).Success?
    && Selected(listReply.value, ctx.modeType, q.storeMatches).value != []
  }

  /** Short of the loop, a fetch makes no match request; in the loop, its trace is the list request and the loop's. */
  lemma FetchOutcomeCases(q: Query, ctx: Ctx, listReply: Option<Json>)
    ensures !ReachesLoop(q, ctx, listReply) ==> MatchRequests(FetchOutcome(q, ctx, listReply).effects) == 0
    ensures ReachesLoop(q, ctx, listReply) ==>
              FetchOutcome(q, ctx, listReply).effects ==
                [ListRequest(q.name, q.tag, q.querySize, q.start)]
                + RunFrom(Stepper(ctx), Selected(listReply.value, ctx.modeType, q.storeMatches).value, None, map[]).effects
  {
    var list := [ListRequest(q.name, q.tag, q.querySize, q.start)];
    assert MatchRequests(list) == 0 by {
      assert list[1..] == [];
    }
  }

  /** Every match request a fetch makes is for an id the list reply selected. */
  lemma FetchRequestsSelected(q: Query, ctx: Ctx, listReply: Option<Json>, k: nat)
    requires k < |FetchOutcome(q, ctx, listReply).effects|
    ensures FetchOutcome(q, ctx, listReply).effects[k].MatchRequest? ==>
              && listReply.Some? && Selected(listReply.value, ctx.modeType, q.storeMatches).Success?
              && FetchOutcome(q, ctx, listReply).effects[k].matchId in Selected(listReply.value, ctx.modeType, q.storeMatches).value
  {
    var e := FetchOutcome(q, ctx, listReply).effects;
    FetchOutcomeCases(q, ctx, listReply);
    if ReachesLoop(q, ctx, listReply) {
      FetchStepsWellFormed(ctx);
      AfterListSelected(ListRequest(q.name, q.tag, q.querySize, q.start), Stepper(ctx),
                        Selected(listReply.value, ctx.modeType, q.storeMatches).value, k);
    } else {
      NoMatchRequestAt(e, k);
    }
  }

  /** With `skip_stored`, ids whose complete records are all stored cost no request and return nothing. */
  lemma {:induction false} AllCachedSkipped(ctx: Ctx, ids: seq<string>, written: Written)
    requires ctx.skipStored
    requires forall k :: 0 <= k < |ids| ==>
               var local := Lookup(ctx, written, LocalPath(ctx.guildId, ctx.platform, ctx.region, ctx.modeType, ids[k]));
               local.Some? && !IsIncomplete(local.value)
    ensures RunFrom(Stepper(ctx), ids, None, written) == Run(Success(None), [])
    decreases |ids|
  {
    if ids != [] {
      assert Stepper(ctx)(written, ids[0]) == Skipped;
      forall k | 0 <= k < |ids| - 1
        ensures ids[1..][k] == ids[k + 1]
      {
      }
      AllCachedSkipped(ctx, ids[1..], written);
    }
  }

  /** A fetched step hands on the files as its save left them. */
  lemma FetchedSaves(ctx: Ctx, written: Written, mid: string)
    requires StepFor(ctx, written, mid).Fetched?
    ensures StepFor(ctx, written, mid).written == SaveTo(ctx, StepFor(ctx, written, mid).body, written)
  {
  }

  /** Once a complete record for `mid` is saved, the next look-up of `mid` finds it in place of a request. */
  lemma SavedRecordFound(ctx: Ctx, written: Written, ranked: Json, mid: string)
    requires ParseMatch(ranked).Some? && ParseMatch(ranked).value.metadata.matchId == mid
    requires ParseMatch(ranked).value.startedAt != [] && ParseMatch(ranked).value.gameLengthInMs != 0
    ensures StepFor(ctx, SaveTo(ctx, ranked, written), mid) ==
              if ctx.skipStored then Skipped else FromCache(TagCached(ToJson(ParseMatch(ranked).value)))
  {
    var m := ParseMatch(ranked).value;
    var path := LocalPath(ctx.guildId, ctx.platform, ctx.region, ctx.modeType, mid);
    SavedWhereLookedUp(ctx.guildId, ctx.platform, ctx.region, ctx.modeType, m);
    assert Lookup(ctx, SaveTo(ctx, ranked, written), path) == Some(ToJson(m));
    IncompleteOfSaved(m);
  }

  /** A fetch followed by a look-up that finds a stored record: one match request, and the fetched body is kept. */
  lemma FetchThenStored(step: (Written, string) -> Step, written: Written, mid: string, first: Option<Json>)
    requires step(written, mid).Fetched? && MatchRequests(step(written, mid).effects) == 0
    requires step(step(written, mid).written, mid).Skipped? || step(step(written, mid).written, mid).FromCache?
    ensures MatchRequests(RunFrom(step, [mid, mid], first, written).effects) == 1
    ensures RunFrom(step, [mid, mid], first, written).result == Success(first.OrElse(Some(step(written, mid).body)))
  {
    var f := step(written, mid);
    assert [mid, mid][1..] == [mid];
    assert [mid][1..] == [];
    var one := [MatchRequest(mid)];
    assert MatchRequests(one) == 1 by {
      assert one[1..] == [];
    }
    var kept := first.OrElse(Some(f.body));
    var last := RunFrom(step, [mid], kept, f.written);
    assert last == Run(Success(kept), []) by {
      assert RunFrom(step, [], kept, f.written) == Run(Success(kept), []);
      assert RunFrom(step, [], kept.OrElse(Some(f.body)), f.written) == Run(Success(kept), []);
    }
    assert RunFrom(step, [mid, mid], first, written) == Run(last.result, one + f.effects + last.effects);
    assert one + f.effects + [] == one + f.effects;
    MatchRequestsConcat(one, f.effects);
  }

  /** An id selected twice costs one match request when the first fetch saved its complete record. */
  lemma RepeatedIdOneRequest(ctx: Ctx, written: Written, mid: string, first: Option<Json>)
    requires StepFor(ctx, written, mid).Fetched?
    requires ParseMatch(StepFor(ctx, written, mid).body).Some?
    requires ParseMatch(StepFor(ctx, written, mid).body).value.metadata.matchId == mid
    requires ParseMatch(StepFor(ctx, written, mid).body).value.startedAt != []
    requires ParseMatch(StepFor(ctx, written, mid).body).value.gameLengthInMs != 0
    ensures MatchRequests(RunFrom(Stepper(ctx), [mid, mid], first, written).effects) == 1
    ensures RunFrom(Stepper(ctx), [mid, mid], first, written).result ==
              Success(first.OrElse(Some(StepFor(ctx, written, mid).body)))
  {
    FetchedSaves(ctx, written, mid);
    SavedRecordFound(ctx, written, StepFor(ctx, written, mid).body, mid);
    FetchStepsWellFormed(ctx);
    assert Stepper(ctx)(written, mid) == StepFor(ctx, written, mid);
    FetchThenStored(Stepper(ctx), written, mid, first);
  }
}
