/**
 * The YouTube subscription table: per Discord guild, the subscriptions keyed
 * by the normalised channel identifier, and the last item announced for each.
 */
module YoutubeSchema {

  import opened Wrappers
  import opened Text

  newtype u64 = x: int | 0 <= x < 0x1_0000_0000_0000_0000

  /** `YouTubeSubscription`: the raw identifier, its lookup key, the target channel and eight flags. */
  datatype Subscription = Subscription(
    youtubeChannel: string, youtubeKey: string, notifyChannelId: u64,
    videos: bool, shorts: bool, streams: bool, podcasts: bool,
    playlists: bool, store: bool, posts: bool, releases: bool)

  type Guilds = map<u64, map<string, Subscription>>

  /** The table after `upsert_subscription`: the guild's map is created if absent, the key overwritten. */
  function Upserted(g: Guilds, guildId: u64, sub: Subscription): (r: Guilds)
    ensures guildId in r && sub.youtubeKey in r[guildId] && r[guildId][sub.youtubeKey] == sub
    ensures r.Keys == g.Keys + {guildId}
    ensures forall h :: h in g && h != guildId ==> r[h] == g[h]
    ensures forall k :: k != sub.youtubeKey ==>
              (k in r[guildId] <==> guildId in g && k in g[guildId])
    ensures forall k :: k != sub.youtubeKey && k in r[guildId] ==> r[guildId][k] == g[guildId][k]
  {
    var inner := if guildId in g then g[guildId] else map[];
    g[guildId := inner[sub.youtubeKey := sub]]
  }

  /** Whether `remove_subscription` finds something to remove. */
  predicate Subscribed(g: Guilds, guildId: u64, key: string) {
    guildId in g && key in g[guildId]
  }

  /** The table after `remove_subscription`: the key leaves the guild's map; the map itself stays. */
  function Removed(g: Guilds, guildId: u64, key: string): (r: Guilds)
    ensures guildId !in g ==> r == g
    ensures r.Keys == g.Keys
    ensures forall h :: h in g && h != guildId ==> r[h] == g[h]
    ensures guildId in g ==> key !in r[guildId]
    ensures guildId in g ==> forall k :: k != key ==>
              (k in r[guildId] <==> k in g[guildId]) && (k in r[guildId] ==> r[guildId][k] == g[guildId][k])
  {
    if guildId in g then g[guildId := g[guildId] - {key}] else g
  }

  /** Removing the key just upserted leaves the guild as it was without that key. */
  lemma RemoveAfterUpsert(g: Guilds, guildId: u64, sub: Subscription)
    ensures Subscribed(Upserted(g, guildId, sub), guildId, sub.youtubeKey)
    ensures Removed(Upserted(g, guildId, sub), guildId, sub.youtubeKey)
            == g[guildId := (if guildId in g then g[guildId] else map[]) - {sub.youtubeKey}]
  {
    var inner: map<string, Subscription> := if guildId in g then g[guildId] else map[];
    assert inner[sub.youtubeKey := sub] - {sub.youtubeKey} == inner - {sub.youtubeKey};
  }

  /** Upserting the same subscription twice changes nothing the second time. */
  lemma UpsertIdempotent(g: Guilds, guildId: u64, sub: Subscription)
    ensures Upserted(Upserted(g, guildId, sub), guildId, sub) == Upserted(g, guildId, sub)
  {
    var inner: map<string, Subscription> := if guildId in g then g[guildId] else map[];
    assert inner[sub.youtubeKey := sub][sub.youtubeKey := sub] == inner[sub.youtubeKey := sub];
  }

  class YoutubeSchema {
    var guilds: Guilds
    var lastNotified: map<u64, map<string, string>>

    /** `YoutubeSchema::default()`. */
    constructor ()
      ensures guilds == map[] && lastNotified == map[]
    {
      guilds := map[];
      lastNotified := map[];
    }

    /** `upsert_subscription`. */
    method UpsertSubscription(guildId: u64, sub: Subscription)
      modifies this
      ensures guilds == Upserted(old(guilds), guildId, sub)
      ensures lastNotified == old(lastNotified)
    {
      var inner := if guildId in guilds then guilds[guildId] else map[];
      inner := inner[sub.youtubeKey := sub];
      guilds := guilds[guildId := inner];
    }

    /** `remove_subscription`: reports whether the key was there. */
    method RemoveSubscription(guildId: u64, key: string) returns (existed: bool)
      modifies this
      ensures existed <==> Subscribed(old(guilds), guildId, key)
      ensures guilds == Removed(old(guilds), guildId, key)
      ensures lastNotified == old(lastNotified)
    {
      if guildId in guilds {
        var inner := guilds[guildId];
        existed := key in inner;
        guilds := guilds[guildId := inner - {key}];
        return;
      }
      existed := false;
    }

    /** `list_guild`. */
    function ListGuild(guildId: u64): (r: Option<map<string, Subscription>>)
      reads this
      ensures r.Some? <==> guildId in guilds
      ensures r.Some? ==> r.value == guilds[guildId]
    {
      if guildId in guilds then Some(guilds[guildId]) else None
    }
  }

  /** `normalize_youtube_id`: trim, then ASCII-lowercase. */
  function NormalizeYoutubeId(input: string): (r: string)
    ensures |r| <= |input|
    ensures TrimmedEdges(r)
  {
    var t := Trim(input);
    assert |t| <= |input|;
    AsciiLower(t)
  }

  /** Normalising a normalised key changes nothing. */
  lemma NormalizeIdempotent(input: string)
    ensures NormalizeYoutubeId(NormalizeYoutubeId(input)) == NormalizeYoutubeId(input)
  {
    var n := NormalizeYoutubeId(input);
    TrimOfTrimmed(n);
    AsciiLowerIdempotent(Trim(input));
  }
}
