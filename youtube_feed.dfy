/**
 * The request-free logic of the YouTube commands: reading the notification
 * channel argument, defaulting the eight notification flags, the subscribe
 * and unsubscribe commands against the subscription table, and turning a
 * channel reference (URL, handle or id) into a feed URL, with page fetches
 * passed in as a function.
 */
module YoutubeFeed {

  import opened Wrappers
  import opened Text
  import opened YoutubeSchema

  // ------------------------------------------------------------ u64 parsing

  predicate AllDigits(s: string) {
    forall i :: 0 <= i < |s| ==> IsAsciiDigit(s[i])
  }

  /** The value of a string of decimal digits, most significant first. */
  function DigitsValue(d: string): nat
    requires AllDigits(d)
    decreases |d|
  {
    if d == [] then 0
    else DigitsValue(d[..|d| - 1]) * 10 + ((d[|d| - 1] as int) - ('0' as int))
  }

  const U64_LIMIT: nat := 0x1_0000_0000_0000_0000

  /**
   * `str::parse::<u64>`: an optional '+', then at least one digit; a value
   * of 2^64 or more is an overflow error.
   */
  function ParseU64(t: string): (r: Option<u64>)
    ensures r.Some? ==> t != [] && t != "+"
  {
    var d := if |t| > 0 && t[0] == '+' then t[1..] else t;
    if d == [] || !AllDigits(d) then None
    else if DigitsValue(d) < U64_LIMIT then Some(DigitsValue(d) as u64)
    else None
  }

  function DigitChar(k: nat): (c: char)
    requires k < 10
    ensures IsAsciiDigit(c) && (c as int) - ('0' as int) == k
  {
    ('0' as int + k) as char
  }

  /** The decimal form of `n`, as `format!("{}", n)` prints it. */
  function Decimal(n: nat): (s: string)
    decreases n
  {
    if n < 10 then [DigitChar(n)] else Decimal(n / 10) + [DigitChar(n % 10)]
  }

  /** Printing a number and reading the digits back gives the number. */
  lemma {:induction false} DecimalValue(n: nat)
    ensures Decimal(n) != [] && AllDigits(Decimal(n))
    ensures DigitsValue(Decimal(n)) == n
    decreases n
  {
    if n >= 10 {
      DecimalValue(n / 10);
      var s := Decimal(n);
      assert s[..|s| - 1] == Decimal(n / 10);
    }
  }

  /** `parse::<u64>` reads back exactly the values it can print, with or without a '+'. */
  lemma ParseDecimal(n: nat)
    ensures ParseU64(Decimal(n)) == (if n < U64_LIMIT then Some(n as u64) else None)
    ensures ParseU64("+" + Decimal(n)) == ParseU64(Decimal(n))
  {
    DecimalValue(n);
    assert ("+" + Decimal(n))[1..] == Decimal(n);
  }

  // ---------------------------------------------------------- channel ids

  /** The argument seen as a `<#id>` mention: the text between the brackets. */
  function MentionInner(s: string): Option<string> {
    if StartsWith(s, "<#") && |s| >= 3 && s[|s| - 1] == '>' then Some(s[2..|s| - 1]) else None
  }

  /**
   * `parse_channel_id`: after trimming, a `<#id>` mention whose inner text
   * parses as a u64, else a string of ASCII digits read as a u64.
   */
  function ParseChannelId(input: string): (r: Option<u64>)
    ensures Trim(input) == [] ==> r.None?
    ensures MentionInner(Trim(input)).Some? && ParseU64(MentionInner(Trim(input)).value).Some? ==>
              r == ParseU64(MentionInner(Trim(input)).value)
    ensures MentionInner(Trim(input)).Some? && ParseU64(MentionInner(Trim(input)).value).None? ==> r.None?
    ensures MentionInner(Trim(input)).None? ==>
              r == (if AllDigits(Trim(input)) then ParseU64(Trim(input)) else None)
  {
    var s := Trim(input);
    var inner := MentionInner(s);
    assert inner.Some? ==> !IsAsciiDigit(s[0]);
    if inner.Some? && ParseU64(inner.value).Some? then ParseU64(inner.value)
    else if AllDigits(s) then ParseU64(s)
    else None
  }

  /** A mention of any u64 channel reads back as that channel. */
  lemma MentionRoundTrip(id: u64)
    ensures ParseChannelId("<#" + Decimal(id as nat) + ">") == Some(id)
  {
    var d := Decimal(id as nat);
    var s := "<#" + d + ">";
    ParseDecimal(id as nat);
    assert TrimmedEdges(s);
    TrimOfTrimmed(s);
    assert s[..2] == "<#" && s[2..|s| - 1] == d;
    assert MentionInner(s) == Some(d);
    assert ParseU64(d) == Some(id);
  }

  /** A nonempty digit string is read by the bare-number branch. */
  lemma BareDigits(d: string)
    requires d != [] && AllDigits(d)
    ensures ParseChannelId(d) == ParseU64(d)
  {
    assert !IsWhitespace(d[0]) && !IsWhitespace(d[|d| - 1]);
    TrimOfTrimmed(d);
    assert d[0] != '<';
    assert MentionInner(d).None?;
  }

  /** A bare numeric channel id reads back as that id; one that overflows u64 reads as nothing. */
  lemma BareRoundTrip(n: nat)
    ensures ParseChannelId(Decimal(n)) == (if n < U64_LIMIT then Some(n as u64) else None)
  {
    DecimalValue(n);
    BareDigits(Decimal(n));
    ParseDecimal(n);
  }

  // -------------------------------------------------------- notification flags

  /** The eight optional flag arguments of `sub`. */
  datatype FlagArgs = FlagArgs(
    videos: Option<bool>, shorts: Option<bool>, streams: Option<bool>, podcasts: Option<bool>,
    playlists: Option<bool>, posts: Option<bool>, store: Option<bool>, releases: Option<bool>)

  datatype Flags = Flags(
    videos: bool, shorts: bool, streams: bool, podcasts: bool,
    playlists: bool, posts: bool, store: bool, releases: bool)

  predicate AnySpecified(a: FlagArgs) {
    a.videos.Some? || a.shorts.Some? || a.streams.Some? || a.podcasts.Some?
    || a.playlists.Some? || a.posts.Some? || a.store.Some? || a.releases.Some?
  }

  predicate AnyEnabled(f: Flags) {
    f.videos || f.shorts || f.streams || f.podcasts || f.playlists || f.posts || f.store || f.releases
  }

  predicate AnyTurnedOn(a: FlagArgs) {
    a.videos == Some(true) || a.shorts == Some(true) || a.streams == Some(true) || a.podcasts == Some(true)
    || a.playlists == Some(true) || a.posts == Some(true) || a.store == Some(true) || a.releases == Some(true)
  }

  /** No flag given: every kind is on. Some flag given: only those given as true are on. */
  function ResolveFlags(a: FlagArgs): (f: Flags)
    ensures !AnySpecified(a) ==> f == Flags(true, true, true, true, true, true, true, true)
    ensures AnySpecified(a) ==>
              && (f.videos <==> a.videos == Some(true)) && (f.shorts <==> a.shorts == Some(true))
              && (f.streams <==> a.streams == Some(true)) && (f.podcasts <==> a.podcasts == Some(true))
              && (f.playlists <==> a.playlists == Some(true)) && (f.posts <==> a.posts == Some(true))
              && (f.store <==> a.store == Some(true)) && (f.releases <==> a.releases == Some(true))
  {
    if AnySpecified(a) then
      Flags(a.videos.GetOr(false), a.shorts.GetOr(false), a.streams.GetOr(false), a.podcasts.GetOr(false),
            a.playlists.GetOr(false), a.posts.GetOr(false), a.store.GetOr(false), a.releases.GetOr(false))
    else Flags(true, true, true, true, true, true, true, true)
  }

  /** A subscription notifies about nothing exactly when every flag given was false. */
  lemma NothingEnabled(a: FlagArgs)
    ensures !AnyEnabled(ResolveFlags(a)) <==> AnySpecified(a) && !AnyTurnedOn(a)
  {
  }

  /** The record `sub` stores: the key is the normalised channel text. */
  function NewSubscription(youtubeChannel: string, channelId: u64, f: Flags): (s: Subscription)
    ensures s.youtubeChannel == youtubeChannel && s.youtubeKey == NormalizeYoutubeId(youtubeChannel)
    ensures s.notifyChannelId == channelId
  {
    Subscription(youtubeChannel, NormalizeYoutubeId(youtubeChannel), channelId,
                 f.videos, f.shorts, f.streams, f.podcasts, f.playlists, f.store, f.posts, f.releases)
  }

  // --------------------------------------------------------- sub and unsub

  datatype SubOutcome = NotInGuild | BadNotifyChannel | Saved(sub: Subscription)

  /**
   * The table effect of the `sub` command: outside a guild, or with an
   * unreadable notification channel, nothing changes; otherwise the new
   * subscription is upserted.
   */
  method Sub(schema: YoutubeSchema, guildId: Option<u64>, youtubeChannel: string, notifyChannel: string,
             args: FlagArgs) returns (outcome: SubOutcome)
    modifies schema
    ensures guildId.None? ==> outcome == NotInGuild
    ensures guildId.Some? && ParseChannelId(notifyChannel).None? ==> outcome == BadNotifyChannel
    ensures guildId.Some? && ParseChannelId(notifyChannel).Some? ==>
              outcome == Saved(NewSubscription(youtubeChannel, ParseChannelId(notifyChannel).value, ResolveFlags(args)))
    ensures outcome.Saved? ==> schema.guilds == Upserted(old(schema.guilds), guildId.value, outcome.sub)
    ensures outcome.Saved? ==> Subscribed(schema.guilds, guildId.value, NormalizeYoutubeId(youtubeChannel))
    ensures !outcome.Saved? ==> schema.guilds == old(schema.guilds)
    ensures schema.lastNotified == old(schema.lastNotified)
  {
    if guildId.None? {
      return NotInGuild;
    }
    var channelId := ParseChannelId(notifyChannel);
    if channelId.None? {
      return BadNotifyChannel;
    }
    var sub := NewSubscription(youtubeChannel, channelId.value, ResolveFlags(args));
    schema.UpsertSubscription(guildId.value, sub);
    return Saved(sub);
  }

  /** The table effect of `unsub`: the key is the normalised text; the answer says whether it was there. */
  method Unsub(schema: YoutubeSchema, guildId: Option<u64>, youtubeChannel: string) returns (removed: Option<bool>)
    modifies schema
    ensures guildId.None? ==> removed.None? && schema.guilds == old(schema.guilds)
    ensures guildId.Some? ==>
              && removed == Some(Subscribed(old(schema.guilds), guildId.value, NormalizeYoutubeId(youtubeChannel)))
              && schema.guilds == Removed(old(schema.guilds), guildId.value, NormalizeYoutubeId(youtubeChannel))
    ensures schema.lastNotified == old(schema.lastNotified)
  {
    if guildId.None? {
      return None;
    }
    var existed := schema.RemoveSubscription(guildId.value, NormalizeYoutubeId(youtubeChannel));
    return Some(existed);
  }

  /** Two spellings with the same key address the same subscription. */
  lemma UnsubMatchesSub(g: Guilds, guildId: u64, ch: string, ch2: string, channelId: u64, f: Flags)
    requires NormalizeYoutubeId(ch2) == NormalizeYoutubeId(ch)
    ensures Subscribed(Upserted(g, guildId, NewSubscription(ch, channelId, f)), guildId, NormalizeYoutubeId(ch2))
    ensures Removed(Upserted(g, guildId, NewSubscription(ch, channelId, f)), guildId, NormalizeYoutubeId(ch2))
            == g[guildId := (if guildId in g then g[guildId] else map[]) - {NormalizeYoutubeId(ch)}]
  {
    RemoveAfterUpsert(g, guildId, NewSubscription(ch, channelId, f));
  }

  // ------------------------------------------------------ channel-id scanning

  predicate IsIdChar(c: char) {
    IsAsciiAlphanumeric(c) || c == '-' || c == '_'
  }

  predicate AllIdChars(s: string) {
    forall i :: 0 <= i < |s| ==> IsIdChar(s[i])
  }

  /** The length of the run of channel-id characters that starts `s` (`take_while`). */
  function IdRunLen(s: string): (n: nat)
    ensures n <= |s|
    ensures forall i :: 0 <= i < n ==> IsIdChar(s[i])
    ensures n < |s| ==> !IsIdChar(s[n])
  {
    if s == [] || !IsIdChar(s[0]) then 0 else 1 + IdRunLen(s[1..])
  }

  /** The run of channel-id characters at the start of `s`. */
  function IdRun(s: string): (r: string)
    ensures AllIdChars(r) && StartsWith(s, r)
  {
    s[..IdRunLen(s)]
  }

  function Min(a: nat, b: nat): nat { if a < b then a else b }

  /** What the character loop collects: the run, cut after its 65th character. */
  function CappedIdRun(s: string): (r: string)
    ensures AllIdChars(r) && StartsWith(s, r) && |r| <= 65
  {
    s[..Min(IdRunLen(s), 65)]
  }

  const CHANNEL_KEY: string := "channelId"

  /** The id found for an occurrence of "channelId" at `i`: the run at the next "UC", if long enough. */
  function CandidateAt(hay: string, i: nat): (r: Option<string>)
    ensures r.Some? ==> StartsWith(r.value, "UC") && 6 <= |r.value| <= 65 && AllIdChars(r.value)
  {
    var uc := FindFrom(hay, "UC", i);
    if uc.None? then None
    else
      var id := CappedIdRun(hay[uc.value..]);
      if StartsWith(id, "UC") && |id| >= 6 then Some(id) else None
  }

  /** The scan from `start`: each "channelId" in turn, until one yields an id. */
  function ExtractFrom(hay: string, start: nat): (r: Option<string>)
    requires start <= |hay|
    ensures r.Some? ==> StartsWith(r.value, "UC") && 6 <= |r.value| <= 65 && AllIdChars(r.value)
    ensures FindFrom(hay, CHANNEL_KEY, start).None? ==> r.None?
    decreases |hay| - start
  {
    var pos := FindFrom(hay, CHANNEL_KEY, start);
    if pos.None? then None
    else
      var c := CandidateAt(hay, pos.value);
      if c.Some? then c else ExtractFrom(hay, pos.value + |CHANNEL_KEY|)
  }

  /** `extract_channel_id_from_html` as a function of the page. */
  function ExtractChannelId(html: string): (r: Option<string>)
    ensures r.Some? ==> StartsWith(r.value, "UC") && 6 <= |r.value| <= 65 && AllIdChars(r.value)
    ensures !Contains(html, CHANNEL_KEY) ==> r.None?
  {
    ExtractFrom(html, 0)
  }

  /** The `for ch in hay[abs..].chars()` loop: push id characters, stop after the 65th. */
  method CollectId(hay: string, abs: nat) returns (id: string)
    requires abs <= |hay|
    ensures id == CappedIdRun(hay[abs..])
  {
    ghost var s := hay[abs..];
    id := [];
    var k := abs;
    while k < |hay|
      invariant abs <= k <= |hay|
      invariant id == hay[abs..k] && |id| <= 64
      invariant k - abs <= IdRunLen(s)
      decreases |hay| - k
    {
      var ch := hay[k];
      if IsIdChar(ch) {
        id := id + [ch];
        assert id == hay[abs..k + 1];
        if |id| > 64 {
          assert s[k - abs] == ch;
          return;
        }
      } else {
        assert s[k - abs] == ch;
        return;
      }
      k := k + 1;
    }
  }

  /** `extract_channel_id_from_html`: the `while let` over occurrences of "channelId". */
  method ExtractChannelIdFromHtml(html: string) returns (r: Option<string>)
    ensures r == ExtractChannelId(html)
  {
    var startIdx := 0;
    while startIdx <= |html|
      invariant startIdx <= |html|
      invariant ExtractFrom(html, startIdx) == ExtractChannelId(html)
      decreases |html| - startIdx
    {
      var pos := FindFrom(html, CHANNEL_KEY, startIdx);
      if pos.None? {
        return None;
      }
      var i := pos.value;
      var ucPos := FindFrom(html, "UC", i);
      if ucPos.Some? {
        var id := CollectId(html, ucPos.value);
        if StartsWith(id, "UC") && |id| >= 6 {
          return Some(id);
        }
      }
      startIdx := i + |CHANNEL_KEY|;
    }
    return None;
  }

  // ------------------------------------------------------------ feed URLs

  const FEED_PREFIX: string := "https://www.youtube.com/feeds/videos.xml?channel_id="
  const PAGE_PREFIX: string := "https://www.youtube.com/"

  function FeedUrl(id: string): string { FEED_PREFIX + id }

  /** The id after the first "/channel/" (matched case-insensitively), if it starts with "UC" and is long enough. */
  function ChannelPathId(s: string): (r: Option<string>)
    ensures r.Some? ==> StartsWith(r.value, "UC") && |r.value| >= 6 && AllIdChars(r.value)
  {
    var idx := Find(AsciiLower(s), "/channel/");
    if idx.None? then None
    else
      var id := IdRun(s[idx.value + 9..]);
      if StartsWith(id, "UC") && |id| >= 6 then Some(id) else None
  }

  predicate LooksLikeUc(s: string) {
    StartsWith(s, "UC") && AllIdChars(s)
  }

  /** The pages to search for a channel id, in the order they are tried. */
  function Candidates(s: string): (r: seq<string>)
    ensures |r| == 1 || |r| == 3
    ensures (|r| == 1 && r[0] == s) <==> !StartsWith(s, "@") && Contains(AsciiLower(s), "youtube.com/")
    ensures StartsWith(s, "@") ==> r == [PAGE_PREFIX + s]
    ensures |r| == 3 <==> !StartsWith(s, "@") && !Contains(AsciiLower(s), "youtube.com/")
    ensures |r| == 3 ==> forall k :: 0 <= k < 3 ==> StartsWith(r[k], PAGE_PREFIX)
  {
    if StartsWith(s, "@") then
      assert StartsWith(PAGE_PREFIX + s, PAGE_PREFIX);
      assert PAGE_PREFIX + s != s;
      [PAGE_PREFIX + s]
    else if Contains(AsciiLower(s), "youtube.com/") then [s]
    else
      var name := TrimMatches(s, '/');
      var handle := if StartsWith(name, "@") then name else "@" + name;
      var r := [PAGE_PREFIX + handle, PAGE_PREFIX + "c/" + name, PAGE_PREFIX + "user/" + name];
      assert StartsWith(r[0], PAGE_PREFIX) && StartsWith(r[1], PAGE_PREFIX) && StartsWith(r[2], PAGE_PREFIX);
      r
  }

  /** How `resolve_feed_url` proceeds: a feed for a known id, or a search of candidate pages. */
  datatype FeedPlan = Direct(id: string) | Search(pages: seq<string>)

  function Plan(input: string): (p: FeedPlan)
    ensures p.Direct? ==> StartsWith(p.id, "UC") && AllIdChars(p.id)
  {
    var s := Trim(input);
    var fromPath := ChannelPathId(s);
    if fromPath.Some? then Direct(fromPath.value)
    else if LooksLikeUc(s) then Direct(s)
    else Search(Candidates(s))
  }

  /** The first candidate page whose text (when it could be fetched) holds a channel id. */
  function FirstFeed(pages: seq<string>, fetch: string -> Option<string>): (r: Option<string>)
    ensures r.Some? ==> StartsWith(r.value, FEED_PREFIX) && StartsWith(r.value[|FEED_PREFIX|..], "UC")
                        && AllIdChars(r.value[|FEED_PREFIX|..])
  {
    if pages == [] then None
    else
      var text := fetch(pages[0]);
      var id := if text.Some? then ExtractChannelId(text.value) else None;
      if id.Some? then
        assert FeedUrl(id.value)[|FEED_PREFIX|..] == id.value;
        Some(FeedUrl(id.value))
      else FirstFeed(pages[1..], fetch)
  }

  /** `resolve_feed_url`, with the page requests given by `fetch`. */
  function ResolvedFeed(input: string, fetch: string -> Option<string>): (r: Option<string>)
    ensures r.Some? ==> StartsWith(r.value, FEED_PREFIX) && StartsWith(r.value[|FEED_PREFIX|..], "UC")
                        && AllIdChars(r.value[|FEED_PREFIX|..])
  {
    match Plan(input)
    case Direct(id) =>
      assert FeedUrl(id)[|FEED_PREFIX|..] == id;
      Some(FeedUrl(id))
    case Search(pages) => FirstFeed(pages, fetch)
  }

  /** The candidate list of `resolve_feed_url`, built by pushes. */
  method CandidateUrls(s: string) returns (candidates: seq<string>)
    ensures candidates == Candidates(s)
  {
    candidates := [];
    if StartsWith(s, "@") {
      candidates := candidates + [PAGE_PREFIX + s];
    } else if Contains(AsciiLower(s), "youtube.com/") {
      candidates := candidates + [s];
    } else {
      var name := TrimMatches(s, '/');
      var handle := if StartsWith(name, "@") then name else "@" + name;
      candidates := candidates + [PAGE_PREFIX + handle];
      candidates := candidates + [PAGE_PREFIX + "c/" + name];
      candidates := candidates + [PAGE_PREFIX + "user/" + name];
    }
  }

  /** The search loop of `resolve_feed_url`: fetch each page in turn and stop at the first channel id found. */
  method SearchPages(pages: seq<string>, fetch: string -> Option<string>) returns (r: Option<string>)
    ensures r == FirstFeed(pages, fetch)
  {
    var k := 0;
    while k < |pages|
      invariant 0 <= k <= |pages|
      invariant FirstFeed(pages[k..], fetch) == FirstFeed(pages, fetch)
    {
      var text := fetch(pages[k]);
      if text.Some? {
        var id := ExtractChannelIdFromHtml(text.value);
        if id.Some? {
          return Some(FeedUrl(id.value));
        }
      }
      assert pages[k..][1..] == pages[k + 1..];
      k := k + 1;
    }
    return None;
  }

  /** `resolve_feed_url`: a known id gives its feed at once; otherwise the candidate pages are tried in order. */
  method ResolveFeedUrl(input: string, fetch: string -> Option<string>) returns (r: Option<string>)
    ensures r == ResolvedFeed(input, fetch)
  {
    var s := Trim(input);
    var fromPath := ChannelPathId(s);
    if fromPath.Some? {
      return Some(FeedUrl(fromPath.value));
    }
    if LooksLikeUc(s) {
      return Some(FeedUrl(s));
    }
    var candidates := CandidateUrls(s);
    assert Plan(input) == Search(candidates);
    r := SearchPages(candidates, fetch);
  }

  // ------------------------------------------------------- feed URL lemmas

  predicate ValidChannelId(id: string) {
    StartsWith(id, "UC") && |id| >= 6 && AllIdChars(id)
  }

  lemma IdRunOfId(id: string)
    requires AllIdChars(id)
    ensures IdRun(id) == id
  {
    assert id[..|id|] == id;
  }

  lemma IdTrimmed(id: string)
    requires id != [] && AllIdChars(id)
    ensures Trim(id) == id
  {
    assert IsIdChar(id[0]) && IsIdChar(id[|id| - 1]);
    TrimOfTrimmed(id);
  }

  /** Lowercasing keeps '/' out of a string that had none. */
  lemma LowerNoSlash(s: string)
    requires '/' !in s
    ensures '/' !in AsciiLower(s)
  {
    forall i | 0 <= i < |s|
      ensures AsciiLower(s)[i] != '/'
    {
      assert s[i] != '/';
    }
  }

  lemma OccursStart(s: string, p: string, i: int)
    requires p != []
    ensures OccursAt(s, p, i) ==> s[i] == p[0]
  {
    if OccursAt(s, p, i) {
      assert s[i..i + |p|][0] == s[i];
    }
  }

  /** A string without '/' holds no "/channel/". */
  lemma NoSlashNoPath(s: string)
    requires '/' !in s
    ensures Find(s, "/channel/").None?
  {
    var r := Find(s, "/channel/");
    if r.Some? {
      OccursStart(s, "/channel/", r.value);
    }
  }

  /** A bare channel id is used as it stands. */
  lemma BareIdFeed(id: string, fetch: string -> Option<string>)
    requires ValidChannelId(id)
    ensures ResolvedFeed(id, fetch) == Some(FeedUrl(id))
  {
    IdTrimmed(id);
    assert '/' !in id by {
      forall i | 0 <= i < |id| ensures id[i] != '/' { assert IsIdChar(id[i]); }
    }
    LowerNoSlash(id);
    NoSlashNoPath(AsciiLower(id));
  }

  /** The "/channel/" found in `pre + "/channel/" + id` is the one after `pre`, when `pre` has no '/'. */
  lemma PathAfterPrefix(pre: string, id: string)
    requires '/' !in pre
    ensures Find(AsciiLower(pre + "/channel/" + id), "/channel/") == Some(|pre|)
  {
    var low := AsciiLower(pre + "/channel/" + id);
    AsciiLowerConcat(pre + "/channel/", id);
    AsciiLowerConcat(pre, "/channel/");
    assert AsciiLower("/channel/") == "/channel/";
    LowerNoSlash(pre);
    assert low[|pre|..|pre| + 9] == "/channel/";
    forall j | 0 <= j < |pre|
      ensures !OccursAt(low, "/channel/", j)
    {
      assert low[j] == AsciiLower(pre)[j];
    }
    assert OccursAt(low, "/channel/", |pre|);
  }

  lemma ChannelUrlTrimmed(pre: string, id: string)
    requires pre == [] || !IsWhitespace(pre[0])
    requires id != [] && AllIdChars(id)
    ensures Trim(pre + "/channel/" + id) == pre + "/channel/" + id
  {
    var s := pre + "/channel/" + id;
    assert s[|s| - 1] == id[|id| - 1] && IsIdChar(id[|id| - 1]);
    assert s[0] == (if pre == [] then '/' else pre[0]);
    TrimOfTrimmed(s);
  }

  lemma ChannelUrlId(pre: string, id: string)
    requires '/' !in pre && AllIdChars(id) && StartsWith(id, "UC") && |id| >= 6
    ensures ChannelPathId(pre + "/channel/" + id) == Some(id)
  {
    var s := pre + "/channel/" + id;
    PathAfterPrefix(pre, id);
    assert s[|pre| + 9..] == id;
    IdRunOfId(id);
  }

  /** A channel page URL and the bare id it names resolve to the same feed. */
  lemma ChannelUrlFeed(pre: string, id: string, fetch: string -> Option<string>)
    requires '/' !in pre && (pre == [] || !IsWhitespace(pre[0]))
    requires ValidChannelId(id)
    ensures ResolvedFeed(pre + "/channel/" + id, fetch) == ResolvedFeed(id, fetch) == Some(FeedUrl(id))
  {
    ChannelUrlTrimmed(pre, id);
    ChannelUrlId(pre, id);
    BareIdFeed(id, fetch);
  }

  /** A plain name is tried as a handle, then as a custom URL, then as a user page. */
  lemma PlainNameCandidates(name: string)
    requires name != [] && name[0] != '/' && name[|name| - 1] != '/' && name[0] != '@'
    requires !Contains(AsciiLower(name), "youtube.com/")
    ensures Candidates(name) ==
              [PAGE_PREFIX + "@" + name, PAGE_PREFIX + "c/" + name, PAGE_PREFIX + "user/" + name]
  {
    assert TrimMatches(name, '/') == name;
    assert name[..1] == [name[0]];
    assert !StartsWith(name, "@");
    assert PAGE_PREFIX + ("@" + name) == PAGE_PREFIX + "@" + name;
  }

  /** The run of id characters in `id + rest` is `id`, when `rest` does not go on with one. */
  lemma {:induction false} IdRunLenOfId(id: string, rest: string)
    requires AllIdChars(id)
    requires rest == [] || !IsIdChar(rest[0])
    ensures IdRunLen(id + rest) == |id|
    decreases |id|
  {
    if id != [] {
      assert IsIdChar(id[0]);
      assert (id + rest)[1..] == id[1..] + rest;
      IdRunLenOfId(id[1..], rest);
    }
  }

  const ID_OPENER: string := "\"channelId\":\""

  /** No prefix of the page sees a "channelId" before `pre` ends, when `pre` holds none. */
  lemma KeyAfterPrefix(pre: string, rest: string)
    requires !Contains(pre, CHANNEL_KEY)
    ensures FindFrom(pre + ID_OPENER + rest, CHANNEL_KEY, 0) == Some(|pre| + 1)
  {
    var hay := pre + ID_OPENER + rest;
    assert hay[|pre|..|pre| + 13] == ID_OPENER;
    assert hay[|pre| + 1..|pre| + 10] == CHANNEL_KEY;
    forall j | 0 <= j < |pre| + 1
      ensures !OccursAt(hay, CHANNEL_KEY, j)
    {
      if j + 9 <= |pre| {
        assert pre[j..j + 9] == hay[j..j + 9];
        assert !OccursAt(pre, CHANNEL_KEY, j);
      } else if j + 9 <= |hay| {
        assert hay[j..j + 9][|pre| - j] == hay[|pre|] == '"';
      }
    }
    FindFromFirst(hay, CHANNEL_KEY, 0, |pre| + 1);
  }

  /** Searching for "UC" from the key lands on the first character of the id after the opener. */
  lemma UcAfterKey(pre: string, id: string, post: string)
    requires StartsWith(id, "UC")
    ensures FindFrom(pre + ID_OPENER + id + post, "UC", |pre| + 1) == Some(|pre| + 13)
  {
    var hay := pre + ID_OPENER + id + post;
    assert hay[|pre|..|pre| + 13] == ID_OPENER;
    assert hay[|pre| + 13..|pre| + 15] == id[..2];
    forall j | |pre| + 1 <= j < |pre| + 13
      ensures !OccursAt(hay, "UC", j)
    {
      assert hay[j] == ID_OPENER[j - |pre|];
      OccursStart(hay, "UC", j);
    }
    FindFromFirst(hay, "UC", |pre| + 1, |pre| + 13);
  }

  /** The id after the opener, capped at 65 characters, is all of `id` when a quote closes it. */
  lemma RunAfterOpener(pre: string, id: string, rest: string)
    requires AllIdChars(id) && |id| <= 65 && rest != [] && rest[0] == '"'
    ensures CappedIdRun((pre + ID_OPENER + id + rest)[|pre| + 13..]) == id
  {
    var tail := (pre + ID_OPENER + id + rest)[|pre| + 13..];
    assert tail == id + rest;
    IdRunLenOfId(id, rest);
    assert tail[..|id|] == id;
  }

  /** An id written as `"channelId":"<id>"` is found, when no earlier text names a channel id. */
  lemma ExtractFindsId(pre: string, id: string, post: string)
    requires ValidChannelId(id) && |id| <= 65 && !Contains(pre, CHANNEL_KEY)
    ensures ExtractChannelId(pre + ID_OPENER + id + "\"" + post) == Some(id)
  {
    var rest := "\"" + post;
    var hay := pre + ID_OPENER + id + rest;
    assert pre + ID_OPENER + id + "\"" + post == hay;
    assert hay == pre + ID_OPENER + (id + rest);
    KeyAfterPrefix(pre, id + rest);
    UcAfterKey(pre, id, rest);
    RunAfterOpener(pre, id, rest);
    assert CandidateAt(hay, |pre| + 1) == Some(id);
  }

  /** The id a candidate page yields, if it could be fetched and holds one. */
  function PageId(page: string, fetch: string -> Option<string>): Option<string> {
    if fetch(page).Some? then ExtractChannelId(fetch(page).value) else None
  }

  /** The first page that yields an id decides the feed. */
  lemma {:induction false} FirstFeedFinds(pages: seq<string>, fetch: string -> Option<string>, k: nat, id: string)
    requires k < |pages|
    requires forall j :: 0 <= j < k ==> PageId(pages[j], fetch).None?
    requires PageId(pages[k], fetch) == Some(id)
    ensures FirstFeed(pages, fetch) == Some(FeedUrl(id))
    decreases k
  {
    if k > 0 {
      assert PageId(pages[0], fetch).None?;
      forall j | 0 <= j < k - 1
        ensures PageId(pages[1..][j], fetch).None?
      {
        assert pages[1..][j] == pages[j + 1];
      }
      FirstFeedFinds(pages[1..], fetch, k - 1, id);
    }
  }

  /** No feed is found only when no page yields an id. */
  lemma {:induction false} FirstFeedNone(pages: seq<string>, fetch: string -> Option<string>)
    ensures FirstFeed(pages, fetch).None? <==> forall j :: 0 <= j < |pages| ==> PageId(pages[j], fetch).None?
    decreases |pages|
  {
    if pages != [] {
      FirstFeedNone(pages[1..], fetch);
      if PageId(pages[0], fetch).None? {
        forall j | 0 <= j < |pages|
          ensures PageId(pages[j], fetch).None? <==> (j == 0 || PageId(pages[1..][j - 1], fetch).None?)
        {
          if j > 0 { assert pages[1..][j - 1] == pages[j]; }
        }
      }
    }
  }
}
