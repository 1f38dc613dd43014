/**
 * The playback engine (discord-player) as the commands see it. The engine's
 * own code is not part of this model: its search answer and whether it can
 * bind to a voice channel are inputs, and its guild node manager is a map from
 * guild id to session that `play` fills by get-or-create and `delete` tears
 * down. A ghost log of the calls made to the engine lets a command's contract
 * say which engine operations it did or did not perform.
 */
module Engine {
  import opened Wrappers

  type GuildId = string
  type ChannelId = string

  /** A track object owned by the engine. Only the thumbnail is ever overwritten. */
  class Track {
    const title: string
    const url: string
    /** The display duration, e.g. "3:25". */
    const duration: string
    /** `raw.duration` as the extractor reported it. */
    const rawDuration: int
    /** `raw.live`. */
    const live: bool
    /** The extractor's source name, e.g. "youtube" or "arbitrary". */
    const source: string
    var thumbnail: string

    constructor (title: string, url: string, duration: string, rawDuration: int,
                 live: bool, source: string, thumbnail: string)
      ensures this.title == title && this.url == url && this.duration == duration
      ensures this.rawDuration == rawDuration && this.live == live && this.source == source
      ensures this.thumbnail == thumbnail
    {
      this.title, this.url, this.duration := title, url, duration;
      this.rawDuration, this.live, this.source := rawDuration, live, source;
      this.thumbnail := thumbnail;
    }
  }

  /** What `player.search` answers: the tracks and whether they came as a playlist. */
  datatype SearchResult = SearchResult(tracks: seq<Track>, playlist: bool)

  /** The `nodeOptions` a session is created with. */
  datatype NodeOptions = NodeOptions(
    leaveOnEmptyCooldown: int,
    leaveOnEndCooldown: int,
    leaveOnStopCooldown: int,
    maxSize: int,
    maxHistorySize: int)

  /** A guild's queue: the voice channel it is bound to, its options, its tracks. */
  datatype Session = Session(channel: ChannelId, options: NodeOptions, tracks: seq<Track>, deleted: bool)

  datatype EngineCall =
    | SearchCall(query: string)
    | PlayCall(guild: GuildId)
    | LookupCall(guild: GuildId)
    | DeleteCall(guild: GuildId)

  /** A session that `play` may reuse: present and not deleted. */
  predicate IsLive(sessions: map<GuildId, Session>, guild: GuildId)
  {
    guild in sessions && !sessions[guild].deleted
  }

  /** The tracks `play` hands to the queue: the whole playlist, or the first track. */
  function Enqueued(result: SearchResult): (added: seq<Track>)
    requires |result.tracks| > 0
    ensures |added| > 0 && added[0] == result.tracks[0]
    ensures added <= result.tracks
    ensures |added| == if result.playlist then |result.tracks| else 1
  {
    if result.playlist then result.tracks else [result.tracks[0]]
  }

  /**
   * The store after `play` in `guild`: a live session is reused and the tracks
   * are appended to it; otherwise a fresh session is created on `channel` with
   * `options`. Other guilds are untouched.
   */
  function AfterPlay(sessions: map<GuildId, Session>, guild: GuildId, channel: ChannelId,
                     added: seq<Track>, options: NodeOptions): (after: map<GuildId, Session>)
    ensures after.Keys == sessions.Keys + {guild}
    ensures forall g | g in sessions && g != guild :: after[g] == sessions[g]
    ensures IsLive(after, guild)
    ensures IsLive(sessions, guild) ==>
      after[guild].channel == sessions[guild].channel &&
      after[guild].options == sessions[guild].options &&
      after[guild].tracks == sessions[guild].tracks + added
    ensures !IsLive(sessions, guild) ==> after[guild] == Session(channel, options, added, false)
  {
    if IsLive(sessions, guild) then
      sessions[guild := sessions[guild].(tracks := sessions[guild].tracks + added)]
    else
      sessions[guild := Session(channel, options, added, false)]
  }

  /** The store after `queue.delete()` for `guild`: marked deleted, queue cleared, others untouched. */
  function Teardown(sessions: map<GuildId, Session>, guild: GuildId): (after: map<GuildId, Session>)
    requires guild in sessions
    ensures after.Keys == sessions.Keys
    ensures after[guild].deleted && after[guild].tracks == []
    ensures after[guild].channel == sessions[guild].channel && after[guild].options == sessions[guild].options
    ensures forall g | g in sessions && g != guild :: after[g] == sessions[g]
  {
    sessions[guild := sessions[guild].(tracks := [], deleted := true)]
  }

  /** Tearing a session down twice leaves the same store as tearing it down once. */
  lemma TeardownIdempotent(sessions: map<GuildId, Session>, guild: GuildId)
    requires guild in sessions
    ensures Teardown(Teardown(sessions, guild), guild) == Teardown(sessions, guild)
  {
  }

  /** A session that was torn down is never reused: the next play creates a fresh one. */
  lemma PlayAfterTeardownIsFresh(sessions: map<GuildId, Session>, guild: GuildId, channel: ChannelId,
                                 added: seq<Track>, options: NodeOptions)
    requires guild in sessions
    ensures AfterPlay(Teardown(sessions, guild), guild, channel, added, options)[guild]
            == Session(channel, options, added, false)
  {
  }

  /** Playing twice into a live session queues both batches, in order, on the same session. */
  lemma PlayTwiceAppendsInOrder(sessions: map<GuildId, Session>, guild: GuildId, channel: ChannelId,
                                first: seq<Track>, second: seq<Track>, options: NodeOptions)
    ensures var once := AfterPlay(sessions, guild, channel, first, options);
            var twice := AfterPlay(once, guild, channel, second, options);
            twice[guild] == once[guild].(tracks := once[guild].tracks + second) &&
            twice[guild].tracks[..|once[guild].tracks|] == once[guild].tracks
  {
    var once := AfterPlay(sessions, guild, channel, first, options);
    assert IsLive(once, guild);
    assert (once[guild].tracks + second)[..|once[guild].tracks|] == once[guild].tracks;
  }

  /**
   * The engine's player: the guild-keyed session store and the log of calls
   * the commands made to it.
   */
  class Player {
    var sessions: map<GuildId, Session>
    ghost var calls: seq<EngineCall>

    constructor ()
      ensures sessions == map[] && calls == []
    {
      sessions := map[];
      calls := [];
    }

    /** `player.search(query)`: the engine's answer is given as `answer`. */
    method Search(query: string, answer: Option<SearchResult>) returns (result: Option<SearchResult>)
      modifies this`calls
      ensures result == answer
      ensures calls == old(calls) + [SearchCall(query)]
    {
      calls := calls + [SearchCall(query)];
      result := answer;
    }

    /**
     * `player.play(channel, result, { nodeOptions })`: get-or-create the
     * guild's session and enqueue the result, returning its first track. The
     * engine throws (None here) when the result is empty or when it cannot
     * bind to the voice channel (`bindFails`); the store is then unchanged.
     */
    method Play(guild: GuildId, channel: ChannelId, result: SearchResult, options: NodeOptions, bindFails: bool)
      returns (track: Option<Track>)
      modifies this
      ensures calls == old(calls) + [PlayCall(guild)]
      ensures track.None? <==> bindFails || |result.tracks| == 0
      ensures track.None? ==> sessions == old(sessions)
      ensures track.Some? ==>
        track.value == result.tracks[0] &&
        sessions == AfterPlay(old(sessions), guild, channel, Enqueued(result), options)
    {
      calls := calls + [PlayCall(guild)];
      if bindFails || |result.tracks| == 0 {
        track := None;
      } else {
        sessions := AfterPlay(sessions, guild, channel, Enqueued(result), options);
        track := Some(result.tracks[0]);
      }
    }

    /** `useQueue(guild)`: the guild's session, if the store holds one. */
    method Lookup(guild: GuildId) returns (queue: Option<Session>)
      modifies this`calls
      ensures calls == old(calls) + [LookupCall(guild)]
      ensures queue == if guild in sessions then Some(sessions[guild]) else None
    {
      calls := calls + [LookupCall(guild)];
      queue := if guild in sessions then Some(sessions[guild]) else None;
    }

    /** `queue.delete()`. */
    method Delete(guild: GuildId)
      requires guild in sessions
      modifies this
      ensures calls == old(calls) + [DeleteCall(guild)]
      ensures sessions == Teardown(old(sessions), guild)
    {
      calls := calls + [DeleteCall(guild)];
      sessions := Teardown(sessions, guild);
    }
  }
}
