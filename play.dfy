/**
 * The `/play` command. Its guards run in a fixed order: the member must be in
 * a voice channel (checked before anything is searched), the search must
 * return at least one track, and the first track must not be a YouTube live
 * stream of zero duration. Only then is `player.play` called. After that, a
 * track from the "arbitrary" source gets the default thumbnail, and the reply
 * summarises either a playlist or a single track.
 */
module Play {
  import opened Wrappers
  import opened Replies
  import opened Engine

  const DefaultThumbnail :=
    "https://raw.githubusercontent.com/mariusbegby/cadence-discord-bot/main/icons/Cadence-icon-rounded-128px.png"

  /** The options a session is created with: three 60 s cooldowns, 10000 tracks, 100 in history. */
  const PlayNodeOptions := NodeOptions(60000, 60000, 60000, 10000, 100)

  /** The search produced a result with at least one track. */
  predicate HasTracks(searchResult: Option<SearchResult>)
  {
    searchResult.Some? && |searchResult.value.tracks| > 0
  }

  /** `raw.live`, `raw.duration === 0` and source "youtube", all three. */
  predicate IsYouTubeLiveStream(track: Track)
  {
    track.live && track.rawDuration == 0 && track.source == "youtube"
  }

  /**
   * The guard chain: the first failing guard decides the reply; None means
   * every guard passed and the track may be played.
   */
  function PlayGuard(voiceChannel: Option<ChannelId>, query: string, searchResult: Option<SearchResult>)
    : (rejection: Option<Reply>)
    ensures voiceChannel.None? ==> rejection == Some(NotInVoiceChannel)
    ensures voiceChannel.Some? && !HasTracks(searchResult) ==> rejection == Some(NoTrackFound(query))
    ensures voiceChannel.Some? && HasTracks(searchResult) ==>
      rejection == if IsYouTubeLiveStream(searchResult.value.tracks[0]) then Some(UnsupportedSource) else None
    ensures rejection.None? <==>
      voiceChannel.Some? && HasTracks(searchResult) && !IsYouTubeLiveStream(searchResult.value.tracks[0])
  {
    if voiceChannel.None? then Some(NotInVoiceChannel)
    else if !HasTracks(searchResult) then Some(NoTrackFound(query))
    else if IsYouTubeLiveStream(searchResult.value.tracks[0]) then Some(UnsupportedSource)
    else None
  }

  /** Only the first track is inspected: results that agree on it are judged alike. */
  lemma OnlyFirstTrackIsChecked(voiceChannel: Option<ChannelId>, query: string, a: SearchResult, b: SearchResult)
    requires |a.tracks| > 0 && |b.tracks| > 0 && a.tracks[0] == b.tracks[0]
    ensures PlayGuard(voiceChannel, query, Some(a)) == PlayGuard(voiceChannel, query, Some(b))
  {
  }

  /** The duration shown in the reply: empty for a zero duration, else "`[d]`". */
  function DurationText(track: Track): (text: string)
    ensures text == "" <==> track.rawDuration == 0 || track.duration == "0:00"
    ensures text != "" ==> text == "`[" + track.duration + "]`"
  {
    if track.rawDuration == 0 || track.duration == "0:00" then "" else "`[" + track.duration + "]`"
  }

  /**
   * The success reply: a playlist summary naming the first track and how many
   * more follow only when the result is a playlist of more than one track,
   * otherwise the single-track summary.
   */
  function AddedSummary(result: SearchResult, track: Track, thumbnail: string): (reply: Reply)
    ensures reply.PlaylistAdded? <==> result.playlist && |result.tracks| > 1
    ensures reply.PlaylistAdded? || reply.TrackAdded?
    ensures reply.PlaylistAdded? ==> reply.more == |result.tracks| - 1 && reply.more >= 1
    ensures reply.duration == DurationText(track) && reply.title == track.title
    ensures reply.url == track.url && reply.thumbnail == thumbnail
  {
    if result.playlist && |result.tracks| > 1 then
      PlaylistAdded(DurationText(track), track.title, track.url, thumbnail, |result.tracks| - 1)
    else
      TrackAdded(DurationText(track), track.title, track.url, thumbnail)
  }

  /** The track `run` may overwrite: the first track of the answer, if there is one. */
  function FirstTrack(answer: Option<SearchResult>): set<Track>
  {
    if HasTracks(answer) then {answer.value.tracks[0]} else {}
  }

  /**
   * `run`: the engine's search answer and whether it can bind to the voice
   * channel are inputs.
   */
  method Run(player: Player, voiceChannel: Option<ChannelId>, guild: GuildId, query: string,
             answer: Option<SearchResult>, bindFails: bool)
    returns (outcome: HandlerOutcome)
    modifies player, FirstTrack(answer)
    // not in a voice channel: nothing is searched or played
    ensures voiceChannel.None? ==>
      outcome == Returned([NotInVoiceChannel]) &&
      player.calls == old(player.calls) && player.sessions == old(player.sessions)
    // a later guard fails: searched, nothing played, no session touched
    ensures voiceChannel.Some? && PlayGuard(voiceChannel, query, answer).Some? ==>
      outcome == Returned([PlayGuard(voiceChannel, query, answer).value]) &&
      player.calls == old(player.calls) + [SearchCall(query)] &&
      player.sessions == old(player.sessions)
    ensures PlayGuard(voiceChannel, query, answer).None? ==>
      player.calls == old(player.calls) + [SearchCall(query), PlayCall(guild)]
    // the engine could not bind to the channel: the handler throws before replying
    ensures PlayGuard(voiceChannel, query, answer).None? && bindFails ==>
      outcome == Threw([]) && player.sessions == old(player.sessions)
    // nothing was played: no track object is touched
    ensures PlayGuard(voiceChannel, query, answer).Some? || bindFails ==> unchanged(FirstTrack(answer))
    ensures PlayGuard(voiceChannel, query, answer).None? && !bindFails ==>
      var result := answer.value;
      var track := result.tracks[0];
      player.sessions ==
        AfterPlay(old(player.sessions), guild, voiceChannel.value, Enqueued(result), PlayNodeOptions) &&
      track.thumbnail == (if track.source == "arbitrary" then DefaultThumbnail else old(track.thumbnail)) &&
      outcome == Returned([AddedSummary(result, track, track.thumbnail)])
  {
    if voiceChannel.None? {
      return Returned([NotInVoiceChannel]);
    }
    var searchResult := player.Search(query, answer);
    var rejection := PlayGuard(voiceChannel, query, searchResult);
    if rejection.Some? {
      return Returned([rejection.value]);
    }
    var played := player.Play(guild, voiceChannel.value, searchResult.value, PlayNodeOptions, bindFails);
    if played.None? {
      return Threw([]);
    }
    var track := played.value;
    if track.source == "arbitrary" {
      track.thumbnail := DefaultThumbnail;
    }
    var durationFormat := DurationText(track);
    var result := searchResult.value;
    if result.playlist && |result.tracks| > 1 {
      return Returned([PlaylistAdded(durationFormat, track.title, track.url, track.thumbnail, |result.tracks| - 1)]);
    }
    return Returned([TrackAdded(durationFormat, track.title, track.url, track.thumbnail)]);
  }
}
