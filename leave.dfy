/**
 * The `/leave` command: the member must be in a voice channel, checked before
 * the guild's queue is looked up; with no queue it says so; a queue that is
 * not yet deleted is deleted and the bot says it is leaving; an already
 * deleted queue is left alone and nothing is replied.
 */
module Leave {
  import opened Wrappers
  import opened Replies
  import opened Engine

  method Run(player: Player, voiceChannel: Option<ChannelId>, guild: GuildId) returns (outcome: HandlerOutcome)
    modifies player
    // not in a voice channel: no queue is looked up or deleted
    ensures voiceChannel.None? ==>
      outcome == Returned([NotInVoiceChannel]) &&
      player.calls == old(player.calls) && player.sessions == old(player.sessions)
    ensures voiceChannel.Some? && guild !in old(player.sessions) ==>
      outcome == Returned([NoQueue]) &&
      player.calls == old(player.calls) + [LookupCall(guild)] && player.sessions == old(player.sessions)
    // a live queue is deleted exactly once; only this guild's entry changes
    ensures voiceChannel.Some? && IsLive(old(player.sessions), guild) ==>
      outcome == Returned([Leaving]) &&
      player.calls == old(player.calls) + [LookupCall(guild), DeleteCall(guild)] &&
      player.sessions == Teardown(old(player.sessions), guild)
    // an already deleted queue: no second delete and no reply
    ensures voiceChannel.Some? && guild in old(player.sessions) && old(player.sessions)[guild].deleted ==>
      outcome == Returned([]) &&
      player.calls == old(player.calls) + [LookupCall(guild)] && player.sessions == old(player.sessions)
  {
    if voiceChannel.None? {
      return Returned([NotInVoiceChannel]);
    }
    var queue := player.Lookup(guild);
    if queue.None? {
      return Returned([NoQueue]);
    }
    if !queue.value.deleted {
      player.Delete(guild);
      return Returned([Leaving]);
    }
    return Returned([]);
  }

  /** Two `/leave` commands in a row: the second one changes nothing and says nothing. */
  method LeaveTwice(player: Player, voiceChannel: ChannelId, guild: GuildId)
    returns (first: HandlerOutcome, second: HandlerOutcome)
    requires IsLive(player.sessions, guild)
    modifies player
    ensures first == Returned([Leaving]) && second == Returned([])
    ensures player.sessions == Teardown(old(player.sessions), guild)
    ensures player.calls ==
      old(player.calls) + [LookupCall(guild), DeleteCall(guild), LookupCall(guild)]
  {
    first := Run(player, Some(voiceChannel), guild);
    second := Run(player, Some(voiceChannel), guild);
  }
}
