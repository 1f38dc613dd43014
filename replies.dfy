/**
 * The replies a command handler sends through `interaction.editReply`, one
 * constructor per embed the handlers build, and what a handler does as seen
 * by the dispatcher: it returns after sending some replies, or it throws
 * after sending some replies.
 */
module Replies {
  datatype Reply =
    /** "Failed": the member is not in a voice channel (play and leave). */
    | NotInVoiceChannel
    /** "No track found" for the query. */
    | NoTrackFound(query: string)
    /** "Unsupported Source": the first result is a YouTube live stream. */
    | UnsupportedSource
    /** "Added playlist to queue": the first track and how many more follow it. */
    | PlaylistAdded(duration: string, title: string, url: string, thumbnail: string, more: int)
    /** "Added to queue": one track. */
    | TrackAdded(duration: string, title: string, url: string, thumbnail: string)
    /** "Failed": no queue exists for the guild (leave). */
    | NoQueue
    /** "Leaving": the queue was deleted. */
    | Leaving

  datatype HandlerOutcome =
    | Returned(replies: seq<Reply>)
    | Threw(replies: seq<Reply>)
}
