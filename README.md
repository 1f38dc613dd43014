# Cadence music bot: command dispatch and session lifecycle

This is a Dafny model of the decision layer of the Cadence Discord music bot. It covers three parts:

- **The command registry and the `interactionCreate` dispatcher** (`index.js`).
  - Command modules are loaded into a collection keyed by `data.name`: the user commands first, then the system commands.
  - For each interaction, the dispatcher ignores non-commands and unknown names.
  - For a known command it defers the reply, then runs the handler.
  - It classifies the execution time against 20000 ms. A module whose own `name` is "filters" is exempt above 55000 ms.
  - Any failure inside the `try` becomes one generic error reply.
- **`/play`** (`commands/play.js`).
  - Guards run in this order: voice channel, empty search result, YouTube live stream.
  - The play step gets or creates the guild's session in the engine's store.
  - A track from the "arbitrary" source gets the default thumbnail.
  - The duration text and the playlist or single-track summary are then chosen.
- **`/leave`** (`commands/leave.js`).
  - Guards run in this order: voice channel, then queue exists.
  - A queue that is not yet deleted is deleted.

The audio engine (discord-player) and the chat platform (discord.js) are not modelled; they are inputs to the model.

- `Engine.Player` is the engine's player. It holds a guild-keyed `sessions` map. It also keeps a ghost log of the calls made to it (search, play, lookup, delete), so contracts can say which engine operations a command did not perform.
- Because the store is a map keyed by guild id, a guild has at most one session at any time.
- `player.play` is modelled as get-or-create on that map. A present, non-deleted session is reused and the tracks are appended. Otherwise a fresh session is created with the command's node options. The code delegates this to the engine and does not implement it.
- The engine's search answer and whether it can bind to the voice channel are parameters.
- `Engine.Track` is a class. `play.js` overwrites `thumbnail` on the engine's own track object, which the queue holds too.
- For the dispatcher, the handler's behaviour is an input: it returns or throws after sending some replies (`Replies.HandlerOutcome`). This is the same type `Play.Run` and `Leave.Run` produce.
- The dispatcher's inputs also include whether `deferReply` throws, the execution time as an integer number of milliseconds, and whether the warning's `editReply` throws.
- What the dispatcher does is a trace of effects: deferral, handler run, handler replies, its own replies (warning or generic error) and log levels.

The model follows the code as written on these points:

- A name collision between user and system commands is not a fatal error. The later `set` silently replaces the earlier entry.
- The slow-execution threshold is strict: exactly 20000 ms is not slow.
- The lookup happens before `deferReply`, so unknown names are never deferred.
- The long-running exception tests `command.name`, but command modules only define `data.name`. For every module registered without its own `name`, the exception never fires (`Dispatcher.FiltersExceptionUnreachable`).
- The duration text is empty when `raw.duration === 0` and also when the duration reads `0:00`.
- Only the track `player.play` returns (the first one) gets the thumbnail backfill.

## Model

| member | source | states |
|---|---|---|
| Registry.LoadCommands | index.js:17-32 | the loaded collection is the user modules keyed by `data.name`, overlaid by the system modules, and every entry sits under its own `data.name` |
| Registry.RegisteredKeys | index.js:21-24 | a name is registered exactly when some loaded module declares it as `data.name` |
| Registry.RegisteredEntry | index.js:23 | each registered entry is a loaded module, stored under its `data.name`, and is the last module declaring that name |
| Registry.RegisteredConcat | index.js:21-32 | loading two batches in turn equals the second batch's entries laid over the first's |
| Registry.SystemCommandsOverride | index.js:29-32 | on a name collision the system command replaces the user command; other user names keep their module |
| Dispatcher.ClassifyTime | index.js:147-149 | up to 20000 ms is normal, 20001..55000 is slow, above 55000 is exempt exactly when the module's own `name` is "filters" (the exemption works only for a module carrying its own `name`) |
| Dispatcher.HandleInteraction | index.js:132-210 | non-commands and unknown names produce no effect at all; the handler runs once, right after the deferral, and after its replies come only the dispatcher's own replies and log lines; a throw from `deferReply`, the handler or the warning reply yields exactly one generic error reply, sent last; the catch logs one error, after the warning log when the warning reply failed; otherwise exactly one warning reply, preceded by a warning log and sent last (it replaces the deferred reply), when the time exceeds 20000 ms, except for a module named "filters" above 55000 ms, and only an info log otherwise |
| Dispatcher.FiltersExceptionUnreachable | index.js:147-158 | for a registry loaded from modules without their own `name`, every command is classified slow exactly when its time exceeds 20000 ms, filters included |
| Play.PlayGuard | commands/play.js:17-62 | the first failing guard decides the reply, in the order voice channel, empty or missing result, YouTube live stream of zero duration; play proceeds exactly when all pass |
| Play.OnlyFirstTrackIsChecked | commands/play.js:48-52 | the live-stream guard looks only at the first track |
| Play.DurationText | commands/play.js:84-87 | the duration text is empty exactly when `raw.duration` is 0 or the duration is `0:00`, otherwise it is the duration in brackets and backticks |
| Play.AddedSummary | commands/play.js:89-123 | a playlist summary with `tracks.length - 1` more tracks exactly when the result is a playlist of more than one track, else the single-track summary, both carrying the track's duration text, title, url and thumbnail |
| Play.Run | commands/play.js:16-124 | not in a voice channel: no search and no play; a failing later guard: searched, nothing played, store and tracks unchanged; a bind failure throws with the store unchanged; otherwise the store is get-or-create plus enqueue with three 60000 ms cooldowns, size 10000 and history 100, an "arbitrary" track gets the default thumbnail, and the reply is the summary |
| Engine.Enqueued | commands/play.js:64-77 | a playlist result enqueues all its tracks, a single result only its first track |
| Engine.AfterPlay | commands/play.js:64-77 | play keeps a live session (same channel and options, tracks appended) or creates a fresh one, leaves the guild with a live session and touches no other guild |
| Engine.Player.Search | commands/play.js:32-34 | the search is recorded and answers with the engine's result |
| Engine.Player.Play | commands/play.js:64-77 | the play call is recorded; on success it returns the first track and the store becomes `AfterPlay`; on failure the store is unchanged |
| Engine.PlayAfterTeardownIsFresh | commands/play.js:64-76 | a play after the guild's queue was deleted creates a fresh session, never reusing the deleted one |
| Engine.PlayTwiceAppendsInOrder | commands/play.js:64-77 | two plays into the same guild queue both batches on one session, earlier tracks first |
| Engine.Player.Lookup | commands/leave.js:27 | `useQueue` is recorded and answers with the guild's session if the store holds one |
| Engine.Player.Delete | commands/leave.js:41-42 | the delete is recorded and the store becomes the teardown of that guild |
| Engine.Teardown | commands/leave.js:41-42 | the guild's session is marked deleted and its queue cleared, keeping its channel and options; no other guild changes and no key is added or removed |
| Engine.TeardownIdempotent | commands/leave.js:41-42 | tearing a session down twice leaves the same store as once |
| Leave.Run | commands/leave.js:14-55 | not in a voice channel: no lookup and no delete; no queue: "no tracks playing" with the store unchanged; a live queue: deleted once, "Leaving", only that guild changes; an already deleted queue: no delete and no reply |
| Leave.LeaveTwice | commands/leave.js:41-54 | two leaves in a row: the first deletes and replies "Leaving", the second changes nothing and replies nothing, given that the engine keeps a deleted session under its key (if it evicted it, `Leave.Run` gives the second leave the "no tracks playing" reply instead) |

## Left out

- Client construction, intents and `client.login` (index.js:9-14, 212): platform bootstrap.
- Scanning the command directories and `require` (index.js:18-20, 26-28): the registry is built from given sequences of modules.
- `onBeforeCreateStream` and the `yt-stream` streaming (index.js:39-51): network and audio streaming in foreign libraries.
- The engine and platform event handlers (index.js:53-130): they only log.
- Timestamps, log texts, guild names and member counts in logs: a log is recorded only as its level.
- The seconds value in the warning (`executionTime / 1000`): floating-point display. The warning carries the integer milliseconds.
- Embed texts, colours, author names and avatar URLs: replies are a tagged datatype carrying the values the embeds show.
- The internals of `player.search` and `player.play`. These include extractor resolution, connection set-up, the difference between the current track and the upcoming queue, and enforcement of `maxSize`/`maxHistorySize`, which are recorded but not enforced.
- What the engine does to its cache on delete: the model keeps a deleted session under its key with `deleted` set, which is the state `commands/leave.js:41` guards on.
- The `requestedBy` attribution passed to search and play: it affects no decision.
- A throw from `player.search`: at the dispatcher it is a handler outcome `Threw([])`; `Play.Run` does not model it separately.
- A throw from the catch block's own `editReply`, and a missing `interaction.guild` in the log lines: both would escape the handler as unhandled rejections.
- JavaScript truthiness of `raw.live` and `raw.duration`: they are a boolean and an integer here, so an undefined `raw.duration` (never `=== 0`) is not represented.
- `commands/help.js`: a fixed reply with no logic.
- Interleaving of invocations across guilds: each command is modelled as one sequential step.
