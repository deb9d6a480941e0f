# Autoplay continuation policy of the aurora music bot

The bot wraps a Discord client around the Poru audio-node manager. Almost all of
`src/lib/structures/Client.ts` is configuration or one-line forwarding from manager events
to log lines. This project models the part that makes decisions:

- **`queueEnd` handler (autoplay).** It posts "The queue has ended." to the player's text
  channel. When the player's autoplay flag is set, it also:
  - builds a YouTube mix URL seeded by the previous track's identifier, or the current
    track's;
  - asks the manager to resolve it;
  - drops the first candidate and appends one of the rest, chosen at random, to the queue;
  - starts playback if the player is idle.

  Every failure inside the autoplay step is caught and reported with one generic message.
- **`trackError` handler.** It notifies the channel and then destroys the player.
- **`trackStart` handler.** It announces the track that started.

The handlers are pure functions. Their effects are returned as values:
- the resolve request issued, if any;
- the queue afterwards;
- whether `play()` was called;
- the messages posted, in order;
- for track errors, the notify-then-destroy action list.

Effects and inputs from outside the file are parameters:
- the settled `resolve` promise: `ResolveOutcome`, which is rejected, or fulfilled with a
  response that may be missing;
- whether the `play()` promise fulfils (rather than rejects): `playSucceeds`;
- the value of `Math.random()`: a real `rand` in [0, 1);
- whether the text channel is in the cache: `hasChannel`.

JavaScript details the handlers depend on are written out in `js_semantics.dfy`:
- `||` uses truthiness, so `""` falls through. `??` falls through only on `null` and
  `undefined`.
- Interpolating `undefined` gives "undefined".
- Reading past the end of an array gives `undefined`.
- `shift()` on an empty array leaves it empty.
- `Math.floor(rand * n)` is computed on reals.

Modules, one per concern:
- `JsSemantics` (`js_semantics.dfy`): the JavaScript evaluation rules above.
- `Poru` (`poru.dfy`): the track, player snapshot, resolve request and response, and the
  optional-chaining field reads.
- `QueueEnd` (`queue_end.dfy`): the autoplay policy and the notices it posts.
- `QueueEndProperties` (`queue_end_properties.dfy`): all-inputs lemmas about the policy.
- `TrackEvents` (`track_events.dfy`): the `trackStart` and `trackError` handlers.

Behaviour of the code as written that is easy to miss:
- **Short response.** A usable response with fewer than two tracks does not take a quiet
  no-op path. The shifted array is empty, so the random read yields `undefined`. That
  `undefined` is pushed onto the queue. With a channel, reading its title then throws, and
  the catch posts the generic autoplay error (`ShortResponsePushesUndefined`).
- **Missing channel.** The title reads at Client.ts lines 100 and 104 are arguments of
  `channel?.send(...)`, which skips evaluating them when the channel is missing. So without
  a channel nothing throws after the push, and an idle player is played even when the
  appended entry is `undefined` or has no `info` (`MissingChannelSkipsTitleRead`).
- **Seed track.** The seed is not only "the previous track if there is one". It is the
  previous track's identifier when that is truthy. An empty identifier falls through to
  the current track's. An empty source name does not fall through
  (`EmptyIdentifierFallsThroughEmptySourceDoesNot`).
- **Missing `info`.** The URL template reads the identifier twice. The first read uses
  `?.info?.` and the second uses `?.info.`. So a previous track that is present but has no
  `info` makes the second read throw, and the error is reported. The same happens to a
  current track without `info` when the previous identifier is falsy, since the second read
  then reaches it (`MissingInfoIsCaught` covers both).
  Tracks carry an optional `info` for this reason.

## Model

| member | source | states |
|---|---|---|
| `QueueEnd.OnQueueEnd` | src/lib/structures/Client.ts:77-111 | The queue-ended message is always posted first, and nothing is posted when the channel is missing. At most three messages are posted. The queue only grows, by at most one entry at the end. Nothing is appended unless a request was issued. `play()` is called exactly when the player was idle, an entry was appended, and (when there is a channel) that entry's title could be read. With autoplay off, no request is made. |
| `QueueEndProperties.AutoplayOffIsInert` | src/lib/structures/Client.ts:78-106 | With autoplay off: no resolve request, the queue unchanged, no `play()`, and only the queue-ended message. |
| `QueueEnd.ContinuationQuery` | src/lib/structures/Client.ts:83 | The query throws exactly when the previous track lacks `info`, or when the previous identifier is falsy and the current track lacks `info`. Otherwise it is the mix URL with the same seed identifier in both places. |
| `QueueEndProperties.RequestIsSeededMix` | src/lib/structures/Client.ts:83-89 | With autoplay on, a request is issued exactly when the query can be built. It carries the seeded mix URL, the fallback requester and the fallback source. |
| `QueueEndProperties.SeedPrefersPrevious` | src/lib/structures/Client.ts:83 | The seed identifier is the previous track's when it is truthy, otherwise the current track's. |
| `QueueEndProperties.EmptyIdentifierFallsThroughEmptySourceDoesNot` | src/lib/structures/Client.ts:83-88 | An empty previous identifier falls through to the current one (`||`). An empty previous source name is kept (`??`). |
| `QueueEnd.SeedOf` | src/lib/structures/Client.ts:83 | A seed read back from a URL rebuilds exactly that URL. |
| `QueueEndProperties.SeedOfContinuationUrl` | src/lib/structures/Client.ts:83 | The seed identifier is recovered from every mix URL (round trip). |
| `QueueEndProperties.ContinuationUrlInjective` | src/lib/structures/Client.ts:83 | Different seeds give different continuation queries. |
| `QueueEnd.RequesterOf` | src/lib/structures/Client.ts:87 | The requester is the previous track's unless that is null or undefined; in that case it is the current track's. |
| `QueueEnd.SourceOf` | src/lib/structures/Client.ts:88 | The source is the first non-nullish of: the previous source name, the current source name, the default platform. If all are nullish it is "ytmsearch". |
| `JsSemantics.Coalesce` | src/lib/structures/Client.ts:87-88 | A `??` chain is nullish only when every operand is, and otherwise equals its first non-nullish operand. |
| `Poru.StrictIdentifier` | src/lib/structures/Client.ts:83 | `t?.info.identifier` throws exactly when the track is present without `info`. Otherwise it agrees with `t?.info?.identifier`. |
| `QueueEndProperties.MissingInfoIsCaught` | src/lib/structures/Client.ts:81-109 | When building the query at line 83 throws, there is no request and the queue is unchanged. The messages are exactly the queue-ended message and then the generic error. This covers a previous track without `info`, and a falsy previous identifier followed by a current track without `info`. |
| `QueueEndProperties.UnusableResponseLeavesPlayerIdle` | src/lib/structures/Client.ts:85-94 | Four responses count as unusable: a missing response, no `tracks`, or a load type of "error" or "empty". After one: the queue is unchanged, `play()` is not called, and exactly one "no tracks" message follows the queue-ended message. |
| `QueueEndProperties.RejectedResolveIsCaught` | src/lib/structures/Client.ts:85-109 | A rejected resolve leaves the queue unchanged and does not call `play()`. It posts the generic error after the queue-ended message. |
| `JsSemantics.Shifted` | src/lib/structures/Client.ts:96 | `shift()` removes exactly the first element, and leaves an empty array empty. |
| `JsSemantics.FloorScaled` | src/lib/structures/Client.ts:98 | `Math.floor(Math.random() * n)` is a valid index when `n > 0`, and 0 when `n = 0`. |
| `JsSemantics.FloorScaledReaches` | src/lib/structures/Client.ts:98 | Every index below `n` is produced by some random value in [0, 1). |
| `JsSemantics.AtShifted` | src/lib/structures/Client.ts:96-98 | Position `i` of the array left by `shift()` is position `i + 1` of the original, including reads past the end. |
| `QueueEnd.Pick` | src/lib/structures/Client.ts:96-98 | With at least two candidates, the pick is the track at some position 1..n-1, never position 0. With fewer, it is `undefined`. |
| `QueueEndProperties.EveryLaterCandidateReachable` | src/lib/structures/Client.ts:96-98 | Every position 1..n-1 is picked for some random value. |
| `QueueEndProperties.UsableResponseAppendsLaterCandidate` | src/lib/structures/Client.ts:96-103 | With n ≥ 2 tracks, exactly one track from positions 1..n-1 is appended behind the unchanged queue. With a channel, "Autoplay added" is posted next, or the generic error if that track has no `info`. A track without `info` gets `play()` exactly when there is no channel and the player is idle. |
| `QueueEndProperties.ShortResponsePushesUndefined` | src/lib/structures/Client.ts:96-109 | With fewer than 2 tracks, `undefined` is appended. With a channel, the generic error follows the queue-ended message. `play()` is called exactly when there is no channel and the player is idle. |
| `QueueEndProperties.PlayIffIdle` | src/lib/structures/Client.ts:99-105 | After an append that raised nothing (the title was readable, or was not read for lack of a channel), `play()` is called exactly when the player was not playing. With a channel, the messages are exactly: the queue-ended message, then "Autoplay added" with the appended track's title. For an idle player, that is followed by "Now playing:" with the same title when `play()` fulfilled, or by the generic error when it rejected. A player that was already playing gets nothing more. |
| `QueueEndProperties.FailureReportedOnceLast` | src/lib/structures/Client.ts:81-110 | The generic error is posted exactly when some autoplay step threw or rejected (and the channel exists). It is posted once, as the last message, and never together with "no tracks". |
| `QueueEndProperties.MissingChannelSkipsTitleRead` | src/lib/structures/Client.ts:78-105 | Without a channel: nothing is posted; the request and queue are as with a channel; `play()` is called exactly when an entry was appended to an idle player. With a channel, `play()` is called exactly in those cases where the appended entry's title is also readable. |
| `QueueEnd.ParseNotice` | src/lib/structures/Client.ts:79-109 | A text that parses as a notice is exactly that notice's rendering. |
| `QueueEndProperties.ParseRenderRoundTrip` | src/lib/structures/Client.ts:79-109 | Every posted message text parses back to the notice it renders. |
| `QueueEndProperties.RenderInjective` | src/lib/structures/Client.ts:79-109 | Distinct notices are posted as distinct texts. |
| `TrackEvents.OnTrackStart` | src/lib/structures/Client.ts:67-70 | The handler throws exactly when the channel exists and the track has no `info`. It posts the announcement when the channel exists, and nothing otherwise. |
| `TrackEvents.OnTrackError` | src/lib/structures/Client.ts:122-129 | The handler throws, before notifying or destroying, exactly when the track has no `info`. Otherwise it notifies the channel if found, naming the track and the error, and then destroys the player. |
| `TrackEvents.TrackErrorDestroysLast` | src/lib/structures/Client.ts:122-129 | The player is destroyed exactly once, as the last action. |

## Left out

- The constructor configuration: intents, partials, presence, log level, prefixes, owner ids, and the Poru instance (Client.ts:11-40). It only configures external libraries.
- `login` (Client.ts:52-65). It sequences external registry loading, the gateway login, `poru.init` and command initialisation, none of which can be seen here.
- The node and player log handlers (Client.ts:114-120, 131-163) and all `console.error` / logger output. They only write operator log lines.
- `trackEnd` (Client.ts:72-75): its body is commented out, so it has no behaviour.
- The module augmentation of the Discord client type (Client.ts:168-178). It is a type declaration only.
- The real `resolve`, `play`, `destroy`, channel lookup and `send` calls. Each is replaced by an input value or an output action. The promise returned by `send` is not awaited by the source, and its failures are not modelled.
- Asynchrony and concurrency. `player.isPlaying` is read after the awaited `resolve` in the source. The model reads it from the snapshot taken when the queue ended. Handlers for other guilds running in between are not modelled.
- Floating point. `Math.random()` and the product with the array length are modelled as exact reals in [0, 1). The uniform distribution is not stated; only that every later candidate is reachable (`EveryLaterCandidateReachable`).
- `null` and `undefined` are one value (`None`). Interpolating either is rendered as "undefined", although JavaScript renders `null` as "null". The requester is modelled as a user id string rather than an arbitrary object.
- The load-type check compares against the strings "error" and "empty" as written. The load types a given Lavalink version actually returns are outside this file.
