/**
 The parts of the audio node manager's data that the event handlers read: tracks,
 the per-guild player snapshot, the resolve request and the resolver's response.
 Every field the handlers reach through optional chaining is optional here.
 */
module Poru {
  import opened JsSemantics

  /** What the node reports about a track. The requester is the requesting user's id. */
  datatype TrackInfo = TrackInfo(
    identifier: Option<string>,
    requester: Option<string>,
    sourceName: Option<string>,
    title: Option<string>)

  /** A playable track; `info` is absent when the node returned no metadata. */
  datatype Track = Track(info: Option<TrackInfo>)

  /**
   A snapshot of a guild's player when its queue ends. Queue entries are optional because
   `undefined` can be pushed onto the queue (see the autoplay handler).
   */
  datatype Player = Player(
    isAutoPlay: bool,
    isPlaying: bool,
    queue: seq<Option<Track>>,
    previousTrack: Option<Track>,
    currentTrack: Option<Track>)

  /** The argument object passed to the manager's `resolve`. */
  datatype ResolveRequest = ResolveRequest(query: string, requester: Option<string>, source: string)

  /** What `resolve` hands back: candidate tracks (possibly missing) and a load type such as "search", "empty" or "error". */
  datatype Response = Response(tracks: Option<seq<Track>>, loadType: string)

  /** The settled `resolve` promise: rejected, or fulfilled with a response that may itself be `null`/`undefined`. */
  datatype ResolveOutcome = Rejected | Resolved(response: Option<Response>)

  /** `t?.info`: the info of a track that may be absent. */
  function InfoOf(t: Option<Track>): Option<TrackInfo> {
    if t.Some? then t.value.info else None
  }

  /** The track is present but carries no `info`. */
  predicate LacksInfo(t: Option<Track>) {
    t.Some? && t.value.info.None?
  }

  /** `t?.info?.identifier` */
  function SafeIdentifier(t: Option<Track>): Option<string> {
    if InfoOf(t).Some? then InfoOf(t).value.identifier else None
  }

  /** `t?.info?.requester` */
  function SafeRequester(t: Option<Track>): Option<string> {
    if InfoOf(t).Some? then InfoOf(t).value.requester else None
  }

  /** `t?.info?.sourceName` */
  function SafeSourceName(t: Option<Track>): Option<string> {
    if InfoOf(t).Some? then InfoOf(t).value.sourceName else None
  }

  /**
   `t?.info.identifier`: short-circuits to `undefined` when the track is absent, but throws
   when the track is present without `info`.
   */
  function StrictIdentifier(t: Option<Track>): (r: Eval<Option<string>>)
    ensures r.Throws? <==> LacksInfo(t)
    ensures r.Returns? ==> r.value == SafeIdentifier(t)
  {
    if t.None? then Returns(None)
    else if t.value.info.None? then Throws
    else Returns(t.value.info.value.identifier)
  }

  /** `t.info.title` on a value that may be `undefined`: throws unless both the track and its info are present. */
  function StrictTitle(t: Option<Track>): Eval<Option<string>> {
    if t.None? || t.value.info.None? then Throws
    else Returns(t.value.info.value.title)
  }
}
