/**
 The autoplay continuation policy run when a player's queue ends: announce the end of
 the queue and, when autoplay is on, ask the resolver for a YouTube mix seeded by the
 last track, skip the first candidate, append one of the others at random and start
 playback if the player is idle. Every failure inside the autoplay step is caught and
 reported to the channel with one generic message.

 The network `resolve`, the `play()` promise, `Math.random()` and the channel lookup are
 inputs: `resolved`, `playSucceeds`, `rand` and `hasChannel`.
 */
module QueueEnd {
  import opened JsSemantics
  import opened Poru

  const WatchPrefix: string := "https://www.youtube.com/watch?v="
  const MixInfix: string := "&list=RD"

  /** The source used when neither track nor the manager's options name one. */
  const FallbackSource: string := "ytmsearch"

  /** The messages the handler posts to the player's text channel. */
  datatype Notice =
    | QueueEnded
    | NoTracks
    | Added(title: string)
    | NowPlaying(title: string)
    | AutoplayError

  const AddedPrefix: string := "Autoplay added a new track: `"
  const NowPlayingPrefix: string := "Now playing: `"

  /** The exact text posted for each notice; titles are quoted in backticks. */
  function Render(n: Notice): string {
    match n
    case QueueEnded => "The queue has ended."
    case NoTracks => "No tracks found for autoplay." + " The player will be idle."
    case Added(t) => AddedPrefix + t + "`"
    case NowPlaying(t) => NowPlayingPrefix + t + "`"
    case AutoplayError => "An error occurred" + " while attempting to autoplay a new track."
  }

  /** `text` is `prefix`, then some title, then a closing backtick. */
  predicate Quotes(prefix: string, text: string) {
    |text| > |prefix| && text[..|prefix|] == prefix && text[|text| - 1] == '`'
  }

  /** Reads a posted text back as the notice it renders, if any. */
  function ParseNotice(text: string): (r: Option<Notice>)
    ensures r.Some? ==> Render(r.value) == text
  {
    if Quotes(AddedPrefix, text) then
      assert text == AddedPrefix + text[|AddedPrefix|..|text| - 1] + "`";
      Some(Added(text[|AddedPrefix|..|text| - 1]))
    else if Quotes(NowPlayingPrefix, text) then
      assert text == NowPlayingPrefix + text[|NowPlayingPrefix|..|text| - 1] + "`";
      Some(NowPlaying(text[|NowPlayingPrefix|..|text| - 1]))
    else if text == Render(QueueEnded) then Some(QueueEnded)
    else if text == Render(NoTracks) then Some(NoTracks)
    else if text == Render(AutoplayError) then Some(AutoplayError)
    else None
  }

  /**
   What one run of the handler does: the resolve request it issues (if any), the player's
   queue afterwards, whether `play()` is called, and the messages posted, in order.
   */
  datatype Effects = Effects(
    request: Option<ResolveRequest>,
    queue: seq<Option<Track>>,
    playCalled: bool,
    messages: seq<Notice>)

  /** The mix URL seeded by a track identifier: the same identifier as video and as radio list. */
  function ContinuationUrl(id: string): string {
    WatchPrefix + id + MixInfix + id
  }

  /** Recovers the seed identifier from a mix URL; absent for anything `ContinuationUrl` cannot produce. */
  function SeedOf(url: string): (r: Option<string>)
    ensures r.Some? ==> ContinuationUrl(r.value) == url
  {
    var n := |WatchPrefix|;
    var m := |MixInfix|;
    if |url| < n + m || (|url| - n - m) % 2 != 0 then None
    else
      var id := url[n..n + (|url| - n - m) / 2];
      if ContinuationUrl(id) == url then Some(id) else None
  }

  /** `previousTrack?.info?.identifier || currentTrack?.info?.identifier` */
  function SeedIdentifier(p: Player): Option<string> {
    Or(SafeIdentifier(p.previousTrack), SafeIdentifier(p.currentTrack))
  }

  /**
   The continuation query. The template interpolates the seed identifier twice, the first
   time through `?.info?.` and the second through `?.info.`, so the second evaluation throws
   when a track it reaches is present without `info`. When nothing throws both
   interpolations agree, and an absent identifier is spelled "undefined".
   */
  function ContinuationQuery(p: Player): (q: Eval<string>)
    ensures q.Throws? <==>
      LacksInfo(p.previousTrack) || (!Truthy(SafeIdentifier(p.previousTrack)) && LacksInfo(p.currentTrack))
    ensures q.Returns? ==> q.value == ContinuationUrl(Text(SeedIdentifier(p)))
  {
    var second :=
      match StrictIdentifier(p.previousTrack)
      case Throws => Throws
      case Returns(a) => if Truthy(a) then Returns(a) else StrictIdentifier(p.currentTrack);
    if second.Throws? then Throws
    else Returns(WatchPrefix + Text(SeedIdentifier(p)) + MixInfix + Text(second.value))
  }

  /** `previousTrack?.info?.requester ?? currentTrack?.info?.requester` */
  function RequesterOf(p: Player): (r: Option<string>)
    ensures SafeRequester(p.previousTrack).Some? ==> r == SafeRequester(p.previousTrack)
    ensures SafeRequester(p.previousTrack).None? ==> r == SafeRequester(p.currentTrack)
  {
    var chain := [SafeRequester(p.previousTrack), SafeRequester(p.currentTrack)];
    assert FirstDefinedAt(chain, 0) || FirstDefinedAt(chain, 1) || forall i | 0 <= i < |chain| :: chain[i].None?;
    Coalesce(chain)
  }

  /** `previousTrack?.info?.sourceName ?? currentTrack?.info?.sourceName ?? defaultPlatform ?? "ytmsearch"` */
  function SourceOf(p: Player, defaultPlatform: Option<string>): (s: string)
    ensures SafeSourceName(p.previousTrack).Some? ==> s == SafeSourceName(p.previousTrack).value
    ensures SafeSourceName(p.previousTrack).None? && SafeSourceName(p.currentTrack).Some? ==>
      s == SafeSourceName(p.currentTrack).value
    ensures SafeSourceName(p.previousTrack).None? && SafeSourceName(p.currentTrack).None? && defaultPlatform.Some? ==>
      s == defaultPlatform.value
    ensures SafeSourceName(p.previousTrack).None? && SafeSourceName(p.currentTrack).None? && defaultPlatform.None? ==>
      s == FallbackSource
  {
    var chain := [SafeSourceName(p.previousTrack), SafeSourceName(p.currentTrack), defaultPlatform];
    assert FirstDefinedAt(chain, 0) || FirstDefinedAt(chain, 1) || FirstDefinedAt(chain, 2)
      || forall i | 0 <= i < |chain| :: chain[i].None?;
    Coalesce(chain).GetOr(FallbackSource)
  }

  /** The resolve request the handler builds, or `Throws` when building the query throws. */
  function RequestFor(p: Player, defaultPlatform: Option<string>): Eval<ResolveRequest> {
    match ContinuationQuery(p)
    case Throws => Throws
    case Returns(q) => Returns(ResolveRequest(q, RequesterOf(p), SourceOf(p, defaultPlatform)))
  }

  /** Neither missing, nor without `tracks`, nor flagged with an "error" or "empty" load type. */
  predicate Usable(resp: Option<Response>) {
    && resp.Some?
    && resp.value.tracks.Some?
    && resp.value.loadType != "error"
    && resp.value.loadType != "empty"
  }

  /**
   `tracks.shift()` followed by `tracks[Math.floor(rand * tracks.length)]`: one of the
   candidates after the first when there are at least two, `undefined` otherwise.
   */
  function Pick(tracks: seq<Track>, rand: real): (r: Option<Track>)
    requires 0.0 <= rand < 1.0
    ensures |tracks| >= 2 ==> exists k | 1 <= k < |tracks| :: r == Some(tracks[k])
    ensures |tracks| < 2 ==> r.None?
  {
    var rest := Shifted(tracks);
    var r := At(rest, FloorScaled(rand, |rest|));
    if |tracks| >= 2 then
      AtShifted(tracks, FloorScaled(rand, |rest|));
      r
    else r
  }

  /**
   The body of the `try` block, without the announcement that precedes it: the request
   issued, the queue afterwards, whether `play()` is called and the messages posted. The
   `track.info.title` reads are arguments of the two `channel?.send(...)` calls, which skip
   evaluating their arguments when the channel is missing; so without a channel nothing is
   read, nothing throws after the push, and an idle player is played whatever was appended.
   */
  function Autoplay(p: Player, defaultPlatform: Option<string>, resolved: ResolveOutcome,
                    rand: real, playSucceeds: bool, hasChannel: bool): Effects
    requires 0.0 <= rand < 1.0
  {
    if !p.isAutoPlay then Effects(None, p.queue, false, [])
    else
      match RequestFor(p, defaultPlatform)
      case Throws => Effects(None, p.queue, false, [AutoplayError])
      case Returns(req) =>
        match resolved
        case Rejected => Effects(Some(req), p.queue, false, [AutoplayError])
        case Resolved(resp) =>
          if !Usable(resp) then Effects(Some(req), p.queue, false, [NoTracks])
          else
            var picked := Pick(resp.value.tracks.value, rand);
            var queue := p.queue + [picked];
            if !hasChannel then Effects(Some(req), queue, !p.isPlaying, [])
            else
              match StrictTitle(picked)
              case Throws => Effects(Some(req), queue, false, [AutoplayError])
              case Returns(title) =>
                if p.isPlaying then Effects(Some(req), queue, false, [Added(Text(title))])
                else if playSucceeds then Effects(Some(req), queue, true, [Added(Text(title)), NowPlaying(Text(title))])
                else Effects(Some(req), queue, true, [Added(Text(title)), AutoplayError])
  }

  /** The queue afterwards is the queue before, possibly with one more entry at the end. */
  predicate AppendsAtMostOne(before: seq<Option<Track>>, after: seq<Option<Track>>) {
    after == before || (|after| == |before| + 1 && after[..|before|] == before)
  }

  /** What reaches the channel: the announcement and then `rest` when the channel exists, nothing otherwise. */
  function Announced(hasChannel: bool, rest: seq<Notice>): seq<Notice> {
    if hasChannel then [QueueEnded] + rest else []
  }

  /**
   The `queueEnd` handler. The queue-ended announcement always comes first, nothing is
   posted when the channel is not found, the queue only ever grows by one entry at the end
   and only after a resolve request, and `play()` is called exactly when the player was idle,
   an entry was appended, and (with a channel to post to) that entry's title could be read.
   */
  function OnQueueEnd(p: Player, defaultPlatform: Option<string>, resolved: ResolveOutcome,
                      rand: real, playSucceeds: bool, hasChannel: bool): (e: Effects)
    requires 0.0 <= rand < 1.0
    ensures hasChannel ==> 1 <= |e.messages| <= 3 && e.messages[0] == QueueEnded
    ensures !hasChannel ==> e.messages == []
    ensures AppendsAtMostOne(p.queue, e.queue)
    ensures e.request.None? ==> e.queue == p.queue && !e.playCalled
    ensures e.playCalled <==>
      && !p.isPlaying
      && |e.queue| == |p.queue| + 1
      && (hasChannel ==> StrictTitle(e.queue[|p.queue|]).Returns?)
    ensures !p.isAutoPlay ==> e.request.None?
  {
    var a := Autoplay(p, defaultPlatform, resolved, rand, playSucceeds, hasChannel);
    Effects(a.request, a.queue, a.playCalled, Announced(hasChannel, a.messages))
  }
}
