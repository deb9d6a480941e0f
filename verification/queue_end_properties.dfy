/**
 Properties of the autoplay continuation policy, each stated for all inputs: what the
 handler does when autoplay is off, how the request is derived from the previous and
 current tracks, what each kind of resolver response leads to, when `play()` is called,
 and how failures are reported.
 */
module QueueEndProperties {
  import opened JsSemantics
  import opened Poru
  import opened QueueEnd

  /** With autoplay off: no request, the queue untouched, no `play()`, only the announcement. */
  lemma AutoplayOffIsInert(p: Player, defaultPlatform: Option<string>, resolved: ResolveOutcome,
                           rand: real, playSucceeds: bool, hasChannel: bool)
    requires 0.0 <= rand < 1.0
    requires !p.isAutoPlay
    ensures OnQueueEnd(p, defaultPlatform, resolved, rand, playSucceeds, hasChannel)
      == Effects(None, p.queue, false, Announced(hasChannel, []))
  {
  }

  /**
   With autoplay on, a request is issued exactly when the query can be built, and it asks
   for the mix seeded by the seed identifier, on behalf of the seed requester, from the
   seed source.
   */
  lemma RequestIsSeededMix(p: Player, defaultPlatform: Option<string>, resolved: ResolveOutcome,
                           rand: real, playSucceeds: bool, hasChannel: bool)
    requires 0.0 <= rand < 1.0
    requires p.isAutoPlay
    ensures var e := OnQueueEnd(p, defaultPlatform, resolved, rand, playSucceeds, hasChannel);
      && (e.request.Some? <==> ContinuationQuery(p).Returns?)
      && (e.request.Some? ==>
            && e.request.value.query == ContinuationUrl(Text(SeedIdentifier(p)))
            && e.request.value.requester == RequesterOf(p)
            && e.request.value.source == SourceOf(p, defaultPlatform))
  {
  }

  /** The seed identifier is the previous track's when truthy, otherwise the current track's. */
  lemma SeedPrefersPrevious(p: Player)
    ensures Truthy(SafeIdentifier(p.previousTrack)) ==> SeedIdentifier(p) == SafeIdentifier(p.previousTrack)
    ensures !Truthy(SafeIdentifier(p.previousTrack)) ==> SeedIdentifier(p) == SafeIdentifier(p.currentTrack)
  {
  }

  /**
   `||` and `??` differ on the empty string: an empty previous identifier falls through to
   the current track's, while an empty previous source name is kept.
   */
  lemma EmptyIdentifierFallsThroughEmptySourceDoesNot(p: Player, defaultPlatform: Option<string>)
    requires InfoOf(p.previousTrack).Some?
    requires InfoOf(p.previousTrack).value.identifier == Some("")
    requires InfoOf(p.previousTrack).value.sourceName == Some("")
    ensures SeedIdentifier(p) == SafeIdentifier(p.currentTrack)
    ensures SourceOf(p, defaultPlatform) == ""
  {
  }

  /** The seed identifier can be read back from the mix URL. */
  lemma {:induction false} SeedOfContinuationUrl(id: string)
    ensures SeedOf(ContinuationUrl(id)) == Some(id)
  {
    var url := ContinuationUrl(id);
    var n := |WatchPrefix|;
    var m := |MixInfix|;
    assert |url| == n + |id| + m + |id|;
    assert (|url| - n - m) / 2 == |id|;
    assert url[n..n + |id|] == id by {
      assert url == (WatchPrefix + id) + (MixInfix + id);
      assert (WatchPrefix + id)[n..] == id;
    }
  }

  /** Distinct seeds give distinct mix URLs. */
  lemma {:induction false} ContinuationUrlInjective(a: string, b: string)
    requires ContinuationUrl(a) == ContinuationUrl(b)
    ensures a == b
  {
    SeedOfContinuationUrl(a);
    SeedOfContinuationUrl(b);
  }

  /**
   When building the query throws (a previous track present without `info`, or a falsy previous
   identifier followed by a current track present without `info`): no request, the queue
   untouched, and the generic error after the announcement.
   */
  lemma MissingInfoIsCaught(p: Player, defaultPlatform: Option<string>, resolved: ResolveOutcome,
                            rand: real, playSucceeds: bool, hasChannel: bool)
    requires 0.0 <= rand < 1.0
    requires p.isAutoPlay
    requires ContinuationQuery(p).Throws?
    ensures OnQueueEnd(p, defaultPlatform, resolved, rand, playSucceeds, hasChannel)
      == Effects(None, p.queue, false, Announced(hasChannel, [AutoplayError]))
  {
  }

  /**
   A missing response, one without tracks, or one flagged "error" or "empty": the queue is
   untouched, `play()` is not called, and exactly one "no tracks" message follows the
   announcement.
   */
  lemma UnusableResponseLeavesPlayerIdle(p: Player, defaultPlatform: Option<string>, resp: Option<Response>,
                                         rand: real, playSucceeds: bool, hasChannel: bool)
    requires 0.0 <= rand < 1.0
    requires p.isAutoPlay
    requires ContinuationQuery(p).Returns?
    requires !Usable(resp)
    ensures var e := OnQueueEnd(p, defaultPlatform, Resolved(resp), rand, playSucceeds, hasChannel);
      && e.request.Some?
      && e.queue == p.queue
      && !e.playCalled
      && e.messages == Announced(hasChannel, [NoTracks])
  {
  }

  /** A rejected resolve is caught: no queue change, no `play()`, the generic error after the announcement. */
  lemma RejectedResolveIsCaught(p: Player, defaultPlatform: Option<string>,
                                rand: real, playSucceeds: bool, hasChannel: bool)
    requires 0.0 <= rand < 1.0
    requires p.isAutoPlay
    requires ContinuationQuery(p).Returns?
    ensures var e := OnQueueEnd(p, defaultPlatform, Rejected, rand, playSucceeds, hasChannel);
      && e.request.Some?
      && e.queue == p.queue
      && !e.playCalled
      && e.messages == Announced(hasChannel, [AutoplayError])
  {
  }

  /**
   A usable response with at least two tracks: exactly one of the tracks after the first is
   appended behind the unchanged queue. With a channel, the second message reports its
   addition, or is the generic error when that track has no `info` to read the title from.
   Without a channel the title is never read, so an idle player is played even then.
   */
  lemma UsableResponseAppendsLaterCandidate(p: Player, defaultPlatform: Option<string>, resp: Response,
                                            rand: real, playSucceeds: bool, hasChannel: bool)
    requires 0.0 <= rand < 1.0
    requires p.isAutoPlay
    requires ContinuationQuery(p).Returns?
    requires Usable(Some(resp))
    requires |resp.tracks.value| >= 2
    ensures var e := OnQueueEnd(p, defaultPlatform, Resolved(Some(resp)), rand, playSucceeds, hasChannel);
      exists k | 1 <= k < |resp.tracks.value| ::
        && e.queue == p.queue + [Some(resp.tracks.value[k])]
        && (hasChannel && resp.tracks.value[k].info.Some? ==>
              e.messages[1] == Added(Text(resp.tracks.value[k].info.value.title)))
        && (resp.tracks.value[k].info.None? ==>
              && (e.playCalled <==> !hasChannel && !p.isPlaying)
              && e.messages == Announced(hasChannel, [AutoplayError]))
  {
    var tracks := resp.tracks.value;
    var picked := Pick(tracks, rand);
    var k :| 1 <= k < |tracks| && picked == Some(tracks[k]);
    assert InfoOf(picked) == tracks[k].info;
  }

  /** Each track after the first is the one picked for some value of `Math.random()`. */
  lemma {:induction false} EveryLaterCandidateReachable(tracks: seq<Track>, k: nat)
    requires 1 <= k < |tracks|
    ensures var rand := (k - 1) as real / (|tracks| - 1) as real;
      0.0 <= rand < 1.0 && Pick(tracks, rand) == Some(tracks[k])
  {
    FloorScaledReaches(|tracks| - 1, k - 1);
  }

  /**
   A usable response with fewer than two tracks: `undefined` is appended to the queue. With a
   channel, reading its title throws, the generic error follows the announcement and `play()`
   is not called; without one, nothing is read and an idle player is played.
   */
  lemma ShortResponsePushesUndefined(p: Player, defaultPlatform: Option<string>, resp: Response,
                                     rand: real, playSucceeds: bool, hasChannel: bool)
    requires 0.0 <= rand < 1.0
    requires p.isAutoPlay
    requires ContinuationQuery(p).Returns?
    requires Usable(Some(resp))
    requires |resp.tracks.value| < 2
    ensures var e := OnQueueEnd(p, defaultPlatform, Resolved(Some(resp)), rand, playSucceeds, hasChannel);
      && e.queue == p.queue + [None]
      && (e.playCalled <==> !hasChannel && !p.isPlaying)
      && e.messages == Announced(hasChannel, [AutoplayError])
  {
  }

  /** The resolver answered with a usable response, so an entry is appended to the queue. */
  predicate Appends(p: Player, defaultPlatform: Option<string>, resolved: ResolveOutcome) {
    && p.isAutoPlay
    && ContinuationQuery(p).Returns?
    && resolved.Resolved?
    && Usable(resolved.response)
  }

  /**
   After an append that raised nothing (the title was read without throwing, or was not read
   at all for lack of a channel), `play()` is called exactly when the player was not playing.
   With a channel, the messages are the announcement, "Autoplay added" with the appended
   track's title, and then, only for an idle player, "Now playing:" with the same title when
   `play()` fulfils or the generic error when it rejects.
   */
  lemma PlayIffIdle(p: Player, defaultPlatform: Option<string>, resolved: ResolveOutcome,
                    rand: real, playSucceeds: bool, hasChannel: bool)
    requires 0.0 <= rand < 1.0
    requires Appends(p, defaultPlatform, resolved)
    requires hasChannel ==> StrictTitle(Pick(resolved.response.value.tracks.value, rand)).Returns?
    ensures var e := OnQueueEnd(p, defaultPlatform, resolved, rand, playSucceeds, hasChannel);
      && (e.playCalled <==> !p.isPlaying)
      && (hasChannel ==>
            var t := Text(StrictTitle(Pick(resolved.response.value.tracks.value, rand)).value);
            e.messages == [QueueEnded, Added(t)]
              + (if p.isPlaying then [] else if playSucceeds then [NowPlaying(t)] else [AutoplayError]))
  {
  }

  /** Some step of the autoplay attempt threw or rejected. */
  predicate AutoplayFailed(p: Player, defaultPlatform: Option<string>, resolved: ResolveOutcome,
                           rand: real, playSucceeds: bool)
    requires 0.0 <= rand < 1.0
  {
    && p.isAutoPlay
    && (|| ContinuationQuery(p).Throws?
        || resolved.Rejected?
        || (Usable(resolved.response) && StrictTitle(Pick(resolved.response.value.tracks.value, rand)).Throws?)
        || (Usable(resolved.response) && !p.isPlaying && !playSucceeds))
  }

  /**
   The generic error message is posted exactly when some step of the autoplay attempt
   failed (and the channel exists); it is then posted once, as the last message, and never
   together with the "no tracks" message.
   */
  lemma FailureReportedOnceLast(p: Player, defaultPlatform: Option<string>, resolved: ResolveOutcome,
                                rand: real, playSucceeds: bool, hasChannel: bool)
    requires 0.0 <= rand < 1.0
    ensures var e := OnQueueEnd(p, defaultPlatform, resolved, rand, playSucceeds, hasChannel);
      && (AutoplayError in e.messages <==> hasChannel && AutoplayFailed(p, defaultPlatform, resolved, rand, playSucceeds))
      && (forall i | 0 <= i < |e.messages| - 1 :: e.messages[i] != AutoplayError)
      && (AutoplayError in e.messages ==> NoTracks !in e.messages)
  {
    var e := OnQueueEnd(p, defaultPlatform, resolved, rand, playSucceeds, hasChannel);
    if p.isAutoPlay && ContinuationQuery(p).Returns? && resolved.Resolved? && Usable(resolved.response) {
      var picked := Pick(resolved.response.value.tracks.value, rand);
      if StrictTitle(picked).Returns? {
        assert AutoplayError in e.messages <==> hasChannel && !p.isPlaying && !playSucceeds;
      }
    }
  }

  /**
   How a missing channel changes a run: nothing is posted and the request and queue are the
   same, but because the title is then never read, `play()` is called on an idle player
   whenever an entry was appended, while with a channel it is called only when that entry's
   title can be read.
   */
  lemma MissingChannelSkipsTitleRead(p: Player, defaultPlatform: Option<string>, resolved: ResolveOutcome,
                                     rand: real, playSucceeds: bool)
    requires 0.0 <= rand < 1.0
    ensures var with := OnQueueEnd(p, defaultPlatform, resolved, rand, playSucceeds, true);
      var without := OnQueueEnd(p, defaultPlatform, resolved, rand, playSucceeds, false);
      && without.request == with.request
      && without.queue == with.queue
      && without.messages == []
      && (without.playCalled <==> !p.isPlaying && |with.queue| == |p.queue| + 1)
      && (with.playCalled <==> without.playCalled && StrictTitle(with.queue[|p.queue|]).Returns?)
  {
  }

  /** A text that differs from `prefix` at position `i` does not start with it. */
  lemma DiffersFromPrefix(prefix: string, text: string, i: nat)
    requires i < |prefix| && i < |text| && text[i] != prefix[i]
    ensures !Quotes(prefix, text)
  {
  }

  /** Each notice's text parses back to that notice, so the channel log determines the notices. */
  lemma {:induction false} ParseRenderRoundTrip(n: Notice)
    ensures ParseNotice(Render(n)) == Some(n)
  {
    var text := Render(n);
    match n
    case Added(t) =>
      assert text[..|AddedPrefix|] == AddedPrefix;
      assert text[|AddedPrefix|..|text| - 1] == t;
    case NowPlaying(t) =>
      DiffersFromPrefix(AddedPrefix, text, 0);
      assert text[..|NowPlayingPrefix|] == NowPlayingPrefix;
      assert text[|NowPlayingPrefix|..|text| - 1] == t;
    case QueueEnded =>
      DiffersFromPrefix(AddedPrefix, text, 0);
      DiffersFromPrefix(NowPlayingPrefix, text, 0);
    case NoTracks =>
      DiffersFromPrefix(AddedPrefix, text, 0);
      DiffersFromPrefix(NowPlayingPrefix, text, 2);
    case AutoplayError =>
      DiffersFromPrefix(AddedPrefix, text, 1);
      DiffersFromPrefix(NowPlayingPrefix, text, 0);
  }

  /** Different notices are posted as different texts. */
  lemma {:induction false} RenderInjective(a: Notice, b: Notice)
    requires Render(a) == Render(b)
    ensures a == b
  {
    ParseRenderRoundTrip(a);
    ParseRenderRoundTrip(b);
  }
}
