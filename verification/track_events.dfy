/**
 The per-track notifications: the announcement when a track starts, and the error rule
 that notifies the channel and then destroys the player. Neither handler catches anything,
 so a throw here escapes to the event emitter.
 */
module TrackEvents {
  import opened JsSemantics
  import opened Poru

  /** What a handler does to the outside world, in order. */
  datatype Action = Send(text: string) | DestroyPlayer

  /** The announcement posted when a track starts playing. */
  function StartText(title: Option<string>): string {
    "Now playing `" + Text(title) + "`"
  }

  /** The notice posted when the node reports a track exception; `error` is the error's string form. */
  function ErrorText(title: Option<string>, error: string): string {
    "An error occurred while playing `" + Text(title) + "`: " + error + ". Skipping..."
  }

  /**
   The `trackStart` handler. The optional call `channel?.send(...)` skips evaluating its
   argument when the channel is missing, so the title is read, and can throw, only when
   there is a channel to post to.
   */
  function OnTrackStart(track: Track, hasChannel: bool): (r: Eval<seq<Action>>)
    ensures r.Throws? <==> hasChannel && track.info.None?
    ensures r.Returns? && hasChannel ==> r.value == [Send(StartText(track.info.value.title))]
    ensures r.Returns? && !hasChannel ==> r.value == []
  {
    if !hasChannel then Returns([])
    else match StrictTitle(Some(track))
      case Throws => Throws
      case Returns(title) => Returns([Send(StartText(title))])
  }

  /**
   The `trackError` handler. The title is read for the operator log before anything else,
   whether or not the channel exists; when that succeeds the channel is notified (if found)
   and the player is then destroyed.
   */
  function OnTrackError(track: Track, error: string, hasChannel: bool): (r: Eval<seq<Action>>)
    ensures r.Throws? <==> track.info.None?
    ensures r.Returns? ==> |r.value| == (if hasChannel then 2 else 1)
    ensures r.Returns? ==> r.value[|r.value| - 1] == DestroyPlayer
    ensures r.Returns? && hasChannel ==> r.value[0] == Send(ErrorText(track.info.value.title, error))
  {
    match StrictTitle(Some(track))
    case Throws => Throws
    case Returns(title) =>
      var notify := if hasChannel then [Send(ErrorText(title, error))] else [];
      Returns(notify + [DestroyPlayer])
  }

  /** The player is destroyed exactly once, as the last action, after any notification. */
  lemma TrackErrorDestroysLast(track: Track, error: string, hasChannel: bool)
    requires track.info.Some?
    ensures var r := OnTrackError(track, error, hasChannel);
      && r.Returns?
      && (forall i | 0 <= i < |r.value| :: r.value[i] == DestroyPlayer <==> i == |r.value| - 1)
  {
  }
}
