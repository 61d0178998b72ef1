/** The application's display policy: which transcription results reach the overlay,
    with which second line and for how long, and the one remembered translation that
    interim results are shown with. */
module App {
  import opened Wrappers
  import opened Polish
  import Display

  const FinalDuration: real := 5.0
  const InterimDuration: real := 2.0
  const ErrorDuration: real := 5.0
  const ErrorTitle: string := "Error"
  const StartupOriginal: string := "Deepgram Live Subtitle Started"
  const StartupTranslation: string := "实时字幕已启动"

  /** One call of `update_subtitle`. */
  datatype Request = Request(originalText: string, chineseText: string, duration: real)

  /** What `_on_transcription` asks the overlay to show for result `r` when `last` is the
      remembered translation: a translated final result for five seconds, an interim
      result under the remembered translation for two, and nothing for an untranslated
      final result. */
  function Shown(last: string, r: TranscriptionResult): (o: Option<Request>)
    ensures o.Some? <==> !r.isFinal || r.chineseTranslation != ""
    ensures o.Some? ==> o.value.originalText == r.originalText
    ensures o.Some? && r.isFinal ==> o.value.chineseText == r.chineseTranslation && o.value.duration == FinalDuration
    ensures o.Some? && !r.isFinal ==> o.value.chineseText == last && o.value.duration == InterimDuration
  {
    if r.isFinal && r.chineseTranslation != "" then Some(Request(r.originalText, r.chineseTranslation, FinalDuration))
    else if !r.isFinal then Some(Request(r.originalText, last, InterimDuration))
    else None
  }

  /** The remembered translation after result `r`: only a translated final result replaces it. */
  function Remember(last: string, r: TranscriptionResult): (l: string)
    ensures l == last || (r.isFinal && r.chineseTranslation != "" && l == r.chineseTranslation)
    ensures !r.isFinal || r.chineseTranslation == "" ==> l == last
  {
    if r.isFinal && r.chineseTranslation != "" then r.chineseTranslation else last
  }

  /** The remembered translation after each result of `rs` in turn. */
  function RememberAll(last: string, rs: seq<TranscriptionResult>): string
    decreases |rs|
  {
    if rs == [] then last else RememberAll(Remember(last, rs[0]), rs[1..])
  }

  /** The translation of the most recent translated final result in `rs`, or `initial`
      when there is none. */
  function LatestTranslation(initial: string, rs: seq<TranscriptionResult>): string
    decreases |rs|
  {
    if rs == [] then initial
    else
      var r := rs[|rs| - 1];
      if r.isFinal && r.chineseTranslation != "" then r.chineseTranslation
      else LatestTranslation(initial, rs[..|rs| - 1])
  }

  /** Remembering result by result gives the latest translated final result. */
  lemma {:induction false} RememberAllIsLatest(last: string, rs: seq<TranscriptionResult>)
    ensures RememberAll(last, rs) == LatestTranslation(last, rs)
    decreases |rs|
  {
    if rs != [] {
      var init := rs[..|rs| - 1];
      RememberAllSnoc(last, init, rs[|rs| - 1]);
      assert init + [rs[|rs| - 1]] == rs;
      RememberAllIsLatest(last, init);
    }
  }

  lemma {:induction false} RememberAllSnoc(last: string, rs: seq<TranscriptionResult>, r: TranscriptionResult)
    ensures RememberAll(last, rs + [r]) == Remember(RememberAll(last, rs), r)
    decreases |rs|
  {
    if rs == [] {
      assert [r][1..] == [];
    } else {
      assert (rs + [r])[1..] == rs[1..] + [r];
      RememberAllSnoc(Remember(last, rs[0]), rs[1..], r);
    }
  }

  /** An interim result arriving after `rs` is shown under the latest translation among
      them (the startup text when none has come yet), never its own. */
  lemma InterimShowsLatest(rs: seq<TranscriptionResult>, r: TranscriptionResult)
    requires !r.isFinal
    ensures Shown(RememberAll(StartupTranslation, rs), r)
         == Some(Request(r.originalText, LatestTranslation(StartupTranslation, rs), InterimDuration))
  {
    RememberAllIsLatest(StartupTranslation, rs);
  }

  /** What `_on_error` asks the overlay to show. */
  function ErrorShown(message: string): (q: Request)
    ensures q.originalText == ErrorTitle && q.chineseText == message && q.duration == ErrorDuration
  {
    Request(ErrorTitle, message, ErrorDuration)
  }

  /** What a request adds to the overlay's queue. */
  function Delivered(running: bool, o: Option<Request>): seq<Display.SubtitleUpdate> {
    if o.Some? then Display.Enqueued(running, o.value.originalText, o.value.chineseText, o.value.duration)
    else []
  }

  class LiveSubtitle {
    var subtitleDisplay: Display.SubtitleDisplay?
    var lastChineseTranslation: string

    constructor (subtitleDisplay: Display.SubtitleDisplay?)
      ensures this.subtitleDisplay == subtitleDisplay && lastChineseTranslation == ""
    {
      this.subtitleDisplay := subtitleDisplay;
      lastChineseTranslation := "";
    }

    /** `_on_transcription`: without a display nothing happens. */
    method OnTranscription(result: TranscriptionResult)
      requires subtitleDisplay != null ==> subtitleDisplay.Valid()
      modifies this`lastChineseTranslation, (if subtitleDisplay == null then {} else {subtitleDisplay})`updateQueue
      ensures subtitleDisplay == old(subtitleDisplay)
      ensures subtitleDisplay == null ==> lastChineseTranslation == old(lastChineseTranslation)
      ensures subtitleDisplay != null ==>
        && subtitleDisplay.Valid()
        && lastChineseTranslation == Remember(old(lastChineseTranslation), result)
        && subtitleDisplay.updateQueue
           == old(subtitleDisplay.updateQueue)
              + Delivered(subtitleDisplay.isRunning, Shown(old(lastChineseTranslation), result))
        && unchanged(subtitleDisplay`isRunning)
    {
      if subtitleDisplay == null {
        return;
      }
      if result.isFinal && result.chineseTranslation != "" {
        lastChineseTranslation := result.chineseTranslation;
        subtitleDisplay.UpdateSubtitle(result.originalText, result.chineseTranslation, FinalDuration);
      } else if !result.isFinal {
        subtitleDisplay.UpdateSubtitle(result.originalText, lastChineseTranslation, InterimDuration);
      }
    }

    /** `_on_error`. */
    method OnError(message: string)
      requires subtitleDisplay != null ==> subtitleDisplay.Valid()
      modifies (if subtitleDisplay == null then {} else {subtitleDisplay})`updateQueue
      ensures subtitleDisplay != null ==>
        && subtitleDisplay.Valid()
        && subtitleDisplay.updateQueue
           == old(subtitleDisplay.updateQueue) + Delivered(subtitleDisplay.isRunning, Some(ErrorShown(message)))
    {
      if subtitleDisplay != null {
        subtitleDisplay.UpdateSubtitle(ErrorTitle, message, ErrorDuration);
      }
    }

    /** The startup message of `_async_main`: with a display, the remembered translation
        becomes the startup text and the startup lines are shown for five seconds. */
    method ShowStartupMessage()
      requires subtitleDisplay != null ==> subtitleDisplay.Valid()
      modifies this`lastChineseTranslation, (if subtitleDisplay == null then {} else {subtitleDisplay})`updateQueue
      ensures subtitleDisplay == old(subtitleDisplay)
      ensures lastChineseTranslation == if subtitleDisplay != null then StartupTranslation else old(lastChineseTranslation)
      ensures subtitleDisplay != null ==>
        && subtitleDisplay.Valid()
        && subtitleDisplay.updateQueue
           == old(subtitleDisplay.updateQueue)
              + Delivered(subtitleDisplay.isRunning, Some(Request(StartupOriginal, StartupTranslation, FinalDuration)))
    {
      if subtitleDisplay != null {
        lastChineseTranslation := StartupTranslation;
        subtitleDisplay.UpdateSubtitle(StartupOriginal, StartupTranslation, FinalDuration);
      }
    }
  }
}
