/** The transcriber's state as a value, and each of its operations as a function from
    the state before to the state after: connection flags, the bounded retry loop,
    the gate on outgoing audio, fragment aggregation with its one-second throttle, the
    polish queue and the consumer task. The class in module Transcriber is proved to
    follow these functions; the lemmas here state what the operations promise.

    Remote calls are inputs: whether a connect attempt succeeds, what the polishing
    service replies, the wall-clock reading and the rendered timestamp. What the
    transcriber hands to its two callbacks is recorded in `emitted` and `errors`,
    what it sends over the connection in `sent`, and what it asks the polishing
    service in `prompts`. */
module TranscriberSpec {
  import opened Wrappers
  import opened Polish

  const MaxReconnectAttempts: nat := 5
  const TranslationThreshold: real := 1.0

  const StartFailed: string := "启动失败: Failed to connect to Deepgram"
  const ReconnectFailed: string := "无法重新连接: Failed to reconnect"
  /** The message of the `IndexError` raised when an event carries no alternative. */
  const TranscriptFailed: string := "处理转录错误: list index out of range"

  /** The state of the polish-processor task: never created, blocked in `get()`, or returned. */
  datatype TaskState = NoTask | Waiting | Finished

  datatype Session = Session(
    language: string,
    interimResults: bool,
    hasConnection: bool,
    isRunning: bool,
    connectionReady: bool,
    hasMainLoop: bool,
    reconnectAttempts: nat,
    isReconnecting: bool,
    recentTranscriptions: seq<TranscriptionResult>,
    pendingText: string,
    lastTranslationTime: real,
    polishQueue: seq<QueueEntry>,
    polishTask: TaskState,
    emitted: seq<TranscriptionResult>,
    errors: seq<string>,
    sent: seq<seq<bv8>>,
    prompts: seq<Prompt>)

  /** A freshly constructed transcriber. */
  function Initial(language: string, interimResults: bool): (s: Session)
    ensures !s.isRunning && !s.hasConnection && !s.connectionReady && !s.isReconnecting
    ensures s.reconnectAttempts == 0 && s.polishTask == NoTask && s.polishQueue == []
  {
    Session(language, interimResults, false, false, false, false, 0, false,
            [], "", 0.0, [], NoTask, [], [], [], [])
  }

  // ---------------------------------------------------------------- start and stop

  /** `start`: sets `is_running`, records the event loop and creates a connection; when
      the connection starts the polish task is created, otherwise the error callback
      gets the start failure (and `is_running` stays set). */
  function Start(s: Session, connected: bool): (r: Session)
    ensures r.isRunning && r.hasMainLoop && r.hasConnection
    ensures connected <==> r.polishTask == Waiting && r.errors == s.errors
    ensures !connected ==> r.errors == s.errors + [StartFailed] && r.polishTask == s.polishTask
    ensures r.(isRunning := s.isRunning, hasMainLoop := s.hasMainLoop, hasConnection := s.hasConnection,
               polishTask := s.polishTask, errors := s.errors) == s
  {
    var t := s.(isRunning := true, hasMainLoop := true, hasConnection := true);
    if connected then t.(polishTask := Waiting) else t.(errors := s.errors + [StartFailed])
  }

  /** The polish task resumed: it drains the queue as `Drain` says and is left blocked
      or finished accordingly. */
  function Resume(s: Session, replies: seq<Reply>): (r: Session)
    requires |replies| >= |s.polishQueue|
  {
    if s.polishTask != Waiting then s
    else
      var d := Drain(s.recentTranscriptions, s.polishQueue, replies, s.isRunning);
      s.(emitted := s.emitted + d.emitted, recentTranscriptions := d.window,
         polishQueue := d.queue, prompts := s.prompts + d.prompts,
         polishTask := if d.waiting then Waiting else Finished)
  }

  /** A task not blocked in `get()` is unaffected; otherwise resuming it only extends the
      results and prompts and changes the window, the queue and the task state. */
  lemma ResumeFrame(s: Session, replies: seq<Reply>)
    requires |replies| >= |s.polishQueue|
    ensures var r := Resume(s, replies);
      && (s.polishTask != Waiting ==> r == s)
      && |s.emitted| <= |r.emitted| && r.emitted[..|s.emitted|] == s.emitted
      && r.(emitted := s.emitted, recentTranscriptions := s.recentTranscriptions, polishQueue := s.polishQueue,
            prompts := s.prompts, polishTask := s.polishTask) == s
  {
  }

  /** The consumer takes the submission at the head of the queue, polishes it and hands
      the result to the transcription callback. */
  function TakeAndPolish(s: Session, reply: Reply): (r: Session)
    requires s.polishQueue != [] && s.polishQueue[0].Item?
  {
    var p := PolishTranscription(s.recentTranscriptions, s.polishQueue[0].submission, reply);
    s.(polishQueue := s.polishQueue[1..], recentTranscriptions := p.window,
       prompts := s.prompts + [p.prompt], emitted := s.emitted + [p.result])
  }

  /** One turn takes the head submission off the queue, emits one final result with its
      text, sends one prompt with the current context, and changes nothing else. */
  lemma TakeAndPolishEffect(s: Session, reply: Reply)
    requires s.polishQueue != [] && s.polishQueue[0].Item?
    ensures var r := TakeAndPolish(s, reply); var sub := s.polishQueue[0].submission;
      && r.polishQueue == s.polishQueue[1..]
      && |r.emitted| == |s.emitted| + 1 && r.emitted[..|s.emitted|] == s.emitted
      && r.emitted[|s.emitted|].isFinal && r.emitted[|s.emitted|].originalText == sub.text
      && r.emitted[|s.emitted|].chineseTranslation == TranslationField(reply).GetOr("")
      && r.prompts == s.prompts + [Prompt(BuildContext(s.recentTranscriptions), sub.text)]
      && r.(polishQueue := s.polishQueue, recentTranscriptions := s.recentTranscriptions,
            prompts := s.prompts, emitted := s.emitted) == s
  {
  }

  /** One turn of the resumed consumer on a submission: it then goes on while running
      and returns otherwise. */
  lemma ResumeTakes(s: Session, replies: seq<Reply>)
    requires s.polishTask == Waiting && |replies| >= |s.polishQueue|
    requires s.polishQueue != [] && s.polishQueue[0].Item?
    ensures s.isRunning ==> Resume(s, replies) == Resume(TakeAndPolish(s, replies[0]), replies[1..])
    ensures !s.isRunning ==> Resume(s, replies) == TakeAndPolish(s, replies[0]).(polishTask := Finished)
  {
    if s.isRunning {
      ResumeTakesRunning(s, replies);
    } else {
      ResumeTakesStopped(s, replies);
    }
  }

  lemma ResumeTakesRunning(s: Session, replies: seq<Reply>)
    requires s.polishTask == Waiting && |replies| >= |s.polishQueue| && s.isRunning
    requires s.polishQueue != [] && s.polishQueue[0].Item?
    ensures Resume(s, replies) == Resume(TakeAndPolish(s, replies[0]), replies[1..])
  {
    var p := PolishTranscription(s.recentTranscriptions, s.polishQueue[0].submission, replies[0]);
    var rest := Drain(p.window, s.polishQueue[1..], replies[1..], true);
    SnocAssoc(s.emitted, p.result, rest.emitted);
    SnocAssoc(s.prompts, p.prompt, rest.prompts);
  }

  lemma SnocAssoc<T>(a: seq<T>, x: T, b: seq<T>)
    ensures a + ([x] + b) == (a + [x]) + b
  {
  }

  lemma ResumeTakesStopped(s: Session, replies: seq<Reply>)
    requires s.polishTask == Waiting && |replies| >= |s.polishQueue| && !s.isRunning
    requires s.polishQueue != [] && s.polishQueue[0].Item?
    ensures Resume(s, replies) == TakeAndPolish(s, replies[0]).(polishTask := Finished)
  {
  }

  /** `stop`: clears `is_running` and `is_reconnecting`, drops the connection, and if a
      polish task exists puts the sentinel and awaits the task. */
  function Stop(s: Session, replies: seq<Reply>): (r: Session)
    requires |replies| > |s.polishQueue|
    ensures !r.isRunning && !r.isReconnecting && !r.hasConnection
    ensures r.polishTask == if s.polishTask == NoTask then NoTask else Finished
    ensures s.polishTask == NoTask ==> r == s.(isRunning := false, isReconnecting := false, hasConnection := false)
  {
    var t := s.(isRunning := false, isReconnecting := false, hasConnection := false);
    if t.polishTask == NoTask then t
    else
      var u := t.(polishQueue := t.polishQueue + [Sentinel]);
      DrainAfterStop(u.recentTranscriptions, u.polishQueue, replies);
      Resume(u, replies)
  }

  // ------------------------------------------------------------- connection events

  /** `_on_open`. */
  function OnOpen(s: Session): (r: Session)
    ensures r.connectionReady && r.(connectionReady := s.connectionReady) == s
  {
    s.(connectionReady := true)
  }

  /** `_on_error` and `_on_close` (the same state change): the connection is no longer ready. */
  function OnConnectionLost(s: Session): (r: Session)
    ensures !r.connectionReady && r.(connectionReady := s.connectionReady) == s
  {
    s.(connectionReady := false)
  }

  /** Whether `_on_error` / `_on_close` schedule `_reconnect` on the event loop. */
  predicate ReconnectScheduled(s: Session) {
    s.isRunning && s.hasMainLoop && !s.isReconnecting
  }

  /** The `send_audio` gate. */
  predicate CanSend(s: Session) {
    s.hasConnection && s.isRunning && s.connectionReady
  }

  /** `send_audio`: the chunk goes out exactly when the gate is open. */
  function SendAudio(s: Session, chunk: seq<bv8>): (r: Session)
    ensures CanSend(s) ==> r == s.(sent := s.sent + [chunk])
    ensures !CanSend(s) ==> r == s
  {
    if CanSend(s) then s.(sent := s.sent + [chunk]) else s
  }

  // ----------------------------------------------------------------- reconnecting

  /** The final result announcing a successful reconnection. */
  function Reconnected(stamp: string): TranscriptionResult {
    TranscriptionResult("system", "[Reconnected]", "[重新连接成功]", stamp, true)
  }

  /** Connect attempt `k` of one `_reconnect` call succeeds. */
  predicate Succeeds(outcomes: seq<bool>, k: nat) {
    k < |outcomes| && outcomes[k]
  }

  /** Retries left before `reconnect_attempts` reaches the maximum. */
  function Budget(s: Session): nat {
    if s.reconnectAttempts < MaxReconnectAttempts then MaxReconnectAttempts - s.reconnectAttempts else 0
  }

  /** One pass of the `_reconnect` loop body with the attempt's outcome `ok`: the attempt
      counts itself and replaces the connection; a success resets the counter, clears
      `is_reconnecting` and announces itself; a failure that reaches the maximum reports
      once and stops the transcriber. */
  function Attempt(s: Session, ok: bool, stamp: string): (r: Session)
    ensures r.hasConnection && r.isReconnecting == (s.isReconnecting && !ok)
    ensures ok ==> r == Recovered(s, stamp)
    ensures !ok ==> r.reconnectAttempts == s.reconnectAttempts + 1 && r.emitted == s.emitted
    ensures !ok ==> r.isRunning == (s.isRunning && r.reconnectAttempts < MaxReconnectAttempts)
    ensures !ok ==> r.errors == s.errors + if r.reconnectAttempts >= MaxReconnectAttempts then [ReconnectFailed] else []
    ensures r.(reconnectAttempts := s.reconnectAttempts, hasConnection := s.hasConnection, isReconnecting := s.isReconnecting,
               emitted := s.emitted, errors := s.errors, isRunning := s.isRunning) == s
  {
    var t := s.(reconnectAttempts := s.reconnectAttempts + 1, hasConnection := true);
    if ok then t.(reconnectAttempts := 0, isReconnecting := false, emitted := s.emitted + [Reconnected(stamp)])
    else if t.reconnectAttempts >= MaxReconnectAttempts then
      t.(errors := s.errors + [ReconnectFailed], isRunning := false)
    else t
  }

  /** The `while` loop of `_reconnect` from attempt `k` on: it runs while the transcriber
      is running and the counter is below the maximum, and returns at once on a success;
      `is_reconnecting` ends false either way. */
  function RetryLoop(s: Session, outcomes: seq<bool>, k: nat, stamp: string): (r: Session)
    ensures !r.isReconnecting
    ensures r.isRunning && s.reconnectAttempts < MaxReconnectAttempts ==> r.reconnectAttempts == 0
    ensures |r.emitted| + |r.errors|
            == |s.emitted| + |s.errors| + if s.isRunning && s.reconnectAttempts < MaxReconnectAttempts then 1 else 0
    decreases Budget(s)
  {
    if !s.isRunning || s.reconnectAttempts >= MaxReconnectAttempts then s.(isReconnecting := false)
    else if Succeeds(outcomes, k) then Attempt(s, true, stamp)
    else RetryLoop(Attempt(s, false, stamp), outcomes, k + 1, stamp)
  }

  /** The guard of `_reconnect`: it only runs when running and not already reconnecting. */
  predicate ReconnectRuns(s: Session) {
    !s.isReconnecting && s.isRunning
  }

  /** `_reconnect`, with attempt `k` succeeding exactly when `Succeeds(outcomes, k)`. */
  function Reconnect(s: Session, outcomes: seq<bool>, stamp: string): (r: Session)
    ensures !ReconnectRuns(s) ==> r == s
    ensures ReconnectRuns(s) ==> !r.isReconnecting
  {
    if !ReconnectRuns(s) then s else RetryLoop(s.(isReconnecting := true), outcomes, 0, stamp)
  }

  /** The state after a reconnection that succeeded. */
  function Recovered(s: Session, stamp: string): Session {
    s.(hasConnection := true, reconnectAttempts := 0, isReconnecting := false,
       emitted := s.emitted + [Reconnected(stamp)])
  }

  /** The state after the retries ran out. */
  function GaveUp(s: Session): Session {
    s.(hasConnection := true, reconnectAttempts := MaxReconnectAttempts, isReconnecting := false,
       isRunning := false, errors := s.errors + [ReconnectFailed])
  }

  /** The loop from attempt `k` with attempts before `j` failing and attempt `j` the first
      success, still within the budget, recovers. */
  lemma {:induction false} RetryLoopSucceeds(s: Session, outcomes: seq<bool>, k: nat, j: nat, stamp: string)
    requires s.isRunning && k <= j < k + Budget(s)
    requires Succeeds(outcomes, j) && forall i :: k <= i < j ==> !Succeeds(outcomes, i)
    ensures RetryLoop(s, outcomes, k, stamp) == Recovered(s, stamp)
    decreases j - k
  {
    var t := s.(reconnectAttempts := s.reconnectAttempts + 1, hasConnection := true);
    if j > k {
      assert !Succeeds(outcomes, k);
      RetryLoopSucceeds(t, outcomes, k + 1, j, stamp);
      assert Recovered(t, stamp) == Recovered(s, stamp);
    }
  }

  /** The loop from attempt `k` with every attempt within the budget failing gives up. */
  lemma {:induction false} RetryLoopFails(s: Session, outcomes: seq<bool>, k: nat, stamp: string)
    requires s.isRunning && s.reconnectAttempts < MaxReconnectAttempts
    requires forall i :: k <= i < k + Budget(s) ==> !Succeeds(outcomes, i)
    ensures RetryLoop(s, outcomes, k, stamp) == GaveUp(s)
    decreases Budget(s)
  {
    var t := s.(reconnectAttempts := s.reconnectAttempts + 1, hasConnection := true);
    assert !Succeeds(outcomes, k);
    if t.reconnectAttempts < MaxReconnectAttempts {
      RetryLoopFails(t, outcomes, k + 1, stamp);
      assert GaveUp(t) == GaveUp(s);
    }
  }

  /** A successful attempt within the budget, after failures only, resets the counter,
      clears `is_reconnecting`, keeps the transcriber running and emits exactly one
      final `[Reconnected]` result in language "system" and no error. */
  lemma ReconnectFirstSuccess(s: Session, outcomes: seq<bool>, j: nat, stamp: string)
    requires ReconnectRuns(s) && j < Budget(s)
    requires Succeeds(outcomes, j) && forall i :: 0 <= i < j ==> !Succeeds(outcomes, i)
    ensures var r := Reconnect(s, outcomes, stamp);
      && r == Recovered(s, stamp)
      && r.isRunning && !r.isReconnecting && r.reconnectAttempts == 0 && r.errors == s.errors
      && r.emitted == s.emitted + [Reconnected(stamp)]
      && r.emitted[|s.emitted|].detectedLanguage == "system" && r.emitted[|s.emitted|].isFinal
  {
    RetryLoopSucceeds(s.(isReconnecting := true), outcomes, 0, j, stamp);
  }

  /** When every attempt within the budget fails, the transcriber stops, the error callback
      fires exactly once, nothing is emitted and `is_reconnecting` ends false. */
  lemma ReconnectAllFail(s: Session, outcomes: seq<bool>, stamp: string)
    requires ReconnectRuns(s) && s.reconnectAttempts < MaxReconnectAttempts
    requires forall i :: 0 <= i < Budget(s) ==> !Succeeds(outcomes, i)
    ensures var r := Reconnect(s, outcomes, stamp);
      && r == GaveUp(s)
      && !r.isRunning && !r.isReconnecting && r.emitted == s.emitted
      && r.errors == s.errors + [ReconnectFailed]
  {
    RetryLoopFails(s.(isReconnecting := true), outcomes, 0, stamp);
  }

  /** Every reconnection either recovers or gives up: exactly one announcement or exactly
      one error, never both. */
  lemma ReconnectOutcome(s: Session, outcomes: seq<bool>, stamp: string)
    requires ReconnectRuns(s) && s.reconnectAttempts < MaxReconnectAttempts
    ensures Reconnect(s, outcomes, stamp) == Recovered(s, stamp) || Reconnect(s, outcomes, stamp) == GaveUp(s)
  {
    if j :| 0 <= j < Budget(s) && Succeeds(outcomes, j) {
      var first := FirstSuccess(outcomes, j);
      ReconnectFirstSuccess(s, outcomes, first, stamp);
    } else {
      ReconnectAllFail(s, outcomes, stamp);
    }
  }

  /** The earliest successful attempt at or before `j`. */
  function FirstSuccess(outcomes: seq<bool>, j: nat): (f: nat)
    requires Succeeds(outcomes, j)
    ensures f <= j && Succeeds(outcomes, f)
    ensures forall i :: 0 <= i < f ==> !Succeeds(outcomes, i)
  {
    if exists i :: 0 <= i < j && Succeeds(outcomes, i) then
      var i :| 0 <= i < j && Succeeds(outcomes, i);
      FirstSuccess(outcomes, i)
    else j
  }

  /** The loop from attempt `k` never looks at an outcome past its budget. */
  lemma {:induction false} RetryLoopWithinBudget(s: Session, o1: seq<bool>, o2: seq<bool>, k: nat, stamp: string)
    requires forall i :: k <= i < k + Budget(s) ==> Succeeds(o1, i) == Succeeds(o2, i)
    ensures RetryLoop(s, o1, k, stamp) == RetryLoop(s, o2, k, stamp)
    decreases Budget(s)
  {
    if s.isRunning && s.reconnectAttempts < MaxReconnectAttempts {
      var t := s.(reconnectAttempts := s.reconnectAttempts + 1, hasConnection := true);
      if t.reconnectAttempts < MaxReconnectAttempts && !Succeeds(o1, k) {
        RetryLoopWithinBudget(t, o1, o2, k + 1, stamp);
      }
    }
  }

  /** At most `max_reconnect_attempts` (5) attempts: two outcome sequences that agree on
      the first five attempts give the same reconnection. */
  lemma AtMostFiveAttempts(s: Session, o1: seq<bool>, o2: seq<bool>, stamp: string)
    requires forall i :: 0 <= i < MaxReconnectAttempts ==> Succeeds(o1, i) == Succeeds(o2, i)
    ensures Reconnect(s, o1, stamp) == Reconnect(s, o2, stamp)
  {
    if ReconnectRuns(s) {
      RetryLoopWithinBudget(s.(isReconnecting := true), o1, o2, 0, stamp);
    }
  }

  /** The counter is never reset by `start`: once the retries have run out, a
      reconnection after a restart makes no attempt and reports nothing. */
  lemma ReconnectAfterExhaustion(s: Session, connected: bool, outcomes: seq<bool>, stamp: string)
    requires s.reconnectAttempts >= MaxReconnectAttempts && !s.isReconnecting
    ensures Start(s, connected).reconnectAttempts == s.reconnectAttempts
    ensures Reconnect(Start(s, connected), outcomes, stamp) == Start(s, connected)
  {
  }

  // ------------------------------------------------------------------ transcripts

  /** One alternative of a transcript event, with the languages it may carry. */
  datatype Alternative = Alternative(transcript: string, languages: seq<string>)

  /** A transcript event: `result.channel.alternatives` and `result.is_final`. */
  datatype TranscriptEvent = TranscriptEvent(alternatives: seq<Alternative>, isFinal: bool)

  /** The language of a fragment: the first detected language, else the configured one,
      else "unknown". */
  function DetectedLanguage(alt: Alternative, language: string): (l: string)
    ensures alt.languages != [] ==> l == alt.languages[0]
    ensures alt.languages == [] && language != "" ==> l == language
    ensures alt.languages == [] && language == "" ==> l == "unknown"
  {
    if alt.languages != [] then alt.languages[0] else if language != "" then language else "unknown"
  }

  /** `_queue_for_polish`: the polish queue gets one submission when there is an event loop. */
  function QueueForPolish(s: Session, alt: Alternative, stamp: string): (r: Session)
    ensures s.hasMainLoop ==> |r.polishQueue| == |s.polishQueue| + 1
    ensures s.hasMainLoop ==>
      r.polishQueue == s.polishQueue + [Item(Submission(alt.transcript, DetectedLanguage(alt, s.language), stamp))]
    ensures !s.hasMainLoop ==> r == s
    ensures r.(polishQueue := s.polishQueue) == s
  {
    if s.hasMainLoop then
      s.(polishQueue := s.polishQueue + [Item(Submission(alt.transcript, DetectedLanguage(alt, s.language), stamp))])
    else s
  }

  /** What `_on_transcript` leaves alone: everything but the pending text, the throttle,
      the polish queue and the two callbacks. */
  predicate TranscriptFrame(s: Session, r: Session) {
    && r.language == s.language && r.interimResults == s.interimResults
    && r.hasConnection == s.hasConnection && r.isRunning == s.isRunning
    && r.connectionReady == s.connectionReady && r.hasMainLoop == s.hasMainLoop
    && r.reconnectAttempts == s.reconnectAttempts && r.isReconnecting == s.isReconnecting
    && r.recentTranscriptions == s.recentTranscriptions && r.polishTask == s.polishTask
    && r.sent == s.sent && r.prompts == s.prompts
  }

  /** `_on_transcript` for an event (`None` when the event has no result), at wall-clock
      time `now`, with `stamp` the rendered time of day. */
  function OnTranscript(s: Session, ev: Option<TranscriptEvent>, now: real, stamp: string): (r: Session)
    ensures TranscriptFrame(s, r)
    ensures |s.polishQueue| <= |r.polishQueue| <= |s.polishQueue| + 1
    ensures r.polishQueue[..|s.polishQueue|] == s.polishQueue
    ensures r.errors == s.errors || r.errors == s.errors + [TranscriptFailed]
    ensures r.emitted == s.emitted
         || (|r.emitted| == |s.emitted| + 1 && r.emitted[..|s.emitted|] == s.emitted
             && !r.emitted[|s.emitted|].isFinal && r.emitted[|s.emitted|].chineseTranslation == "")
  {
    match ev
    case None => s
    case Some(e) =>
      if e.alternatives == [] then s.(errors := s.errors + [TranscriptFailed])
      else
        var alt := e.alternatives[0];
        var text := alt.transcript;
        if text == "" then s
        else if s.interimResults && !e.isFinal then InterimTranscript(s, alt, now, stamp)
        else if e.isFinal then FinalTranscript(s, alt, now, stamp)
        else s
  }

  /** An interim transcript: it becomes the pending text and is handed over untranslated
      at once; it is queued for polishing only when the throttle has let a second pass. */
  function InterimTranscript(s: Session, alt: Alternative, now: real, stamp: string): (r: Session)
    ensures TranscriptFrame(s, r) && r.errors == s.errors
    ensures |s.polishQueue| <= |r.polishQueue| <= |s.polishQueue| + 1
    ensures r.polishQueue[..|s.polishQueue|] == s.polishQueue
    ensures r.pendingText == alt.transcript
    ensures r.emitted == s.emitted + [TranscriptionResult(DetectedLanguage(alt, s.language), alt.transcript, "", stamp, false)]
  {
    var t := s.(pendingText := alt.transcript,
                emitted := s.emitted + [TranscriptionResult(DetectedLanguage(alt, s.language), alt.transcript, "", stamp, false)]);
    if now - s.lastTranslationTime >= TranslationThreshold then
      QueueForPolish(t.(lastTranslationTime := now), alt, stamp)
    else t
  }

  /** A final transcript: the pending text is cleared, the throttle restarted, and the
      transcript queued for polishing. */
  function FinalTranscript(s: Session, alt: Alternative, now: real, stamp: string): (r: Session)
    ensures TranscriptFrame(s, r) && r.errors == s.errors && r.emitted == s.emitted
    ensures |s.polishQueue| <= |r.polishQueue| <= |s.polishQueue| + 1
    ensures r.polishQueue[..|s.polishQueue|] == s.polishQueue
    ensures r.pendingText == "" && r.lastTranslationTime == now
  {
    QueueForPolish(s.(pendingText := "", lastTranslationTime := now), alt, stamp)
  }

  /** The event carries a non-empty transcript in its first alternative. */
  predicate Spoken(e: TranscriptEvent) {
    e.alternatives != [] && e.alternatives[0].transcript != ""
  }

  /** An empty transcript changes nothing. */
  lemma EmptyTranscriptIgnored(s: Session, e: TranscriptEvent, now: real, stamp: string)
    requires e.alternatives != [] && e.alternatives[0].transcript == ""
    ensures OnTranscript(s, Some(e), now, stamp) == s
  {
  }

  /** A final fragment clears `pending_text`, restarts the throttle at `now`, emits
      nothing itself and enqueues exactly one submission carrying its text (when there
      is an event loop). */
  lemma FinalFragment(s: Session, e: TranscriptEvent, now: real, stamp: string)
    requires Spoken(e) && e.isFinal && s.hasMainLoop
    ensures var r := OnTranscript(s, Some(e), now, stamp);
      var alt := e.alternatives[0];
      && r.pendingText == "" && r.lastTranslationTime == now
      && r.emitted == s.emitted && r.errors == s.errors
      && r.polishQueue == s.polishQueue + [Item(Submission(alt.transcript, DetectedLanguage(alt, s.language), stamp))]
  {
  }

  /** An interim fragment in interim mode becomes the pending text and is emitted at once,
      non-final and untranslated; it is enqueued, and the throttle restarted, exactly when
      a second has passed since the last translation. */
  lemma InterimFragment(s: Session, e: TranscriptEvent, now: real, stamp: string)
    requires Spoken(e) && !e.isFinal && s.interimResults && s.hasMainLoop
    ensures var r := OnTranscript(s, Some(e), now, stamp);
      var alt := e.alternatives[0];
      var due := now - s.lastTranslationTime >= TranslationThreshold;
      && r.pendingText == alt.transcript
      && r.emitted == s.emitted + [TranscriptionResult(DetectedLanguage(alt, s.language), alt.transcript, "", stamp, false)]
      && (due ==> r.lastTranslationTime == now
                  && r.polishQueue == s.polishQueue + [Item(Submission(alt.transcript, DetectedLanguage(alt, s.language), stamp))])
      && (!due ==> r.lastTranslationTime == s.lastTranslationTime && r.polishQueue == s.polishQueue)
  {
  }

  /** With interim mode off a non-final fragment is ignored. */
  lemma InterimIgnoredWhenOff(s: Session, e: TranscriptEvent, now: real, stamp: string)
    requires !e.isFinal && !s.interimResults
    ensures OnTranscript(s, Some(e), now, stamp) == s || OnTranscript(s, Some(e), now, stamp) == s.(errors := s.errors + [TranscriptFailed])
  {
  }

  /** A fragment heard at time `now`, rendered as `stamp`. */
  datatype Fragment = Fragment(event: TranscriptEvent, now: real, stamp: string)

  /** `_on_transcript` applied to each fragment in turn. */
  function Feed(s: Session, fs: seq<Fragment>): Session
    decreases |fs|
  {
    if fs == [] then s else Feed(OnTranscript(s, Some(fs[0].event), fs[0].now, fs[0].stamp), fs[1..])
  }

  /** Every fragment is a non-empty interim fragment. */
  predicate InterimOnly(fs: seq<Fragment>) {
    forall k :: 0 <= k < |fs| ==> Spoken(fs[k].event) && !fs[k].event.isFinal
  }

  /** Every fragment is heard before `until`. */
  predicate HeardBefore(fs: seq<Fragment>, until: real) {
    forall k :: 0 <= k < |fs| ==> fs[k].now < until
  }

  /** Interim fragments heard within a second of the last translation enqueue nothing
      and leave the throttle where it was. */
  lemma {:induction false} ThrottledFeed(s: Session, fs: seq<Fragment>)
    requires s.interimResults && InterimOnly(fs) && HeardBefore(fs, s.lastTranslationTime + TranslationThreshold)
    ensures Feed(s, fs).polishQueue == s.polishQueue
    ensures Feed(s, fs).lastTranslationTime == s.lastTranslationTime
    decreases |fs|
  {
    if fs != [] {
      var t := OnTranscript(s, Some(fs[0].event), fs[0].now, fs[0].stamp);
      assert InterimOnly(fs[1..]) && HeardBefore(fs[1..], t.lastTranslationTime + TranslationThreshold) by {
        forall k | 0 <= k < |fs[1..]|
          ensures Spoken(fs[1..][k].event) && !fs[1..][k].event.isFinal
          ensures fs[1..][k].now < t.lastTranslationTime + TranslationThreshold
        {
          assert fs[1..][k] == fs[k + 1];
        }
      }
      ThrottledFeed(t, fs[1..]);
    }
  }

  /** Every fragment is heard less than a second after each earlier one. */
  predicate Burst(fs: seq<Fragment>) {
    forall i, j :: 0 <= i < j < |fs| ==> fs[j].now < fs[i].now + TranslationThreshold
  }

  /** A burst of interim fragments spanning less than a second enqueues at most one
      submission for the polish stage. */
  lemma {:induction false} BurstEnqueuesAtMostOne(s: Session, fs: seq<Fragment>)
    requires s.interimResults && InterimOnly(fs) && Burst(fs)
    ensures |s.polishQueue| <= |Feed(s, fs).polishQueue| <= |s.polishQueue| + 1
    decreases |fs|
  {
    if fs != [] {
      var t := OnTranscript(s, Some(fs[0].event), fs[0].now, fs[0].stamp);
      var rest := fs[1..];
      assert InterimOnly(rest) && Burst(rest) by {
        forall k | 0 <= k < |rest| ensures Spoken(rest[k].event) && !rest[k].event.isFinal {
          assert rest[k] == fs[k + 1];
        }
        forall i, j | 0 <= i < j < |rest| ensures rest[j].now < rest[i].now + TranslationThreshold {
          assert rest[i] == fs[i + 1] && rest[j] == fs[j + 1];
        }
      }
      if t.polishQueue == s.polishQueue {
        BurstEnqueuesAtMostOne(t, rest);
      } else {
        assert t.lastTranslationTime == fs[0].now;
        assert HeardBefore(rest, t.lastTranslationTime + TranslationThreshold) by {
          forall k | 0 <= k < |rest| ensures rest[k].now < t.lastTranslationTime + TranslationThreshold {
            assert rest[k] == fs[k + 1];
          }
        }
        ThrottledFeed(t, rest);
      }
    }
  }

  // ------------------------------------------------------------- the polish stage

  /** While running, resuming the blocked consumer emits one final result per queued
      submission ahead of the sentinel, in order, with its text unchanged. */
  lemma ResumeWhileRunning(s: Session, replies: seq<Reply>)
    requires s.polishTask == Waiting && s.isRunning && |replies| >= |s.polishQueue|
    ensures var r := Resume(s, replies);
      var pending := Pending(s.polishQueue);
      && |r.emitted| == |s.emitted| + |pending|
      && r.emitted[..|s.emitted|] == s.emitted
      && (forall k :: 0 <= k < |pending| ==>
            r.emitted[|s.emitted| + k].isFinal && r.emitted[|s.emitted| + k].originalText == pending[k].text)
      && r.polishQueue == AfterSentinel(s.polishQueue)
      && (r.polishTask == Waiting <==> !HasSentinel(s.polishQueue))
  {
    DrainFifo(s.recentTranscriptions, s.polishQueue, replies);
    DrainStopsAtSentinel(s.recentTranscriptions, s.polishQueue, replies);
  }

  /** After `stop` no audio is sent, no reconnection is scheduled or runs, and the polish
      task (if there was one) has finished, having emitted at most one more result. */
  lemma StopQuiesces(s: Session, replies: seq<Reply>, outcomes: seq<bool>, stamp: string)
    requires |replies| > |s.polishQueue|
    ensures var r := Stop(s, replies);
      && !r.isRunning && !r.isReconnecting && !CanSend(r)
      && !ReconnectScheduled(OnConnectionLost(r))
      && Reconnect(r, outcomes, stamp) == r
      && (s.polishTask != NoTask ==> r.polishTask == Finished)
      && |s.emitted| <= |r.emitted| <= |s.emitted| + 1
  {
    var t := s.(isRunning := false, isReconnecting := false, hasConnection := false);
    if t.polishTask == Waiting {
      DrainAfterStop(t.recentTranscriptions, t.polishQueue + [Sentinel], replies);
    }
  }

  /** Audio is never sent after the retries have run out. */
  lemma GaveUpBlocksAudio(s: Session, chunk: seq<bv8>)
    ensures SendAudio(GaveUp(s), chunk) == GaveUp(s)
  {
  }

  /** `_on_error` / `_on_close` schedule a reconnection only when `_reconnect` would
      actually run on the resulting state; otherwise nothing further happens. */
  lemma ConnectionLostSchedules(s: Session, outcomes: seq<bool>, stamp: string)
    ensures ReconnectScheduled(s) ==> ReconnectRuns(OnConnectionLost(s))
    ensures !ReconnectScheduled(s) && s.hasMainLoop ==>
              Reconnect(OnConnectionLost(s), outcomes, stamp) == OnConnectionLost(s)
  {
  }
}
