/** `DeepgramTranscriber` as a class whose fields are the transcriber's state. Each
    method changes the fields as its counterpart in module TranscriberSpec says, so the
    lemmas proved there hold of the object. */
module Transcriber {
  import opened Wrappers
  import opened Polish
  import Spec = TranscriberSpec

  class DeepgramTranscriber {
    const language: string
    const interimResults: bool
    var hasConnection: bool
    var isRunning: bool
    var connectionReady: bool
    var hasMainLoop: bool
    var reconnectAttempts: nat
    var isReconnecting: bool
    var recentTranscriptions: seq<TranscriptionResult>
    var pendingText: string
    var lastTranslationTime: real
    var polishQueue: seq<QueueEntry>
    var polishTask: Spec.TaskState
    /** Every result handed to the transcription callback, in order. */
    var emitted: seq<TranscriptionResult>
    /** Every message handed to the error callback, in order. */
    var errors: seq<string>
    /** Every chunk sent over the connection, in order. */
    var sent: seq<seq<bv8>>
    /** Every request made of the polishing service, in order. */
    var prompts: seq<Prompt>

    function State(): Spec.Session
      reads this
    {
      Spec.Session(language, interimResults, hasConnection, isRunning, connectionReady, hasMainLoop,
                   reconnectAttempts, isReconnecting, recentTranscriptions, pendingText,
                   lastTranslationTime, polishQueue, polishTask, emitted, errors, sent, prompts)
    }

    constructor (language: string, interimResults: bool)
      ensures State() == Spec.Initial(language, interimResults)
    {
      this.language := language;
      this.interimResults := interimResults;
      hasConnection, isRunning, connectionReady, hasMainLoop := false, false, false, false;
      reconnectAttempts, isReconnecting := 0, false;
      recentTranscriptions, pendingText, lastTranslationTime := [], "", 0.0;
      polishQueue, polishTask := [], Spec.NoTask;
      emitted, errors, sent, prompts := [], [], [], [];
    }

    /** `start`, where `connected` is what `connection.start(options)` returned; `ok` is
        false when `start` raised. */
    method Start(connected: bool) returns (ok: bool)
      modifies this
      ensures ok == connected
      ensures State() == Spec.Start(old(State()), connected)
    {
      if connected {
        isRunning, hasMainLoop, hasConnection, polishTask := true, true, true, Spec.Waiting;
        ok := true;
      } else {
        isRunning, hasMainLoop, hasConnection, errors := true, true, true, errors + [Spec.StartFailed];
        ok := false;
      }
    }

    /** `stop`; `replies` answers the polishing requests the task still makes. */
    method Stop(replies: seq<Reply>)
      requires |replies| > |polishQueue|
      modifies this
      ensures State() == Spec.Stop(old(State()), replies)
    {
      isRunning, isReconnecting := false, false;
      if hasConnection {
        hasConnection := false;
      }
      if polishTask != Spec.NoTask {
        AwaitPolishTask(replies);
      }
    }

    /** The end of `stop`: the sentinel is put on the queue and the task awaited. */
    method AwaitPolishTask(replies: seq<Reply>)
      requires |replies| > |polishQueue|
      modifies this
      ensures State() == Spec.Resume(old(State()).(polishQueue := old(polishQueue) + [Sentinel]), replies)
    {
      polishQueue := polishQueue + [Sentinel];
      PolishProcessor(replies);
    }

    /** `_reconnect`, connect attempt `k` of this call succeeding exactly when
        `Succeeds(outcomes, k)`; `attempts` is the number of attempts made. */
    method Reconnect(outcomes: seq<bool>, stamp: string) returns (attempts: nat)
      modifies this
      ensures attempts <= Spec.MaxReconnectAttempts
      ensures State() == Spec.Reconnect(old(State()), outcomes, stamp)
    {
      attempts := 0;
      if isReconnecting || !isRunning {
        return;
      }
      isReconnecting := true;
      ghost var start := old(reconnectAttempts);
      while isRunning && reconnectAttempts < Spec.MaxReconnectAttempts
        invariant isReconnecting
        invariant isRunning ==> start + attempts == reconnectAttempts
        invariant attempts <= Spec.MaxReconnectAttempts
        invariant Spec.RetryLoop(State(), outcomes, attempts, stamp) == Spec.Reconnect(old(State()), outcomes, stamp)
        decreases isRunning, Spec.MaxReconnectAttempts - reconnectAttempts
      {
        var ok := Spec.Succeeds(outcomes, attempts);
        TryConnect(ok, stamp);
        attempts := attempts + 1;
        if ok {
          return;
        }
      }
      isReconnecting := false;
    }

    /** One pass of the retry loop's body, the new connection starting exactly when `ok`. */
    method TryConnect(ok: bool, stamp: string)
      modifies this
      ensures State() == Spec.Attempt(old(State()), ok, stamp)
    {
      // The counter is incremented before the attempt; a success resets it at once.
      if ok {
        reconnectAttempts, hasConnection, isReconnecting := 0, true, false;
        emitted := emitted + [Spec.Reconnected(stamp)];
      } else {
        reconnectAttempts, hasConnection := reconnectAttempts + 1, true;
        if reconnectAttempts >= Spec.MaxReconnectAttempts {
          errors, isRunning := errors + [Spec.ReconnectFailed], false;
        }
      }
    }

    /** `send_audio`. */
    method SendAudio(chunk: seq<bv8>)
      modifies this
      ensures State() == Spec.SendAudio(old(State()), chunk)
    {
      if hasConnection && isRunning && connectionReady {
        sent := sent + [chunk];
      }
    }

    /** `_on_open`. */
    method OnOpen()
      modifies this
      ensures State() == Spec.OnOpen(old(State()))
    {
      connectionReady := true;
    }

    /** `_on_error`; `scheduled` tells whether `_reconnect` was scheduled. */
    method OnError() returns (scheduled: bool)
      modifies this
      ensures scheduled == Spec.ReconnectScheduled(old(State()))
      ensures State() == Spec.OnConnectionLost(old(State()))
    {
      connectionReady := false;
      scheduled := isRunning && hasMainLoop && !isReconnecting;
    }

    /** `_on_close`; `scheduled` tells whether `_reconnect` was scheduled. */
    method OnClose() returns (scheduled: bool)
      modifies this
      ensures scheduled == Spec.ReconnectScheduled(old(State()))
      ensures State() == Spec.OnConnectionLost(old(State()))
    {
      connectionReady := false;
      scheduled := isRunning && hasMainLoop && !isReconnecting;
    }

    /** `_on_transcript`, at wall-clock time `now`, with `stamp` the rendered time of day. */
    method OnTranscript(ev: Option<Spec.TranscriptEvent>, now: real, stamp: string)
      modifies this
      ensures State() == Spec.OnTranscript(old(State()), ev, now, stamp)
    {
      if ev.None? {
        return;
      }
      var e := ev.value;
      if e.alternatives == [] {
        errors := errors + [Spec.TranscriptFailed];
        return;
      }
      var alt := e.alternatives[0];
      if alt.transcript == "" {
        return;
      }
      if interimResults && !e.isFinal {
        OnInterim(alt, now, stamp);
      } else if e.isFinal {
        OnFinal(alt, now, stamp);
      }
    }

    /** The interim branch of `_on_transcript`. */
    method OnInterim(alt: Spec.Alternative, now: real, stamp: string)
      modifies this
      ensures State() == Spec.InterimTranscript(old(State()), alt, now, stamp)
    {
      var transcript := alt.transcript;
      pendingText, emitted := transcript, emitted + [TranscriptionResult(Spec.DetectedLanguage(alt, language), transcript, "", stamp, false)];
      if now - lastTranslationTime >= Spec.TranslationThreshold {
        lastTranslationTime := now;
        if hasMainLoop {
          QueueForPolish(alt, stamp);
        }
      }
    }

    /** The final branch of `_on_transcript`. */
    method OnFinal(alt: Spec.Alternative, now: real, stamp: string)
      modifies this
      ensures State() == Spec.FinalTranscript(old(State()), alt, now, stamp)
    {
      pendingText, lastTranslationTime := "", now;
      if hasMainLoop {
        QueueForPolish(alt, stamp);
      }
    }

    /** `_queue_for_polish`. */
    method QueueForPolish(alt: Spec.Alternative, stamp: string)
      modifies this
      ensures polishQueue == old(polishQueue) + [Item(Submission(alt.transcript, Spec.DetectedLanguage(alt, language), stamp))]
      ensures State() == old(State()).(polishQueue := polishQueue)
    {
      var detected := Spec.DetectedLanguage(alt, language);
      polishQueue := polishQueue + [Item(Submission(alt.transcript, detected, stamp))];
    }

    /** The polish task resumed from `get()`: `replies[k]` answers the polishing request
        for the entry taken `k`-th. */
    method PolishProcessor(replies: seq<Reply>)
      requires |replies| >= |polishQueue|
      modifies this
      ensures State() == Spec.Resume(old(State()), replies)
    {
      if polishTask != Spec.Waiting {
        return;
      }
      var i := 0;
      while true
        invariant i <= |replies| && |replies| - i >= |polishQueue|
        invariant polishTask == Spec.Waiting
        invariant Spec.Resume(State(), replies[i..]) == Spec.Resume(old(State()), replies)
        decreases |polishQueue|
      {
        if polishQueue == [] {
          return;
        }
        if polishQueue[0].Sentinel? {
          polishQueue := polishQueue[1..];
          polishTask := Spec.Finished;
          return;
        }
        Spec.ResumeTakes(State(), replies[i..]);
        TakeAndPolish(replies[i]);
        assert replies[i..][1..] == replies[i + 1..];
        i := i + 1;
        if !isRunning {
          polishTask := Spec.Finished;
          return;
        }
      }
    }

    /** One turn of the consumer's loop on a submission: take it, polish it, hand the
        result to the transcription callback. */
    method TakeAndPolish(reply: Reply)
      requires polishQueue != [] && polishQueue[0].Item?
      modifies this
      ensures State() == Spec.TakeAndPolish(old(State()), reply)
    {
      // Polishing does not touch the queue, so the head is removed together with the
      // hand-over of the result.
      var result := PolishTranscription(polishQueue[0].submission, reply);
      polishQueue, emitted := polishQueue[1..], emitted + [result];
    }

    /** `_polish_transcription`: asks for a translation with the current context, and
        appends the result to the context window (keeping the last 40) unless the call
        raised. */
    method PolishTranscription(sub: Submission, reply: Reply) returns (result: TranscriptionResult)
      modifies this`recentTranscriptions, this`prompts
      ensures var o := Polish.PolishTranscription(old(recentTranscriptions), sub, reply);
        result == o.result && recentTranscriptions == o.window && prompts == old(prompts) + [o.prompt]
      ensures State() == old(State()).(recentTranscriptions := recentTranscriptions, prompts := prompts)
    {
      var context := BuildContext(recentTranscriptions);
      Ask(Prompt(context, sub.text));
      var translation := TranslationField(reply);
      if translation.None? {
        result := TranscriptionResult(sub.language, sub.text, "", sub.timestamp, true);
      } else {
        result := TranscriptionResult(sub.language, sub.text, translation.value, sub.timestamp, true);
        Remember(result);
      }
    }

    /** The request made of the polishing service. */
    method Ask(prompt: Prompt)
      modifies this`prompts
      ensures prompts == old(prompts) + [prompt]
      ensures State() == old(State()).(prompts := prompts)
    {
      prompts := prompts + [prompt];
    }

    /** The append to `recent_transcriptions` and the keep-the-last-40 reslice. */
    method Remember(result: TranscriptionResult)
      modifies this`recentTranscriptions
      ensures recentTranscriptions == AppendToWindow(old(recentTranscriptions), result)
      ensures State() == old(State()).(recentTranscriptions := recentTranscriptions)
    {
      recentTranscriptions := recentTranscriptions + [result];
      if |recentTranscriptions| > ContextWindow {
        recentTranscriptions := recentTranscriptions[|recentTranscriptions| - ContextWindow..];
      }
    }
  }
}
