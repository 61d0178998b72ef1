# mac-live-subtitle, modelled in Dafny

mac-live-subtitle captures the system's audio output on macOS through the BlackHole
loopback device and streams it to Deepgram's live speech recogniser. Each final
fragment goes to a chat model, which polishes and translates it into Chinese. The app
shows the original and the translation as two lines of a floating subtitle overlay.

This project models the deterministic core of that pipeline:

- **The recogniser session** (`DeepgramTranscriber`). Module `TranscriberSpec` states
  the transcriber's state changes as pure functions over a `Session` record. Class
  `Transcriber.DeepgramTranscriber` holds the same fields and changes them in place:
  - each of its public operations ensures `State() == TranscriberSpec.<Op>(old(State()), …)`;
  - the helpers beneath them (`QueueForPolish`, `PolishTranscription`, `Ask`, `Remember`)
    state the fields they change and that every other field stays as it was;
  - so every lemma of `TranscriberSpec` holds of the object.

  The covered behaviour is start and stop, the bounded reconnect loop, the `send_audio`
  gate, the connection callbacks, the aggregation and throttling of transcript
  fragments, and the queue feeding the polish stage.
- **The polish stage** (module `Polish`):
  - the FIFO consumer with its `None` sentinel;
  - the 40-entry context window;
  - the prompt context built from its last five entries;
  - the three-way choice of the translation field: parsed JSON, then a regular
    expression, then the empty string.

  Module `TranslationRegex` is a verified leftmost scanner for
  `"chinese_translation"\s*:\s*"([^"]+)"`. Lemmas tie it to an independent description
  of what a match is.
- **The display policy** (module `App`): which results reach the overlay, with which
  second line and for how long. This rests on the one remembered translation,
  `last_chinese_translation`.
- **The subtitle overlay** (module `Display`):
  - the cleaning and queueing of updates;
  - the drain in which the last update wins;
  - the labels and the single auto-hide timer;
  - the opacity clamp, the bottom-centre window position and the wrap-length rules.
- **Audio capture control** (module `Audio`):
  - the two-pass device search;
  - the start/stop guards and the queue drain;
  - the recording gate of the stream callback;
  - the FIFO read of captured chunks;
  - the capture channel count.

Python semantics are written out where they matter:
- `str.strip()` and `\s` use Python's whitespace set (`Text.IsSpace`);
- `lower()` is modelled by folding ASCII letters only, a restriction of the model (see "Left out");
- `int()` of a float truncates toward zero (`Numeric.Trunc`);
- `//` floors (`Numeric.FloorDiv`).
- Python floats are exact `real`s in the model; float rounding is not modelled (see "Left out").

Scheduled coroutines (`run_coroutine_threadsafe`, `create_task`) are modelled as calls
that run at once, one after another. The remote services are inputs:
- each reconnect attempt's success is a `seq<bool>`;
- each chat completion is a `Reply` (parsed JSON, unparsable content, or an exception);
- the clock is a `now: real` and a rendered `stamp: string`.

Callback output is recorded in the sequences `emitted`, `errors`, `sent`
and `prompts`.

## Model

| member | source | states |
|---|---|---|
| TranscriberSpec.Initial | src/deepgram_transcriber.py:36-98 | a new transcriber is not running, has no connection, is not ready or reconnecting, has a zero attempt counter, no polish task and an empty queue |
| Transcriber.DeepgramTranscriber.constructor | src/deepgram_transcriber.py:36-98 | the object's state is `TranscriberSpec.Initial` |
| TranscriberSpec.Start | src/deepgram_transcriber.py:108-156 | `start` sets running, records the loop and creates a connection; the polish task is created exactly when the connection started and no error is reported then; otherwise the start-failure message is reported once and `is_running` stays true; no other field changes, so the attempt counter, readiness, queue and window are kept |
| Transcriber.DeepgramTranscriber.Start | src/deepgram_transcriber.py:108-156 | returns whether start succeeded; new state is `TranscriberSpec.Start` of the old |
| Transcriber.DeepgramTranscriber.Stop | src/deepgram_transcriber.py:158-176 | clears the flags, drops the connection, and when a polish task exists enqueues the sentinel and runs the consumer; new state is `TranscriberSpec.Stop` |
| TranscriberSpec.Stop | src/deepgram_transcriber.py:158-176 | `stop` clears running, reconnecting and the connection; without a polish task nothing else changes; with one the sentinel is put and the task ends finished |
| Transcriber.DeepgramTranscriber.AwaitPolishTask | src/deepgram_transcriber.py:171-174 | the sentinel is put at the end of the queue and the consumer resumed; new state is `TranscriberSpec.Resume` of that |
| TranscriberSpec.Resume | src/deepgram_transcriber.py:408-436 | the resumed task drains the queue as `Polish.Drain` says and is left blocked or finished accordingly (properties in ResumeFrame, ResumeTakes, ResumeWhileRunning) |
| TranscriberSpec.ResumeFrame | src/deepgram_transcriber.py:408-436 | a task not blocked in `get()` is unaffected; otherwise only the emitted results (extended, never rewritten), the window, the queue, the prompts and the task state change |
| TranscriberSpec.StopQuiesces | src/deepgram_transcriber.py:158-176 | after `stop`: not running or reconnecting, nothing can be sent, a connection loss schedules nothing and a `_reconnect` begun after stop changes nothing, the polish task (if any) has finished having emitted at most one more result |
| TranscriberSpec.SendAudio | src/deepgram_transcriber.py:257-268 | the chunk is sent exactly when a connection exists, running and ready hold; otherwise the state is unchanged |
| Transcriber.DeepgramTranscriber.SendAudio | src/deepgram_transcriber.py:257-268 | new state is `TranscriberSpec.SendAudio` of the old |
| TranscriberSpec.OnOpen | src/deepgram_transcriber.py:270-274 | `connection_ready` becomes true and nothing else changes |
| Transcriber.DeepgramTranscriber.OnOpen | src/deepgram_transcriber.py:270-274 | new state is `TranscriberSpec.OnOpen` of the old |
| TranscriberSpec.OnConnectionLost | src/deepgram_transcriber.py:282-306 | `connection_ready` becomes false and nothing else changes |
| Transcriber.DeepgramTranscriber.OnError | src/deepgram_transcriber.py:282-293 | clears readiness; reports a reconnect as scheduled exactly when running, a loop is known and no reconnect is under way |
| Transcriber.DeepgramTranscriber.OnClose | src/deepgram_transcriber.py:295-306 | the same as `OnError` for a closed connection |
| TranscriberSpec.ConnectionLostSchedules | src/deepgram_transcriber.py:282-306 | a connection loss schedules a reconnect exactly when that reconnect will run; one that is not scheduled would have left the state unchanged |
| TranscriberSpec.Attempt | src/deepgram_transcriber.py:185-252 | one attempt leaves a connection; a success gives the recovered state (counter 0, not reconnecting, one `[Reconnected]` result); a failure increments the counter, emits nothing, and stops the transcriber with one error exactly when the counter reaches 5; nothing else changes |
| TranscriberSpec.Recovered | src/deepgram_transcriber.py:228-240 | the success branch: connection kept, counter reset to 0, reconnecting cleared, and one `[Reconnected]` / `[重新连接成功]` result emitted with the stamp; nothing else changes (used by the contracts of Attempt, RetryLoopSucceeds and ReconnectFirstSuccess) |
| TranscriberSpec.GaveUp | src/deepgram_transcriber.py:245-252 | the give-up branch: counter left at 5, reconnecting cleared, the transcriber stopped and one "无法重新连接" error reported; nothing else changes (used by the contracts of RetryLoopFails and ReconnectAllFail) |
| TranscriberSpec.RetryLoop | src/deepgram_transcriber.py:183-255 | the loop always ends with `is_reconnecting` false; when it runs and the transcriber is still running the counter is back to 0; it emits one result or reports one error in total exactly when it ran |
| TranscriberSpec.Reconnect | src/deepgram_transcriber.py:178-255 | a `_reconnect` that finds a reconnect under way or the transcriber stopped changes nothing; otherwise it ends with `is_reconnecting` false |
| Transcriber.DeepgramTranscriber.Reconnect | src/deepgram_transcriber.py:178-255 | the `while` loop, with at most 5 attempts; new state is `TranscriberSpec.Reconnect` |
| Transcriber.DeepgramTranscriber.TryConnect | src/deepgram_transcriber.py:185-252 | one pass of the loop body; new state is `TranscriberSpec.Attempt` |
| TranscriberSpec.RetryLoopSucceeds | src/deepgram_transcriber.py:228-242 | failures followed by a success within the budget end in the recovered state |
| TranscriberSpec.RetryLoopFails | src/deepgram_transcriber.py:244-253 | failures throughout the budget end in the gave-up state |
| TranscriberSpec.ReconnectFirstSuccess | src/deepgram_transcriber.py:228-242 | a first success within 5 attempts resets the counter to 0, clears `is_reconnecting`, keeps running, reports no error and emits exactly one final `[Reconnected]` result in language "system" |
| TranscriberSpec.ReconnectAllFail | src/deepgram_transcriber.py:185-255 | when every attempt fails: stopped, `is_reconnecting` false, nothing emitted, the error callback called exactly once |
| TranscriberSpec.ReconnectOutcome | src/deepgram_transcriber.py:185-255 | every reconnection that runs either recovers or gives up |
| TranscriberSpec.FirstSuccess | src/deepgram_transcriber.py:183-240 | the earliest successful attempt, with every earlier one failing |
| TranscriberSpec.RetryLoopWithinBudget | src/deepgram_transcriber.py:183 | the loop never consults an outcome beyond its remaining budget |
| TranscriberSpec.AtMostFiveAttempts | src/deepgram_transcriber.py:183 | outcomes that agree on the first 5 attempts give the same reconnection: at most `max_reconnect_attempts` attempts |
| TranscriberSpec.ReconnectAfterExhaustion | src/deepgram_transcriber.py:108-110 | `start` keeps the attempt counter, so after the retries ran out a `_reconnect` following a restart makes no attempt and changes nothing |
| TranscriberSpec.QueueForPolish | src/deepgram_transcriber.py:394-406 | with an event loop exactly the submission of the transcript, its detected language and the stamp is appended; without one nothing changes; nothing but the queue ever changes |
| TranscriberSpec.DetectedLanguage | src/deepgram_transcriber.py:341-343 | the first detected language, else the configured language, else "unknown" |
| Transcriber.DeepgramTranscriber.QueueForPolish | src/deepgram_transcriber.py:394-406 | appends that submission; nothing else changes |
| TranscriberSpec.OnTranscript | src/deepgram_transcriber.py:316-392 | only `pending_text`, the throttle time, the queue and the two callbacks' records can change; the queue grows by at most one entry at its end; at most the processing error is reported; at most one non-final, untranslated result is emitted |
| Transcriber.DeepgramTranscriber.OnTranscript | src/deepgram_transcriber.py:316-392 | new state is `TranscriberSpec.OnTranscript` of the old |
| TranscriberSpec.InterimTranscript | src/deepgram_transcriber.py:336-372 | an interim fragment becomes the pending text and is emitted untranslated at once; the queue grows by at most one entry at its end; nothing else but the throttle time changes, and no error is reported |
| Transcriber.DeepgramTranscriber.OnInterim | src/deepgram_transcriber.py:336-372 | new state is `TranscriberSpec.InterimTranscript` of the old |
| TranscriberSpec.FinalTranscript | src/deepgram_transcriber.py:374-387 | a final fragment clears the pending text, restarts the throttle at `now`, emits nothing and grows the queue by at most one entry at its end |
| Transcriber.DeepgramTranscriber.OnFinal | src/deepgram_transcriber.py:374-387 | new state is `TranscriberSpec.FinalTranscript` of the old |
| TranscriberSpec.EmptyTranscriptIgnored | src/deepgram_transcriber.py:329-334 | an empty transcript changes nothing |
| TranscriberSpec.FinalFragment | src/deepgram_transcriber.py:374-387 | a final fragment clears `pending_text`, sets `last_translation_time := now`, emits nothing and enqueues exactly one submission (with the loop known) |
| TranscriberSpec.InterimFragment | src/deepgram_transcriber.py:336-372 | an interim fragment in interim mode sets `pending_text`, emits one non-final result with empty translation, and enqueues one submission and moves the throttle time exactly when 1.0 s have passed |
| TranscriberSpec.InterimIgnoredWhenOff | src/deepgram_transcriber.py:336-374 | a non-final fragment with interim mode off changes nothing beyond the no-alternatives error |
| TranscriberSpec.ThrottledFeed | src/deepgram_transcriber.py:357-372 | a run of interim fragments all within 1.0 s after the last translation time enqueues nothing |
| TranscriberSpec.BurstEnqueuesAtMostOne | src/deepgram_transcriber.py:357-372 | interim fragments spanning less than 1.0 s enqueue at most one submission |
| TranscriberSpec.ResumeTakes | src/deepgram_transcriber.py:412-429 | one turn of the consumer on a submission, then it continues while running and finishes otherwise |
| TranscriberSpec.TakeAndPolish | src/deepgram_transcriber.py:415-429 | one consumer turn: the head submission polished and its result emitted (properties in TakeAndPolishEffect) |
| TranscriberSpec.TakeAndPolishEffect | src/deepgram_transcriber.py:415-429 | the head submission leaves the queue, one final result with its text and the translation `TranslationField` chooses is emitted, and one prompt with the current context is sent; only the queue, window, prompts and results change |
| TranscriberSpec.ResumeWhileRunning | src/deepgram_transcriber.py:408-436 | while running, the consumer emits one final result per queued submission in order, keeps the window within 40, and stays blocked on the empty queue |
| Transcriber.DeepgramTranscriber.PolishProcessor | src/deepgram_transcriber.py:408-436 | the `while` loop; new state is `TranscriberSpec.Resume` |
| Transcriber.DeepgramTranscriber.TakeAndPolish | src/deepgram_transcriber.py:415-429 | new state is `TranscriberSpec.TakeAndPolish` |
| Transcriber.DeepgramTranscriber.PolishTranscription | src/deepgram_transcriber.py:438-539 | the result, the new window and the prompt are those of `Polish.PolishTranscription` and nothing else changes |
| Transcriber.DeepgramTranscriber.Ask | src/deepgram_transcriber.py:491-498 | the chat request: exactly the prompt is appended to `prompts` and no other field changes |
| Transcriber.DeepgramTranscriber.Remember | src/deepgram_transcriber.py:524-526 | the window becomes `Polish.AppendToWindow` of the old one (append, then keep the last 40) and no other field changes |
| TranscriberSpec.GaveUpBlocksAudio | src/deepgram_transcriber.py:251-259 | after the retries ran out no audio is sent |
| Polish.Last | src/deepgram_transcriber.py:547 | Python's `s[-n:]` for n > 0: the last `min(n, len)` elements |
| Polish.AppendToWindow | src/deepgram_transcriber.py:524-526 | after an append the window holds at most 40 entries, ends with the new result and keeps the newest earlier ones in order |
| Polish.WindowOfHistory | src/deepgram_transcriber.py:524-526 | the window is always the last 40 of everything ever appended |
| Polish.TranslationField | src/deepgram_transcriber.py:501-518 | raised call: exception path; parsed JSON: its field or ""; unparsable content: group 1 of the regex search when it matches, else "" |
| Polish.DecimalString | src/deepgram_transcriber.py:552 | a non-empty string of decimal digits with no leading zero, the single digit for n < 10 |
| Polish.DecimalStringValue | src/deepgram_transcriber.py:552 | the digits denote `n` itself |
| Polish.ContextPart | src/deepgram_transcriber.py:552-556 | the 前n条: label, then the `原文` line, then the `翻译` line exactly when the translation is non-empty |
| Polish.PartsFrom | src/deepgram_transcriber.py:551-556 | one rendered entry per item; the entry at position j is labelled with its distance from the end |
| Polish.ContextEntries | src/deepgram_transcriber.py:541-558 | a non-empty window yields one to five entries, the oldest labelled 前n条 and the newest 前1条, carrying the window's last entry |
| Polish.ContextDependsOnLastFive | src/deepgram_transcriber.py:547 | two non-empty windows with the same last five entries give the same context |
| Polish.BuildContext | src/deepgram_transcriber.py:541-558 | the fixed opening exactly when the window is empty; otherwise the context starts with the oldest-to-newest header |
| Polish.ContextRendersLastFive | src/deepgram_transcriber.py:541-558 | a non-empty window's context is the header followed by its last five entries (all, when fewer), oldest first, labelled 前k条 down to 前1条, joined by blank lines |
| Polish.PolishTranscription | src/deepgram_transcriber.py:438-539 | the prompt carries the context before the append; the result is final and keeps text, language and timestamp, and its translation is the chosen field ("" on exception); it is appended to the window unless the call raised; the window stays within 40 |
| Polish.DrainFifo | src/deepgram_transcriber.py:412-429 | while running, exactly one final result and one prompt per submission ahead of the sentinel, in queue order, each with its own text, language and timestamp |
| Polish.DrainTranslations | src/deepgram_transcriber.py:412-429 | while running, the k-th emitted result carries the translation chosen from the k-th reply |
| Polish.Drain | src/deepgram_transcriber.py:408-436 | the consumer loop: FIFO takes, stop at the sentinel, `is_running` re-checked after each submission (its properties are the Drain lemmas) |
| Polish.DrainShape | src/deepgram_transcriber.py:412-429 | one result and one prompt per submission taken, at most one per entry; the entries left are a suffix of the queue; the task waits only on an empty queue |
| Polish.DrainStopsAtSentinel | src/deepgram_transcriber.py:415-417 | the consumer consumes the sentinel and leaves what follows, or stays blocked when there is none |
| Polish.DrainWindowBound | src/deepgram_transcriber.py:524-526 | draining keeps the window within 40 entries |
| Polish.DrainAfterStop | src/deepgram_transcriber.py:412-436 | once `is_running` is false the consumer handles at most the entry it takes and exits |
| TranslationRegex.SkipSpaces | src/deepgram_transcriber.py:508 | `\s*`: the first non-whitespace position, with only whitespace skipped |
| TranslationRegex.NextQuote | src/deepgram_transcriber.py:508 | `[^"]+` up to the next quote: the first quote position, with no quote skipped |
| TranslationRegex.MatchKeyAtSound | src/deepgram_transcriber.py:508 | every anchored scanner match is an instance of the pattern |
| TranslationRegex.MatchKeyAt | src/deepgram_transcriber.py:508 | group 1 of the pattern anchored at one index; its meaning is stated by MatchKeyAtSound and MatchKeyAtComplete |
| TranslationRegex.MatchAt | src/deepgram_transcriber.py:508 | MatchKeyAt for the `"chinese_translation"` key, the per-index step of `re.search`; SearchLeftmost and SearchNone state what it finds |
| TranslationRegex.MatchKeyAtComplete | src/deepgram_transcriber.py:508 | every instance of the pattern is found by the anchored scanner with the same group |
| TranslationRegex.SearchFrom | src/deepgram_transcriber.py:508 | the leftmost index at or after `from` where the pattern matches |
| TranslationRegex.Search | src/deepgram_transcriber.py:508-512 | `re.search` then `group(1)`: the anchored scanner's group at the leftmost index where it matches (properties in the Search lemmas) |
| TranslationRegex.SearchAnchored | src/deepgram_transcriber.py:508-512 | nothing is found exactly when the scanner matches at no index; a found group is the scanner's match at some index |
| TranslationRegex.SearchGroupShape | src/deepgram_transcriber.py:508-510 | a found group is non-empty and quote-free |
| TranslationRegex.SearchLeftmost | src/deepgram_transcriber.py:508-510 | the search returns the group of the leftmost instance of the pattern |
| TranslationRegex.SearchNone | src/deepgram_transcriber.py:508-512 | no instance anywhere: the search finds nothing |
| TranslationRegex.SearchFindsSome | src/deepgram_transcriber.py:508-510 | an instance anywhere: the search finds something |
| App.Shown | main.py:195-217 | a translated final result is shown with its translation for 5.0 s; an interim one under the remembered translation for 2.0 s; an untranslated final result is not shown; the original text is always the result's |
| App.Remember | main.py:201-203 | only a translated final result replaces the remembered translation |
| App.RememberAllIsLatest | main.py:201-216 | after any sequence of results the remembered translation is the latest translated final result's (or the starting value) |
| App.RememberAllSnoc | main.py:201-203 | remembering one more result extends the fold |
| App.InterimShowsLatest | main.py:211-216 | after startup an interim result is shown under the latest translation, the startup text before the first one |
| App.ErrorShown | main.py:219-229 | an error shows "Error" over the message for 5.0 s |
| App.LiveSubtitle.constructor | main.py:29-46 | the display reference is the one created at main.py:181 and the remembered translation starts empty |
| App.LiveSubtitle.OnTranscription | main.py:195-217 | without a display nothing changes; otherwise the memory becomes `Remember` and the display gets exactly the cleaned `Shown` request; only the memory and the display's queue may change |
| App.LiveSubtitle.OnError | main.py:219-229 | the display gets exactly the cleaned error request; only the display's queue may change |
| App.LiveSubtitle.ShowStartupMessage | main.py:319-325 | with a display the memory becomes "实时字幕已启动" and the startup lines are requested for 5.0 s; only the memory and the display's queue may change |
| Text.Strip | src/subtitle_display.py:299-300 | `str.strip()`: a contiguous slice with no whitespace at either end, empty exactly when the input is all whitespace |
| Text.StripIsSlice | src/subtitle_display.py:299-300 | the stripped text is the slice left after removing exactly the leading and trailing whitespace |
| Text.StripIdempotent | src/subtitle_display.py:299-300 | stripping twice is stripping once |
| Text.LowerChar | src/audio_capture.py:49-55 | ASCII upper case folds to lower case, everything else is unchanged |
| Text.Lower | src/audio_capture.py:49-55 | `lower()` character by character, length kept |
| Text.Contains | src/audio_capture.py:49-55 | Python's `needle in hay`; stated by ContainsSplit |
| Text.ContainsSplit | src/audio_capture.py:49-55 | `needle in hay` holds exactly when `hay` is some `a + needle + b` |
| Text.Join | src/deepgram_transcriber.py:558 | `sep.join(parts)`; stated by JoinFront and JoinLength |
| Text.JoinFront | src/deepgram_transcriber.py:558 | read from the front, a join of two or more parts is the first part, the separator, and the join of the rest |
| Text.JoinLength | src/deepgram_transcriber.py:558 | a non-empty join holds all the parts' characters plus one separator between each two neighbours |
| Numeric.Trunc | src/subtitle_display.py:283 | `int()` of a float truncates toward zero |
| Numeric.FloorDiv | src/subtitle_display.py:137 | `//` by a positive divisor floors |
| Display.Cleaned | src/subtitle_display.py:299-312 | nothing exactly when both texts are blank; otherwise one update with both texts stripped and the given duration |
| Display.Enqueued | src/subtitle_display.py:287-312 | at most one update; one exactly when running and not both texts blank; it is clean and carries the stripped texts and the duration |
| Display.Applied | src/subtitle_display.py:266-285 | labels take the update's texts, the window is shown, the duration is recorded, and the only pending hide callback is a new one with the update's delay |
| Display.ApplyAll | src/subtitle_display.py:255-260 | the poll loop, applying queued updates in order; stated by DrainLastWins and DrainKeepsOneTimer |
| Display.DrainLastWins | src/subtitle_display.py:255-285 | after a drain the labels and duration are the last update's and exactly one hide callback is pending |
| Display.DrainKeepsOneTimer | src/subtitle_display.py:277-285 | draining keeps at most one pending hide callback |
| Display.ClampOpacity | src/subtitle_display.py:341-343 | the opacity lies in [0.1, 1.0], equals the input when in range, and is the nearer bound otherwise |
| Display.WindowPosition | src/subtitle_display.py:130-138 | the window is centred to within one pixel and sits `offset` above the bottom edge |
| Display.ResizeWraplength | src/subtitle_display.py:240-243 | no change for a frame width of 1 or less; otherwise `max(100, width - 40)` |
| Display.SubtitleDisplay.constructor | src/subtitle_display.py:28-57 | not running, no UI, empty queue, no hide timer, duration 3.0 |
| Display.SubtitleDisplay.Start | src/subtitle_display.py:59-101 | nothing changes when already running; otherwise running, positioned, UI created, queue drained onto the empty labels |
| Display.SubtitleDisplay.RunUi | src/subtitle_display.py:80-101 | the window is positioned, the UI created with hidden empty labels, and the first poll drains the whole queue onto them |
| Display.SubtitleDisplay.CreateUi | src/subtitle_display.py:158-216 | hidden empty labels wrapped at width - 20, or at the frame width - 40 when valid; init not complete |
| Display.SubtitleDisplay.UpdateWindowPosition | src/subtitle_display.py:130-141 | the position is `WindowPosition` |
| Display.SubtitleDisplay.UpdateSubtitle | src/subtitle_display.py:287-312 | when not running nothing is queued; otherwise exactly the cleaned update, if any, is appended |
| Display.SubtitleDisplay.Enqueue | src/subtitle_display.py:304-312 | `update_queue.put`: exactly the update is appended at the back and the queue stays clean |
| Display.SubtitleDisplay.ScheduleUpdate | src/subtitle_display.py:249-264 | when running the whole queue is applied in order and left empty; otherwise nothing changes |
| Display.SubtitleDisplay.ApplyUpdate | src/subtitle_display.py:266-285 | the new screen is `Applied` and the timers stay consistent |
| Display.SubtitleDisplay.FireHideTimer | src/subtitle_display.py:314-317 | the fired callback is no longer pending and the window is withdrawn |
| Display.SubtitleDisplay.SetOpacity | src/subtitle_display.py:341-345 | the stored opacity is `ClampOpacity` |
| Display.SubtitleDisplay.MarkInitComplete | src/subtitle_display.py:218-228 | init completes; on a resizable window with a valid frame width the wrap length becomes width - 40 |
| Display.SubtitleDisplay.OnWindowResize | src/subtitle_display.py:230-247 | ignored before init completes and for other widgets; otherwise the wrap length is `ResizeWraplength`, at least 100 |
| Audio.SelectionUnique | src/audio_capture.py:41-61 | the selection is determined by the device list and the name |
| Audio.SelectionHasInput | src/audio_capture.py:49-58 | a selected index is in range and has input channels |
| Audio.FindDeviceId | src/audio_capture.py:41-61 | the first input device whose name contains the wanted name case-insensitively, else the first input "blackhole" device, else none; any index is in range with input channels |
| Audio.NotFound | src/audio_capture.py:104 | the not-found error message |
| Audio.CaptureChannels | src/audio_capture.py:120 | 2 at a 48000 Hz device rate, the configured count otherwise |
| Audio.MacSystemAudioCapture.constructor | src/audio_capture.py:19-39 | not recording, empty queue, no device chosen |
| Audio.MacSystemAudioCapture.StartCapture | src/audio_capture.py:96-109 | no-op when recording; otherwise the device is the selection, recording exactly when one was found, the `ValueError` raised when none |
| Audio.MacSystemAudioCapture.OpenStream | src/audio_capture.py:111-120 | the device rate is the truncated default rate; the channels are `CaptureChannels` |
| Audio.MacSystemAudioCapture.StopCapture | src/audio_capture.py:145-163 | no-op when not recording; otherwise not recording and the queue empty |
| Audio.MacSystemAudioCapture.GetAudioData | src/audio_capture.py:165-170 | the oldest chunk is removed and returned, or none on an empty queue |
| Audio.MacSystemAudioCapture.AudioCallback | src/audio_capture.py:63-90 | a chunk is appended exactly while recording |

## Left out

- The Deepgram SDK and its WebSocket calls are not modelled; a connect attempt is a boolean input and `send` appends to `sent`.
- The OpenAI chat completion and `json.loads` are not modelled; the reply is an input (`Polish.Reply`). A parsed reply is assumed to be a JSON object whose field, when present, is a string.
- The prompt's fixed system text is not modelled; `Polish.Prompt` records only the context and the text it is built around.
- asyncio and threads:
  - coroutines scheduled with `run_coroutine_threadsafe` or `create_task` run at once and in order;
  - the consumer is modelled as resumed while blocked in `get()`;
  - a `stop` that comes before the polish task first ran is not modelled;
  - the data races between the recogniser's thread, the event loop and the UI thread are not modelled.
- `asyncio.sleep(reconnect_delay)`, `time.sleep` and the overlay's 50 ms re-polling via `after` are not modelled; a poll is one call of `ScheduleUpdate`.
- The hide timer's firing time is not modelled; it is a separate call, `FireHideTimer`.
- `datetime.now()` and `strftime` are inputs (`now`, `stamp`). The separate clock reads of one `_on_transcript` call are merged into one: `stamp` is both the interim result's timestamp (src/deepgram_transcriber.py:349) and the queued submission's (line 405), and `now` serves both the interim and the final branch's reads (lines 358 and 380).
- The exception paths reached only through the callbacks or the SDK are not modelled:
  - `send_audio`'s logged send error;
  - `finish()` errors;
  - the consumer's outer `except`, which `_polish_transcription`'s own handler leaves reachable only through the callback.

  Both callbacks are taken as set.
- In `_on_transcript` the only failure modelled is a result with no alternatives, which reports the `IndexError` message.
- `_on_metadata` and `_on_utterance_end` only log, so they are not modelled.
- Audio numerics are not modelled: the stereo averaging, `resample_poly`, the int16 cast and `get_volume_level` are floating-point or foreign-library code.
- `_capture_loop`'s stream I/O and sleep loop are not modelled, nor is the user callback of `audio_callback`; the callback receives the already-converted chunk.
- tkinter rendering, dragging, `_configure_window`'s window attributes, `hide`/`show` beyond the visible flag, `stop` and `set_position_offset` are not modelled.
- CLI, configuration, logging and signal handling in `main.py` are not modelled.
- Display.HideDelay / Display.Applied: the hide delay is `int(duration * 1000)` computed on exact reals, so the float rounding of subtitle_display.py:283 is lost: for a duration of 1.001 s Python's product is 1000.9999999999999 and the delay is 1000 ms, where the model gives 1001 ms. The other floats (durations, opacity, the clock `now`, `default_samplerate`) are exact reals in the same way.
- Text.Lower and Text.LowerChar: fold ASCII letters only, not the rest of Unicode's case mapping.
- TranscriberSpec.StopQuiesces: says nothing about a `_reconnect` already suspended in `asyncio.sleep` when `stop` runs. Because coroutines run at once here, that interleaving is not modelled. In the program, such a `_reconnect` resumes after `stop`, opens a connection that nothing closes, and on success emits `[Reconnected]` after the stop.
- The overlay's `start` runs `_run_ui` inline. The thread hand-off and an exception inside the UI set-up are not modelled.
- TranscriberSpec.InterimIgnoredWhenOff: a non-final fragment with interim results switched off is ignored, as the code does. It is not treated as final.
