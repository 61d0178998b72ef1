/** The polish stage of the transcriber: transcription results, the queue of
    submissions with its stop sentinel, the 40-entry context window, the prompt
    context built from its last five entries, the three-way choice of the
    translation field, and the serial consumer that drains the queue. */
module Polish {
  import opened Wrappers
  import opened Text
  import TranslationRegex

  /** One unit delivered to the transcription callback. */
  datatype TranscriptionResult = TranscriptionResult(
    detectedLanguage: string,
    originalText: string,
    chineseTranslation: string,
    timestamp: string,
    isFinal: bool)

  /** The dictionary `{text, language, timestamp}` put on the polish queue. */
  datatype Submission = Submission(text: string, language: string, timestamp: string)

  /** A polish-queue entry: a submission, or the `None` that tells the consumer to stop. */
  datatype QueueEntry = Item(submission: Submission) | Sentinel

  /** What the chat-completion call gave back: content that parsed as a JSON object
      (with the `chinese_translation` field if it had one), content that did not
      parse, or an exception anywhere in the call. */
  datatype Reply = Parsed(field: Option<string>) | Malformed(content: string) | Raised

  /** What was sent to the polishing service for one submission. */
  datatype Prompt = Prompt(context: string, text: string)

  const ContextWindow: nat := 40
  const ContextItems: nat := 5
  const StartOfConversation: string := "这是对话的开始。"
  const ContextHeader: string := "参考上下文（从旧到新）:\n"

  /** The last `n` elements of `s` (all of `s` when it is shorter): Python's `s[-n:]` for n > 0. */
  function Last<T>(s: seq<T>, n: nat): (r: seq<T>)
    ensures |r| == if |s| <= n then |s| else n
    ensures r == s[|s| - |r|..]
  {
    if |s| <= n then s else s[|s| - n..]
  }

  /** `recent_transcriptions.append(r)` followed by the keep-the-last-40 reslice. */
  function AppendToWindow(window: seq<TranscriptionResult>, r: TranscriptionResult): (w: seq<TranscriptionResult>)
    ensures |w| <= ContextWindow
    ensures |w| == if |window| < ContextWindow then |window| + 1 else ContextWindow
    ensures w[|w| - 1] == r
    ensures w[..|w| - 1] == window[|window| - (|w| - 1)..]
  {
    var appended := window + [r];
    if |appended| > ContextWindow then appended[|appended| - ContextWindow..] else appended
  }

  /** The window is always the last 40 of everything ever appended to it: appending to
      the window of a history gives the window of the longer history. */
  lemma {:induction false} WindowOfHistory(history: seq<TranscriptionResult>, r: TranscriptionResult)
    ensures AppendToWindow(Last(history, ContextWindow), r) == Last(history + [r], ContextWindow)
  {
    var w := Last(history, ContextWindow);
    var lhs := AppendToWindow(w, r);
    var rhs := Last(history + [r], ContextWindow);
    assert |lhs| == |rhs|;
    forall k | 0 <= k < |lhs|
      ensures lhs[k] == rhs[k]
    {
      if k < |lhs| - 1 {
        assert lhs[k] == w[|w| - (|lhs| - 1) + k];
      }
    }
  }

  /** The translation field chosen from the reply: the parsed field (or "" when the
      object lacks it), else the regular-expression fallback (or ""); `None` when the
      call raised, which takes the exception path. */
  function TranslationField(reply: Reply): (t: Option<string>)
    ensures t.None? <==> reply.Raised?
    ensures reply.Parsed? ==> t == Some(reply.field.GetOr(""))
    ensures reply.Malformed? ==> t == Some(TranslationRegex.Search(reply.content).GetOr(""))
    ensures reply.Malformed? ==> t.value == "" || (t.value != [] && TranslationRegex.QuoteFree(t.value))
  {
    match reply
    case Parsed(field) => Some(field.GetOr(""))
    case Malformed(content) =>
      var found := TranslationRegex.Search(content);
      if found.Some? then
        TranslationRegex.SearchGroupShape(content);
        Some(found.value)
      else Some("")
    case Raised => None
  }

  /** Decimal digits of `n`, as an f-string renders an int. */
  function DecimalString(n: nat): (r: string)
    ensures |r| >= 1
    ensures forall k :: 0 <= k < |r| ==> '0' <= r[k] <= '9'
    ensures n < 10 ==> r == ['0' + n as char]
    ensures n > 0 ==> r[0] != '0'
  {
    var d := ['0' + (n % 10) as char];
    if n < 10 then d else DecimalString(n / 10) + d
  }

  /** The number a string of decimal digits denotes. */
  function DigitsValue(s: string): int
    decreases |s|
  {
    if s == [] then 0 else DigitsValue(s[..|s| - 1]) * 10 + (s[|s| - 1] as int - '0' as int)
  }

  /** The digits rendered are those of `n` itself. */
  lemma {:induction false} DecimalStringValue(n: nat)
    ensures DigitsValue(DecimalString(n)) == n
    decreases n
  {
    if n >= 10 {
      DecimalStringValue(n / 10);
      var r := DecimalString(n);
      assert r[..|r| - 1] == DecimalString(n / 10);
    }
  }

  /** Label of a context entry: 前n条: for the entry that is n back. */
  function PartLabel(n: nat): string {
    "前" + DecimalString(n) + "条:"
  }

  /** One rendered context entry: label, original text, and the translation line
      only when there is a translation. */
  function ContextPart(n: nat, item: TranscriptionResult): (p: string)
    ensures |PartLabel(n)| <= |p| && p[..|PartLabel(n)|] == PartLabel(n)
    ensures item.chineseTranslation == "" ==> p == PartLabel(n) + "\n原文: " + item.originalText
    ensures item.chineseTranslation != "" ==>
      p == PartLabel(n) + "\n原文: " + item.originalText + "\n翻译: " + item.chineseTranslation
  {
    PartLabel(n) + "\n原文: " + item.originalText
    + (if item.chineseTranslation != "" then "\n翻译: " + item.chineseTranslation else "")
  }

  /** Rendered entries `items[k..]`, the entry at position `j` labelled `|items| - j`. */
  function PartsFrom(items: seq<TranscriptionResult>, k: nat): (parts: seq<string>)
    requires k <= |items|
    ensures |parts| == |items| - k
    ensures forall j :: 0 <= j < |parts| ==> parts[j] == ContextPart(|items| - (k + j), items[k + j])
    decreases |items| - k
  {
    if k == |items| then [] else [ContextPart(|items| - k, items[k])] + PartsFrom(items, k + 1)
  }

  /** `_build_context`: the fixed opening when the window is empty, else the header and
      the last five entries, oldest first, joined by blank lines. */
  function BuildContext(window: seq<TranscriptionResult>): (r: string)
    ensures (window == []) == (r == StartOfConversation)
    ensures window != [] ==> |ContextHeader| <= |r| && r[..|ContextHeader|] == ContextHeader
  {
    if window == [] then StartOfConversation
    else
      var r := ContextHeader + Join("\n\n", PartsFrom(Last(window, ContextItems), 0));
      assert r[0] != StartOfConversation[0];
      r
  }

  /** The entries rendered into the context: at most five, the newest last, labelled from
      前n条 (oldest) down to 前1条 (newest); only the last five entries matter. */
  lemma {:induction false} ContextEntries(window: seq<TranscriptionResult>)
    requires window != []
    ensures var items := Last(window, ContextItems);
      && 1 <= |items| <= ContextItems
      && items[|items| - 1] == window[|window| - 1]
      && var parts := PartsFrom(items, 0);
      && |parts| == |items|
      && parts[0] == ContextPart(|items|, items[0])
      && parts[|parts| - 1] == ContextPart(1, window[|window| - 1])
  {
  }

  /** A non-empty window's context is the header followed by its last five entries (all
      of them when fewer), oldest first, labelled 前k条 down to 前1条 and separated by
      blank lines. */
  lemma {:induction false} ContextRendersLastFive(window: seq<TranscriptionResult>)
    requires window != []
    ensures var k := if |window| < ContextItems then |window| else ContextItems;
      BuildContext(window)
      == ContextHeader + Join("\n\n", seq(k, j requires 0 <= j < k => ContextPart(k - j, window[|window| - k + j])))
  {
    var k := if |window| < ContextItems then |window| else ContextItems;
    var items := Last(window, ContextItems);
    var parts := PartsFrom(items, 0);
    var want := seq(k, j requires 0 <= j < k => ContextPart(k - j, window[|window| - k + j]));
    assert |items| == k && |parts| == |want|;
    forall j | 0 <= j < k
      ensures parts[j] == want[j]
    {
      assert items[j] == window[|window| - k + j];
    }
    assert parts == want;
  }

  lemma {:induction false} ContextDependsOnLastFive(w1: seq<TranscriptionResult>, w2: seq<TranscriptionResult>)
    requires w1 != [] && w2 != []
    requires Last(w1, ContextItems) == Last(w2, ContextItems)
    ensures BuildContext(w1) == BuildContext(w2)
  {
  }

  /** What `_polish_transcription` computes for one submission. */
  datatype PolishOutcome = PolishOutcome(
    result: TranscriptionResult,
    window: seq<TranscriptionResult>,
    prompt: Prompt)

  /** `_polish_transcription`: the prompt carries the context of the window as it was;
      the result is final and carries the submission's text, language and timestamp
      unchanged; it is appended to the window unless the call raised. */
  function PolishTranscription(window: seq<TranscriptionResult>, sub: Submission, reply: Reply): (o: PolishOutcome)
    ensures o.prompt == Prompt(BuildContext(window), sub.text)
    ensures o.result.isFinal
    ensures o.result.originalText == sub.text
    ensures o.result.detectedLanguage == sub.language && o.result.timestamp == sub.timestamp
    ensures o.result.chineseTranslation == TranslationField(reply).GetOr("")
    ensures reply.Raised? ==> o.result.chineseTranslation == "" && o.window == window
    ensures !reply.Raised? ==> o.window == AppendToWindow(window, o.result)
    ensures |window| <= ContextWindow ==> |o.window| <= ContextWindow
  {
    var prompt := Prompt(BuildContext(window), sub.text);
    match TranslationField(reply)
    case None =>
      PolishOutcome(TranscriptionResult(sub.language, sub.text, "", sub.timestamp, true), window, prompt)
    case Some(t) =>
      var r := TranscriptionResult(sub.language, sub.text, t, sub.timestamp, true);
      PolishOutcome(r, AppendToWindow(window, r), prompt)
  }

  /** The submissions ahead of the first sentinel. */
  function Pending(queue: seq<QueueEntry>): seq<Submission> {
    if queue == [] || queue[0].Sentinel? then [] else [queue[0].submission] + Pending(queue[1..])
  }

  /** The entries left behind the first sentinel (none when there is no sentinel). */
  function AfterSentinel(queue: seq<QueueEntry>): seq<QueueEntry> {
    if queue == [] then [] else if queue[0].Sentinel? then queue[1..] else AfterSentinel(queue[1..])
  }

  predicate HasSentinel(queue: seq<QueueEntry>) {
    exists k :: 0 <= k < |queue| && queue[k].Sentinel?
  }

  /** What resuming the consumer achieves. */
  datatype DrainOutcome = DrainOutcome(
    emitted: seq<TranscriptionResult>,
    window: seq<TranscriptionResult>,
    queue: seq<QueueEntry>,
    prompts: seq<Prompt>,
    waiting: bool)

  /** `_polish_processor` resumed while blocked in `get()`: it takes entries in FIFO
      order, stops at the sentinel, polishes and emits each submission (the entry at
      position k is answered by `replies[k]`), and re-checks `is_running` after each
      one; it ends `waiting` in `get()` when the queue runs dry while running. */
  function Drain(window: seq<TranscriptionResult>, queue: seq<QueueEntry>, replies: seq<Reply>, running: bool): (d: DrainOutcome)
    requires |replies| >= |queue|
    decreases |queue|
  {
    if queue == [] then DrainOutcome([], window, [], [], true)
    else match queue[0]
      case Sentinel => DrainOutcome([], window, queue[1..], [], false)
      case Item(sub) =>
        var p := PolishTranscription(window, sub, replies[0]);
        if !running then DrainOutcome([p.result], p.window, queue[1..], [p.prompt], false)
        else
          var rest := Drain(p.window, queue[1..], replies[1..], running);
          DrainOutcome([p.result] + rest.emitted, rest.window, rest.queue, [p.prompt] + rest.prompts, rest.waiting)
  }

  /** The consumer handles each entry it takes once: one result and one prompt per
      submission taken, the entries left are a suffix of the queue, and it is left
      waiting only on an empty queue. */
  lemma {:induction false} DrainShape(window: seq<TranscriptionResult>, queue: seq<QueueEntry>, replies: seq<Reply>, running: bool)
    requires |replies| >= |queue|
    ensures var d := Drain(window, queue, replies, running);
      && |d.emitted| == |d.prompts| <= |queue|
      && |d.queue| <= |queue| && d.queue == queue[|queue| - |d.queue|..]
      && (d.waiting ==> d.queue == [])
    decreases |queue|
  {
    if queue != [] && queue[0].Item? && running {
      var p := PolishTranscription(window, queue[0].submission, replies[0]);
      DrainShape(p.window, queue[1..], replies[1..], running);
    }
  }

  /** While running, the consumer emits exactly one final result per submission ahead
      of the sentinel, in submission order, each with its original text, language and
      timestamp, and sends one prompt for each. */
  lemma {:induction false} DrainFifo(window: seq<TranscriptionResult>, queue: seq<QueueEntry>, replies: seq<Reply>)
    requires |replies| >= |queue|
    ensures var d := Drain(window, queue, replies, true);
      && |d.emitted| == |Pending(queue)| == |d.prompts|
      && forall k :: 0 <= k < |d.emitted| ==>
           && d.emitted[k].isFinal
           && d.emitted[k].originalText == Pending(queue)[k].text
           && d.emitted[k].detectedLanguage == Pending(queue)[k].language
           && d.emitted[k].timestamp == Pending(queue)[k].timestamp
           && d.prompts[k].text == Pending(queue)[k].text
    decreases |queue|
  {
    if queue != [] && queue[0].Item? {
      var p := PolishTranscription(window, queue[0].submission, replies[0]);
      DrainFifo(p.window, queue[1..], replies[1..]);
      var d := Drain(window, queue, replies, true);
      var rest := Drain(p.window, queue[1..], replies[1..], true);
      var pending := Pending(queue);
      assert d.emitted == [p.result] + rest.emitted;
      assert d.prompts == [p.prompt] + rest.prompts;
      assert pending == [queue[0].submission] + Pending(queue[1..]);
      forall k | 0 <= k < |d.emitted|
        ensures && d.emitted[k].isFinal
                && d.emitted[k].originalText == pending[k].text
                && d.emitted[k].detectedLanguage == pending[k].language
                && d.emitted[k].timestamp == pending[k].timestamp
                && d.prompts[k].text == pending[k].text
      {
        if k > 0 {
          assert d.emitted[k] == rest.emitted[k - 1] && d.prompts[k] == rest.prompts[k - 1];
          assert pending[k] == Pending(queue[1..])[k - 1];
        }
      }
    }
  }

  /** While running, the k-th result emitted carries the translation chosen from the
      k-th reply. */
  lemma {:induction false} DrainTranslations(window: seq<TranscriptionResult>, queue: seq<QueueEntry>, replies: seq<Reply>)
    requires |replies| >= |queue|
    ensures var d := Drain(window, queue, replies, true);
      forall k :: 0 <= k < |d.emitted| ==>
        k < |replies| && d.emitted[k].chineseTranslation == TranslationField(replies[k]).GetOr("")
    decreases |queue|
  {
    if queue != [] && queue[0].Item? {
      var p := PolishTranscription(window, queue[0].submission, replies[0]);
      DrainShape(window, queue, replies, true);
      DrainTranslations(p.window, queue[1..], replies[1..]);
      var d := Drain(window, queue, replies, true);
      var rest := Drain(p.window, queue[1..], replies[1..], true);
      assert d.emitted == [p.result] + rest.emitted;
      forall k | 0 <= k < |d.emitted|
        ensures k < |replies| && d.emitted[k].chineseTranslation == TranslationField(replies[k]).GetOr("")
      {
        if k > 0 {
          assert d.emitted[k] == rest.emitted[k - 1] && replies[1..][k - 1] == replies[k];
        }
      }
    }
  }

  /** While running, the consumer consumes the sentinel and leaves what follows it
      queued, or ends blocked on an empty queue when there is no sentinel. */
  lemma {:induction false} DrainStopsAtSentinel(window: seq<TranscriptionResult>, queue: seq<QueueEntry>, replies: seq<Reply>)
    requires |replies| >= |queue|
    ensures var d := Drain(window, queue, replies, true);
      && d.queue == AfterSentinel(queue)
      && d.waiting == !HasSentinel(queue)
    decreases |queue|
  {
    if queue != [] {
      match queue[0]
      case Sentinel =>
        assert HasSentinel(queue) by { assert queue[0].Sentinel?; }
      case Item(sub) =>
        var p := PolishTranscription(window, sub, replies[0]);
        DrainStopsAtSentinel(p.window, queue[1..], replies[1..]);
        if HasSentinel(queue[1..]) {
          var k :| 0 <= k < |queue[1..]| && queue[1..][k].Sentinel?;
          assert queue[k + 1].Sentinel?;
        }
        if HasSentinel(queue) {
          var k :| 0 <= k < |queue| && queue[k].Sentinel?;
          assert k > 0 && queue[1..][k - 1].Sentinel?;
        }
    }
  }

  /** Draining keeps the context window within its 40 entries. */
  lemma {:induction false} DrainWindowBound(window: seq<TranscriptionResult>, queue: seq<QueueEntry>, replies: seq<Reply>, running: bool)
    requires |replies| >= |queue| && |window| <= ContextWindow
    ensures |Drain(window, queue, replies, running).window| <= ContextWindow
    decreases |queue|
  {
    if queue != [] && queue[0].Item? && running {
      var p := PolishTranscription(window, queue[0].submission, replies[0]);
      DrainWindowBound(p.window, queue[1..], replies[1..], running);
    }
  }

  /** Once `is_running` is false the consumer handles at most one more entry and exits. */
  lemma {:induction false} DrainAfterStop(window: seq<TranscriptionResult>, queue: seq<QueueEntry>, replies: seq<Reply>)
    requires |replies| >= |queue| && queue != []
    ensures var d := Drain(window, queue, replies, false);
      && !d.waiting && d.queue == queue[1..]
      && |d.emitted| == (if queue[0].Item? then 1 else 0)
  {
  }
}
