/** The subtitle overlay: the queue of updates handed over by other threads, the poll
    that drains it onto the two labels, the auto-hide timer, and the small geometry
    rules (opacity clamp, bottom-centre position, wrap length). The window system is
    reduced to what the overlay records of it: label texts, whether the window is
    shown, the scheduled hide callbacks, the window position and the wrap length. */
module Display {
  import opened Wrappers
  import opened Text
  import opened Numeric

  /** One queued change of the two subtitle lines, shown for `duration` seconds. */
  datatype SubtitleUpdate = SubtitleUpdate(originalText: string, chineseText: string, duration: real)

  const DefaultDuration: real := 3.0
  const MinOpacity: real := 0.1
  const MaxOpacity: real := 1.0
  const MinWraplength: int := 100
  const WrapPadding: int := 40
  const LabelPadding: int := 20

  /** A queued update carries stripped texts, not both empty. */
  predicate Clean(u: SubtitleUpdate) {
    Trimmed(u.originalText) && Trimmed(u.chineseText) && (u.originalText != [] || u.chineseText != [])
  }

  /** What `update_subtitle` queues for its arguments: both texts stripped, nothing when
      both are blank. */
  function Cleaned(originalText: string, chineseText: string, duration: real): (u: Option<SubtitleUpdate>)
    ensures u.None? <==> AllSpace(originalText) && AllSpace(chineseText)
    ensures u.Some? ==> Clean(u.value) && u.value.duration == duration
    ensures u.Some? ==> u.value.originalText == Strip(originalText) && u.value.chineseText == Strip(chineseText)
  {
    var o := Strip(originalText);
    var c := Strip(chineseText);
    if o == [] && c == [] then None else Some(SubtitleUpdate(o, c, duration))
  }

  /** What `update_subtitle` adds to the queue: the cleaned update, when the display is
      running and there is one. */
  function Enqueued(running: bool, originalText: string, chineseText: string, duration: real): (q: seq<SubtitleUpdate>)
    ensures |q| <= 1
    ensures q != [] <==> running && !(AllSpace(originalText) && AllSpace(chineseText))
    ensures q != [] ==> Clean(q[0]) && q[0] == SubtitleUpdate(Strip(originalText), Strip(chineseText), duration)
  {
    var u := Cleaned(originalText, chineseText, duration);
    if running && u.Some? then [u.value] else []
  }

  /** The hide delay in milliseconds for a display duration in seconds. */
  function HideDelay(duration: real): int {
    Trunc(duration * 1000.0)
  }

  /** The part of the overlay that applying updates changes. `pending` maps each
      scheduled, uncancelled hide callback to its delay in milliseconds. */
  datatype Screen = Screen(
    originalLabel: string,
    chineseLabel: string,
    visible: bool,
    hideTimer: Option<nat>,
    pending: map<nat, int>,
    nextTimerId: nat,
    currentDisplayDuration: real)

  /** Appending a clean update to a queue of clean updates keeps it clean. */
  lemma AllCleanAppend(q: seq<SubtitleUpdate>, u: SubtitleUpdate)
    requires (forall v <- q :: Clean(v)) && Clean(u)
    ensures forall v <- q + [u] :: Clean(v)
  {
  }

  /** At most one hide callback is pending. */
  predicate AtMostOnePending(sc: Screen) {
    forall a, b :: a in sc.pending && b in sc.pending ==> a == b
  }

  /** Only the timer last recorded in `hide_timer` can still be pending. */
  predicate TimersConsistent(sc: Screen) {
    && (sc.hideTimer.None? ==> sc.pending == map[])
    && (sc.hideTimer.Some? ==> sc.pending.Keys <= {sc.hideTimer.value})
  }

  /** `_apply_update`: new label texts, window shown, the previous hide timer cancelled
      and a new one scheduled for the update's duration. */
  function Applied(sc: Screen, u: SubtitleUpdate): (r: Screen)
    ensures r.originalLabel == u.originalText && r.chineseLabel == u.chineseText && r.visible
    ensures r.currentDisplayDuration == u.duration
    ensures r.hideTimer == Some(sc.nextTimerId) && r.nextTimerId == sc.nextTimerId + 1
    ensures TimersConsistent(sc) ==> r.pending == map[sc.nextTimerId := HideDelay(u.duration)]
  {
    var kept := if sc.hideTimer.Some? then sc.pending - {sc.hideTimer.value} else sc.pending;
    assert TimersConsistent(sc) ==> kept == map[];
    Screen(u.originalText, u.chineseText, true, Some(sc.nextTimerId),
           kept[sc.nextTimerId := HideDelay(u.duration)], sc.nextTimerId + 1, u.duration)
  }

  /** Updates applied in queue order. */
  function ApplyAll(sc: Screen, us: seq<SubtitleUpdate>): Screen
    decreases |us|
  {
    if us == [] then sc else ApplyAll(Applied(sc, us[0]), us[1..])
  }

  /** The last update drained wins: the labels show its texts, the window is shown, the
      display duration is its duration, and exactly one hide timer is pending, with its
      delay. */
  lemma {:induction false} DrainLastWins(sc: Screen, us: seq<SubtitleUpdate>)
    requires us != [] && TimersConsistent(sc)
    ensures var r := ApplyAll(sc, us);
      var last := us[|us| - 1];
      && r.originalLabel == last.originalText && r.chineseLabel == last.chineseText
      && r.visible && r.currentDisplayDuration == last.duration
      && r.nextTimerId == sc.nextTimerId + |us|
      && r.hideTimer == Some(r.nextTimerId - 1)
      && r.pending == map[r.nextTimerId - 1 := HideDelay(last.duration)]
    decreases |us|
  {
    var t := Applied(sc, us[0]);
    if |us| > 1 {
      DrainLastWins(t, us[1..]);
      assert us[1..][|us[1..]| - 1] == us[|us| - 1];
    }
  }

  /** Draining keeps the timers consistent, so at most one hide callback is ever pending. */
  lemma {:induction false} DrainKeepsOneTimer(sc: Screen, us: seq<SubtitleUpdate>)
    requires TimersConsistent(sc)
    ensures TimersConsistent(ApplyAll(sc, us)) && AtMostOnePending(ApplyAll(sc, us))
    decreases |us|
  {
    if us != [] {
      DrainLastWins(sc, us);
    }
  }

  /** `set_opacity`: `max(0.1, min(1.0, opacity))`. */
  function ClampOpacity(opacity: real): (r: real)
    ensures MinOpacity <= r <= MaxOpacity
    ensures MinOpacity <= opacity <= MaxOpacity ==> r == opacity
    ensures opacity < MinOpacity ==> r == MinOpacity
    ensures opacity > MaxOpacity ==> r == MaxOpacity
  {
    var upper := if opacity < MaxOpacity then opacity else MaxOpacity;
    if upper > MinOpacity then upper else MinOpacity
  }

  /** `_update_window_position`: the window's top-left corner, centred horizontally
      and `offset` above the bottom edge. */
  function WindowPosition(screenWidth: int, screenHeight: int, width: int, height: int, offset: int): (p: (int, int))
    ensures var left := p.0; var right := screenWidth - width - p.0;
      0 <= right - left <= 1
    ensures p.1 + height + offset == screenHeight
  {
    (FloorDiv(screenWidth - width, 2), screenHeight - height - offset)
  }

  /** The wrap length set on a resize, or `None` when the frame width is not yet valid. */
  function ResizeWraplength(frameWidth: int): (w: Option<int>)
    ensures w.None? <==> frameWidth <= 1
    ensures w.Some? ==> w.value >= MinWraplength && w.value >= frameWidth - WrapPadding
    ensures w.Some? ==> w.value == MinWraplength || w.value == frameWidth - WrapPadding
  {
    if frameWidth > 1 then
      Some(if frameWidth - WrapPadding > MinWraplength then frameWidth - WrapPadding else MinWraplength)
    else None
  }

  class SubtitleDisplay {
    const windowWidth: int
    const windowHeight: int
    const positionYOffset: int
    const resizable: bool
    var windowOpacity: real
    var isRunning: bool
    var updateQueue: seq<SubtitleUpdate>
    /** The window, frame and labels exist. */
    var hasUi: bool
    var originalLabel: string
    var chineseLabel: string
    var visible: bool
    var hideTimer: Option<nat>
    var pending: map<nat, int>
    var nextTimerId: nat
    var currentDisplayDuration: real
    var initComplete: bool
    var wraplength: int
    var windowX: int
    var windowY: int

    function View(): Screen
      reads this
    {
      Screen(originalLabel, chineseLabel, visible, hideTimer, pending, nextTimerId, currentDisplayDuration)
    }

    ghost predicate Valid()
      reads this
    {
      && (forall u <- updateQueue :: Clean(u))
      && TimersConsistent(View())
    }

    constructor (windowWidth: int, windowHeight: int, windowOpacity: real, positionYOffset: int, resizable: bool)
      ensures Valid()
      ensures this.windowWidth == windowWidth && this.windowHeight == windowHeight
      ensures this.windowOpacity == windowOpacity && this.positionYOffset == positionYOffset
      ensures this.resizable == resizable
      ensures !isRunning && !hasUi && updateQueue == [] && hideTimer.None?
      ensures currentDisplayDuration == DefaultDuration
    {
      this.windowWidth := windowWidth;
      this.windowHeight := windowHeight;
      this.windowOpacity := windowOpacity;
      this.positionYOffset := positionYOffset;
      this.resizable := resizable;
      isRunning := false;
      updateQueue := [];
      hasUi := false;
      originalLabel, chineseLabel, visible := "", "", false;
      hideTimer, pending, nextTimerId := None, map[], 0;
      currentDisplayDuration := DefaultDuration;
      initComplete := false;
      wraplength := windowWidth - LabelPadding;
      windowX, windowY := 0, 0;
    }

    /** `start` followed by the UI thread's `_run_ui`, on a screen of the given size, with
        `frameWidth` the width the frame reports once laid out. A display already running
        is left as it is. */
    method Start(screenWidth: int, screenHeight: int, frameWidth: int)
      requires Valid()
      modifies this`isRunning, this`windowX, this`windowY, this`hasUi, this`wraplength, this`initComplete,
               this`updateQueue, this`originalLabel, this`chineseLabel, this`visible, this`hideTimer,
               this`pending, this`nextTimerId, this`currentDisplayDuration
      ensures Valid()
      ensures old(isRunning) ==> unchanged(this)
      ensures !old(isRunning) ==>
        && isRunning && hasUi && !initComplete && updateQueue == []
        && (windowX, windowY) == WindowPosition(screenWidth, screenHeight, windowWidth, windowHeight, positionYOffset)
        && wraplength == (if frameWidth > 1 then frameWidth - WrapPadding else windowWidth - LabelPadding)
        && View() == ApplyAll(old(View()).(originalLabel := "", chineseLabel := "", visible := false), old(updateQueue))
    {
      if isRunning {
        return;
      }
      isRunning := true;
      RunUi(screenWidth, screenHeight, frameWidth);
    }

    /** `_run_ui`: the window placed, the UI created, and the first poll of the queue. */
    method RunUi(screenWidth: int, screenHeight: int, frameWidth: int)
      requires Valid() && isRunning
      modifies this`windowX, this`windowY, this`hasUi, this`wraplength, this`initComplete,
               this`updateQueue, this`originalLabel, this`chineseLabel, this`visible, this`hideTimer,
               this`pending, this`nextTimerId, this`currentDisplayDuration
      ensures Valid() && hasUi && !initComplete && updateQueue == []
      ensures (windowX, windowY) == WindowPosition(screenWidth, screenHeight, windowWidth, windowHeight, positionYOffset)
      ensures wraplength == if frameWidth > 1 then frameWidth - WrapPadding else windowWidth - LabelPadding
      ensures View() == ApplyAll(old(View()).(originalLabel := "", chineseLabel := "", visible := false), old(updateQueue))
    {
      UpdateWindowPosition(screenWidth, screenHeight);
      CreateUi(frameWidth);
      ScheduleUpdate();
    }

    /** `_create_ui`: empty labels wrapped to the window width less padding, then to the
        laid-out frame width less padding when that is valid; the window starts hidden. */
    method CreateUi(frameWidth: int)
      modifies this`hasUi, this`originalLabel, this`chineseLabel, this`visible, this`wraplength, this`initComplete
      ensures hasUi && !initComplete
      ensures View() == old(View()).(originalLabel := "", chineseLabel := "", visible := false)
      ensures wraplength == if frameWidth > 1 then frameWidth - WrapPadding else windowWidth - LabelPadding
    {
      hasUi := true;
      originalLabel, chineseLabel := "", "";
      wraplength := windowWidth - LabelPadding;
      visible := false;
      if frameWidth > 1 {
        wraplength := frameWidth - WrapPadding;
      }
      initComplete := false;
    }

    /** `_update_window_position`. */
    method UpdateWindowPosition(screenWidth: int, screenHeight: int)
      modifies this`windowX, this`windowY
      ensures (windowX, windowY) == WindowPosition(screenWidth, screenHeight, windowWidth, windowHeight, positionYOffset)
    {
      windowX := FloorDiv(screenWidth - windowWidth, 2);
      windowY := screenHeight - windowHeight - positionYOffset;
    }

    /** `update_subtitle`: when running, queues the cleaned update if there is one. */
    method UpdateSubtitle(originalText: string, chineseText: string, duration: real)
      requires Valid()
      modifies this`updateQueue
      ensures Valid()
      ensures updateQueue == old(updateQueue) + Enqueued(isRunning, originalText, chineseText, duration)
    {
      if !isRunning {
        return;
      }
      var update := Cleaned(originalText, chineseText, duration);
      if update.Some? {
        Enqueue(update.value);
      }
    }

    /** Puts one clean update at the back of the queue. */
    method Enqueue(u: SubtitleUpdate)
      requires Valid() && Clean(u)
      modifies this`updateQueue
      ensures Valid() && updateQueue == old(updateQueue) + [u]
    {
      AllCleanAppend(updateQueue, u);
      updateQueue := updateQueue + [u];
    }

    /** One poll of `_schedule_update`: when running, every queued update is applied in
        order and the queue is left empty. */
    method ScheduleUpdate()
      requires Valid() && hasUi
      modifies this`updateQueue, this`originalLabel, this`chineseLabel, this`visible, this`hideTimer,
               this`pending, this`nextTimerId, this`currentDisplayDuration
      ensures Valid()
      ensures !old(isRunning) ==> unchanged(this)
      ensures old(isRunning) ==> updateQueue == [] && View() == ApplyAll(old(View()), old(updateQueue))
    {
      if !isRunning {
        return;
      }
      while updateQueue != []
        invariant Valid()
        invariant ApplyAll(View(), updateQueue) == ApplyAll(old(View()), old(updateQueue))
        decreases |updateQueue|
      {
        var update := updateQueue[0];
        updateQueue := updateQueue[1..];
        ApplyUpdate(update);
      }
    }

    /** `_apply_update`. */
    method ApplyUpdate(update: SubtitleUpdate)
      requires hasUi && TimersConsistent(View())
      modifies this`originalLabel, this`chineseLabel, this`visible, this`hideTimer, this`pending,
               this`nextTimerId, this`currentDisplayDuration
      ensures View() == Applied(old(View()), update)
      ensures TimersConsistent(View())
    {
      originalLabel := update.originalText;
      chineseLabel := update.chineseText;
      if !visible {
        visible := true;
      }
      if hideTimer.Some? {
        pending := pending - {hideTimer.value};
      }
      currentDisplayDuration := update.duration;
      hideTimer := Some(nextTimerId);
      pending := pending[nextTimerId := HideDelay(update.duration)];
      nextTimerId := nextTimerId + 1;
    }

    /** The scheduled `hide` callback `id` fires: the window is withdrawn. */
    method FireHideTimer(id: nat)
      requires Valid() && id in pending
      modifies this`pending, this`visible
      ensures Valid()
      ensures pending == old(pending) - {id} && visible == (old(visible) && !hasUi)
    {
      pending := pending - {id};
      if hasUi {
        visible := false;
      }
    }

    /** `set_opacity`. */
    method SetOpacity(opacity: real)
      modifies this`windowOpacity
      ensures windowOpacity == ClampOpacity(opacity)
    {
      windowOpacity := ClampOpacity(opacity);
    }

    /** `_mark_init_complete`, with `frameWidth` the frame's reported width. */
    method MarkInitComplete(frameWidth: int)
      modifies this`initComplete, this`wraplength
      ensures initComplete
      ensures wraplength == if resizable && hasUi && frameWidth > 1 then frameWidth - WrapPadding else old(wraplength)
    {
      initComplete := true;
      if resizable && hasUi && frameWidth > 1 {
        wraplength := frameWidth - WrapPadding;
      }
    }

    /** `_on_window_resize` for a `<Configure>` event (bound only on a resizable window);
        `fromRoot` tells whether the event is the root window's. */
    method OnWindowResize(fromRoot: bool, frameWidth: int)
      modifies this`wraplength
      ensures var w := ResizeWraplength(frameWidth);
        wraplength == if resizable && initComplete && fromRoot && hasUi && w.Some? then w.value else old(wraplength)
      ensures resizable && initComplete && fromRoot && hasUi && frameWidth > 1 ==> wraplength >= MinWraplength
    {
      if !resizable || !initComplete {
        return;
      }
      if fromRoot && hasUi {
        if frameWidth > 1 {
          wraplength := if frameWidth - WrapPadding > MinWraplength then frameWidth - WrapPadding else MinWraplength;
        }
      }
    }
  }
}
