/**
 * The trim-handle drag engine of the clip editor.
 *
 * A drag gesture freezes a snapshot of the clip's window (start, duration)
 * and the pointer's X coordinate when the pointer goes down; every
 * pointer-move then maps the pointer's displacement, converted to seconds,
 * to a new window according to the handle that was grabbed: the left
 * handle keeps the right edge fixed, the right handle keeps the left edge
 * fixed, and the body moves the whole window keeping its duration.
 * Seconds are real numbers; floating-point rounding is not modelled.
 */
module TrimSlider {
  import opened Wrappers

  /** The smallest window a drag may leave (`minDur`). */
  const MinDuration: real := 0.5

  /** The three pointer-down targets: left handle, right handle, window body. */
  datatype Handle = StartHandle | EndHandle | Body

  /** The `dragMode` state: `null` or one of the three handles. */
  datatype DragMode = NotDragging | Dragging(handle: Handle)

  /** A cut window inside a clip, in seconds. */
  datatype Window = Window(start: real, duration: real) {
    function End(): real { start + duration }
  }

  /** The editor's window invariant against a clip of length `total`. */
  predicate ValidWindow(w: Window, total: real) {
    0.0 <= w.start && MinDuration <= w.duration && w.End() <= total
  }

  /** `x` forced into the interval [lo, hi]; a reference for the clamps below. */
  function Clamp(x: real, lo: real, hi: real): (r: real)
    requires lo <= hi
    ensures lo <= r <= hi
    ensures lo <= x <= hi ==> r == x
    ensures x < lo ==> r == lo
    ensures hi < x ==> r == hi
  {
    if x < lo then lo else if hi < x then hi else x
  }

  /** A pointer displacement in pixels, projected onto the clip's time scale. */
  function DeltaSeconds(deltaPixels: real, trackWidth: real, total: real): (r: real)
    requires trackWidth > 0.0
    ensures r * trackWidth == deltaPixels * total
    ensures deltaPixels == trackWidth ==> r == total
    ensures deltaPixels == 0.0 ==> r == 0.0
  {
    (deltaPixels / trackWidth) * total
  }

  /** Left handle: the right edge of the snapshot stays where it was. */
  function DragStartHandle(snap: Window, delta: real): (w: Window)
    ensures w.End() == snap.End()
    ensures MinDuration <= w.duration
    ensures w.start <= snap.End() - MinDuration
    ensures MinDuration <= snap.End() ==> 0.0 <= w.start
    ensures MinDuration <= snap.End() ==>
              w.start == Clamp(snap.start + delta, 0.0, snap.End() - MinDuration)
  {
    var fixedEnd := snap.start + snap.duration;
    var requested := snap.start + delta;
    var atLeastZero := if requested < 0.0 then 0.0 else requested;
    var newStart := if atLeastZero > fixedEnd - MinDuration then fixedEnd - MinDuration else atLeastZero;
    Window(newStart, fixedEnd - newStart)
  }

  /** Right handle: the left edge of the snapshot stays where it was. */
  function DragEndHandle(snap: Window, delta: real, total: real): (w: Window)
    ensures w.start == snap.start
    ensures w.End() <= total
    ensures snap.start + MinDuration <= total ==> MinDuration <= w.duration
    ensures snap.start + MinDuration <= total ==>
              w.duration == Clamp(snap.duration + delta, MinDuration, total - snap.start)
  {
    var requested := snap.duration + delta;
    var atLeastMin := if requested < MinDuration then MinDuration else requested;
    var newDuration := if snap.start + atLeastMin > total then total - snap.start else atLeastMin;
    Window(snap.start, newDuration)
  }

  /** Window body: the duration of the snapshot is kept, the start slides. */
  function DragBody(snap: Window, delta: real, total: real): (w: Window)
    ensures w.duration == snap.duration
    ensures w.End() <= total
    ensures snap.duration <= total ==> 0.0 <= w.start <= total - snap.duration
    ensures snap.duration <= total ==>
              w.start == Clamp(snap.start + delta, 0.0, total - snap.duration)
  {
    var requested := snap.start + delta;
    var atLeastZero := if requested < 0.0 then 0.0 else requested;
    var newStart := if atLeastZero + snap.duration > total then total - snap.duration else atLeastZero;
    Window(newStart, snap.duration)
  }

  /** The pair one pointer-move emits for the grabbed handle. */
  function Drag(handle: Handle, snap: Window, delta: real, total: real): (w: Window)
    ensures ValidWindow(snap, total) ==> ValidWindow(w, total)
  {
    match handle
    case StartHandle => DragStartHandle(snap, delta)
    case EndHandle => DragEndHandle(snap, delta, total)
    case Body => DragBody(snap, delta, total)
  }

  /** One whole gesture: a handle and the displacement of its last move. */
  datatype Gesture = Gesture(handle: Handle, delta: real)

  /**
   * Gestures applied one after another, each gesture snapshotting the
   * window the previous one committed.
   */
  function ApplyGestures(w: Window, gestures: seq<Gesture>, total: real): Window
    decreases |gestures|
  {
    if gestures == [] then w
    else ApplyGestures(Drag(gestures[0].handle, w, gestures[0].delta, total), gestures[1..], total)
  }

  /** The window invariant survives any sequence of drag gestures. */
  lemma {:induction false} GesturesKeepValid(w: Window, gestures: seq<Gesture>, total: real)
    requires ValidWindow(w, total)
    ensures ValidWindow(ApplyGestures(w, gestures, total), total)
    decreases |gestures|
  {
    if gestures != [] {
      var next := Drag(gestures[0].handle, w, gestures[0].delta, total);
      GesturesKeepValid(next, gestures[1..], total);
    }
  }

  /** `startPercent` and `widthPercent`: a time on the track, in percent of the clip. */
  function Percent(seconds: real, total: real): (p: real)
    requires total > 0.0
    ensures 0.0 <= seconds ==> 0.0 <= p
    ensures p * total == seconds * 100.0
  {
    (seconds / total) * 100.0
  }

  /** `endPercent`: the right edge's position, the sum of the two above. */
  function EndPercent(trimStart: real, trimDuration: real, total: real): (p: real)
    requires total > 0.0
    ensures p * total == (trimStart + trimDuration) * 100.0
    ensures ValidWindow(Window(trimStart, trimDuration), total) ==>
              0.0 <= Percent(trimStart, total) < p <= 100.0
  {
    Percent(trimStart, total) + Percent(trimDuration, total)
  }

  /**
   * The body of `handlePointerMove` after the guard: the requested edge is
   * moved by `deltaSeconds` and then clamped, one limit after the other.
   */
  method ClampMove(handle: Handle, snap: Window, deltaSeconds: real, totalDuration: real)
    returns (w: Window)
    ensures w == Drag(handle, snap, deltaSeconds, totalDuration)
  {
    var initialStart, initialDuration := snap.start, snap.duration;
    match handle {
      case StartHandle =>
        var fixedEndTime := initialStart + initialDuration;
        var newStart := initialStart + deltaSeconds;
        if newStart < 0.0 { newStart := 0.0; }
        if newStart > fixedEndTime - MinDuration { newStart := fixedEndTime - MinDuration; }
        var newDuration := fixedEndTime - newStart;
        w := Window(newStart, newDuration);
      case EndHandle =>
        var fixedStartTime := initialStart;
        var newDuration := initialDuration + deltaSeconds;
        if newDuration < MinDuration { newDuration := MinDuration; }
        if fixedStartTime + newDuration > totalDuration {
          newDuration := totalDuration - fixedStartTime;
        }
        w := Window(fixedStartTime, newDuration);
      case Body =>
        var newStart := initialStart + deltaSeconds;
        if newStart < 0.0 { newStart := 0.0; }
        if newStart + initialDuration > totalDuration {
          newStart := totalDuration - initialDuration;
        }
        w := Window(newStart, initialDuration);
    }
  }

  /**
   * One mounted slider: the props it was last rendered with, the drag
   * state, and the three refs frozen at pointer-down.
   */
  class Slider {
    var totalDuration: real
    var trimStart: real
    var trimDuration: real
    var dragMode: DragMode
    var startX: real
    var initialStart: real
    var initialDuration: real

    /** The snapshot frozen at the last pointer-down. */
    function Snapshot(): Window
      reads this
    {
      Window(initialStart, initialDuration)
    }

    /** First render: the refs start at 0 and no drag is active. */
    constructor (totalDuration: real, trimStart: real, trimDuration: real)
      ensures this.totalDuration == totalDuration
      ensures this.trimStart == trimStart && this.trimDuration == trimDuration
      ensures dragMode == NotDragging
      ensures startX == 0.0 && initialStart == 0.0 && initialDuration == 0.0
    {
      this.totalDuration := totalDuration;
      this.trimStart := trimStart;
      this.trimDuration := trimDuration;
      dragMode := NotDragging;
      startX, initialStart, initialDuration := 0.0, 0.0, 0.0;
    }

    /** A re-render with new props; state and refs survive it. */
    method Render(totalDuration: real, trimStart: real, trimDuration: real)
      modifies this`totalDuration, this`trimStart, this`trimDuration
      ensures this.totalDuration == totalDuration
      ensures this.trimStart == trimStart && this.trimDuration == trimDuration
    {
      this.totalDuration := totalDuration;
      this.trimStart := trimStart;
      this.trimDuration := trimDuration;
    }

    /** `handlePointerDown`: freeze the pointer X and the live window, enter `mode`. */
    method PointerDown(clientX: real, mode: Handle)
      modifies this`startX, this`initialStart, this`initialDuration, this`dragMode
      ensures startX == clientX
      ensures Snapshot() == Window(trimStart, trimDuration)
      ensures dragMode == Dragging(mode)
    {
      startX := clientX;
      initialStart := trimStart;
      initialDuration := trimDuration;
      dragMode := Dragging(mode);
    }

    /** `handlePointerUp`, also bound to pointer-leave: the gesture ends. */
    method PointerUp()
      modifies this`dragMode
      ensures dragMode == NotDragging
    {
      dragMode := NotDragging;
    }

    /**
     * `handlePointerMove`. `trackWidth` is the width of the track's bounding
     * rectangle, or None while the track is not mounted. The emitted pair,
     * if any, is what `onChange` receives. It is computed from the snapshot,
     * the pointer and the clip length only, never from the live props.
     */
    method PointerMove(clientX: real, trackWidth: Option<real>) returns (emitted: Option<Window>)
      requires trackWidth.Some? ==> trackWidth.value > 0.0
      ensures dragMode == NotDragging || trackWidth == None ==> emitted == None
      ensures dragMode.Dragging? && trackWidth.Some? ==>
                emitted == Some(Drag(dragMode.handle, Snapshot(),
                                     DeltaSeconds(clientX - startX, trackWidth.value, totalDuration),
                                     totalDuration))
      ensures emitted.Some? && ValidWindow(Snapshot(), totalDuration) ==>
                ValidWindow(emitted.value, totalDuration)
    {
      if dragMode == NotDragging || trackWidth == None {
        return None;
      }
      var deltaPixels := clientX - startX;
      var deltaSeconds := DeltaSeconds(deltaPixels, trackWidth.value, totalDuration);
      var newWindow := ClampMove(dragMode.handle, Snapshot(), deltaSeconds, totalDuration);
      emitted := Some(newWindow);
    }
  }

  /**
   * A move, a re-render that changes the live window (as the parent does
   * when it applies `onChange`), and a second move to the same pointer X:
   * both moves emit the same pair, so moves never compound on each other.
   */
  method MoveAcrossRerender(s: Slider, clientX: real, trackWidth: Option<real>,
                            liveStart: real, liveDuration: real)
    returns (first: Option<Window>, second: Option<Window>)
    requires trackWidth.Some? ==> trackWidth.value > 0.0
    modifies s
    ensures first == second
  {
    first := s.PointerMove(clientX, trackWidth);
    s.Render(s.totalDuration, liveStart, liveDuration);
    second := s.PointerMove(clientX, trackWidth);
  }
}
