/**
 * The bounded undo/redo store of the editor, generic over the edited state.
 *
 * `present` is the live value, `past` the states before it (oldest first,
 * at most `MaxPast` kept) and `future` the states undone since the last
 * edit (next one first). Each operation is one atomic step; the React
 * scheduling of the three `setState` calls is not modelled.
 */
module History {

  /** The history keeps at most this many past states. */
  const MaxPast: nat := 20

  /** The argument of `set`: a new value, or an updater applied to the current one. */
  datatype Update<!T> = Value(value: T) | Updater(apply: T -> T)

  /** `computedNewState`: the value `set` installs when the current state is `current`. */
  function Resolve<T>(u: Update<T>, current: T): (r: T)
    ensures u.Value? ==> r == u.value
    ensures u.Updater? ==> r == u.apply(current)
  {
    match u
    case Value(v) => v
    case Updater(f) => f(current)
  }

  /** The three pieces of state of one store. */
  datatype HistoryState<T> = HistoryState(present: T, past: seq<T>, future: seq<T>) {

    /** The depth bound every reachable store satisfies. */
    predicate Bounded() {
      |past| + |future| <= MaxPast
    }
  }

  /** The store the hook starts with. */
  function Initial<T>(initialState: T): HistoryState<T> {
    HistoryState(initialState, [], [])
  }

  /** `[...prev, current]`, dropping the first entry when that exceeds the limit. */
  function PushCapped<T>(past: seq<T>, x: T): (r: seq<T>)
    ensures |past| < MaxPast ==> r == past + [x]
    ensures |past| == MaxPast ==> r == past[1..] + [x]
  {
    var newPast := past + [x];
    if |newPast| > MaxPast then newPast[1..] else newPast
  }

  /** `set`: record the current state, install the new one, forget the future. */
  function SetState<T>(h: HistoryState<T>, u: Update<T>): (r: HistoryState<T>)
    ensures r.future == []
    ensures u.Value? ==> r.present == u.value
    ensures u.Updater? ==> r.present == u.apply(h.present)
    ensures |h.past| < MaxPast ==> r.past == h.past + [h.present]
    ensures |h.past| == MaxPast ==> r.past == h.past[1..] + [h.present]
    ensures |h.past| <= MaxPast ==> 0 < |r.past| <= MaxPast && r.past[|r.past| - 1] == h.present
  {
    HistoryState(Resolve(u, h.present), PushCapped(h.past, h.present), [])
  }

  /** `undo`: the last past state comes back, the current one goes to the front of the future. */
  function UndoState<T>(h: HistoryState<T>): (r: HistoryState<T>)
    ensures |h.past| > 0 ==> r.past + [r.present] == h.past && r.future == [h.present] + h.future
    ensures |h.past| == 0 ==> r == h
    ensures |r.past| + |r.future| == |h.past| + |h.future|
  {
    if |h.past| == 0 then h
    else HistoryState(h.past[|h.past| - 1], h.past[..|h.past| - 1], [h.present] + h.future)
  }

  /** `redo`: the first future state comes back, the current one goes to the end of the past. */
  function RedoState<T>(h: HistoryState<T>): (r: HistoryState<T>)
    ensures |h.future| > 0 ==> [r.present] + r.future == h.future && r.past == h.past + [h.present]
    ensures |h.future| == 0 ==> r == h
    ensures |r.past| + |r.future| == |h.past| + |h.future|
  {
    if |h.future| == 0 then h
    else HistoryState(h.future[0], h.past + [h.present], h.future[1..])
  }

  /** All three operations keep `|past| + |future| <= 20`, hence `|past| <= 20` also after `redo`. */
  lemma StepsKeepBounded<T>(h: HistoryState<T>, u: Update<T>)
    requires h.Bounded()
    ensures SetState(h, u).Bounded()
    ensures UndoState(h).Bounded()
    ensures RedoState(h).Bounded()
    ensures |RedoState(h).past| <= MaxPast
  {
  }

  /** When the past is full, `set` drops exactly its oldest entry and keeps the rest in order. */
  lemma SetDropsOnlyOldest<T>(h: HistoryState<T>, u: Update<T>)
    requires |h.past| == MaxPast
    ensures SetState(h, u).past == h.past[1..] + [h.present]
    ensures |SetState(h, u).past| == MaxPast
  {
  }

  /** Undo after set brings back the state set replaced; the past is the old one unless the cap bit. */
  lemma UndoAfterSet<T>(h: HistoryState<T>, u: Update<T>)
    requires |h.past| <= MaxPast
    ensures UndoState(SetState(h, u)).present == h.present
    ensures UndoState(SetState(h, u)).future == [Resolve(u, h.present)]
    ensures |h.past| < MaxPast ==> UndoState(SetState(h, u)).past == h.past
    ensures |h.past| == MaxPast ==> UndoState(SetState(h, u)).past == h.past[1..]
  {
  }

  /** Redo undoes an undo exactly. */
  lemma RedoAfterUndo<T>(h: HistoryState<T>)
    requires |h.past| > 0
    ensures RedoState(UndoState(h)) == h
  {
  }

  /** Undo undoes a redo exactly. */
  lemma UndoAfterRedo<T>(h: HistoryState<T>)
    requires |h.future| > 0
    ensures UndoState(RedoState(h)) == h
  {
  }

  /** Undo with nothing to undo and redo with nothing to redo change nothing. */
  lemma EmptyStepsChangeNothing<T>(h: HistoryState<T>)
    ensures |h.past| == 0 ==> UndoState(h) == h
    ensures |h.future| == 0 ==> RedoState(h) == h
  {
  }

  /** A run of `set` calls with plain values, oldest first. */
  function SetAll<T>(h: HistoryState<T>, values: seq<T>): HistoryState<T>
    decreases |values|
  {
    if values == [] then h
    else SetState(SetAll(h, values[..|values| - 1]), Value(values[|values| - 1]))
  }

  /** The last `n` entries of `s` (all of it when shorter). */
  function LastN<T>(s: seq<T>, n: nat): (r: seq<T>)
    ensures |r| == if |s| <= n then |s| else n
  {
    if |s| <= n then s else s[|s| - n..]
  }

  lemma PushCappedLastN<T>(s: seq<T>, x: T)
    ensures PushCapped(LastN(s, MaxPast), x) == LastN(s + [x], MaxPast)
  {
  }

  /**
   * After any run of edits the past holds exactly the last 20 states that
   * were replaced, in order: everything older is gone.
   */
  lemma {:induction false} SetAllKeepsLastStates<T>(h: HistoryState<T>, values: seq<T>)
    requires |h.past| == 0
    requires |values| > 0
    ensures SetAll(h, values).present == values[|values| - 1]
    ensures SetAll(h, values).future == []
    ensures SetAll(h, values).past == LastN([h.present] + values[..|values| - 1], MaxPast)
    decreases |values|
  {
    var n := |values|;
    var init := values[..n - 1];
    if n == 1 {
      assert SetAll(h, init) == h;
    } else {
      SetAllKeepsLastStates(h, init);
      var prev := SetAll(h, init);
      assert init[..n - 2] + [init[n - 2]] == values[..n - 1];
      PushCappedLastN([h.present] + init[..n - 2], prev.present);
      assert ([h.present] + init[..n - 2]) + [init[n - 2]] == [h.present] + values[..n - 1];
    }
  }

  /** Twenty-five edits from a fresh store leave exactly 20 past states; the 5 oldest are gone. */
  lemma TwentyFiveEdits<T>(initialState: T, values: seq<T>)
    requires |values| == 25
    ensures |SetAll(Initial(initialState), values).past| == 20
    ensures SetAll(Initial(initialState), values).past == values[4..24]
  {
    SetAllKeepsLastStates(Initial(initialState), values);
    var replaced := [initialState] + values[..24];
    assert replaced[5..] == values[4..24];
  }

  /** One `useHistory` instance. */
  class HistoryStore<T> {
    var present: T
    var past: seq<T>
    var future: seq<T>

    function State(): HistoryState<T>
      reads this
    {
      HistoryState(present, past, future)
    }

    constructor (initialState: T)
      ensures State() == Initial(initialState)
    {
      present := initialState;
      past := [];
      future := [];
    }

    /** `set(newState)`, with a value or an updater function. */
    method Set(newState: Update<T>)
      modifies this
      ensures State() == SetState(old(State()), newState)
    {
      var computedNewState := match newState
        case Value(v) => v
        case Updater(f) => f(present);
      var newPast := past + [present];
      if |newPast| > MaxPast {
        newPast := newPast[1..];
      }
      past := newPast;
      future := [];
      present := computedNewState;
    }

    /** `undo()`: nothing happens when there is nothing to undo. */
    method Undo()
      modifies this
      ensures State() == UndoState(old(State()))
    {
      if |past| == 0 {
        return;
      }
      var newPast := past;
      var previousState := newPast[|newPast| - 1];
      newPast := newPast[..|newPast| - 1];
      future := [present] + future;
      present := previousState;
      past := newPast;
    }

    /** `redo()`: nothing happens when there is nothing to redo. */
    method Redo()
      modifies this
      ensures State() == RedoState(old(State()))
    {
      if |future| == 0 {
        return;
      }
      var newFuture := future;
      var nextState := newFuture[0];
      newFuture := newFuture[1..];
      past := past + [present];
      present := nextState;
      future := newFuture;
    }

    /** `canUndo`: true exactly when `undo` would change the store. */
    function CanUndo(): (b: bool)
      reads this
      ensures b <==> UndoState(State()) != State()
    {
      |past| > 0
    }

    /** `canRedo`: true exactly when `redo` would change the store. */
    function CanRedo(): (b: bool)
      reads this
      ensures b <==> RedoState(State()) != State()
    {
      |future| > 0
    }
  }
}
