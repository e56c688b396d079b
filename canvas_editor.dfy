/**
 * The banner editor's own state: a bounded undo/redo history of canvas snapshots, the
 * zoom level, the canvas size taken from two number inputs, and the layer list shown
 * beside the canvas.
 *
 * The drawing canvas itself belongs to the Fabric.js library and is not modelled: a
 * snapshot of its contents is an opaque value of type S, the snapshot taken when
 * history is saved is a parameter, and undo and redo return the snapshot they hand back
 * to the canvas. Zoom is kept in integer tenths (10 is 100%).
 */
module CanvasEditor {
  import opened Wrappers

  // ---------------------------------------------------------------------------
  // Bounded undo/redo history
  // ---------------------------------------------------------------------------

  /** The most snapshots the history keeps. */
  const HistoryLimit := 5

  /** The saved snapshots, oldest first, and the cursor: the index of the snapshot on the canvas, -1 when none. */
  datatype History<S> = History(entries: seq<S>, index: int)

  /** What every reachable history satisfies: bounded, cursor in range, cursor -1 exactly when nothing is saved. */
  predicate WellFormed<S>(h: History<S>) {
    |h.entries| <= HistoryLimit && -1 <= h.index < |h.entries| && (h.index == -1 <==> h.entries == [])
  }

  /** The history the editor starts with. */
  function EmptyHistory<S>(): (r: History<S>)
    ensures WellFormed(r) && r.index == -1
  {
    History([], -1)
  }

  /**
   * The history after saving `snapshot`: the snapshots after the cursor are dropped, the
   * new one is appended and becomes current, and on overflow only the oldest goes.
   */
  function Saved<S>(h: History<S>, snapshot: S): (r: History<S>)
    requires WellFormed(h)
    ensures WellFormed(r)
    ensures 0 <= r.index == |r.entries| - 1 && r.entries[r.index] == snapshot
    ensures |r.entries| == if h.index + 2 > HistoryLimit then HistoryLimit else h.index + 2
    ensures r.entries[..r.index] == h.entries[h.index + 2 - |r.entries|..h.index + 1]
  {
    var kept := h.entries[..h.index + 1] + [snapshot];
    var bounded := if |kept| > HistoryLimit then kept[1..] else kept;
    History(bounded, |bounded| - 1)
  }

  /** The history after an undo: the cursor steps back by one unless it is already on the oldest snapshot or none. */
  function Undone<S>(h: History<S>): (r: History<S>)
    requires WellFormed(h)
    ensures WellFormed(r) && r.entries == h.entries
    ensures h.index <= 0 ==> r == h
    ensures h.index > 0 ==> r.index == h.index - 1
  {
    if h.index <= 0 then h else History(h.entries, h.index - 1)
  }

  /** The history after a redo: the cursor steps forward by one unless it is already on the newest snapshot. */
  function Redone<S>(h: History<S>): (r: History<S>)
    requires WellFormed(h)
    ensures WellFormed(r) && r.entries == h.entries
    ensures h.index >= |h.entries| - 1 ==> r == h
    ensures h.index < |h.entries| - 1 ==> r.index == h.index + 1
  {
    if h.index >= |h.entries| - 1 then h else History(h.entries, h.index + 1)
  }

  /** Undoing a step that can be undone and redoing it restores the history. */
  lemma RedoAfterUndo<S>(h: History<S>)
    requires WellFormed(h) && h.index > 0
    ensures Redone(Undone(h)) == h
  {
  }

  /** Redoing a step that can be redone and undoing it restores the history. */
  lemma UndoAfterRedo<S>(h: History<S>)
    requires WellFormed(h) && h.index < |h.entries| - 1
    ensures Undone(Redone(h)) == h
  {
  }

  /** A save after an undo loses the undone snapshots: nothing can be redone afterwards. */
  lemma SaveDiscardsRedo<S>(h: History<S>, snapshot: S)
    requires WellFormed(h)
    ensures Redone(Saved(h, snapshot)) == Saved(h, snapshot)
  {
  }

  /** Below the limit a save keeps every snapshot up to the cursor and appends the new one after it. */
  lemma SaveBelowLimit<S>(h: History<S>, snapshot: S)
    requires WellFormed(h) && h.index + 2 <= HistoryLimit
    ensures Saved(h, snapshot) == History(h.entries[..h.index + 1] + [snapshot], h.index + 1)
  {
  }

  /** Saving on a full history with the cursor on the newest snapshot evicts exactly the oldest. */
  lemma SaveOnFullHistoryEvictsOldest<S>(h: History<S>, snapshot: S)
    requires WellFormed(h) && |h.entries| == HistoryLimit && h.index == HistoryLimit - 1
    ensures Saved(h, snapshot).entries == h.entries[1..] + [snapshot]
  {
    var r := Saved(h, snapshot);
    assert r.entries == r.entries[..r.index] + [snapshot];
  }

  /** A user action on the history. */
  datatype Action<S> = SaveAction(snapshot: S) | UndoAction | RedoAction

  /** The history after one action. */
  function Step<S>(h: History<S>, a: Action<S>): (r: History<S>)
    requires WellFormed(h)
    ensures WellFormed(r)
  {
    match a
    case SaveAction(s) => Saved(h, s)
    case UndoAction => Undone(h)
    case RedoAction => Redone(h)
  }

  /** The history after a sequence of actions on a freshly opened editor. */
  function Replay<S>(actions: seq<Action<S>>): (r: History<S>)
    ensures WellFormed(r)
    decreases |actions|
  {
    if actions == [] then EmptyHistory()
    else Step(Replay(actions[..|actions| - 1]), actions[|actions| - 1])
  }

  /** Whether any of the actions saves a snapshot. */
  predicate SavedAny<S>(actions: seq<Action<S>>) {
    exists i :: 0 <= i < |actions| && actions[i].SaveAction?
  }

  /** Some action of `prefix + [last]` saves exactly when one of `prefix` does or `last` does. */
  lemma SavedAnySnoc<S>(prefix: seq<Action<S>>, last: Action<S>)
    ensures SavedAny(prefix + [last]) <==> SavedAny(prefix) || last.SaveAction?
  {
    var actions := prefix + [last];
    if SavedAny(prefix) {
      var i :| 0 <= i < |prefix| && prefix[i].SaveAction?;
      assert actions[i] == prefix[i];
    }
    if last.SaveAction? {
      assert actions[|prefix|] == last;
    }
    if SavedAny(actions) && !last.SaveAction? {
      var i :| 0 <= i < |actions| && actions[i].SaveAction?;
      assert i < |prefix| && prefix[i] == actions[i];
    }
  }

  /**
   * From a fresh editor the cursor points into the history exactly when something has
   * been saved; until then the history is empty and the cursor is -1.
   */
  lemma {:induction false} ReplayCursorInRange<S>(actions: seq<Action<S>>)
    ensures SavedAny(actions) <==> 0 <= Replay(actions).index < |Replay(actions).entries|
    ensures !SavedAny(actions) ==> Replay(actions) == EmptyHistory()
  {
    if actions == [] {
      assert !SavedAny(actions);
    } else {
      var prefix, last := actions[..|actions| - 1], actions[|actions| - 1];
      assert actions == prefix + [last];
      ReplayCursorInRange(prefix);
      SavedAnySnoc(prefix, last);
      var h := Replay(prefix);
      assert Replay(actions) == Step(h, last);
      match last
      case SaveAction(s) =>
        assert 0 <= Step(h, last).index < |Step(h, last).entries|;
      case UndoAction =>
        assert Step(h, last) == Undone(h);
      case RedoAction =>
        assert Step(h, last) == Redone(h);
    }
  }

  /** Two saves, an undo and a save: the undone snapshot is gone and the new one is current. */
  lemma SaveAfterUndoReplacesUndone<S>(a: S, b: S, c: S)
    ensures Saved(Undone(Saved(Saved(EmptyHistory(), a), b)), c) == History([a, c], 1)
  {
    var h0: History<S> := EmptyHistory();
    SaveBelowLimit(h0, a);
    var h1 := Saved(h0, a);
    assert h1 == History([a], 0) by {
      assert h0.entries[..0] + [a] == [a];
    }
    SaveBelowLimit(h1, b);
    var h2 := Saved(h1, b);
    assert h2 == History([a, b], 1) by {
      assert h1.entries[..1] + [b] == [a, b];
    }
    var h3 := Undone(h2);
    assert h3 == History([a, b], 0);
    SaveBelowLimit(h3, c);
    assert h3.entries[..1] + [c] == [a, c];
  }

  // ---------------------------------------------------------------------------
  // Zoom
  // ---------------------------------------------------------------------------

  /** The smallest zoom, 0.1, in tenths. */
  const MinZoom := 1
  /** The zoom the editor starts at and resets to, 1.0, in tenths. */
  const DefaultZoom := 10

  /** The zoom after zooming out: one tenth less, but never below 0.1. */
  function ZoomedOut(zoom: int): (r: int)
    ensures r >= MinZoom
    ensures zoom - 1 >= MinZoom ==> r == zoom - 1
    ensures r >= zoom - 1 && (r == zoom - 1 || r == MinZoom)
  {
    if zoom - 1 < MinZoom then MinZoom else zoom - 1
  }

  /** Zooming in and then out returns to the zoom level the editor had. */
  lemma ZoomOutUndoesZoomIn(zoom: int)
    requires zoom >= MinZoom
    ensures ZoomedOut(zoom + 1) == zoom
  {
  }

  // ---------------------------------------------------------------------------
  // Canvas size
  // ---------------------------------------------------------------------------

  /** The two number inputs that set the canvas size, by their `name`. */
  datatype Dimension = Width | Height

  datatype CanvasSize = CanvasSize(width: int, height: int)

  /** The size the resize rule falls back to. */
  const FallbackDimension := 100

  /**
   * The dimension an input value yields. `parsed` is the value read as a base-10
   * integer, None where that is NaN; a missing or non-positive value becomes 100.
   */
  function ResizeValue(parsed: Option<int>): (v: int)
    ensures v > 0
    ensures parsed.Some? && parsed.value > 0 ==> v == parsed.value
    ensures parsed.None? || parsed.value <= 0 ==> v == FallbackDimension
  {
    if parsed.None? || parsed.value <= 0 then FallbackDimension else parsed.value
  }

  /** The canvas size after the input `name` changed: only that dimension changes. */
  function Resized(size: CanvasSize, name: Dimension, parsed: Option<int>): (r: CanvasSize)
    ensures name == Width ==> r.width == ResizeValue(parsed) && r.height == size.height
    ensures name == Height ==> r.height == ResizeValue(parsed) && r.width == size.width
  {
    match name
    case Width => size.(width := ResizeValue(parsed))
    case Height => size.(height := ResizeValue(parsed))
  }

  /** Resizing from positive dimensions keeps both positive. */
  lemma ResizeKeepsPositive(size: CanvasSize, name: Dimension, parsed: Option<int>)
    requires size.width > 0 && size.height > 0
    ensures Resized(size, name, parsed).width > 0 && Resized(size, name, parsed).height > 0
  {
  }

  // ---------------------------------------------------------------------------
  // Layers list
  // ---------------------------------------------------------------------------

  /** A canvas object: its identity, its Fabric `type` and its `text`, None when it has none. */
  datatype CanvasObject = CanvasObject(handle: nat, kind: string, text: Option<string>)

  /** One row of the layers panel. */
  datatype Layer = Layer(id: nat, kind: string, name: string, objRef: nat, active: bool)

  /** The name a layer shows: "Image Layer" for an image, otherwise its text, or "Layer" when the text is empty or missing. */
  function LayerName(obj: CanvasObject): (r: string)
    ensures obj.kind == "image" ==> r == "Image Layer"
    ensures obj.kind != "image" && obj.text.Some? && obj.text.value != "" ==> r == obj.text.value
    ensures obj.kind != "image" && (obj.text.None? || obj.text.value == "") ==> r == "Layer"
  {
    if obj.kind == "image" then "Image Layer"
    else if obj.text.Some? && obj.text.value != "" then obj.text.value
    else "Layer"
  }

  /** The layer record of the object at `index` in the canvas's drawing order. */
  function LayerOf(index: nat, obj: CanvasObject, activeObject: Option<nat>): (r: Layer)
    ensures r.id == index && r.objRef == obj.handle && r.kind == obj.kind && r.name == LayerName(obj)
    ensures r.active <==> activeObject.Some? && activeObject.value == obj.handle
  {
    Layer(index, obj.kind, LayerName(obj), obj.handle, activeObject == Some(obj.handle))
  }

  /** `s` back to front. */
  function Reverse<T>(s: seq<T>): (r: seq<T>)
    ensures |r| == |s|
    ensures forall k :: 0 <= k < |s| ==> r[k] == s[|s| - 1 - k]
  {
    if s == [] then [] else Reverse(s[1..]) + [s[0]]
  }

  /**
   * The layers panel's rows: one per canvas object, top-most (last drawn) first, each
   * carrying the object's index in drawing order as its id.
   */
  function LayersList(objects: seq<CanvasObject>, activeObject: Option<nat>): (r: seq<Layer>)
    ensures |r| == |objects|
    ensures forall k :: 0 <= k < |r| ==>
      r[k] == LayerOf(|objects| - 1 - k, objects[|objects| - 1 - k], activeObject)
  {
    Reverse(seq(|objects|, i requires 0 <= i < |objects| => LayerOf(i, objects[i], activeObject)))
  }

  /** Every row names its object, is marked active exactly for the active object, and ids run down from the top. */
  lemma LayerRowDescribesObject(objects: seq<CanvasObject>, activeObject: Option<nat>, k: nat)
    requires k < |objects|
    ensures var row := LayersList(objects, activeObject)[k];
            var obj := objects[|objects| - 1 - k];
            row.id == |objects| - 1 - k && row.objRef == obj.handle && row.kind == obj.kind &&
            row.name == LayerName(obj) && (row.active <==> activeObject == Some(obj.handle))
  {
  }

  /** With distinct object identities, at most one row is marked active. */
  lemma AtMostOneActiveLayer(objects: seq<CanvasObject>, activeObject: Option<nat>, j: nat, k: nat)
    requires forall a, b :: 0 <= a < b < |objects| ==> objects[a].handle != objects[b].handle
    requires j < |objects| && k < |objects|
    requires LayersList(objects, activeObject)[j].active && LayersList(objects, activeObject)[k].active
    ensures j == k
  {
    var n := |objects|;
    assert objects[n - 1 - j].handle == activeObject.value == objects[n - 1 - k].handle;
  }

  // ---------------------------------------------------------------------------
  // The editor component's state
  // ---------------------------------------------------------------------------

  /** The state the banner editor keeps beside its canvas, and the handlers that update it. */
  class BannerCanvas<S> {
    var history: seq<S>
    var historyIndex: int
    /** The zoom level in tenths. */
    var zoomLevel: int
    var canvasSize: CanvasSize

    ghost predicate Valid()
      reads this
    {
      WellFormed(History(history, historyIndex)) && zoomLevel >= MinZoom
    }

    /** The history as a value. */
    function State(): History<S>
      reads this
    {
      History(history, historyIndex)
    }

    /** A fresh editor on a viewport of the given size: 60% of its width, 80% of its height, rounded down. */
    constructor (viewportWidth: int, viewportHeight: int)
      ensures Valid() && State() == EmptyHistory() && zoomLevel == DefaultZoom
      ensures canvasSize == CanvasSize(viewportWidth * 6 / 10, viewportHeight * 8 / 10)
    {
      history := [];
      historyIndex := -1;
      zoomLevel := DefaultZoom;
      canvasSize := CanvasSize(viewportWidth * 6 / 10, viewportHeight * 8 / 10);
    }

    /**
     * Records `current`, the canvas serialised to a snapshot, or None when no canvas is
     * mounted, in which case nothing happens.
     */
    method SaveHistory(current: Option<S>)
      requires Valid()
      modifies this
      ensures Valid()
      ensures State() == if current.Some? then Saved(old(State()), current.value) else old(State())
      ensures zoomLevel == old(zoomLevel) && canvasSize == old(canvasSize)
    {
      if current.None? {
        return;
      }
      ghost var expected := Saved(State(), current.value);
      var updatedHistory := history[..historyIndex + 1];
      updatedHistory := updatedHistory + [current.value];
      if |updatedHistory| > HistoryLimit {
        updatedHistory := updatedHistory[1..];
      }
      assert updatedHistory == expected.entries;
      history := updatedHistory;
      historyIndex := |updatedHistory| - 1;
    }

    /** Steps back one snapshot and returns the one to load into the canvas, or None when there is no older one. */
    method Undo() returns (loaded: Option<S>)
      requires Valid()
      modifies this
      ensures Valid() && State() == Undone(old(State()))
      ensures loaded == if old(historyIndex) <= 0 then None else Some(history[historyIndex])
      ensures zoomLevel == old(zoomLevel) && canvasSize == old(canvasSize)
    {
      if historyIndex <= 0 {
        return None;
      }
      var newIndex := historyIndex - 1;
      loaded := Some(history[newIndex]);
      historyIndex := newIndex;
    }

    /** Steps forward one snapshot and returns the one to load into the canvas, or None when there is no newer one. */
    method Redo() returns (loaded: Option<S>)
      requires Valid()
      modifies this
      ensures Valid() && State() == Redone(old(State()))
      ensures loaded == if old(historyIndex) >= |history| - 1 then None else Some(history[historyIndex])
      ensures zoomLevel == old(zoomLevel) && canvasSize == old(canvasSize)
    {
      if historyIndex >= |history| - 1 {
        return None;
      }
      var newIndex := historyIndex + 1;
      loaded := Some(history[newIndex]);
      historyIndex := newIndex;
    }

    /** Zooms out by 0.1, never below 0.1; does nothing while no canvas is mounted. */
    method ZoomOut(hasCanvas: bool)
      requires Valid()
      modifies this
      ensures Valid()
      ensures zoomLevel == if hasCanvas then ZoomedOut(old(zoomLevel)) else old(zoomLevel)
      ensures State() == old(State()) && canvasSize == old(canvasSize)
    {
      if !hasCanvas {
        return;
      }
      var newZoom := zoomLevel - 1;
      if newZoom < MinZoom {
        newZoom := MinZoom;
      }
      zoomLevel := newZoom;
    }

    /** Zooms in by 0.1; does nothing while no canvas is mounted. */
    method ZoomIn(hasCanvas: bool)
      requires Valid()
      modifies this
      ensures Valid()
      ensures zoomLevel == if hasCanvas then old(zoomLevel) + 1 else old(zoomLevel)
      ensures State() == old(State()) && canvasSize == old(canvasSize)
    {
      if !hasCanvas {
        return;
      }
      var newZoom := zoomLevel + 1;
      zoomLevel := newZoom;
    }

    /** Resets the zoom to 1.0; does nothing while no canvas is mounted. */
    method ResetZoom(hasCanvas: bool)
      requires Valid()
      modifies this
      ensures Valid()
      ensures zoomLevel == if hasCanvas then DefaultZoom else old(zoomLevel)
      ensures State() == old(State()) && canvasSize == old(canvasSize)
    {
      if !hasCanvas {
        return;
      }
      zoomLevel := DefaultZoom;
    }

    /** Applies a change of the width or height input; only that dimension changes. */
    method HandleResizeChange(name: Dimension, parsed: Option<int>)
      requires Valid()
      modifies this
      ensures Valid()
      ensures canvasSize == Resized(old(canvasSize), name, parsed)
      ensures State() == old(State()) && zoomLevel == old(zoomLevel)
    {
      var val := if parsed.None? then 0 else parsed.value;
      if parsed.None? || val <= 0 {
        val := FallbackDimension;
      }
      match name
      case Width => canvasSize := canvasSize.(width := val);
      case Height => canvasSize := canvasSize.(height := val);
    }
  }
}
