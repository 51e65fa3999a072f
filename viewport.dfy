/**
 * The pan/zoom viewport of the preview area. The certificate (1122 x 794
 * CSS pixels) is drawn at `translate(x, y) scale(scale)` with its origin at
 * the top-left corner, so a document point p appears at p * scale + (x, y).
 * Coordinates are exact reals: the handlers only add, subtract, multiply by
 * constants, divide by constants and clamp.
 */
module Viewport {
  import opened Wrappers

  const CertWidth: real := 1122.0
  const CertHeight: real := 794.0
  /** Margin kept free on each side by fit-to-screen. */
  const Padding: real := 40.0
  const MinScale: real := 0.1
  const MaxScale: real := 3.0
  /** Scale change per unit of vertical wheel travel while Ctrl or Meta is held. */
  const ZoomSensitivity: real := 0.001
  /** The initial `transform` state. */
  const InitialScale: real := 0.8

  datatype Transform = Transform(x: real, y: real, scale: real)

  datatype Point = Point(x: real, y: real)

  datatype Size = Size(width: real, height: real)

  function Min(a: real, b: real): real {
    if a <= b then a else b
  }

  function Max(a: real, b: real): real {
    if a >= b then a else b
  }

  /** Where document point `p` appears in the container. */
  function ToContainer(t: Transform, p: Point): (r: Point)
    ensures p == Point(0.0, 0.0) ==> r == Point(t.x, t.y)
    ensures t.scale == 1.0 ==> r == Point(p.x + t.x, p.y + t.y)
  {
    Point(p.x * t.scale + t.x, p.y * t.scale + t.y)
  }

  predicate InZoomRange(t: Transform) {
    MinScale <= t.scale <= MaxScale
  }

  /** `Math.min(Math.max(0.1, s), 3)`. */
  function ClampScale(s: real): (r: real)
    ensures MinScale <= r <= MaxScale
    ensures MinScale <= s <= MaxScale ==> r == s
    ensures s < MinScale ==> r == MinScale
    ensures s > MaxScale ==> r == MaxScale
  {
    Min(Max(MinScale, s), MaxScale)
  }

  /** `adjustZoom(delta)`: the scale moves by `delta`, clamped; the offsets stay. */
  function AdjustZoom(t: Transform, delta: real): (r: Transform)
    ensures InZoomRange(r)
    ensures r.x == t.x && r.y == t.y
    ensures MinScale <= t.scale + delta <= MaxScale ==> r.scale == t.scale + delta
    ensures t.scale + delta < MinScale ==> r.scale == MinScale
    ensures t.scale + delta > MaxScale ==> r.scale == MaxScale
  {
    t.(scale := ClampScale(t.scale + delta))
  }

  /**
   * `handleWheel`: with Ctrl or Meta held the wheel zooms by `-deltaY * 0.001`
   * (clamped, offsets kept); otherwise it pans by minus the wheel deltas and
   * keeps the scale.
   */
  function WheelTransform(t: Transform, modifier: bool, deltaX: real, deltaY: real): (r: Transform)
    ensures modifier ==> r == AdjustZoom(t, -deltaY * ZoomSensitivity)
    ensures !modifier ==> r.scale == t.scale && r.x == t.x - deltaX && r.y == t.y - deltaY
  {
    if modifier then AdjustZoom(t, -deltaY * ZoomSensitivity)
    else t.(x := t.x - deltaX, y := t.y - deltaY)
  }

  /**
   * `handleFitToScreen`: the largest scale, at most 1, at which the document
   * fits the container less the padding, then centred. The scale is not
   * clamped to the zoom range.
   */
  function Fit(container: Size): (r: Transform)
    ensures r.scale <= 1.0
    ensures r.scale <= (container.width - 2.0 * Padding) / CertWidth
    ensures r.scale <= (container.height - 2.0 * Padding) / CertHeight
    ensures r.scale == 1.0 || r.scale == (container.width - 2.0 * Padding) / CertWidth
            || r.scale == (container.height - 2.0 * Padding) / CertHeight
  {
    var availableWidth := container.width - Padding * 2.0;
    var availableHeight := container.height - Padding * 2.0;
    var scaleX := availableWidth / CertWidth;
    var scaleY := availableHeight / CertHeight;
    var newScale := Min(Min(scaleX, scaleY), 1.0);
    Transform((container.width - CertWidth * newScale) / 2.0, (container.height - CertHeight * newScale) / 2.0, newScale)
  }

  /** The drag anchor recorded on mouse-down: the pointer relative to the offset. */
  function DragAnchor(t: Transform, client: Point): (r: Point)
    ensures Dragged(t, r, client) == t
  {
    Point(client.x - t.x, client.y - t.y)
  }

  /** The transform after a drag move: the offset is the pointer minus the anchor. */
  function Dragged(t: Transform, anchor: Point, client: Point): (r: Transform)
    ensures r.scale == t.scale
    ensures Point(r.x + anchor.x, r.y + anchor.y) == client
  {
    t.(x := client.x - anchor.x, y := client.y - anchor.y)
  }

  /** The easing applied to transform changes: none while dragging. */
  function Transition(isDragging: bool): (r: string)
    ensures r == "none" <==> isDragging
  {
    if isDragging then "none" else "transform 0.1s ease-out"
  }

  // ------------------------------------------------------- state machine

  /** The viewport part of the editor state: `transform`, `isDragging`, `dragStart`. */
  datatype ViewState = ViewState(transform: Transform, isDragging: bool, dragStart: Point)

  const InitialView := ViewState(Transform(0.0, 0.0, InitialScale), false, Point(0.0, 0.0))

  /** The events the preview area handles; `FitToScreen` carries the container's size when it is mounted. */
  datatype Input =
    | FitToScreen(container: Option<Size>)
    | Wheel(ctrlKey: bool, metaKey: bool, deltaX: real, deltaY: real)
    | MouseDown(button: int, client: Point)
    | MouseMove(client: Point)
    | MouseUp
    | MouseLeave
    | ZoomButton(delta: real)

  /** The handler of each input, as one sequential state update. */
  function Step(s: ViewState, e: Input): (r: ViewState)
    ensures r.transform.scale != s.transform.scale ==> IsZoom(e) || e.FitToScreen?
    ensures IsZoom(e) ==> InZoomRange(r.transform)
    ensures (e.MouseDown? || e.MouseUp? || e.MouseLeave?) ==> r.transform == s.transform
    ensures !(e.MouseDown? || e.MouseUp? || e.MouseLeave?) ==> r.isDragging == s.isDragging && r.dragStart == s.dragStart
    ensures (e.MouseUp? || e.MouseLeave?) ==> !r.isDragging && r.dragStart == s.dragStart
    ensures e.MouseDown? ==> (r.isDragging <==> s.isDragging || e.button == 0)
  {
    match e
    case FitToScreen(container) =>
      if container.Some? then s.(transform := Fit(container.value)) else s
    case Wheel(ctrlKey, metaKey, deltaX, deltaY) =>
      s.(transform := WheelTransform(s.transform, ctrlKey || metaKey, deltaX, deltaY))
    case MouseDown(button, client) =>
      if button != 0 then s else s.(isDragging := true, dragStart := DragAnchor(s.transform, client))
    case MouseMove(client) =>
      if !s.isDragging then s else s.(transform := Dragged(s.transform, s.dragStart, client))
    case MouseUp => s.(isDragging := false)
    case MouseLeave => s.(isDragging := false)
    case ZoomButton(delta) => s.(transform := AdjustZoom(s.transform, delta))
  }

  function Run(s: ViewState, es: seq<Input>): ViewState
    decreases |es|
  {
    if es == [] then s else Run(Step(s, es[0]), es[1..])
  }

  /** An input that changes the scale through the clamp: a zoom button, or the wheel with Ctrl or Meta. */
  predicate IsZoom(e: Input) {
    e.ZoomButton? || (e.Wheel? && (e.ctrlKey || e.metaKey))
  }

  // ----------------------------------------------------------- properties

  /** Every input but fit-to-screen keeps the scale inside [0.1, 3] once it is there. */
  lemma StepKeepsZoomRange(s: ViewState, e: Input)
    requires InZoomRange(s.transform) && !e.FitToScreen?
    ensures InZoomRange(Step(s, e).transform)
  {
  }

  /** Any run without fit-to-screen that starts in [0.1, 3] stays there. */
  lemma {:induction false} RunKeepsZoomRange(s: ViewState, es: seq<Input>)
    requires InZoomRange(s.transform)
    requires forall i | 0 <= i < |es| :: !es[i].FitToScreen?
    ensures InZoomRange(Run(s, es).transform)
    decreases |es|
  {
    if es != [] {
      StepKeepsZoomRange(s, es[0]);
      RunKeepsZoomRange(Step(s, es[0]), es[1..]);
    }
  }

  /**
   * After one or more zoom inputs the scale lies in [0.1, 3] from any start,
   * and the offsets and the drag state are as before.
   */
  lemma {:induction false} ZoomsClampScale(s: ViewState, es: seq<Input>)
    requires |es| >= 1
    requires forall i | 0 <= i < |es| :: IsZoom(es[i])
    ensures InZoomRange(Run(s, es).transform)
    ensures Run(s, es).transform.x == s.transform.x && Run(s, es).transform.y == s.transform.y
    ensures Run(s, es).isDragging == s.isDragging && Run(s, es).dragStart == s.dragStart
    decreases |es|
  {
    var s1 := Step(s, es[0]);
    if |es| > 1 {
      ZoomsClampScale(s1, es[1..]);
    } else {
      assert Run(s, es) == Run(s1, []);
    }
  }

  /** Fit-to-screen is the one path that can leave [0.1, 3]: a 100 x 100 container gives a scale of 20/1122. */
  lemma FitCanLeaveZoomRange(s: ViewState)
    ensures Step(s, FitToScreen(Some(Size(100.0, 100.0)))).transform.scale == 20.0 / CertWidth
    ensures !InZoomRange(Step(s, FitToScreen(Some(Size(100.0, 100.0)))).transform)
  {
  }

  /**
   * Fit-to-screen centres the document: the margins left and right are equal,
   * and so are those above and below.
   */
  lemma FitCentres(c: Size)
    ensures var t := Fit(c);
      ToContainer(t, Point(0.0, 0.0)).x == c.width - ToContainer(t, Point(CertWidth, CertHeight)).x
      && ToContainer(t, Point(0.0, 0.0)).y == c.height - ToContainer(t, Point(CertWidth, CertHeight)).y
  {
  }

  /**
   * When the container is at least as large as its padding, the fitted
   * document lies inside the padded area.
   */
  lemma FitStaysInsidePadding(c: Size)
    requires c.width >= 2.0 * Padding && c.height >= 2.0 * Padding
    ensures var t := Fit(c);
      var topLeft, bottomRight := ToContainer(t, Point(0.0, 0.0)), ToContainer(t, Point(CertWidth, CertHeight));
      && t.scale >= 0.0
      && Padding <= topLeft.x && bottomRight.x <= c.width - Padding
      && Padding <= topLeft.y && bottomRight.y <= c.height - Padding
  {
    var t := Fit(c);
    assert CertWidth * t.scale <= c.width - 2.0 * Padding;
    assert CertHeight * t.scale <= c.height - 2.0 * Padding;
  }

  /** A zoom keeps the document's top-left corner where it is on screen. */
  lemma ZoomKeepsOrigin(t: Transform, delta: real)
    ensures ToContainer(AdjustZoom(t, delta), Point(0.0, 0.0)) == ToContainer(t, Point(0.0, 0.0))
  {
  }

  /** A wheel pan moves every document point on screen by minus the wheel deltas. */
  lemma WheelPanShiftsDocument(t: Transform, deltaX: real, deltaY: real, p: Point)
    ensures var q, q' := ToContainer(t, p), ToContainer(WheelTransform(t, false, deltaX, deltaY), p);
      q'.x == q.x - deltaX && q'.y == q.y - deltaY
  {
  }

  /**
   * Mouse-down with the primary button followed by a move of (dx, dy) shifts
   * the offset by exactly (dx, dy) and keeps the scale.
   */
  lemma DragShiftsOffset(s: ViewState, p: Point, dx: real, dy: real)
    ensures var s' := Step(Step(s, MouseDown(0, p)), MouseMove(Point(p.x + dx, p.y + dy)));
      s'.transform == Transform(s.transform.x + dx, s.transform.y + dy, s.transform.scale)
      && s'.isDragging
  {
  }

  /** While dragging, a run of moves leaves the offset set by the last one, the anchor and scale unchanged. */
  lemma {:induction false} MovesFollowLastPointer(s: ViewState, es: seq<Input>)
    requires s.isDragging && |es| >= 1
    requires forall i | 0 <= i < |es| :: es[i].MouseMove?
    ensures Run(s, es) == s.(transform := Dragged(s.transform, s.dragStart, es[|es| - 1].client))
    decreases |es|
  {
    var s1 := Step(s, es[0]);
    if |es| > 1 {
      MovesFollowLastPointer(s1, es[1..]);
      assert es[1..][|es[1..]| - 1] == es[|es| - 1];
    } else {
      assert Run(s, es) == Run(s1, []);
    }
  }

  /**
   * A primary-button press at `p` followed by any moves puts the offset at its
   * value at the press plus the total pointer travel `last - p`.
   */
  lemma DragFollowsPointer(s: ViewState, p: Point, moves: seq<Input>)
    requires |moves| >= 1
    requires forall i | 0 <= i < |moves| :: moves[i].MouseMove?
    ensures var last := moves[|moves| - 1].client;
      Run(Step(s, MouseDown(0, p)), moves).transform
        == Transform(s.transform.x + (last.x - p.x), s.transform.y + (last.y - p.y), s.transform.scale)
  {
    MovesFollowLastPointer(Step(s, MouseDown(0, p)), moves);
  }

  /**
   * Mouse-up and mouse-leave both end a drag, keep everything else, and are
   * idempotent; they need no prior mouse-down.
   */
  lemma EndPanIsIdempotent(s: ViewState)
    ensures Step(s, MouseUp) == Step(s, MouseLeave) == s.(isDragging := false)
    ensures Step(Step(s, MouseUp), MouseUp) == Step(s, MouseUp)
    ensures Step(Step(s, MouseLeave), MouseUp) == Step(s, MouseUp)
  {
  }

  /** A press of a non-primary button, a move without a drag and a fit without a container change nothing. */
  lemma IgnoredInputs(s: ViewState, button: int, p: Point)
    ensures button != 0 ==> Step(s, MouseDown(button, p)) == s
    ensures !s.isDragging ==> Step(s, MouseMove(p)) == s
    ensures Step(s, FitToScreen(None)) == s
  {
  }
}
