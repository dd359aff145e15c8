/**
  The rotate widget's state as a value, and what each entry point does to it.

  The widget keeps the stored angle, the hinge (pivot) and the wrapper centre, a single
  listener slot, and whether its two layout listeners are still attached. It also drives
  two framework views whose properties it sets: the image (layout height, position, pivot,
  rotation) and the wrapper (layout width and height). Calls of the registered listener are
  recorded, in order, in `notifications`.

  The sizes a view reports (`getWidth`, `getHeight`) are those of the framework's LAST layout
  pass, not the layout parameters the widget has just set; every entry point that reads them
  takes them as a `Sizes` snapshot.
 */
module RotateWidget {
  import opened Wrappers
  import opened RotateGeometry

  /** The identity of a registered rotation listener object. */
  type ListenerId = nat

  /** Sizes reported by the framework's last layout pass. */
  datatype Sizes = Sizes(
    parentWidth: nat, parentHeight: nat,
    imageWidth: nat, imageHeight: nat,
    wrapperWidth: nat, wrapperHeight: nat)

  /** The new bounds carried by a layout-change notification of the wrapper. */
  datatype Bounds = Bounds(left: int, top: int, right: int, bottom: int)

  datatype Action = ActionDown | ActionUp | ActionMove | ActionOther

  /** One pointer sample: the action, the touch position (already cut to whole pixels), the
      degrees atan2 gives for the offset from the wrapper centre, and the image's laid-out size
      at that moment. */
  datatype TouchSample = TouchSample(
    action: Action, position: Point, rawAngle: real,
    imageWidth: nat, imageHeight: nat)

  /** One call of the rotation listener. */
  datatype Notification = Notification(listener: ListenerId, angle: real)

  /** The properties the widget sets on its image view. */
  datatype ImageState = ImageState(
    heightParam: nat, x: int, y: int,
    pivotX: int, pivotY: int, rotation: int)

  datatype Widget = Widget(
    rotateViewAngle: int,
    rotateViewImage: int,
    pivotX: int,
    pivotY: int,
    viewCenterPoint: Option<Point>,
    rotationChangeListener: Option<ListenerId>,
    wrapperListening: bool,
    globalListening: bool,
    image: ImageState,
    wrapperWidthParam: nat,
    wrapperHeightParam: nat,
    notifications: seq<Notification>)

  /** The state after an entry point; `crashed` when the source would throw. */
  datatype Outcome = Outcome(widget: Widget, crashed: bool)

  /** The widget right after construction from layout attributes: the initial angle is
      stored but not applied, both layout listeners are attached, no listener is registered
      and no centre has been computed yet. View properties that come from the layout
      resource start at zero. */
  function Created(angle: int, imageId: int): (w: Widget)
    ensures w.rotateViewAngle == angle && w.rotateViewImage == imageId
    ensures w.viewCenterPoint == None && w.rotationChangeListener == None
    ensures w.wrapperListening && w.globalListening
    ensures w.notifications == []
    ensures w.pivotX == 0 && w.pivotY == 0
  {
    Widget(angle, imageId, 0, 0, None, None, true, true,
           ImageState(0, 0, 0, 0, 0, 0), 0, 0, [])
  }

  /** Java's `(int)` cast of a (finite, in-range) double: truncation toward zero. */
  function TruncateTowardZero(a: real): (r: int)
    ensures a >= 0.0 ==> r as real <= a < r as real + 1.0
    ensures a < 0.0 ==> r as real - 1.0 < a <= r as real
  {
    if a >= 0.0 then a.Floor else -((-a).Floor)
  }

  /** The listeners' log after the current listener, if any, is called with `angle`. */
  function Notify(w: Widget, angle: real): (log: seq<Notification>)
    ensures w.notifications <= log
    ensures |log| == |w.notifications| + 1 <==> w.rotationChangeListener.Some?
    ensures |log| == |w.notifications| <==> w.rotationChangeListener.None?
    ensures w.rotationChangeListener.Some? ==>
      log[|w.notifications|] == Notification(w.rotationChangeListener.value, angle)
  {
    match w.rotationChangeListener
    case Some(l) => w.notifications + [Notification(l, angle)]
    case None => w.notifications
  }

  /** Applies `angle` to the image around the stored pivot and tells the listener. */
  function RotateImageByAngle(w: Widget, angle: real): (w': Widget)
    ensures w'.image == w.image.(pivotX := w.pivotX, pivotY := w.pivotY, rotation := w'.image.rotation)
    ensures angle >= 0.0 ==> 0.0 <= w'.image.rotation as real <= angle < w'.image.rotation as real + 1.0
    ensures angle < 0.0 ==> w'.image.rotation as real - 1.0 < angle <= w'.image.rotation as real <= 0.0
    ensures w.rotationChangeListener.Some? <==> |w'.notifications| == |w.notifications| + 1
    ensures w.rotationChangeListener.None? <==> w'.notifications == w.notifications
    ensures w.rotationChangeListener.Some? ==>
      w'.notifications == w.notifications + [Notification(w.rotationChangeListener.value, angle)]
    ensures w' == w.(image := w'.image, notifications := w'.notifications)
  {
    var image := w.image.(pivotX := w.pivotX, pivotY := w.pivotY, rotation := TruncateTowardZero(angle));
    w.(image := image, notifications := Notify(w, angle))
  }

  /** The programmatic setter: applies the angle at once, then stores it. */
  function SetRotateViewAngle(w: Widget, angle: int): (w': Widget)
    ensures w'.rotateViewAngle == angle
    ensures w'.image == w.image.(pivotX := w.pivotX, pivotY := w.pivotY, rotation := angle)
    ensures w.rotationChangeListener.Some? ==>
      w'.notifications == w.notifications + [Notification(w.rotationChangeListener.value, angle as real)]
    ensures w.rotationChangeListener.None? ==> w'.notifications == w.notifications
    ensures w' == w.(rotateViewAngle := angle, image := w'.image, notifications := w'.notifications)
  {
    RotateImageByAngle(w, angle as real).(rotateViewAngle := angle)
  }

  /** Recomputes the whole layout from the sizes of the last layout pass and re-applies the
      stored angle. */
  function InitializeRotationView(w: Widget, s: Sizes): (w': Widget)
    // adjustImageSize
    ensures w'.image.heightParam == ImageHeightFor(s.parentWidth, s.parentHeight)
    // setWrapperSize: a square of twice the image's long side
    ensures w'.wrapperWidthParam == w'.wrapperHeightParam == WrapperSide(s.imageWidth, s.imageHeight)
    // setViewCenterPositions
    ensures w'.viewCenterPoint == Some(CenterOf(s.wrapperWidth, s.wrapperHeight))
    // setViewPivotPositions
    ensures Point(w'.pivotX, w'.pivotY) == PivotFor(s.imageWidth, s.imageHeight)
    ensures IsImagePortrait(s.imageWidth, s.imageHeight) ==> w'.image.x == w.image.x && w'.image.y == 0
    ensures !IsImagePortrait(s.imageWidth, s.imageHeight) ==>
      w'.image.x == 0 && w'.image.y == LandscapeImageTop(s.wrapperHeight, s.imageHeight)
    // rotateImageByAngle(mRotateViewAngle): the stored angle is kept and re-applied
    ensures w'.rotateViewAngle == w.rotateViewAngle
    ensures w'.image.rotation == w.rotateViewAngle
    ensures w'.image.pivotX == w'.pivotX && w'.image.pivotY == w'.pivotY
    ensures w'.notifications == Notify(w, w.rotateViewAngle as real)
    // nothing else changes
    ensures w'.rotateViewImage == w.rotateViewImage
    ensures w'.rotationChangeListener == w.rotationChangeListener
    ensures w'.wrapperListening == w.wrapperListening && w'.globalListening == w.globalListening
  {
    var resized := w.image.(heightParam := ImageHeightFor(s.parentWidth, s.parentHeight));
    var side := WrapperSide(s.imageWidth, s.imageHeight);
    var atTop := resized.(y := 0);
    var center := CenterOf(s.wrapperWidth, s.wrapperHeight);
    var pivot := PivotFor(s.imageWidth, s.imageHeight);
    var placed :=
      if IsImagePortrait(s.imageWidth, s.imageHeight) then atTop
      else atTop.(x := 0, y := LandscapeImageTop(s.wrapperHeight, s.imageHeight));
    var laidOut := w.(image := placed, wrapperWidthParam := side, wrapperHeightParam := side,
                      viewCenterPoint := Some(center), pivotX := pivot.x, pivotY := pivot.y);
    RotateImageByAngle(laidOut, w.rotateViewAngle as real)
  }

  predicate IsZeroBounds(b: Bounds)
    ensures IsZeroBounds(b) <==> b == Bounds(0, 0, 0, 0)
  {
    b.left == 0 && b.top == 0 && b.right == 0 && b.bottom == 0
  }

  /** The wrapper's layout-change handler: all-zero bounds are a spurious event. */
  function OnWrapperLayoutChange(w: Widget, b: Bounds, s: Sizes): (w': Widget)
    ensures IsZeroBounds(b) ==> w' == w
    ensures !IsZeroBounds(b) ==> w' == InitializeRotationView(w, s)
  {
    if IsZeroBounds(b) then w else InitializeRotationView(w, s)
  }

  /** The first global layout: lay out, then detach the global layout listener. */
  function OnGlobalLayout(w: Widget, s: Sizes): (w': Widget)
    ensures !w'.globalListening
    ensures w' == InitializeRotationView(w, s).(globalListening := false)
  {
    InitializeRotationView(w, s).(globalListening := false)
  }

  /** Rotates the image to the angle of a touch, measured around the wrapper centre. Before
      the first layout there is no centre and the source dereferences null. */
  function RotateViewForPosition(w: Widget, t: TouchSample): (r: Outcome)
    ensures r.crashed <==> w.viewCenterPoint.None?
    ensures r.crashed ==> r.widget == w
    ensures !r.crashed ==> r.widget == RotateImageByAngle(w,
      GetAngle(t.rawAngle, t.position, w.viewCenterPoint.value, IsImagePortrait(t.imageWidth, t.imageHeight)))
  {
    match w.viewCenterPoint
    case None => Outcome(w, true)
    case Some(center) =>
      var angle := GetAngle(t.rawAngle, t.position, center, IsImagePortrait(t.imageWidth, t.imageHeight));
      Outcome(RotateImageByAngle(w, angle), false)
  }

  /** The wrapper's touch handler. A press detaches the wrapper's layout-change listener for
      good; a press or a move rotates the image; anything else is consumed and ignored. The
      stored angle is never changed by touch. */
  function OnTouch(w: Widget, t: TouchSample): (r: Outcome)
    ensures r.widget.rotateViewAngle == w.rotateViewAngle
    ensures r.crashed <==> (t.action.ActionDown? || t.action.ActionMove?) && w.viewCenterPoint.None?
    ensures t.action.ActionDown? ==> !r.widget.wrapperListening
    ensures !t.action.ActionDown? ==> r.widget.wrapperListening == w.wrapperListening
    ensures (t.action.ActionUp? || t.action.ActionOther?) ==> r == Outcome(w, false)
    ensures (t.action.ActionDown? || t.action.ActionMove?) && w.viewCenterPoint.Some? ==>
      var angle := GetAngle(t.rawAngle, t.position, w.viewCenterPoint.value,
                            IsImagePortrait(t.imageWidth, t.imageHeight));
      r.widget.notifications == Notify(w, angle) &&
      r.widget.image == w.image.(pivotX := w.pivotX, pivotY := w.pivotY, rotation := TruncateTowardZero(angle))
    // a crash changes nothing but the detached layout listener
    ensures r.crashed ==> r.widget == w.(wrapperListening := r.widget.wrapperListening)
    // nothing else changes: not the centre, hinge, listener slot, layout parameters or image position
    ensures r.widget == w.(wrapperListening := r.widget.wrapperListening, image := r.widget.image,
                           notifications := r.widget.notifications)
    ensures r.widget.image == w.image.(pivotX := r.widget.image.pivotX, pivotY := r.widget.image.pivotY,
                                       rotation := r.widget.image.rotation)
  {
    match t.action
    case ActionDown => RotateViewForPosition(w.(wrapperListening := false), t)
    case ActionMove => RotateViewForPosition(w, t)
    case _ => Outcome(w, false)
  }

  // ---------------------------------------------------------------------------
  // Event traces
  // ---------------------------------------------------------------------------

  /** What reaches the widget: framework layout passes and touches, and calls of its
      public setters. */
  datatype Event =
    | GlobalLayout(sizes: Sizes)
    | WrapperLayout(bounds: Bounds, sizes: Sizes)
    | Touched(sample: TouchSample)
    | SetAngle(angle: int)
    | SetListener(listener: Option<ListenerId>)
    | SetImage(imageId: int)

  /** One event. Layout notifications are delivered only while the matching listener is
      still attached. */
  function Step(w: Widget, e: Event): (o: Outcome)
    ensures o.crashed ==> e.Touched?
    ensures e.GlobalLayout? && !w.globalListening ==> o == Outcome(w, false)
    ensures e.GlobalLayout? && w.globalListening ==> o == Outcome(OnGlobalLayout(w, e.sizes), false)
    ensures e.WrapperLayout? && !w.wrapperListening ==> o == Outcome(w, false)
    ensures e.WrapperLayout? && w.wrapperListening ==>
      o == Outcome(OnWrapperLayoutChange(w, e.bounds, e.sizes), false)
    ensures e.Touched? ==> o == OnTouch(w, e.sample)
    ensures e.SetAngle? ==> o == Outcome(SetRotateViewAngle(w, e.angle), false)
    ensures e.SetListener? ==> o == Outcome(w.(rotationChangeListener := e.listener), false)
    ensures e.SetImage? ==> o == Outcome(w.(rotateViewImage := e.imageId), false)
  {
    match e
    case GlobalLayout(s) =>
      if w.globalListening then Outcome(OnGlobalLayout(w, s), false) else Outcome(w, false)
    case WrapperLayout(b, s) =>
      if w.wrapperListening then Outcome(OnWrapperLayoutChange(w, b, s), false) else Outcome(w, false)
    case Touched(t) => OnTouch(w, t)
    case SetAngle(a) => Outcome(SetRotateViewAngle(w, a), false)
    case SetListener(l) => Outcome(w.(rotationChangeListener := l), false)
    case SetImage(id) => Outcome(w.(rotateViewImage := id), false)
  }

  /** A run of events, stopping at the first crash. */
  function Run(w: Widget, events: seq<Event>): Outcome
    decreases |events|
  {
    if events == [] then Outcome(w, false)
    else
      var o := Step(w, events[0]);
      if o.crashed then o else Run(o.widget, events[1..])
  }

  /** The angle of the last programmatic set in `events`, or `current` if there is none. */
  function LastSetAngle(events: seq<Event>, current: int): int
    decreases |events|
  {
    if events == [] then current
    else LastSetAngle(events[1..], if events[0].SetAngle? then events[0].angle else current)
  }

  /** `events` without the wrapper layout notifications whose bounds are all zero. */
  function DropZeroBoundsLayouts(events: seq<Event>): seq<Event>
    decreases |events|
  {
    if events == [] then []
    else if events[0].WrapperLayout? && IsZeroBounds(events[0].bounds) then DropZeroBoundsLayouts(events[1..])
    else [events[0]] + DropZeroBoundsLayouts(events[1..])
  }

  /** Only the programmatic setter stores an angle. */
  lemma StepStoresOnlyProgrammaticAngle(w: Widget, e: Event)
    ensures Step(w, e).widget.rotateViewAngle == if e.SetAngle? then e.angle else w.rotateViewAngle
  {
  }

  /** After any run that does not crash, the stored angle (what `getRotateViewAngle` returns)
      is the last one set programmatically: layout passes and touches never store one. */
  lemma {:induction false} StoredAngleIsLastProgrammaticSet(w: Widget, events: seq<Event>)
    requires !Run(w, events).crashed
    ensures Run(w, events).widget.rotateViewAngle == LastSetAngle(events, w.rotateViewAngle)
    decreases |events|
  {
    if events != [] {
      var o := Step(w, events[0]);
      StepStoresOnlyProgrammaticAngle(w, events[0]);
      StoredAngleIsLastProgrammaticSet(o.widget, events[1..]);
    }
  }

  /** Wrapper layout notifications with all-zero bounds can be removed from any run without
      changing its outcome. */
  lemma {:induction false} ZeroBoundsNotificationsIgnored(w: Widget, events: seq<Event>)
    ensures Run(w, events) == Run(w, DropZeroBoundsLayouts(events))
    decreases |events|
  {
    if events != [] {
      var o := Step(w, events[0]);
      if events[0].WrapperLayout? && IsZeroBounds(events[0].bounds) {
        assert o == Outcome(w, false);
        ZeroBoundsNotificationsIgnored(w, events[1..]);
      } else {
        var rest := DropZeroBoundsLayouts(events[1..]);
        assert DropZeroBoundsLayouts(events) == [events[0]] + rest;
        assert ([events[0]] + rest)[0] == events[0];
        assert ([events[0]] + rest)[1..] == rest;
        if !o.crashed {
          ZeroBoundsNotificationsIgnored(o.widget, events[1..]);
        }
      }
    }
  }

  /** A single step only appends to the listener log. */
  lemma StepOnlyAppendsNotifications(w: Widget, e: Event)
    ensures w.notifications <= Step(w, e).widget.notifications
  {
  }

  /** Listener calls are never taken back: the log of any run extends the initial one. */
  lemma {:induction false} NotificationsOnlyGrow(w: Widget, events: seq<Event>)
    ensures w.notifications <= Run(w, events).widget.notifications
    decreases |events|
  {
    if events != [] {
      var o := Step(w, events[0]);
      StepOnlyAppendsNotifications(w, events[0]);
      if !o.crashed {
        NotificationsOnlyGrow(o.widget, events[1..]);
      }
    }
  }

  /** Once a centre has been computed, no run crashes and the centre stays known. */
  lemma {:induction false} NoCrashOnceLaidOut(w: Widget, events: seq<Event>)
    requires w.viewCenterPoint.Some?
    ensures !Run(w, events).crashed
    ensures Run(w, events).widget.viewCenterPoint.Some?
    decreases |events|
  {
    if events != [] {
      var o := Step(w, events[0]);
      assert !o.crashed && o.widget.viewCenterPoint.Some?;
      NoCrashOnceLaidOut(o.widget, events[1..]);
    }
  }

  /** A touch before the first layout pass dereferences the missing centre. */
  lemma TouchBeforeLayoutCrashes(angle: int, imageId: int, t: TouchSample)
    requires t.action.ActionDown? || t.action.ActionMove?
    ensures Run(Created(angle, imageId), [Touched(t)]).crashed
  {
  }

  /** After the first press, the wrapper's layout notifications are never delivered again. */
  lemma {:induction false} WrapperListenerStaysDetached(w: Widget, events: seq<Event>)
    requires !w.wrapperListening
    ensures !Run(w, events).widget.wrapperListening
    decreases |events|
  {
    if events != [] {
      var o := Step(w, events[0]);
      assert !o.widget.wrapperListening;
      if !o.crashed {
        WrapperListenerStaysDetached(o.widget, events[1..]);
      }
    }
  }
}
