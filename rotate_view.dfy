/**
  The widget as the object the source defines: a `RotateView` whose fields its methods
  assign, driving an image view and a wrapper layout whose properties it sets in place.
  Every state-changing method is specified by the transition of `RotateWidget` it performs
  on the abstract state `State()`; what those transitions keep and promise is proved there.
 */
module RotateViews {
  import opened Wrappers
  import opened RotateGeometry
  import W = RotateWidget

  /** The properties the widget sets on the framework's image view. */
  class ImageView {
    var heightParam: nat
    var x: int
    var y: int
    var pivotX: int
    var pivotY: int
    var rotation: int

    ghost function State(): W.ImageState
      reads this
    {
      W.ImageState(heightParam, x, y, pivotX, pivotY, rotation)
    }

    constructor ()
      ensures State() == W.ImageState(0, 0, 0, 0, 0, 0)
    {
      heightParam, x, y := 0, 0, 0;
      pivotX, pivotY, rotation := 0, 0, 0;
    }
  }

  /** The layout parameters the widget sets on the square wrapper. */
  class WrapperLayout {
    var widthParam: nat
    var heightParam: nat

    constructor ()
      ensures widthParam == 0 && heightParam == 0
    {
      widthParam, heightParam := 0, 0;
    }
  }

  class RotateView {
    const image: ImageView
    const wrapper: WrapperLayout
    var rotateViewAngle: int
    var rotateViewImage: int
    var pivotX: int
    var pivotY: int
    var viewCenterPoint: Option<Point>
    var rotationChangeListener: Option<W.ListenerId>
    var wrapperListening: bool
    var globalListening: bool
    /** The calls made to the registered listener, in order. */
    var notifications: seq<W.Notification>

    ghost function State(): W.Widget
      reads this, image, wrapper
    {
      W.Widget(rotateViewAngle, rotateViewImage, pivotX, pivotY, viewCenterPoint,
               rotationChangeListener, wrapperListening, globalListening,
               image.State(), wrapper.widthParam, wrapper.heightParam, notifications)
    }

    /** Construction from layout attributes: the initial angle and image are loaded, and the
        layout and touch listeners are attached. */
    constructor (angle: int, imageId: int)
      ensures fresh(image) && fresh(wrapper)
      ensures State() == W.Created(angle, imageId)
    {
      image := new ImageView();
      wrapper := new WrapperLayout();
      rotateViewAngle := angle;
      rotateViewImage := imageId;
      pivotX, pivotY := 0, 0;
      viewCenterPoint := None;
      rotationChangeListener := None;
      wrapperListening, globalListening := true, true;
      notifications := [];
    }

    method SetOnRotationChangeListener(listener: Option<W.ListenerId>)
      modifies this
      ensures State() == old(State()).(rotationChangeListener := listener)
    {
      rotationChangeListener := listener;
    }

    method GetRotateViewAngle() returns (angle: int)
      ensures angle == rotateViewAngle
    {
      angle := rotateViewAngle;
    }

    method SetRotateViewAngle(angle: int)
      modifies this, image
      ensures State() == W.SetRotateViewAngle(old(State()), angle)
    {
      RotateImageByAngle(angle as real);
      rotateViewAngle := angle;
    }

    method GetRotateViewImage() returns (imageId: int)
      ensures imageId == rotateViewImage
    {
      imageId := rotateViewImage;
    }

    method SetRotateViewImage(imageId: int)
      modifies this
      ensures State() == old(State()).(rotateViewImage := imageId)
    {
      rotateViewImage := imageId;
    }

    /** Sets the image's pivot to the stored hinge, its rotation to the angle cut toward
        zero, and calls the listener if one is registered. */
    method RotateImageByAngle(angle: real)
      modifies this`notifications, image
      ensures State() == W.RotateImageByAngle(old(State()), angle)
    {
      image.pivotX := pivotX;
      image.pivotY := pivotY;
      image.rotation := W.TruncateTowardZero(angle);
      if rotationChangeListener.Some? {
        notifications := notifications + [W.Notification(rotationChangeListener.value, angle)];
      }
    }

    method AdjustImageSize(s: W.Sizes)
      modifies image
      ensures image.State() == old(image.State()).(heightParam := ImageHeightFor(s.parentWidth, s.parentHeight))
    {
      var smallerSide := if s.parentHeight >= s.parentWidth then s.parentWidth else s.parentHeight;
      image.heightParam := smallerSide / 2;
    }

    method SetWrapperSize(s: W.Sizes)
      modifies wrapper
      ensures wrapper.widthParam == wrapper.heightParam == WrapperSide(s.imageWidth, s.imageHeight)
    {
      var viewSide := if IsImagePortrait(s.imageWidth, s.imageHeight) then s.imageHeight else s.imageWidth;
      wrapper.heightParam := viewSide * 2;
      wrapper.widthParam := viewSide * 2;
    }

    method SetViewCenterPositions(s: W.Sizes)
      modifies this`viewCenterPoint
      ensures viewCenterPoint == Some(CenterOf(s.wrapperWidth, s.wrapperHeight))
    {
      viewCenterPoint := Some(Point(s.wrapperWidth / 2, s.wrapperHeight / 2));
    }

    method SetViewPivotPositions(s: W.Sizes)
      modifies this`pivotX, this`pivotY, image
      ensures Point(pivotX, pivotY) == PivotFor(s.imageWidth, s.imageHeight)
      ensures IsImagePortrait(s.imageWidth, s.imageHeight) ==> image.State() == old(image.State())
      ensures !IsImagePortrait(s.imageWidth, s.imageHeight) ==>
        image.State() == old(image.State()).(x := 0, y := LandscapeImageTop(s.wrapperHeight, s.imageHeight))
    {
      if IsImagePortrait(s.imageWidth, s.imageHeight) {
        pivotX := s.imageWidth / 2;
        pivotY := s.imageHeight;
      } else {
        pivotX := s.imageWidth;
        pivotY := s.imageHeight / 2;
        image.x := 0;
        image.y := (s.wrapperHeight / 2) - (s.imageHeight / 2);
      }
    }

    method InitializeRotationView(s: W.Sizes)
      modifies this, image, wrapper
      ensures State() == W.InitializeRotationView(old(State()), s)
    {
      AdjustImageSize(s);
      SetWrapperSize(s);
      image.y := 0;
      SetViewCenterPositions(s);
      SetViewPivotPositions(s);
      RotateImageByAngle(rotateViewAngle as real);
    }

    method OnGlobalLayout(s: W.Sizes)
      modifies this, image, wrapper
      ensures State() == W.OnGlobalLayout(old(State()), s)
    {
      InitializeRotationView(s);
      globalListening := false;
    }

    method OnWrapperLayoutChange(b: W.Bounds, s: W.Sizes)
      modifies this, image, wrapper
      ensures State() == W.OnWrapperLayoutChange(old(State()), b, s)
    {
      if b.left == 0 && b.top == 0 && b.right == 0 && b.bottom == 0 {
        return;
      }
      InitializeRotationView(s);
    }

    /** Rotates to the angle of a touch measured around the wrapper centre; `crashed` when
        there is no centre yet. */
    method RotateViewForPosition(t: W.TouchSample) returns (crashed: bool)
      modifies this`notifications, image
      ensures State() == W.RotateViewForPosition(old(State()), t).widget
      ensures crashed == W.RotateViewForPosition(old(State()), t).crashed
    {
      if viewCenterPoint.None? {
        return true;
      }
      var angle := GetAngle(t.rawAngle, t.position, viewCenterPoint.value,
                            IsImagePortrait(t.imageWidth, t.imageHeight));
      RotateImageByAngle(angle);
      crashed := false;
    }

    method OnTouch(t: W.TouchSample) returns (crashed: bool)
      modifies this, image
      ensures State() == W.OnTouch(old(State()), t).widget
      ensures crashed == W.OnTouch(old(State()), t).crashed
    {
      match t.action
      case ActionDown =>
        wrapperListening := false;
        crashed := RotateViewForPosition(t);
      case ActionMove =>
        crashed := RotateViewForPosition(t);
      case ActionUp =>
        crashed := false;
      case ActionOther =>
        crashed := false;
    }
  }
}
