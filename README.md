# RotateView, modelled in Dafny

RotateView is an Android widget. The user drags a finger across an image, the image
rotates about a hinge, and the widget reports the new angle to a single listener. This
project models the widget's own logic:

- the quadrant a touch falls in, relative to a reference point;
- how the raw touch angle is normalised;
- the integer layout rules: portrait or landscape, the square wrapper, the hinge (pivot),
  the wrapper centre and the new image height;
- the widget's state machine: the stored angle, pivot, centre, listener slot and attached
  layout listeners. Layout notifications, touches and the public setters drive it.

Files:

- `wrappers.dfy`: `Option`.
- `geometry.dfy` (module `RotateGeometry`): the pure rules. Quadrants are stated as four
  regions of the plane, proved to partition it. The angle table is proved to give a
  clockwise bearing from twelve o'clock for a portrait image. The layout rules are stated
  through their meaning: a minimum, a maximum, a centre, an edge midpoint.
- `widget.dfy` (module `RotateWidget`): the widget state as a value, with one transition
  function per entry point. `Run` folds these over a sequence of events. Lemmas about runs
  prove five things:
  - the stored angle is always the last one set programmatically;
  - all-zero layout notifications can be dropped without changing the run;
  - the listener log only grows;
  - no run crashes once the centre is known;
  - once a press has detached the wrapper's layout listener, it stays detached.
- `rotate_view.dfy` (module `RotateViews`): the `RotateView` class. Its fields are the
  source's fields, plus two flags for the attached layout listeners and the log of listener
  calls, which stand for the framework's listener registrations and the listener's calls.
  It holds the image view and wrapper layout whose properties it sets
  in place. Each entry point and each method that changes the whole widget is proved to
  perform its `RotateWidget` transition on `State()`. The four layout helpers
  (`AdjustImageSize`, `SetWrapperSize`, `SetViewCenterPositions`, `SetViewPivotPositions`)
  have no transition of their own. Each is specified on the part it writes, by the
  geometry function for that part.

A view's reported size (`getWidth`, `getHeight`) comes from the framework's last layout
pass. It is not the layout parameter the widget has just written. So every entry point
that reads sizes takes a `Sizes` snapshot, and the layout transition writes layout
parameters. When the framework lays the views out again at those sizes, it sends a new
layout notification. `HingeMeetsCenterWhenSettled` shows that in such a settled layout the
hinge lands on the wrapper centre. For a landscape image it lands exactly on the centre.
For a portrait image it lands on the centre's row. This is why the touch handler may
measure angles around the wrapper centre (`mViewCenterPoint`) and not around
`(mPivotX, mPivotY)`. The model keeps that choice (RotateView.java:214, :220).

Points where the code's behaviour is easy to misread; the model follows the code:

- The angle table is continuous up to whole turns. The upper-left quadrant adds
  450 = 90 + 360 and the others add 90, so every result is raw + 90 plus 0 or 360. For a
  portrait image the result is the clockwise bearing in [0, 360)
  (`PortraitAngleIsClockwiseBearing`). Its only jump is the bearing's wrap at twelve o'clock,
  between the upper half-axis and the upper-left quadrant. A touch straight above gives 0;
  a touch just left of it gives almost 360. For a landscape image the result is that bearing
  plus 90, not wrapped. So the same jump runs from 90 to almost 450, and an upper-left touch
  gives more than 360 (`LandscapeAngleIsNotWrapped`).
- The listener is not called for the construction-time default angle. No listener can be
  registered yet, and the initial angle is only stored. It is applied, and the listener
  called, on the first layout.
- `getAngle` names its reference point "pivot", but the touch handler passes the wrapper
  centre.
- The landscape hinge is commented as the image's "left point". The code uses
  x = image width, the middle of the right edge. The image is placed at x = 0, so in a
  settled layout (the wrapper laid out at twice the image's size) that point is the
  wrapper centre. Before that, the centre comes from the wrapper's earlier reported size
  and the two can differ.

## Model

| member | source | states |
|---|---|---|
| RotateGeometry.QuadrantForPoint | RotateViewDemo/app/src/main/java/com/rotateview/RotateView.java:302-315 | the result is one of 1..4 and the touch offset lies in that quadrant's region |
| RotateGeometry.QuadrantsPartitionPlane | RotateViewDemo/app/src/main/java/com/rotateview/RotateView.java:306-314 | the four regions cover every offset and no offset is in two of them |
| RotateGeometry.QuadrantIsUnique | RotateViewDemo/app/src/main/java/com/rotateview/RotateView.java:302-315 | any quadrant whose region holds the offset is the one returned |
| RotateGeometry.QuadrantOnAxes | RotateViewDemo/app/src/main/java/com/rotateview/RotateView.java:306-313 | the reference point and the right and upper half-axes give quadrant 1; the left half-axis gives 3; the lower half-axis gives 4 |
| RotateGeometry.GetAngle | RotateViewDemo/app/src/main/java/com/rotateview/RotateView.java:275-293 | raw + 450 for an upper-left touch and raw + 90 otherwise, then + 90 more iff the image is landscape |
| RotateGeometry.PortraitAngleIsClockwiseBearing | RotateViewDemo/app/src/main/java/com/rotateview/RotateView.java:276-292 | given atan2's range, the portrait angle is in [0, 360), equals raw + 90 up to one turn, and each quadrant gets its own quarter clockwise from twelve o'clock |
| RotateGeometry.LandscapeAngleIsNotWrapped | RotateViewDemo/app/src/main/java/com/rotateview/RotateView.java:292 | the landscape angle is the portrait one plus 90; it lies in [90, 450) and exceeds 360 for an upper-left touch |
| RotateGeometry.IsImagePortrait | RotateViewDemo/app/src/main/java/com/rotateview/RotateView.java:176-178 | a square image counts as portrait; a landscape image is strictly wider than tall |
| RotateGeometry.ImageHeightFor | RotateViewDemo/app/src/main/java/com/rotateview/RotateView.java:146-152 | the new image height is half the smaller parent side, rounded down |
| RotateGeometry.WrapperSide | RotateViewDemo/app/src/main/java/com/rotateview/RotateView.java:161-178 | the wrapper side is twice the image's longer side (2 * max(width, height)) |
| RotateGeometry.CenterOf | RotateViewDemo/app/src/main/java/com/rotateview/RotateView.java:183-186 | the centre is the wrapper's midpoint, rounded down in each axis |
| RotateGeometry.PivotFor | RotateViewDemo/app/src/main/java/com/rotateview/RotateView.java:191-200 | the hinge is the bottom-edge midpoint for a portrait image and the right-edge midpoint (x = width) for a landscape one |
| RotateGeometry.LandscapeImageTop | RotateViewDemo/app/src/main/java/com/rotateview/RotateView.java:202 | a landscape image's half-height mark sits on the wrapper's, so an image no taller than the wrapper lies wholly inside it |
| RotateGeometry.CenterOfSquareWrapper | RotateViewDemo/app/src/main/java/com/rotateview/RotateView.java:185 | a square wrapper of side 2s has its centre at (s, s) |
| RotateGeometry.HingeMeetsCenterWhenSettled | RotateViewDemo/app/src/main/java/com/rotateview/RotateView.java:183-203 | in a settled layout the landscape hinge is exactly the wrapper centre, and the portrait hinge lies on the centre's row |
| RotateWidget.Created | RotateViewDemo/app/src/main/java/com/rotateview/RotateView.java:48-107 | after construction the attribute angle and image are stored, both layout listeners are attached, the hinge is at (0, 0), and there is no listener, no centre and no notification |
| RotateWidget.TruncateTowardZero | RotateViewDemo/app/src/main/java/com/rotateview/RotateView.java:262 | the cast result is the whole number next to the angle on the zero side |
| RotateWidget.Notify | RotateViewDemo/app/src/main/java/com/rotateview/RotateView.java:263-265 | the listener log gains exactly one entry, the current listener with the angle, iff a listener is registered, and otherwise stays the same |
| RotateWidget.RotateImageByAngle | RotateViewDemo/app/src/main/java/com/rotateview/RotateView.java:259-266 | sets the image pivot to the stored hinge and the rotation to the angle cut toward zero; calls the listener iff one is registered; changes nothing else, not the stored angle |
| RotateWidget.SetRotateViewAngle | RotateViewDemo/app/src/main/java/com/rotateview/RotateView.java:331-334 | stores the angle, shows exactly that rotation at once around the stored hinge, leaves the image's layout height and position alone, and calls the listener with it iff one is registered |
| RotateWidget.InitializeRotationView | RotateViewDemo/app/src/main/java/com/rotateview/RotateView.java:129-141 | recomputes the image height, square wrapper, centre, hinge and image placement from the last layout, then re-applies the stored angle, which is kept |
| RotateWidget.IsZeroBounds | RotateViewDemo/app/src/main/java/com/rotateview/RotateView.java:122 | the bounds count as spurious exactly when all four are zero |
| RotateWidget.OnWrapperLayoutChange | RotateViewDemo/app/src/main/java/com/rotateview/RotateView.java:118-127 | all-zero bounds leave the widget unchanged; any other bounds re-lay it out |
| RotateWidget.OnGlobalLayout | RotateViewDemo/app/src/main/java/com/rotateview/RotateView.java:109-116 | the first global layout lays the widget out and detaches the global layout listener |
| RotateWidget.RotateViewForPosition | RotateViewDemo/app/src/main/java/com/rotateview/RotateView.java:248-252 | rotates by the angle measured around the wrapper centre; crashes, changing nothing, iff no centre is known yet |
| RotateWidget.OnTouch | RotateViewDemo/app/src/main/java/com/rotateview/RotateView.java:206-225 | never changes the stored angle; a press detaches the wrapper's layout listener; a press or move sets the image pivot to the hinge, rotates and notifies; a crash changes only the listener flag; other actions change nothing; nothing else ever changes |
| RotateWidget.Step | RotateViewDemo/app/src/main/java/com/rotateview/RotateView.java:100-107 | a layout notification is delivered only while its listener is attached; a touch is always handed to the touch handler, and only a touch can crash; a programmatic angle runs the angle setter (`setRotateViewAngle`, RotateView.java:331-334); setting the listener or image changes only that slot |
| RotateWidget.StepStoresOnlyProgrammaticAngle | RotateViewDemo/app/src/main/java/com/rotateview/RotateView.java:322-334 | an event changes the stored angle only if it is a programmatic set, and then to that angle |
| RotateWidget.StoredAngleIsLastProgrammaticSet | RotateViewDemo/app/src/main/java/com/rotateview/RotateView.java:322-334 | after any run that does not crash, the stored angle is the last one set programmatically, or the initial one |
| RotateWidget.ZeroBoundsNotificationsIgnored | RotateViewDemo/app/src/main/java/com/rotateview/RotateView.java:122-125 | removing every all-zero wrapper layout notification from a run does not change its outcome |
| RotateWidget.StepOnlyAppendsNotifications | RotateViewDemo/app/src/main/java/com/rotateview/RotateView.java:263-265 | one event only appends to the listener log |
| RotateWidget.NotificationsOnlyGrow | RotateViewDemo/app/src/main/java/com/rotateview/RotateView.java:263-265 | the listener log after any run extends the log before it |
| RotateWidget.NoCrashOnceLaidOut | RotateViewDemo/app/src/main/java/com/rotateview/RotateView.java:183-186 | once a centre is known, no run crashes and the centre stays known |
| RotateWidget.TouchBeforeLayoutCrashes | RotateViewDemo/app/src/main/java/com/rotateview/RotateView.java:248-250 | a press or move before the first layout dereferences the missing centre |
| RotateWidget.WrapperListenerStaysDetached | RotateViewDemo/app/src/main/java/com/rotateview/RotateView.java:211-212 | once a press has detached the wrapper's layout listener, no run attaches it again |
| RotateViews.RotateView.constructor | RotateViewDemo/app/src/main/java/com/rotateview/RotateView.java:48-51 | the new object is in the `Created` state with fresh image and wrapper views |
| RotateViews.RotateView.SetOnRotationChangeListener | RotateViewDemo/app/src/main/java/com/rotateview/RotateView.java:31-33 | replaces the single listener slot (null allowed) and nothing else |
| RotateViews.RotateView.GetRotateViewAngle | RotateViewDemo/app/src/main/java/com/rotateview/RotateView.java:322-324 | returns the stored angle |
| RotateViews.RotateView.SetRotateViewAngle | RotateViewDemo/app/src/main/java/com/rotateview/RotateView.java:331-334 | performs `RotateWidget.SetRotateViewAngle` on the object's state |
| RotateViews.RotateView.GetRotateViewImage | RotateViewDemo/app/src/main/java/com/rotateview/RotateView.java:341-343 | returns the stored image resource id |
| RotateViews.RotateView.SetRotateViewImage | RotateViewDemo/app/src/main/java/com/rotateview/RotateView.java:350-351 | stores the image resource id and nothing else |
| RotateViews.RotateView.RotateImageByAngle | RotateViewDemo/app/src/main/java/com/rotateview/RotateView.java:259-266 | performs `RotateWidget.RotateImageByAngle` on the object's state |
| RotateViews.RotateView.AdjustImageSize | RotateViewDemo/app/src/main/java/com/rotateview/RotateView.java:146-155 | sets the image's layout height to `ImageHeightFor` the parent and leaves the image's other properties alone |
| RotateViews.RotateView.SetWrapperSize | RotateViewDemo/app/src/main/java/com/rotateview/RotateView.java:161-169 | sets both wrapper layout sides to `WrapperSide` of the image |
| RotateViews.RotateView.SetViewCenterPositions | RotateViewDemo/app/src/main/java/com/rotateview/RotateView.java:183-186 | stores `CenterOf` the wrapper |
| RotateViews.RotateView.SetViewPivotPositions | RotateViewDemo/app/src/main/java/com/rotateview/RotateView.java:191-204 | stores `PivotFor` the image; a landscape image is also moved to x = 0 and centred vertically |
| RotateViews.RotateView.InitializeRotationView | RotateViewDemo/app/src/main/java/com/rotateview/RotateView.java:129-141 | performs `RotateWidget.InitializeRotationView` on the object's state |
| RotateViews.RotateView.OnGlobalLayout | RotateViewDemo/app/src/main/java/com/rotateview/RotateView.java:109-116 | performs `RotateWidget.OnGlobalLayout` on the object's state |
| RotateViews.RotateView.OnWrapperLayoutChange | RotateViewDemo/app/src/main/java/com/rotateview/RotateView.java:118-127 | performs `RotateWidget.OnWrapperLayoutChange` on the object's state |
| RotateViews.RotateView.RotateViewForPosition | RotateViewDemo/app/src/main/java/com/rotateview/RotateView.java:248-252 | performs `RotateWidget.RotateViewForPosition` on the object's state and reports the crash |
| RotateViews.RotateView.OnTouch | RotateViewDemo/app/src/main/java/com/rotateview/RotateView.java:206-225 | performs `RotateWidget.OnTouch` on the object's state and reports the crash |

## Left out

- The trigonometry (`Math.atan2`, `Math.toDegrees`, RotateView.java:276) is floating point.
  The raw angle is a `real` parameter of each touch sample. `Atan2Range` states only which
  value or open interval atan2 returns for the signs of the offset. Rounding is not modelled.
- The width rescale in `adjustImageSize` (RotateView.java:151, :153) is a float ratio. The
  model does not track the image's layout width.
- Doubles are modelled as reals. The `(int)` cast is modelled as truncation toward zero.
  Java's saturation at the int range and its NaN case are left out, because angles stay
  far inside the range.
- Java's 32-bit int overflow (`viewSide * 2`, coordinate differences) is not modelled,
  because view sizes and coordinates are screen-sized.
- The framework's layout pass is not modelled. The sizes it reports arrive as a `Sizes`
  parameter. The framework guarantees that the wrapper's reported size matches the
  notification's bounds; this is not stated.
- Properties that come from the layout resource start at zero. These are the initial layout
  parameters, the image position, and the portrait image's horizontal placement.
- `MotionEvent` decoding is left out. So is the float-to-int cut of the touch coordinates.
  A touch sample carries whole-pixel coordinates and one of press, move, release or other.
- Layout inflation, `findViewById` and `TypedArray` attribute loading are left out. The
  constructor receives the attribute values. The one-argument constructor
  `RotateView(Context)` is left out: it creates no child views.
- `stopViewTreeObserver` (RotateView.java:230-240) is modelled as always detaching the global
  layout listener. The `isAlive` check and the SDK-version branch are left out.
- `setImageResource` and the exception it swallows (RotateView.java:352-356) are left out.
  The model stores the resource id and does not track the displayed image.
- The listener is a foreign callback. Each call is recorded, with the listener's identity
  and the angle, in the `notifications` log.
- The listener is assumed not to call back into the widget. The source calls it
  synchronously, and in `setRotateViewAngle` it does so before the angle is stored
  (RotateView.java:332-333). So a listener that reads the angle there would see the old one.
  A listener that sets the angle would re-enter the widget: the outer store would then
  overwrite its value, or the calls would recurse without end. No event sequence of the
  model can express this, and the run lemmas do not cover it.
- A crash (the null centre before the first layout) ends a run. The exception itself is
  not modelled further.
- MainActivity is host glue that only wires up the widget. It is not part of this model.
