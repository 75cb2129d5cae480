/**
 * The comparison dialog (image_comparator.py): owns the two viewports,
 * tracks the load and clear lifecycle and the enabled state of the
 * "Image 2" and "Clear" buttons, lays the viewports out side by side or on
 * top of each other, and re-broadcasts every zoom and centre request to both
 * viewports so that they move together.
 *
 * Widgets other than the viewports are reduced to the two enabled flags; the
 * file dialog is replaced by the chosen file name and the decoded pixmap,
 * and the size-mismatch message box by the boolean answer "Yes".
 */
module ImageComparator {
  import opened Wrappers
  import opened Geometry
  import opened MovableImageScene
  import opened ImageContainer

  const kMenuBarHeight: int := 40
  const kGroupHeight: int := 80
  const kDialogMargin: int := 5
  const kControlSpacing: int := 10

  /** The two values of `imgLayout`: "Side-by-side" and "Overlay". */
  datatype Layout = SideBySide | Overlay

  /** A file dialog that was cancelled yields an empty path, which decodes to a 0x0 pixmap. */
  predicate Cancelled(size: Size)
  {
    size.width == 0 && size.height == 0
  }

  /**
   * layoutImages: both viewports get one full-width frame in Overlay; side
   * by side they share top, width and height and the second starts
   * kControlSpacing to the right of the first one's right edge.
   */
  function LayoutFrames(layout: Layout, containerWidth: nat, containerWidthOverlay: nat, containerHeight: nat)
    : (frames: (Rect, Rect))
    ensures frames.0.left == kDialogMargin && frames.0.top == kGroupHeight + kControlSpacing
    ensures frames.0.width == (if layout == Overlay then containerWidthOverlay else containerWidth)
    ensures frames.0.height == containerHeight
    ensures layout == Overlay ==> frames.1 == frames.0
    ensures layout == SideBySide ==>
              frames.1.top == frames.0.top && frames.1.width == frames.0.width &&
              frames.1.height == frames.0.height &&
              frames.1.left == frames.0.left + frames.0.width + kControlSpacing
  {
    var top := kGroupHeight + kControlSpacing;
    if layout == Overlay then
      (Rect(kDialogMargin, top, containerWidthOverlay, containerHeight),
       Rect(kDialogMargin, top, containerWidthOverlay, containerHeight))
    else
      (Rect(kDialogMargin, top, containerWidth, containerHeight),
       Rect(containerWidth + kDialogMargin + kControlSpacing, top, containerWidth, containerHeight))
  }

  /** Side by side, no pixel lies in both viewports. */
  lemma SideBySideFramesDisjoint(containerWidth: nat, containerWidthOverlay: nat, containerHeight: nat, px: int, py: int)
    ensures var frames := LayoutFrames(SideBySide, containerWidth, containerWidthOverlay, containerHeight);
            !(Contains(frames.0, px, py) && Contains(frames.1, px, py))
  {
  }

  /**
   * The Overlay right-click toggle: a second frame of positive height is
   * collapsed to height 0 in place, a collapsed one gets the first view's frame.
   */
  function ToggledFrame(firstFrame: Rect, secondFrame: Rect): (r: Rect)
    ensures secondFrame.height > 0 ==>
              r.height == 0 && r.left == secondFrame.left && r.top == secondFrame.top && r.width == secondFrame.width
    ensures secondFrame.height == 0 ==> r == firstFrame
  {
    if secondFrame.height > 0 then Rect(secondFrame.left, secondFrame.top, secondFrame.width, 0) else firstFrame
  }

  /** From the Overlay layout, where both frames coincide, two right clicks restore the second frame. */
  lemma ToggleTwiceRestores(frame: Rect)
    ensures ToggledFrame(frame, ToggledFrame(frame, frame)) == frame
  {
  }

  class ComparatorDialog {
    const first: ImageContainerView
    const second: ImageContainerView
    const containerWidth: nat
    const containerWidthOverlay: nat
    const containerHeight: nat
    var bothLoaded: bool
    var imageSize: Option<Size>
    var secondImageSize: Option<Size>
    var imgLayout: Layout
    /** Whether the "Image 2" button is enabled. */
    var image2Enabled: bool
    /** Whether the "Clear" button is enabled. */
    var clearEnabled: bool

    /**
     * The controller invariant: the two viewports and their scenes are
     * distinct objects in good order, the session fields agree with each
     * other, and the viewports move in lock step.
     */
    ghost predicate Valid()
      reads this, first, second, first.scene, second.scene
    {
      first != second && first.scene != second.scene &&
      first.Valid() && second.Valid() && SessionConsistent() && LockStep()
    }

    /**
     * A pair is loaded only when both sizes are recorded, the second size
     * only after the first, and both buttons are enabled exactly while a
     * first image is recorded.
     */
    ghost predicate SessionConsistent()
      reads this
    {
      (bothLoaded ==> imageSize.Some? && secondImageSize.Some?) &&
      (secondImageSize.Some? ==> imageSize.Some?) &&
      (image2Enabled <==> imageSize.Some?) &&
      clearEnabled == image2Enabled
    }

    /** The two viewports have the same zoom and the same requested centre. */
    ghost predicate LockStep()
      reads first, second
    {
      first.viewScale == second.viewScale && first.centredOn == second.centredOn
    }

    /** setupUi, for a screen whose available area is screenWidth x screenHeight. */
    constructor (screenWidth: nat, screenHeight: nat)
      requires screenWidth >= 2 * kDialogMargin + kControlSpacing
      requires screenHeight >= 2 * kGroupHeight + kMenuBarHeight + 2 * kControlSpacing
      ensures Valid()
      ensures fresh(first) && fresh(second) && fresh(first.scene) && fresh(second.scene)
      ensures containerWidth == (screenWidth - (2 * kDialogMargin + kControlSpacing)) / 2
      ensures containerWidthOverlay == screenWidth - 2 * kDialogMargin
      ensures containerHeight == screenHeight - 2 * kGroupHeight - kMenuBarHeight - 2 * kControlSpacing
      ensures !bothLoaded && imageSize == None && secondImageSize == None
      ensures imgLayout == SideBySide && !image2Enabled && !clearEnabled
      ensures (first.geometry, second.geometry) ==
              LayoutFrames(SideBySide, containerWidth, containerWidthOverlay, containerHeight)
      ensures first.tag == 0 && second.tag == 1
      ensures first.IsFresh() && second.IsFresh()
    {
      var width := (screenWidth - (2 * kDialogMargin + kControlSpacing)) / 2;
      var height := screenHeight - 2 * kGroupHeight - kMenuBarHeight - 2 * kControlSpacing;
      var top := kGroupHeight + kControlSpacing;
      var firstView := new ImageContainerView();
      firstView.SetGeometry(Rect(kDialogMargin, top, width, height));
      firstView.SetTag(0);
      var secondView := new ImageContainerView();
      secondView.SetGeometry(Rect(width + kDialogMargin + kControlSpacing, top, width, height));
      secondView.SetTag(1);
      containerWidth, containerWidthOverlay, containerHeight := width, screenWidth - 2 * kDialogMargin, height;
      first, second := firstView, secondView;
      bothLoaded, imageSize, secondImageSize := false, None, None;
      imgLayout, image2Enabled, clearEnabled := SideBySide, false, false;
      new;
      LayoutImages();
    }

    /** layoutImages: gives both viewports the frames of the current layout. */
    method LayoutImages()
      requires Valid()
      modifies first`geometry, second`geometry
      ensures Valid()
      ensures (first.geometry, second.geometry) ==
              LayoutFrames(imgLayout, containerWidth, containerWidthOverlay, containerHeight)
    {
      var frames := LayoutFrames(imgLayout, containerWidth, containerWidthOverlay, containerHeight);
      first.SetGeometry(frames.0);
      second.SetGeometry(frames.1);
    }

    /**
     * setImage: imageId 0 loads the first image; any other id loads the
     * second one and checks its size against the first. The "Image 2"
     * button, the only caller with a non-zero id, is enabled only once a
     * first image is recorded.
     */
    method SetImage(imageId: int, fileName: string, decoded: Pixmap, userSaysYes: bool)
      requires Valid()
      requires imageId != 0 ==> image2Enabled
      modifies this, first`imagePath, first`image, first`width, first`height, first`isPortrait
      modifies first`originalScaleFactor, first`currentScaleFactor, first.scene`items
      modifies second`imagePath, second`image, second`width, second`height, second`isPortrait
      modifies second`originalScaleFactor, second`currentScaleFactor, second`sceneCenter
      modifies second`currenScaleFactor, second.scene`items
      ensures Valid()
      ensures imgLayout == old(imgLayout)
      ensures imageId == 0 ==>
                first.Holds(fileName, decoded) &&
                imageSize == Some(decoded.size) && image2Enabled && clearEnabled &&
                bothLoaded == old(bothLoaded) && secondImageSize == old(secondImageSize) &&
                unchanged(second, second.scene)
      ensures imageId != 0 ==>
                unchanged(first, first.scene) &&
                imageSize == old(imageSize) && image2Enabled == old(image2Enabled) && clearEnabled == old(clearEnabled) &&
                second.imagePath == Some(fileName)
      ensures imageId != 0 && (decoded.size == old(imageSize).value || (!Cancelled(decoded.size) && userSaysYes)) ==>
                second.Holds(fileName, decoded) && bothLoaded && secondImageSize == Some(decoded.size)
      ensures imageId != 0 && decoded.size != old(imageSize).value && Cancelled(decoded.size) ==>
                second.Holds(fileName, decoded) && bothLoaded == old(bothLoaded) && secondImageSize == Some(decoded.size)
      ensures imageId != 0 && decoded.size != old(imageSize).value && !Cancelled(decoded.size) && !userSaysYes ==>
                second.IsCleared() && !bothLoaded && secondImageSize == None &&
                second.image == Some(decoded) &&
                second.currentScaleFactor == Some(FitToView(decoded.size, second.geometry.width, second.geometry.height).factor)
    {
      if imageId == 0 {
        SetFirstImage(fileName, decoded);
      } else {
        SetSecondImage(fileName, decoded, userSaysYes);
      }
    }

    /** The imageId 0 branch of setImage: load, record the size, enable both buttons. */
    method SetFirstImage(fileName: string, decoded: Pixmap)
      requires Valid()
      modifies this`imageSize, this`image2Enabled, this`clearEnabled
      modifies first`imagePath, first`image, first`width, first`height, first`isPortrait
      modifies first`originalScaleFactor, first`currentScaleFactor, first.scene`items
      ensures Valid()
      ensures first.Holds(fileName, decoded)
      ensures imageSize == Some(decoded.size) && image2Enabled && clearEnabled
    {
      var size := first.LoadSceneForImage(fileName, decoded);
      imageSize := Some(size);
      image2Enabled := true;
      clearEnabled := true;
    }

    /**
     * The other branch of setImage: load into the second viewport, then keep
     * it when the sizes match, when the question is cancelled, or when the
     * user answers Yes; a No clears the second viewport again.
     */
    method SetSecondImage(fileName: string, decoded: Pixmap, userSaysYes: bool)
      requires Valid()
      requires image2Enabled
      modifies this`bothLoaded, this`secondImageSize
      modifies second`imagePath, second`image, second`width, second`height, second`isPortrait
      modifies second`originalScaleFactor, second`currentScaleFactor, second`sceneCenter
      modifies second`currenScaleFactor, second.scene`items
      ensures Valid()
      ensures second.imagePath == Some(fileName)
      ensures decoded.size == imageSize.value || (!Cancelled(decoded.size) && userSaysYes) ==>
                second.Holds(fileName, decoded) && bothLoaded && secondImageSize == Some(decoded.size)
      ensures decoded.size != imageSize.value && Cancelled(decoded.size) ==>
                second.Holds(fileName, decoded) && bothLoaded == old(bothLoaded) && secondImageSize == Some(decoded.size)
      ensures decoded.size != imageSize.value && !Cancelled(decoded.size) && !userSaysYes ==>
                second.IsCleared() && !bothLoaded && secondImageSize == None &&
                second.image == Some(decoded) &&
                second.currentScaleFactor == Some(FitToView(decoded.size, second.geometry.width, second.geometry.height).factor)
    {
      var size := second.LoadSceneForImage(fileName, decoded);
      secondImageSize := Some(size);
      if size != imageSize.value {
        if Cancelled(size) {
          return;
        }
        if !userSaysYes {
          second.ClearContainer();
          bothLoaded := false;
          secondImageSize := None;
          return;
        }
      }
      bothLoaded := true;
    }

    /**
     * clearAll: forgets both sizes, disables both buttons and clears both
     * viewports; what clearContainer keeps (the tracked scale, the path, the
     * view's zoom) survives.
     */
    method ClearAll()
      requires Valid()
      modifies this, first`sceneCenter, first`width, first`height, first`originalScaleFactor
      modifies first`isPortrait, first`currenScaleFactor, first.scene`items
      modifies second`sceneCenter, second`width, second`height, second`originalScaleFactor
      modifies second`isPortrait, second`currenScaleFactor, second.scene`items
      ensures Valid()
      ensures !bothLoaded && imageSize == None && secondImageSize == None
      ensures !image2Enabled && !clearEnabled && imgLayout == old(imgLayout)
      ensures first.IsCleared() && second.IsCleared()
      ensures first.currentScaleFactor == old(first.currentScaleFactor) && second.currentScaleFactor == old(second.currentScaleFactor)
      ensures first.imagePath == old(first.imagePath) && second.imagePath == old(second.imagePath)
      ensures first.viewScale == old(first.viewScale) && second.viewScale == old(second.viewScale)
    {
      bothLoaded := false;
      image2Enabled := false;
      clearEnabled := false;
      first.ClearContainer();
      second.ClearContainer();
      bothLoaded := false;
      imageSize := None;
      secondImageSize := None;
    }

    /** respondToWheel: the same multiplier goes to both viewports' scaleView. */
    method RespondToWheel(multiplier: real)
      requires Valid()
      requires multiplier > 0.0
      modifies first`viewScale, first`scaleFactor, second`viewScale, second`scaleFactor
      ensures Valid()
      ensures first.viewScale == ScaleStep(old(first.viewScale), multiplier)
      ensures second.viewScale == first.viewScale
      ensures InScaleBounds(old(first.viewScale) * multiplier) ==>
                first.scaleFactor == Some(first.viewScale) && second.scaleFactor == Some(first.viewScale)
      ensures !InScaleBounds(old(first.viewScale) * multiplier) ==>
                first.scaleFactor == old(first.scaleFactor) && second.scaleFactor == old(second.scaleFactor)
    {
      first.ScaleView(multiplier);
      second.ScaleView(multiplier);
    }

    /** respondToPress: both viewports centre on the same point. */
    method RespondToPress(point: Point)
      requires Valid()
      modifies first`centredOn, second`centredOn
      ensures Valid()
      ensures first.centredOn == Some(point) && second.centredOn == Some(point)
    {
      first.CenterOn(point);
      second.CenterOn(point);
    }

    /** respondToDrag: both viewports centre on the same point. */
    method RespondToDrag(point: Point)
      requires Valid()
      modifies first`centredOn, second`centredOn
      ensures Valid()
      ensures first.centredOn == Some(point) && second.centredOn == Some(point)
    {
      first.CenterOn(point);
      second.CenterOn(point);
    }

    /** respondToRightClick: toggles the second frame in Overlay and does nothing otherwise. */
    method RespondToRightClick()
      requires Valid()
      modifies second`geometry
      ensures Valid()
      ensures imgLayout == Overlay ==> second.geometry == ToggledFrame(first.geometry, old(second.geometry))
      ensures imgLayout != Overlay ==> second.geometry == old(second.geometry)
    {
      if imgLayout == Overlay {
        var frame := second.geometry;
        if frame.height > 0 {
          second.SetGeometry(Rect(frame.left, frame.top, frame.width, 0));
        } else {
          second.SetGeometry(first.geometry);
        }
      }
    }

    /** radioButtonClicked: a button that became checked selects its layout and re-lays the viewports out. */
    method RadioButtonClicked(layoutType: Layout, isChecked: bool)
      requires Valid()
      modifies this`imgLayout, first`geometry, second`geometry
      ensures Valid()
      ensures isChecked ==>
                imgLayout == layoutType &&
                (first.geometry, second.geometry) ==
                LayoutFrames(layoutType, containerWidth, containerWidthOverlay, containerHeight)
      ensures !isChecked ==>
                imgLayout == old(imgLayout) && first.geometry == old(first.geometry) && second.geometry == old(second.geometry)
    {
      if isChecked {
        imgLayout := layoutType;
        LayoutImages();
      }
    }

    /**
     * A wheel event on one viewport: the multiplier is broadcast to both
     * viewports first, then the receiving viewport multiplies its own
     * tracked scale, whether or not the zoom was refused.
     */
    method WheelEventOn(view: ImageContainerView, multiplier: real) returns (raised: Option<PyError>)
      requires Valid()
      requires view == first || view == second
      requires multiplier > 0.0
      modifies first`viewScale, first`scaleFactor, second`viewScale, second`scaleFactor, view`currentScaleFactor
      ensures Valid()
      ensures first.viewScale == ScaleStep(old(first.viewScale), multiplier) && second.viewScale == first.viewScale
      ensures InScaleBounds(old(first.viewScale) * multiplier) ==>
                first.scaleFactor == Some(first.viewScale) && second.scaleFactor == Some(first.viewScale)
      ensures !InScaleBounds(old(first.viewScale) * multiplier) ==>
                first.scaleFactor == old(first.scaleFactor) && second.scaleFactor == old(second.scaleFactor)
      ensures old(view.currentScaleFactor).None? ==> view.currentScaleFactor == None && raised == Some(AttributeError)
      ensures old(view.currentScaleFactor).Some? ==>
                view.currentScaleFactor.Some? &&
                view.currentScaleFactor.value == old(view.currentScaleFactor).value * multiplier && raised == None
      ensures view == first ==> second.currentScaleFactor == old(second.currentScaleFactor)
      ensures view == second ==> first.currentScaleFactor == old(first.currentScaleFactor)
    {
      RespondToWheel(multiplier);
      raised := view.WheelEvent(multiplier);
    }

    /** A press on one viewport goes to its scene; the source does not pass presses upward. */
    method MousePressOn(view: ImageContainerView, button: MouseButton, scenePos: Point)
      requires Valid()
      requires view == first || view == second
      modifies view.scene`pressedButton, view.scene`dragStarted, view.scene`currentPressAt
      ensures Valid()
      ensures view.scene.pressedButton == (match button
                                           case LeftButton => LeftName
                                           case RightButton => RightName
                                           case MiddleButton => old(view.scene.pressedButton))
      ensures view.scene.dragStarted == (button == LeftButton || old(view.scene.dragStarted))
      ensures view.scene.currentPressAt == Some(scenePos)
    {
      view.scene.MousePressEvent(button, scenePos);
    }

    /**
     * A release on one viewport goes to its scene; a left release resets
     * that viewport's drag positions and a right release reaches
     * respondToRightClick.
     */
    method MouseReleaseOn(view: ImageContainerView, button: MouseButton) returns (notice: Notice)
      requires Valid()
      requires view == first || view == second
      modifies view.scene`dragStarted, view`currentPos, view`previousPos, second`geometry
      ensures Valid()
      ensures view.scene.dragStarted == (old(view.scene.dragStarted) && button != LeftButton)
      ensures button == LeftButton ==>
                notice == ReleaseNotice && view.currentPos == None && view.previousPos == None &&
                second.geometry == old(second.geometry)
      ensures button == RightButton ==>
                notice == RightClickNotice &&
                view.currentPos == old(view.currentPos) && view.previousPos == old(view.previousPos) &&
                second.geometry == (if imgLayout == Overlay then ToggledFrame(first.geometry, old(second.geometry))
                                    else old(second.geometry))
      ensures button == MiddleButton ==>
                notice == NoNotice &&
                view.currentPos == old(view.currentPos) && view.previousPos == old(view.previousPos) &&
                second.geometry == old(second.geometry)
    {
      notice := view.scene.MouseReleaseEvent(button);
      if notice == ReleaseNotice {
        view.ProcessReleaseEvent();
      } else if notice == RightClickNotice {
        RespondToRightClick();
      }
    }

    /**
     * A pointer move on one viewport: the viewport updates its drag
     * positions, and a new centre it computes is broadcast to both viewports.
     */
    method MouseMoveOn(view: ImageContainerView, eventPos: Pos, visible: RectF) returns (drag: Drag)
      requires Valid()
      requires view == first || view == second
      modifies view`currentPos, view`previousPos, first`centredOn, second`centredOn
      ensures Valid()
      ensures !view.scene.dragStarted ==>
                drag == NoMove && view.currentPos == old(view.currentPos) && view.previousPos == old(view.previousPos)
      ensures view.scene.dragStarted ==>
                view.previousPos == (if old(view.currentPos).Some? then old(view.currentPos) else Some(eventPos)) &&
                view.currentPos == Some(eventPos) &&
                drag == DragOutcome(view.previousPos.value, eventPos, view.currentScaleFactor,
                                    view.originalScaleFactor, visible)
      ensures drag.MoveTo? ==> first.centredOn == Some(drag.centre) && second.centredOn == Some(drag.centre)
      ensures !drag.MoveTo? ==> first.centredOn == old(first.centredOn) && second.centredOn == old(second.centredOn)
    {
      drag := view.MouseMoveEvent(eventPos, visible);
      if drag.MoveTo? {
        RespondToDrag(drag.centre);
      }
    }
  }
}
