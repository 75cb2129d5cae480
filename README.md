# Image Comparison Tool — a Dafny model

The Image Comparison Tool is a PyQt4 desktop program that shows two images
of the same size so they can be compared. The images sit in two viewports,
either side by side or on top of each other. Zooming or dragging one
viewport zooms or drags the other one with it. This project models the
program's behavioural core as Dafny classes, one module per source file.

- `MovableImageScene` (movable_image.dfy) models `MovableImage`, the graphics
  scene. It holds the scene's item list as a `seq<Pixmap>`, the press
  position, the drag flag and the name of the pressed button.
- `ImageContainer` (image_container.dfy) models `ImageContainerView`, one
  viewport. It covers:
  - the load/clear lifecycle;
  - the fit-to-view rule and orientation;
  - the bounded zoom of `scaleView`;
  - the scale that `wheelEvent` keeps for dragging;
  - the drag bookkeeping of `mouseMoveEvent`, including its exceptions.
- `ImageComparator` (image_comparator.dfy) models the dialog `Ui_Dialog` as
  `ComparatorDialog`. It covers:
  - the container sizes computed in `setupUi`;
  - the side-by-side and overlay layouts;
  - `setImage` with its size-mismatch branch, and `clearAll`;
  - the enabled state of the "Image 2" and "Clear" buttons;
  - the broadcasts that keep both viewports in lock step.
- `Geometry` and `Wrappers` hold the value types: sizes, positions, rectangles and `Option`.

A viewport and the dialog call each other in both directions. In this model,
a call the source makes upward (scene to view, view to dialog) is returned as
a value instead: a `Notice`, a `Drag` or a raised `PyError`. Dispatcher
methods on the dialog (`WheelEventOn`, `MousePressOn`, `MouseReleaseOn`,
`MouseMoveOn`) route these values in the source's order.

The dialog's invariant `ComparatorDialog.Valid` combines three things:
- the scenes' gesture invariant;
- the session invariant: a pair is loaded only when both sizes are recorded,
  and both buttons are enabled exactly while a first image is recorded;
- lock step: both viewports have the same zoom and the same requested centre.

Every dialog operation preserves this invariant.

The model keeps these quirks of the source, each stated in a contract:
- `__init__` sets only the misspelt `currenScaleFactor`. The attribute
  `currentScaleFactor` therefore does not exist until the first load, and a
  wheel or drag event before that raises `AttributeError`.
- `clearContainer` resets only the misspelt attribute, so the tracked scale
  survives a clear.
- `wheelEvent` multiplies the tracked scale even when `scaleView` refused the zoom.
- The drag guard tests the x coordinate twice and never the y coordinate.
- A cancelled second load still records a 0×0 `secondImageSize`.
- A rejected second load leaves the view's `imagePath` set.

The fit-to-view scale (image_container.py:99 and :106) uses true division
here. Under Python 2 integer division, the quotient of the two integer sizes
would be 0. The container width (image_comparator.py:69) uses floor division,
as Python 2 does for integers. Dafny's `/` agrees with that for a positive divisor.

## Model

| member | source | states |
|---|---|---|
| MovableImageScene.RemoveFirst | image_container.py:84-86 | removing an item that is in the scene shortens the list by one and takes exactly one copy of it out of the multiset of items; removing an absent item changes nothing |
| MovableImageScene.MovableImage.constructor | movable_image.py:22-29 | a new scene has no items, no drag, button name "None" and no press position, and satisfies the gesture invariant |
| MovableImageScene.MovableImage.MousePressEvent | movable_image.py:36-46 | a left press names "Left" and starts a drag; a right press names "Right"; another button keeps the name; every press records its scene position; the items do not change; the gesture invariant is kept |
| MovableImageScene.MovableImage.MouseReleaseEvent | movable_image.py:58-69 | a left release ends the drag and notifies the view; a right release sends a right-click notice; no release changes the button name, the press position or the items |
| MovableImageScene.MovableImage.RemoveItem | image_container.py:86 | the scene's list loses the first occurrence of the item |
| MovableImageScene.MovableImage.AddPixmap | image_container.py:88 | the pixmap is appended to the scene's list |
| MovableImageScene.MovableImage.Clear | image_container.py:123 | the scene holds no items |
| ImageContainer.FitToView | image_container.py:94-108 | the image is portrait exactly when strictly taller than wide; the scale lies in [0, 1]; it is 1 exactly when the view is at least as long as the image along the driving axis; it is positive when that view length is positive |
| ImageContainer.FitFillsDrivingAxis | image_container.py:98-99 | a shrinking scale makes the image exactly as long as the view along the driving axis |
| ImageContainer.ScaleStep | image_container.py:217-224 | the new scale is the candidate (old times multiplier) when the candidate lies in [0.1, 150] and the old scale otherwise; a scale within the bounds stays within them |
| ImageContainer.ZoomTraceInBounds | image_container.py:217-224 | after any sequence of wheel multipliers, a zoom that starts within [0.1, 150] stays within it |
| ImageContainer.Repeat | image_container.py:142 | n repetitions of one wheel multiplier |
| ImageContainer.RefusedZoomRepeats | image_container.py:220-221 | once a zoom step is refused, repeating the same step any number of times leaves the scale unchanged |
| ImageContainer.TrackedScaleIsProduct | image_container.py:146 | the tracked scale after a sequence of wheel events is the start scale times the product of all multipliers, whatever the bounds refused |
| ImageContainer.DragOutcome | image_container.py:191-210 | no move exactly when the previous x is not positive; AttributeError exactly when the tracked scale does not exist yet; ZeroDivisionError exactly when either scale is zero; otherwise the visible centre less the new centre, times the tracked scale, equals the pointer translation times the original scale, on each axis |
| ImageContainer.RatioTimesQuotient | image_container.py:196-200 | dividing a translation by ratio c/o and multiplying by c gives o times the translation |
| ImageContainer.FirstMoveKeepsCentre | image_container.py:180-184 | the first move after a reset has zero translation, so the broadcast centre is the visible centre |
| ImageContainer.DragGuardIgnoresY | image_container.py:191 | the guard passes exactly when x is positive, whatever y is |
| ImageContainer.ImageContainerView.constructor | image_container.py:32-58 | a new view has the initial field values, including tag -1 and no `currentScaleFactor`, and an empty fresh scene |
| ImageContainer.ImageContainerView.SetTag | image_comparator.py:78 | the view's tag is the number given |
| ImageContainer.ImageContainerView.SetGeometry | image_comparator.py:75 | the view's frame is the rectangle given |
| ImageContainer.ImageContainerView.LoadSceneForImage | image_container.py:76-115 | the view holds the file path and pixmap; the scene holds exactly that pixmap; width and height are the frame's; orientation and original scale follow the fit-to-view rule; the tracked scale equals the original scale; the image size is returned |
| ImageContainer.ImageContainerView.EstimateOriginalScale | image_container.py:92-108 | the view's width and height are the frame's, and orientation and scale are the fit-to-view rule applied to them |
| ImageContainer.ImageContainerView.RemovePreviousItems | image_container.py:84-86 | removing, one by one, every item the scene held leaves it empty |
| ImageContainer.ImageContainerView.ClearContainer | image_container.py:121-130 | the scene is empty and the display fields are back at their initial values; the tracked scale is not reset |
| ImageContainer.ImageContainerView.WheelEvent | image_container.py:146 | the tracked scale is multiplied by the wheel multiplier, or AttributeError is raised when it does not exist yet |
| ImageContainer.ImageContainerView.ProcessReleaseEvent | image_container.py:165-168 | both drag positions are forgotten |
| ImageContainer.ImageContainerView.MouseMoveEvent | image_container.py:178-210 | without a drag, nothing changes and nothing moves; during a drag, the previous position becomes the last current one (or the event's after a reset), the current one becomes the event's, and the outcome is the drag rule |
| ImageContainer.ImageContainerView.ScaleView | image_container.py:217-224 | the view's zoom takes the bounded step, and the accepted factor is recorded only when the zoom was accepted |
| ImageContainer.ImageContainerView.CenterOn | image_comparator.py:376 | the view records the point it was asked to centre on |
| ImageComparator.LayoutFrames | image_comparator.py:226-236 | the first frame has left kDialogMargin and top kGroupHeight + kControlSpacing; overlay gives both viewports the same full-width frame; side by side gives frames of equal size and top, the second kControlSpacing right of the first |
| ImageComparator.SideBySideFramesDisjoint | image_comparator.py:235-236 | side by side, no pixel lies in both viewports |
| ImageComparator.ToggledFrame | image_comparator.py:397-406 | a visible second frame collapses to height 0 in place; a collapsed one gets the first frame |
| ImageComparator.ToggleTwiceRestores | image_comparator.py:395-408 | in the overlay layout, two right clicks restore the second frame |
| ImageComparator.ComparatorDialog.constructor | image_comparator.py:66-188 | container sizes computed from the screen; no images loaded; side-by-side layout with both buttons disabled; tags 0 and 1; the side-by-side frames; both views fresh: empty scenes with no gesture, no path, no `currentScaleFactor` (so a first wheel event raises AttributeError), no drag positions, identity zoom; the dialog invariant holds |
| ImageComparator.ComparatorDialog.LayoutImages | image_comparator.py:226-236 | both viewports get the frames of the current layout |
| ImageComparator.ComparatorDialog.SetImage | image_comparator.py:244-317 | slot 0 loads the first viewport, records its size and enables both buttons; another slot loads the second viewport and keeps it when the sizes match, when the dialog was cancelled (0×0) or when the user says Yes; after a No the second viewport is cleared and no second size is recorded, while its pixmap and its tracked scale (the rejected image's fit scale) stay set; the dialog invariant is kept |
| ImageComparator.ComparatorDialog.SetFirstImage | image_comparator.py:251-266 | the first viewport holds the image; the size is recorded and both buttons are enabled |
| ImageComparator.ComparatorDialog.SetSecondImage | image_comparator.py:268-313 | the three outcomes of a second load: kept and paired, kept after a cancelled dialog, or cleared after a No with the rejected pixmap and its fit scale left in the view |
| ImageComparator.ComparatorDialog.ClearAll | image_comparator.py:323-343 | both sizes are forgotten, no pair is loaded, both buttons are disabled and both viewports are cleared; tracked scales, paths and zooms survive |
| ImageComparator.ComparatorDialog.RespondToWheel | image_comparator.py:362-364 | both viewports take the same bounded zoom step and stay in lock step; both record the accepted factor, or keep their recorded factor when the step is refused |
| ImageComparator.ComparatorDialog.RespondToPress | image_comparator.py:375-377 | both viewports centre on the same point |
| ImageComparator.ComparatorDialog.RespondToDrag | image_comparator.py:384-386 | both viewports centre on the same point |
| ImageComparator.ComparatorDialog.RespondToRightClick | image_comparator.py:395-408 | in overlay, the second frame is toggled; otherwise nothing changes |
| ImageComparator.ComparatorDialog.RadioButtonClicked | image_comparator.py:417-421 | a checked button selects its layout and re-lays out the viewports; an unchecked one changes nothing |
| ImageComparator.ComparatorDialog.WheelEventOn | image_container.py:140-146 | a wheel event zooms both viewports in lock step and records the accepted factor in both, then multiplies the receiving viewport's tracked scale or raises AttributeError; the other viewport's tracked scale is unchanged |
| ImageComparator.ComparatorDialog.MousePressOn | movable_image.py:36-46 | a press reaches the receiving viewport's scene and has the scene's effect on its three gesture fields; nothing else changes, the scene's items included |
| ImageComparator.ComparatorDialog.MouseReleaseOn | movable_image.py:58-69 | a left release ends the drag and resets that viewport's drag positions; a right release toggles the overlay frame; a middle release changes neither the positions nor the frames; no release changes the scene's button name, press position or items |
| ImageComparator.ComparatorDialog.MouseMoveOn | image_container.py:178-210 | the receiving viewport applies the drag rule, and a computed centre is broadcast to both viewports |

## Left out

- Widgets other than the viewports are not modelled: labels, group boxes, radio-button widgets and their texts. The two buttons "Image 2" and "Clear" appear only as enabled flags.
- The file dialog is replaced by the chosen file name plus the pixmap the file decodes to. A cancelled dialog is a 0×0 pixmap. `workingDir` and its update are not modelled.
- QPixmap decoding is not modelled. The decoded pixmap is a parameter of the load.
- The size-mismatch QMessageBox is replaced by the boolean answer `userSaysYes`.
- The screen geometry (`app.desktop().availableGeometry()`) becomes the constructor's parameters. The dialog's own resize is not modelled.
- ImageComparator.ComparatorDialog.constructor: requires a screen of at least 20×220 so that the container sizes are natural numbers. Qt would accept negative sizes.
- The wheel multiplier `math.pow(2.0, -delta/240.0)` is an input. `ScaleView`, `RespondToWheel` and `WheelEventOn` require it to be positive, which `math.pow` guarantees; `WheelEvent` only multiplies by it and needs no such requirement.
- `visibleRect()` (a mapping by the view's transform and scroll position) is an input of the drag handler.
- `centerOn` records only the requested point. It does not model how Qt clamps the scroll position.
- The view's transform is one real, `viewScale`. Only its horizontal scale is modelled.
- `setDragMode(ScrollHandDrag)`, `setMouseTracking`, `setScene` and `self.update()` are not modelled. They are Qt display calls with no state the model reads.
- `updateInfo` and the label texts it writes are not modelled. It only formats the visible rectangle into a label.
- The view's `containerDialog` reference and its setter are replaced by the dispatcher methods.
- The write-only attributes `second_image_size`, `roi`, `visibleRegion` and `pixelUnderMouse` are not modelled. Nothing reads them.
- The `__main__` event loop and `retranslateUi`'s signal connections are not modelled. The connections are represented by the dialog's methods.
- Floating-point rounding is not modelled. Scales and centres are exact reals.
