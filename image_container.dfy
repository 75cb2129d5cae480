/**
 * One viewport (image_container.py): the QGraphicsView that shows a
 * MovableImage, decides the fit-to-view scale when an image is loaded, keeps
 * the drag bookkeeping and turns pointer motion into a new centre.
 *
 * The view's transform is one positive real, `viewScale`; the visible
 * rectangle, which Qt derives from the transform and the scroll position, is
 * an input of the drag handler. Calls the source makes upward to the dialog
 * are returned as values (a Drag, an error) and routed by the dialog.
 */
module ImageContainer {
  import opened Wrappers
  import opened Geometry
  import opened MovableImageScene

  const kScaleFactorMin: real := 0.1
  const kScaleFactorMax: real := 150.0

  predicate InScaleBounds(s: real)
  {
    kScaleFactorMin <= s <= kScaleFactorMax
  }

  /** The Python exceptions a handler of the source can raise part-way through. */
  datatype PyError = AttributeError | ZeroDivisionError

  /** Orientation and initial scale chosen when an image is loaded. */
  datatype Fit = Fit(isPortrait: bool, factor: real)

  /**
   * The fit-to-view rule: an image is portrait exactly when it is strictly
   * taller than wide; the driving axis is the height for portrait and the
   * width otherwise, and the image is shrunk, never enlarged, to fit the view
   * along that axis. The quotient is true division; under Python 2 the
   * quotient of the two integers would be floored to 0.
   */
  function FitToView(image: Size, viewWidth: nat, viewHeight: nat): (f: Fit)
    ensures f.isPortrait <==> image.height > image.width
    ensures 0.0 <= f.factor <= 1.0
    ensures f.isPortrait ==> (f.factor == 1.0 <==> viewHeight >= image.height)
    ensures !f.isPortrait ==> (f.factor == 1.0 <==> viewWidth >= image.width)
    ensures (if f.isPortrait then viewHeight else viewWidth) > 0 ==> f.factor > 0.0
  {
    if image.height > image.width then
      Fit(true, if viewHeight < image.height then viewHeight as real / image.height as real else 1.0)
    else
      Fit(false, if viewWidth < image.width then viewWidth as real / image.width as real else 1.0)
  }

  /** A shrinking fit scale makes the image exactly as long as the view along the driving axis. */
  lemma FitFillsDrivingAxis(image: Size, viewWidth: nat, viewHeight: nat)
    ensures var f := FitToView(image, viewWidth, viewHeight);
            (f.isPortrait && viewHeight < image.height ==> f.factor * image.height as real == viewHeight as real) &&
            (!f.isPortrait && viewWidth < image.width ==> f.factor * image.width as real == viewWidth as real)
  {
  }

  /**
   * scaleView: the candidate scale is the current one times the multiplier;
   * a candidate outside [kScaleFactorMin, kScaleFactorMax] is refused and the
   * scale stays, otherwise it becomes the new scale.
   */
  function ScaleStep(scale: real, multiplier: real): (r: real)
    ensures r == scale || r == scale * multiplier
    ensures InScaleBounds(scale * multiplier) ==> r == scale * multiplier
    ensures !InScaleBounds(scale * multiplier) ==> r == scale
    ensures InScaleBounds(scale) ==> InScaleBounds(r)
  {
    var candidate := scale * multiplier;
    if candidate < kScaleFactorMin || candidate > kScaleFactorMax then scale else candidate
  }

  /** The view scale after a sequence of wheel multipliers has been broadcast to the view. */
  function ZoomTrace(scale: real, multipliers: seq<real>): real
    decreases |multipliers|
  {
    if multipliers == [] then scale else ZoomTrace(ScaleStep(scale, multipliers[0]), multipliers[1..])
  }

  /** A view scale that starts inside the bounds stays inside them, whatever the wheel does. */
  lemma {:induction false} ZoomTraceInBounds(scale: real, multipliers: seq<real>)
    requires InScaleBounds(scale)
    ensures InScaleBounds(ZoomTrace(scale, multipliers))
    decreases |multipliers|
  {
    if multipliers != [] {
      ZoomTraceInBounds(ScaleStep(scale, multipliers[0]), multipliers[1..]);
    }
  }

  function Repeat(m: real, n: nat): (r: seq<real>)
    ensures |r| == n && forall i :: 0 <= i < n ==> r[i] == m
  {
    if n == 0 then [] else [m] + Repeat(m, n - 1)
  }

  /** Once a zoom is refused, repeating the same wheel step leaves the view scale where it is. */
  lemma {:induction false} RefusedZoomRepeats(scale: real, m: real, n: nat)
    requires !InScaleBounds(scale * m)
    ensures ZoomTrace(scale, Repeat(m, n)) == scale
  {
    if n > 0 {
      assert Repeat(m, n)[1..] == Repeat(m, n - 1);
      RefusedZoomRepeats(scale, m, n - 1);
    }
  }

  function Product(multipliers: seq<real>): real
    decreases |multipliers|
  {
    if multipliers == [] then 1.0 else multipliers[0] * Product(multipliers[1..])
  }

  /** What wheelEvent does to `currentScaleFactor`: multiply, whether or not the zoom was refused. */
  function TrackedScale(scale: real, multipliers: seq<real>): real
    decreases |multipliers|
  {
    if multipliers == [] then scale else TrackedScale(scale * multipliers[0], multipliers[1..])
  }

  /**
   * The tracked scale is the start scale times the product of all
   * multipliers; unlike ZoomTrace it takes no notice of the bounds.
   */
  lemma {:induction false} TrackedScaleIsProduct(scale: real, multipliers: seq<real>)
    ensures TrackedScale(scale, multipliers) == scale * Product(multipliers)
    decreases |multipliers|
  {
    if multipliers != [] {
      var rest := multipliers[1..];
      TrackedScaleIsProduct(scale * multipliers[0], rest);
      assert scale * multipliers[0] * Product(rest) == scale * (multipliers[0] * Product(rest));
    }
  }

  /** The outcome of one pointer move while a drag is in progress. */
  datatype Drag = NoMove | MoveTo(centre: Point) | Raised(error: PyError)

  function VisibleCentre(r: RectF): Point
  {
    Point(r.x + r.width / 2.0, r.y + r.height / 2.0)
  }

  /** The guard of the drag handler, which tests the x coordinate twice and never the y coordinate. */
  predicate DragGuard(previous: Pos)
  {
    previous.x > 0 && previous.x > 0
  }

  /**
   * The new centre sent upward for a move from `previous` to `current`: the
   * visible centre less the pointer translation divided by the ratio
   * currentScaleFactor / originalScaleFactor. A missing currentScaleFactor
   * raises AttributeError and a zero divisor raises ZeroDivisionError.
   */
  function DragOutcome(previous: Pos, current: Pos, currentScale: Option<real>, originalScale: real,
                       visible: RectF): (d: Drag)
    ensures d.NoMove? <==> previous.x <= 0
    ensures d == Raised(AttributeError) <==> previous.x > 0 && currentScale.None?
    ensures d == Raised(ZeroDivisionError) <==>
              previous.x > 0 && currentScale.Some? && (originalScale == 0.0 || currentScale.value == 0.0)
    ensures d.MoveTo? ==>
              currentScale.Some? &&
              currentScale.value * (VisibleCentre(visible).x - d.centre.x) == originalScale * (current.x - previous.x) as real &&
              currentScale.value * (VisibleCentre(visible).y - d.centre.y) == originalScale * (current.y - previous.y) as real
  {
    if !DragGuard(previous) then NoMove
    else if currentScale.None? then Raised(AttributeError)
    else if originalScale == 0.0 then Raised(ZeroDivisionError)
    else
      var ratio := currentScale.value / originalScale;
      if ratio == 0.0 then Raised(ZeroDivisionError)
      else
        var tx := (current.x - previous.x) as real / ratio;
        var ty := (current.y - previous.y) as real / ratio;
        var c := VisibleCentre(visible);
        RatioTimesQuotient(currentScale.value, originalScale, (current.x - previous.x) as real);
        RatioTimesQuotient(currentScale.value, originalScale, (current.y - previous.y) as real);
        MoveTo(Point(c.x - tx, c.y - ty))
  }

  /** c * (t / (c / o)) == o * t for non-zero c and o. */
  lemma RatioTimesQuotient(c: real, o: real, t: real)
    requires c != 0.0 && o != 0.0
    ensures c * (t / (c / o)) == o * t
  {
  }

  /** On the first move after a reset `previous` equals `current`, so the centre sent upward is the visible centre. */
  lemma FirstMoveKeepsCentre(p: Pos, c: real, o: real, visible: RectF)
    requires p.x > 0 && c != 0.0 && o != 0.0
    ensures DragOutcome(p, p, Some(c), o, visible) == MoveTo(VisibleCentre(visible))
  {
  }

  /** The guard lets a previous position through whatever its y coordinate is. */
  lemma DragGuardIgnoresY(x: int, y: int)
    ensures DragGuard(Pos(x, y)) <==> x > 0
  {
  }

  class ImageContainerView {
    /** The MovableImage created with the view; the view never replaces it. */
    const scene: MovableImage
    /** Identification tag, -1 until the dialog numbers the view. */
    var tag: int
    /** The widget frame the dialog last gave to `setGeometry`. */
    var geometry: Rect
    var imagePath: Option<string>
    var image: Option<Pixmap>
    var currentPos: Option<Pos>
    var previousPos: Option<Pos>
    var sceneCenter: Option<Point>
    var width: nat
    var height: nat
    var originalScaleFactor: real
    var isPortrait: bool
    /** The misspelt attribute that `__init__` and `clearContainer` set; nothing reads it. */
    var currenScaleFactor: real
    /** Absent until the first load, because `__init__` sets only the misspelt attribute. */
    var currentScaleFactor: Option<real>
    /** The scale of the view's transform. */
    var viewScale: real
    /** The last scale `scaleView` accepted; absent until one is accepted. */
    var scaleFactor: Option<real>
    /** The point the view was last asked to centre on. */
    var centredOn: Option<Point>

    ghost predicate Valid()
      reads this, scene
    {
      scene.Valid() && InScaleBounds(viewScale) && 0.0 <= originalScaleFactor <= 1.0
    }

    /** The state `loadSceneForImage(filePath)` leaves when the file decodes to `decoded`. */
    ghost predicate Holds(filePath: string, decoded: Pixmap)
      reads this, scene
    {
      imagePath == Some(filePath) && image == Some(decoded) &&
      scene.items == [decoded] &&
      width == geometry.width && height == geometry.height &&
      Fit(isPortrait, originalScaleFactor) == FitToView(decoded.size, width, height) &&
      currentScaleFactor == Some(originalScaleFactor)
    }

    /**
     * The navigation state of a view no image has been loaded into: an empty
     * scene with no gesture recorded, no path, no image, no
     * `currentScaleFactor`, no drag positions, the identity zoom with no
     * accepted factor, and no requested centre.
     */
    ghost predicate IsFresh()
      reads this, scene
    {
      scene.items == [] && viewScale == 1.0 &&
      imagePath == None && image == None && currentScaleFactor == None &&
      currentPos == None && previousPos == None && scaleFactor == None && centredOn == None &&
      scene.GestureState() == Gesture(false, NoneName, None)
    }

    /** The state `clearContainer` leaves. */
    ghost predicate IsCleared()
      reads this, scene
    {
      scene.items == [] && sceneCenter == None && width == 0 && height == 0 &&
      originalScaleFactor == 1.0 && isPortrait && currenScaleFactor == 1.0
    }

    constructor ()
      ensures Valid() && fresh(scene) && IsFresh()
      ensures scene.items == [] && scene.GestureState() == Gesture(false, NoneName, None)
      ensures tag == -1 && imagePath == None && image == None
      ensures currentPos == None && previousPos == None && sceneCenter == None
      ensures width == 0 && height == 0 && originalScaleFactor == 1.0 && isPortrait
      ensures currenScaleFactor == 1.0 && currentScaleFactor == None
      ensures viewScale == 1.0 && scaleFactor == None && centredOn == None
    {
      scene := new MovableImage();
      tag := -1;
      geometry := Rect(0, 0, 0, 0);
      imagePath := None;
      image := None;
      currentPos := None;
      previousPos := None;
      sceneCenter := None;
      width := 0;
      height := 0;
      originalScaleFactor := 1.0;
      isPortrait := true;
      currenScaleFactor := 1.0;
      currentScaleFactor := None;
      viewScale := 1.0;
      scaleFactor := None;
      centredOn := None;
    }

    method SetTag(t: int)
      modifies this`tag
      ensures tag == t
    {
      tag := t;
    }

    method SetGeometry(r: Rect)
      modifies this`geometry
      ensures geometry == r
    {
      geometry := r;
    }

    /**
     * loadSceneForImage: removes every item of the scene, adds the decoded
     * pixmap, classifies it and computes the fit scale from the current
     * geometry, and returns the image size.
     */
    method LoadSceneForImage(filePath: string, decoded: Pixmap) returns (size: Size)
      requires Valid()
      modifies this`imagePath, this`image, this`width, this`height, this`isPortrait, this`originalScaleFactor
      modifies this`currentScaleFactor, scene`items
      ensures Valid()
      ensures size == decoded.size
      ensures Holds(filePath, decoded)
    {
      imagePath, image := Some(filePath), Some(decoded);
      RemovePreviousItems();
      scene.AddPixmap(decoded);
      EstimateOriginalScale(decoded.size);
      currentScaleFactor := Some(originalScaleFactor);
      size := decoded.size;
    }

    /** The block of loadSceneForImage that reads the view's size and applies the fit-to-view rule. */
    method EstimateOriginalScale(imageSize: Size)
      modifies this`width, this`height, this`isPortrait, this`originalScaleFactor
      ensures width == geometry.width && height == geometry.height
      ensures Fit(isPortrait, originalScaleFactor) == FitToView(imageSize, width, height)
    {
      width, height := geometry.width, geometry.height;
      var fit := FitToView(imageSize, width, height);
      isPortrait, originalScaleFactor := fit.isPortrait, fit.factor;
    }

    /** The loop of loadSceneForImage that removes, one by one, every item the scene holds. */
    method RemovePreviousItems()
      modifies scene`items
      ensures scene.items == []
    {
      var itemset := scene.items;
      for i := 0 to |itemset|
        invariant scene.items == itemset[i..]
      {
        scene.RemoveItem(itemset[i]);
      }
    }

    /**
     * clearContainer: empties the scene and resets the display fields. It
     * resets the misspelt `currenScaleFactor`, so `currentScaleFactor`, the
     * image path, the image and the view's transform survive.
     */
    method ClearContainer()
      requires Valid()
      modifies this`sceneCenter, this`width, this`height, this`originalScaleFactor, this`isPortrait
      modifies this`currenScaleFactor, scene`items
      ensures Valid()
      ensures IsCleared()
    {
      scene.Clear();
      sceneCenter, width, height := None, 0, 0;
      originalScaleFactor, isPortrait, currenScaleFactor := 1.0, true, 1.0;
    }

    /**
     * The part of wheelEvent that follows the upward `respondToWheel` call:
     * `currentScaleFactor` is multiplied even when the zoom was refused.
     * Before the first load the attribute does not exist and the
     * multiplication raises AttributeError.
     */
    method WheelEvent(multiplier: real) returns (raised: Option<PyError>)
      modifies this`currentScaleFactor
      ensures old(currentScaleFactor).None? ==> currentScaleFactor == None && raised == Some(AttributeError)
      ensures old(currentScaleFactor).Some? ==>
                currentScaleFactor.Some? && currentScaleFactor.value == old(currentScaleFactor).value * multiplier &&
                raised == None
    {
      if currentScaleFactor.None? {
        raised := Some(AttributeError);
      } else {
        currentScaleFactor := Some(currentScaleFactor.value * multiplier);
        raised := None;
      }
    }

    /** processReleaseEvent: forgets both drag positions and nothing else. */
    method ProcessReleaseEvent()
      modifies this`currentPos, this`previousPos
      ensures currentPos == None && previousPos == None
    {
      currentPos := None;
      previousPos := None;
    }

    /**
     * mouseMoveEvent: ignored unless the scene has a drag in progress; then
     * the previous position becomes the last current one (or the event's own
     * position after a reset), the current position becomes the event's, and
     * the outcome is the new centre to broadcast, nothing, or an error.
     */
    method MouseMoveEvent(eventPos: Pos, visible: RectF) returns (drag: Drag)
      modifies this`currentPos, this`previousPos
      ensures !scene.dragStarted ==>
                drag == NoMove && currentPos == old(currentPos) && previousPos == old(previousPos)
      ensures scene.dragStarted ==>
                previousPos == (if old(currentPos).Some? then old(currentPos) else Some(eventPos)) &&
                currentPos == Some(eventPos) &&
                drag == DragOutcome(previousPos.value, eventPos, currentScaleFactor, originalScaleFactor, visible)
    {
      drag := NoMove;
      if scene.dragStarted {
        if currentPos.Some? {
          previousPos := currentPos;
        } else {
          previousPos := Some(eventPos);
        }
        currentPos := Some(eventPos);
        drag := DragOutcome(previousPos.value, eventPos, currentScaleFactor, originalScaleFactor, visible);
      }
    }

    /** scaleView: applies the multiplier to the view's transform unless the result leaves the bounds. */
    method ScaleView(multiplier: real)
      requires Valid()
      requires multiplier > 0.0
      modifies this`viewScale, this`scaleFactor
      ensures Valid()
      ensures viewScale == ScaleStep(old(viewScale), multiplier)
      ensures scaleFactor == if InScaleBounds(old(viewScale) * multiplier) then Some(viewScale) else old(scaleFactor)
    {
      var factor := viewScale * multiplier;
      if factor < kScaleFactorMin || factor > kScaleFactorMax {
        return;
      }
      scaleFactor := Some(factor);
      viewScale := factor;
    }

    /** QGraphicsView.centerOn: only the requested point is recorded. */
    method CenterOn(point: Point)
      modifies this`centredOn
      ensures centredOn == Some(point)
    {
      centredOn := Some(point);
    }
  }
}
