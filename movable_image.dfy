/**
 * The graphics scene that holds one image and captures press and release
 * gestures (movable_image.py). The scene's item list, inherited from
 * QGraphicsScene, is kept as a sequence of pixmaps.
 */
module MovableImageScene {
  import opened Wrappers
  import opened Geometry

  /** The buttons a mouse event can report. */
  datatype MouseButton = LeftButton | RightButton | MiddleButton

  /** The notification a release sends to the owning view. */
  datatype Notice = NoNotice | ReleaseNotice | RightClickNotice

  /** The three values the source stores in `pressedButton`: the strings "None", "Left" and "Right". */
  datatype ButtonName = NoneName | LeftName | RightName

  /** The gesture fields of a scene, bundled so that contracts can say they did not change. */
  datatype Gesture = Gesture(dragStarted: bool, pressedButton: ButtonName, currentPressAt: Option<Point>)

  /**
   * QGraphicsScene.removeItem: takes the first occurrence of `x` out of the
   * item list, so exactly one copy of an item in the scene goes and nothing
   * else; an item that is not in the scene leaves the list as it is.
   */
  function RemoveFirst(s: seq<Pixmap>, x: Pixmap): (r: seq<Pixmap>)
    ensures x in s ==> |r| == |s| - 1 && multiset(r) == multiset(s) - multiset{x}
    ensures x !in s ==> r == s
  {
    if s == [] then []
    else if s[0] == x then
      assert s == [s[0]] + s[1..];
      s[1..]
    else
      var r := RemoveFirst(s[1..], x);
      assert s == [s[0]] + s[1..];
      assert multiset([s[0]] + r) == multiset{s[0]} + multiset(r);
      [s[0]] + r
  }

  class MovableImage {
    /** The items of the scene, in the order they were added. */
    var items: seq<Pixmap>
    /** Scene position of the latest press of any button. */
    var currentPressAt: Option<Point>
    /** Set by a left press, cleared by a left release. */
    var dragStarted: bool
    /** "None" until the first left or right press, then the name of the latest such button. */
    var pressedButton: ButtonName

    /** A drag implies a named button, and a named button implies a recorded press position. */
    ghost predicate Valid()
      reads this
    {
      (dragStarted ==> pressedButton != NoneName) &&
      (pressedButton != NoneName ==> currentPressAt.Some?)
    }

    function GestureState(): Gesture
      reads this
    {
      Gesture(dragStarted, pressedButton, currentPressAt)
    }

    constructor ()
      ensures Valid()
      ensures items == []
      ensures !dragStarted && pressedButton == NoneName && currentPressAt == None
    {
      items := [];
      currentPressAt := None;
      dragStarted := false;
      pressedButton := NoneName;
    }

    /** A left press starts a drag, a right press is only remembered; every press records its position. */
    method MousePressEvent(button: MouseButton, scenePos: Point)
      requires Valid()
      modifies this`pressedButton, this`dragStarted, this`currentPressAt
      ensures Valid()
      ensures pressedButton == (match button
                                case LeftButton => LeftName
                                case RightButton => RightName
                                case MiddleButton => old(pressedButton))
      ensures dragStarted == (button == LeftButton || old(dragStarted))
      ensures currentPressAt == Some(scenePos)
    {
      if button == LeftButton {
        pressedButton := LeftName;
        dragStarted := true;
      }
      if button == RightButton {
        pressedButton := RightName;
      }
      currentPressAt := Some(scenePos);
    }

    /**
     * A left release ends the drag and asks the view to reset its drag
     * bookkeeping; a right release asks for a right-click response. Neither
     * resets `pressedButton` or `currentPressAt`.
     */
    method MouseReleaseEvent(button: MouseButton) returns (notice: Notice)
      requires Valid()
      modifies this`dragStarted
      ensures Valid()
      ensures dragStarted == (old(dragStarted) && button != LeftButton)
      ensures notice == (match button
                         case LeftButton => ReleaseNotice
                         case RightButton => RightClickNotice
                         case MiddleButton => NoNotice)
    {
      notice := NoNotice;
      if button == LeftButton {
        dragStarted := false;
        notice := ReleaseNotice;
      }
      if button == RightButton {
        notice := RightClickNotice;
      }
    }

    method RemoveItem(item: Pixmap)
      modifies this`items
      ensures items == RemoveFirst(old(items), item)
    {
      items := RemoveFirst(items, item);
    }

    method AddPixmap(pixmap: Pixmap)
      modifies this`items
      ensures items == old(items) + [pixmap]
    {
      items := items + [pixmap];
    }

    method Clear()
      modifies this`items
      ensures items == []
    {
      items := [];
    }
  }
}
