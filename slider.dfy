/**
 * The before/after comparison slider: its `sliderPosition` and `isResizing`
 * state, the pointer handlers, and the window listeners its effect keeps.
 * Coordinates are exact reals; the container's width is required to be
 * positive (a zero-width container would divide by zero).
 */
module ComparisonSlider {

  import opened Wrappers

  /** The part of the container's bounding box the handler reads. */
  datatype Rect = Rect(left: real, width: real)

  /** A mouse event carries `clientX`; a touch event the `clientX` of each touch. */
  datatype PointerEvent = MouseEvent(clientX: real) | TouchEvent(touches: seq<real>)

  /** The four window listeners the effect manages. */
  datatype Listener = MouseMove | MouseUp | TouchMove | TouchEnd

  const ALL_LISTENERS: set<Listener> := {MouseMove, MouseUp, TouchMove, TouchEnd}

  const INITIAL_POSITION: real := 50.0

  /** The four listeners are all the listeners there are. */
  lemma AllListenersComplete(ls: set<Listener>)
    ensures ls <= ALL_LISTENERS
  {
    forall l | l in ls
      ensures l in ALL_LISTENERS
    {
      match l
      case MouseMove =>
      case MouseUp =>
      case TouchMove =>
      case TouchEnd =>
    }
  }

  /** A touch event has at least one touch; the handler reads the first. */
  predicate WellFormed(e: PointerEvent)
  {
    e.TouchEvent? ==> |e.touches| > 0
  }

  /** The pointer's x coordinate: the first touch's for a touch event. */
  function ClientX(e: PointerEvent): (x: real)
    requires WellFormed(e)
    ensures e.MouseEvent? ==> x == e.clientX
    ensures e.TouchEvent? ==> x == e.touches[0]
  {
    match e
    case MouseEvent(x) => x
    case TouchEvent(touches) => touches[0]
  }

  /** The pointer's offset into the container, clamped into [0, width]. */
  function ClampedOffset(clientX: real, rect: Rect): (x: real)
    requires rect.width > 0.0
    ensures 0.0 <= x <= rect.width
    ensures clientX <= rect.left ==> x == 0.0
    ensures clientX >= rect.left + rect.width ==> x == rect.width
    ensures rect.left <= clientX <= rect.left + rect.width ==> x == clientX - rect.left
  {
    var m := if clientX - rect.left < rect.width then clientX - rect.left else rect.width;
    if 0.0 < m then m else 0.0
  }

  /** The divider's position, in percent of the container's width. */
  function Position(clientX: real, rect: Rect): (p: real)
    requires rect.width > 0.0
    ensures 0.0 <= p <= 100.0
    ensures clientX <= rect.left ==> p == 0.0
    ensures clientX >= rect.left + rect.width ==> p == 100.0
  {
    var x := ClampedOffset(clientX, rect);
    DivisionBounds(x, rect.width);
    (x / rect.width) * 100.0
  }

  /** For 0 <= x <= w, x / w lies in [0, 1]. */
  lemma DivisionBounds(x: real, w: real)
    requires w > 0.0 && 0.0 <= x <= w
    ensures 0.0 <= x / w <= 1.0
    ensures x == w ==> x / w == 1.0
  {
  }

  /** Moving the pointer right never moves the divider left. */
  lemma PositionMonotone(x1: real, x2: real, rect: Rect)
    requires rect.width > 0.0 && x1 <= x2
    ensures Position(x1, rect) <= Position(x2, rect)
  {
    var c1, c2 := ClampedOffset(x1, rect), ClampedOffset(x2, rect);
    assert c1 <= c2;
    assert c2 / rect.width - c1 / rect.width == (c2 - c1) / rect.width;
  }

  /** Inside the container the position is exact: converting it back to pixels gives the pointer. */
  lemma PositionInverse(clientX: real, rect: Rect)
    requires rect.width > 0.0 && rect.left <= clientX <= rect.left + rect.width
    ensures rect.left + Position(clientX, rect) / 100.0 * rect.width == clientX
  {
  }

  /** A touch is handled exactly like a mouse event at the first touch's x. */
  lemma TouchLikeMouse(x: real, rest: seq<real>, rect: Rect)
    requires rect.width > 0.0
    ensures ClientX(TouchEvent([x] + rest)) == ClientX(MouseEvent(x))
    ensures Position(ClientX(TouchEvent([x] + rest)), rect) == Position(x, rect)
  {
  }

  /** The listeners the effect leaves attached for a given `isResizing`. */
  function AttachedListeners(isResizing: bool): (ls: set<Listener>)
    ensures ls != {} <==> isResizing
    ensures isResizing ==> ls == ALL_LISTENERS
  {
    if isResizing then ALL_LISTENERS else {}
  }

  class Slider {
    var sliderPosition: real
    var isResizing: bool
    var listeners: set<Listener>   // listeners currently attached to the window

    ghost predicate Valid()
      reads this
    {
      && 0.0 <= sliderPosition <= 100.0
      && listeners == AttachedListeners(isResizing)
    }

    constructor ()
      ensures Valid()
      ensures sliderPosition == INITIAL_POSITION && !isResizing && listeners == {}
    {
      sliderPosition := INITIAL_POSITION;
      isResizing := false;
      listeners := {};
    }

    /** The effect after a render: its previous cleanup removes all four listeners, then it attaches all four while resizing. */
    method RunEffect()
      modifies this
      ensures listeners == AttachedListeners(isResizing)
      ensures sliderPosition == old(sliderPosition) && isResizing == old(isResizing)
    {
      listeners := listeners - {MouseMove};
      listeners := listeners - {MouseUp};
      listeners := listeners - {TouchMove};
      listeners := listeners - {TouchEnd};
      AllListenersComplete(old(listeners));
      assert listeners == {};
      if isResizing {
        listeners := listeners + {MouseMove};
        listeners := listeners + {MouseUp};
        listeners := listeners + {TouchMove};
        listeners := listeners + {TouchEnd};
      }
    }

    /** `handleMouseDown` (mouse down or touch start on the handle), followed by the effect. */
    method HandleMouseDown()
      requires Valid()
      modifies this
      ensures Valid()
      ensures isResizing && listeners == ALL_LISTENERS && sliderPosition == old(sliderPosition)
    {
      isResizing := true;
      RunEffect();
    }

    /** `handleMouseUp` (mouse up or touch end anywhere on the window), followed by the effect. */
    method HandleMouseUp()
      requires Valid()
      modifies this
      ensures Valid()
      ensures !isResizing && listeners == {} && sliderPosition == old(sliderPosition)
    {
      isResizing := false;
      RunEffect();
    }

    /**
     * `handleMouseMove` (mouse move or touch move): ignored unless resizing
     * and mounted in a container; otherwise the divider follows the pointer.
     */
    method HandleMouseMove(e: PointerEvent, container: Option<Rect>)
      requires Valid() && WellFormed(e)
      requires container.Some? ==> container.value.width > 0.0
      modifies this
      ensures Valid()
      ensures isResizing == old(isResizing) && listeners == old(listeners)
      ensures sliderPosition ==
        if old(isResizing) && container.Some? then Position(ClientX(e), container.value)
        else old(sliderPosition)
    {
      if !isResizing || container.None? {
        return;
      }
      var rect := container.value;
      var clientX := ClientX(e);
      var x := ClampedOffset(clientX, rect);
      var percentage := (x / rect.width) * 100.0;
      sliderPosition := percentage;
    }

    /** Unmounting runs the last cleanup, which removes all four listeners. */
    method Unmount()
      modifies this
      ensures listeners == {}
      ensures sliderPosition == old(sliderPosition) && isResizing == old(isResizing)
    {
      AllListenersComplete(listeners);
      listeners := listeners - ALL_LISTENERS;
    }
  }
}
