/** The AutoSizeText component of client/src/components/AutoSizeText/AutoSizeText.tsx:
    fitText, which searches for the font size at which the text fills its
    container's width, and the component's effect, which runs fitText on mount
    and on every window resize and keeps one resize listener registered while
    the component is mounted. The DOM is modelled by the element's two inputs to
    layout (its font size and its parent's width) and by a measurement function
    render, render(s) being the element's scrollWidth at font size s px. */
module AutoSize {
  import opened Options
  import opened AutoFit

  /** The text element: its inline font size in px and its parent's clientWidth,
      None when the element has no parent. */
  class TextElement {
    var fontSize: int
    var containerWidth: Option<nat>

    constructor (width: Option<nat>, size: int)
      ensures containerWidth == width && fontSize == size
    {
      containerWidth := width;
      fontSize := size;
    }
  }

  /** fitText: without a parent or with a zero-width parent nothing changes;
      otherwise every probe is written to the font size and measured, and the
      size applied at the end is the best one that fitted (1 when none did). */
  method FitText(e: TextElement, render: int -> int)
    modifies e
    ensures e.containerWidth == old(e.containerWidth)
    ensures e.containerWidth.None? || e.containerWidth.value == 0 ==> e.fontSize == old(e.fontSize)
    ensures e.containerWidth.Some? && e.containerWidth.value > 0 ==>
      e.fontSize == FitSize(render, e.containerWidth.value)
  {
    if e.containerWidth.None? {
      return;
    }
    var w := e.containerWidth.value;
    if w == 0 {
      return;
    }
    var lo: int, hi: int := 1, w;
    var best: int := lo;
    while lo <= hi
      invariant BinarySearch(render, w, lo, hi, best) == FitSize(render, w)
      invariant e.containerWidth == old(e.containerWidth)
      decreases hi - lo + 1
    {
      var mid := (lo + hi) / 2;
      e.fontSize := mid;
      var fits := render(e.fontSize) <= w;
      if fits {
        best := mid;
        lo := mid + 1;
      } else {
        hi := mid - 1;
      }
    }
    e.fontSize := best;
  }

  /** One mounted AutoSizeText. render measures the current boldText and
      regularText; resizeListeners are the window "resize" handlers this
      component has registered, each effect run creating a new handler; active
      is the handler the effect run in force registered, which its cleanup
      removes. */
  class AutoSizeText {
    const element: TextElement
    var render: int -> int
    var resizeListeners: seq<nat>
    var active: Option<nat>
    var nextHandler: nat

    /** Exactly the active run's handler is registered, and no other. */
    ghost predicate Valid()
      reads this
    {
      && resizeListeners == (if active.Some? then [active.value] else [])
      && (active.Some? ==> active.value < nextHandler)
    }

    predicate Mounted()
      reads this
    {
      active.Some?
    }

    /** Runs the effect: fit once, then register a new resize handler. */
    method RunEffect()
      requires resizeListeners == [] && active.None?
      modifies this, element
      ensures Valid() && Mounted()
      ensures resizeListeners == [old(nextHandler)] && nextHandler == old(nextHandler) + 1
      ensures render == old(render)
      ensures element.containerWidth == old(element.containerWidth)
      ensures element.containerWidth.None? || element.containerWidth.value == 0 ==>
        element.fontSize == old(element.fontSize)
      ensures element.containerWidth.Some? && element.containerWidth.value > 0 ==>
        element.fontSize == FitSize(render, element.containerWidth.value)
    {
      FitText(element, render);
      var handler := nextHandler;
      nextHandler := nextHandler + 1;
      resizeListeners := resizeListeners + [handler];
      active := Some(handler);
    }

    /** The effect's cleanup: remove the handler its run registered. */
    method Cleanup()
      requires Valid() && Mounted()
      modifies this
      ensures Valid() && !Mounted()
      ensures resizeListeners == [] && |old(resizeListeners)| == 1
      ensures render == old(render) && nextHandler == old(nextHandler)
    {
      var handler := active.value;
      resizeListeners := RemoveHandler(resizeListeners, handler);
      active := None;
    }

    /** Mount: the element is in place (its parent's width and the stylesheet's
        font size given) and the effect runs. */
    constructor Mount(width: Option<nat>, size: int, measure: int -> int)
      ensures Valid() && Mounted() && |resizeListeners| == 1
      ensures fresh(element) && render == measure
      ensures element.containerWidth == width
      ensures width.None? || width.value == 0 ==> element.fontSize == size
      ensures width.Some? && width.value > 0 ==> element.fontSize == FitSize(measure, width.value)
    {
      element := new TextElement(width, size);
      render := measure;
      resizeListeners := [];
      active := None;
      nextHandler := 0;
      new;
      RunEffect();
    }

    /** New boldText or regularText: the old run is cleaned up and the effect
        runs again for the new measurement. */
    method UpdateText(measure: int -> int)
      requires Valid() && Mounted()
      modifies this, element
      ensures Valid() && Mounted() && |resizeListeners| == 1
      ensures resizeListeners == [old(nextHandler)] && nextHandler == old(nextHandler) + 1
      ensures render == measure
      ensures element.containerWidth == old(element.containerWidth)
      ensures element.containerWidth.None? || element.containerWidth.value == 0 ==>
        element.fontSize == old(element.fontSize)
      ensures element.containerWidth.Some? && element.containerWidth.value > 0 ==>
        element.fontSize == FitSize(measure, element.containerWidth.value)
    {
      Cleanup();
      render := measure;
      RunEffect();
    }

    /** The window is resized and the parent now has the given width: every
        registered handler refits the text. */
    method WindowResize(width: Option<nat>)
      requires Valid()
      modifies element
      ensures element.containerWidth == width
      ensures !Mounted() || width.None? || width.value == 0 ==> element.fontSize == old(element.fontSize)
      ensures Mounted() && width.Some? && width.value > 0 ==> element.fontSize == FitSize(render, width.value)
    {
      element.containerWidth := width;
      if |resizeListeners| > 0 {
        FitText(element, render);
      }
    }

    /** Unmount: the cleanup removes the listener, so none is left behind. */
    method Unmount()
      requires Valid() && Mounted()
      modifies this
      ensures Valid() && !Mounted() && resizeListeners == []
    {
      Cleanup();
    }
  }

  /** window.removeEventListener: drop every registration of the handler. */
  function RemoveHandler(listeners: seq<nat>, handler: nat): (r: seq<nat>)
    ensures forall h :: h in r <==> h in listeners && h != handler
    ensures |r| <= |listeners|
  {
    if listeners == [] then []
    else if listeners[0] == handler then RemoveHandler(listeners[1..], handler)
    else [listeners[0]] + RemoveHandler(listeners[1..], handler)
  }
}
