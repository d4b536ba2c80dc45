/**
 * The zoom-and-pan controller of the section view. It keeps a scale and a
 * viewBox, re-reads the SVG element's `viewBox` attribute before every zoom
 * (so the attribute the renderer last wrote is adopted), writes the attribute
 * back after every change, and pans by dragging with the left button.
 * Mouse events and the container rectangle become method parameters.
 */
module Viewport {
  import opened Section

  datatype ViewBox = ViewBox(x: real, y: real, width: real, height: real)

  datatype ScreenPoint = ScreenPoint(x: real, y: real)

  const MinScale: real := 0.1
  const MaxScale: real := 10.0
  const ZoomFactor: real := 1.15

  function Clamp(lo: real, hi: real, v: real): (r: real)
    requires lo <= hi
    ensures lo <= r <= hi
    ensures lo <= v <= hi ==> r == v
  {
    if v < lo then lo else if v > hi then hi else v
  }

  function Center(v: ViewBox): (real, real)
  {
    (v.x + v.width / 2.0, v.y + v.height / 2.0)
  }

  /** The view after zooming from `scale` to `newScale` about its centre. */
  function ZoomAboutCenter(v: ViewBox, scale: real, newScale: real): (r: ViewBox)
    requires newScale > 0.0
    ensures Center(r) == Center(v)
    ensures r.width * newScale == v.width * scale && r.height * newScale == v.height * scale
  {
    var ratio := scale / newScale;
    var w := v.width * ratio;
    var h := v.height * ratio;
    ViewBox(v.x + v.width / 2.0 - w / 2.0, v.y + v.height / 2.0 - h / 2.0, w, h)
  }

  /** `screenToSvg`: the SVG point shown at a position of a container of the given size. */
  function ScreenToSvg(v: ViewBox, sx: real, sy: real, rectW: real, rectH: real): (real, real)
    requires rectW > 0.0 && rectH > 0.0
  {
    (v.x + sx * (v.width / rectW), v.y + sy * (v.height / rectH))
  }

  /** The view after zooming from `scale` to `newScale` about the SVG point `(px, py)`. */
  function ZoomAboutPoint(v: ViewBox, scale: real, newScale: real, px: real, py: real): ViewBox
    requires newScale > 0.0
  {
    var ratio := scale / newScale;
    ViewBox(v.x + (px - v.x) * (1.0 - ratio), v.y + (py - v.y) * (1.0 - ratio), v.width * ratio, v.height * ratio)
  }

  /**
   * Wheel zoom keeps the drawing point under the cursor under the cursor,
   * and keeps `width * scale` and `height * scale`.
   */
  lemma WheelZoomKeepsCursorPoint(v: ViewBox, scale: real, newScale: real, sx: real, sy: real, rectW: real, rectH: real)
    requires newScale > 0.0 && rectW > 0.0 && rectH > 0.0
    ensures var p := ScreenToSvg(v, sx, sy, rectW, rectH);
            var r := ZoomAboutPoint(v, scale, newScale, p.0, p.1);
            ScreenToSvg(r, sx, sy, rectW, rectH) == p
            && r.width * newScale == v.width * scale && r.height * newScale == v.height * scale
  {
    var ratio := scale / newScale;
    var a := v.width / rectW;
    var b := v.height / rectH;
    var p := ScreenToSvg(v, sx, sy, rectW, rectH);
    var r := ZoomAboutPoint(v, scale, newScale, p.0, p.1);
    assert r.width / rectW == a * ratio;
    assert r.height / rectH == b * ratio;
    assert r.x == v.x + sx * a * (1.0 - ratio);
    assert r.y == v.y + sy * b * (1.0 - ratio);
    assert sx * a * (1.0 - ratio) + sx * (a * ratio) == sx * a;
    assert sy * b * (1.0 - ratio) + sy * (b * ratio) == sy * b;
    assert ratio * newScale == scale;
    assert r.width * newScale == v.width * (ratio * newScale);
    assert r.height * newScale == v.height * (ratio * newScale);
    assert r.x + sx * (r.width / rectW) == p.0;
    assert r.y + sy * (r.height / rectH) == p.1;
    assert ScreenToSvg(r, sx, sy, rectW, rectH).0 == p.0;
    assert ScreenToSvg(r, sx, sy, rectW, rectH).1 == p.1;
  }

  /** Zooming in then out about the centre returns to the same view when neither step was clamped. */
  lemma ZoomInOutRoundTrip(v: ViewBox, scale: real)
    requires scale > 0.0
    ensures ZoomAboutCenter(ZoomAboutCenter(v, scale, scale * ZoomFactor), scale * ZoomFactor, scale) == v
  {
    var r := ZoomAboutCenter(v, scale, scale * ZoomFactor);
    assert r.width == v.width / ZoomFactor && r.height == v.height / ZoomFactor;
  }

  class ZoomPan {
    var scale: real
    var viewBox: ViewBox
    var originalViewBox: Option<ViewBox>
    var isPanning: bool
    var startPoint: ScreenPoint
    var startViewBox: (real, real)
    /** The `viewBox` attribute of the SVG element: written by the renderer and by `updateViewBox`. */
    var attribute: Option<ViewBox>

    predicate Valid()
      reads this
    {
      MinScale <= scale <= MaxScale
    }

    /** The constructor ends with `saveOriginalViewBox`. */
    constructor(attr: Option<ViewBox>)
      ensures Valid() && scale == 1.0 && !isPanning && attribute == attr
      ensures viewBox == (if attr.Some? then attr.value else ViewBox(0.0, 0.0, 0.0, 0.0))
      ensures originalViewBox == attr
    {
      scale := 1.0;
      isPanning := false;
      startPoint := ScreenPoint(0.0, 0.0);
      startViewBox := (0.0, 0.0);
      attribute := attr;
      viewBox := if attr.Some? then attr.value else ViewBox(0.0, 0.0, 0.0, 0.0);
      originalViewBox := attr;
    }

    /** The renderer draws a new section and sets the attribute to fit it. */
    method SetAttribute(v: ViewBox)
      modifies this
      ensures attribute == Some(v)
      ensures scale == old(scale) && viewBox == old(viewBox) && originalViewBox == old(originalViewBox)
      ensures isPanning == old(isPanning) && startPoint == old(startPoint) && startViewBox == old(startViewBox)
    {
      attribute := Some(v);
    }

    /** `saveOriginalViewBox`: adopt the attribute as both the current and the original view, if it is set. */
    method SaveOriginalViewBox()
      modifies this
      ensures attribute.Some? ==> viewBox == attribute.value && originalViewBox == attribute
      ensures attribute.None? ==> viewBox == old(viewBox) && originalViewBox == old(originalViewBox)
      ensures scale == old(scale) && attribute == old(attribute)
      ensures isPanning == old(isPanning) && startPoint == old(startPoint) && startViewBox == old(startViewBox)
    {
      if attribute.Some? {
        viewBox := attribute.value;
        originalViewBox := attribute;
      }
    }

    /** The view a zoom starts from: the attribute when it is set, the current view otherwise. */
    function Saved(): ViewBox
      reads this
    {
      if attribute.Some? then attribute.value else viewBox
    }

    /**
     * `handleWheel`: scroll down zooms out by the factor, anything else zooms
     * in, clamped to the scale bounds; a clamped scale equal to the current
     * one changes nothing further; otherwise the view zooms about the cursor.
     */
    method HandleWheel(deltaY: real, mouse: ScreenPoint, rectW: real, rectH: real)
      requires Valid() && rectW > 0.0 && rectH > 0.0
      modifies this
      ensures Valid()
      ensures var base := old(Saved());
              var newScale := Clamp(MinScale, MaxScale, old(scale) * (if deltaY > 0.0 then 1.0 / ZoomFactor else ZoomFactor));
              if (old(attribute).None? && old(originalViewBox).None?) || newScale == old(scale) then
                scale == old(scale) && viewBox == base && attribute == old(attribute)
              else
                var p := ScreenToSvg(base, mouse.x, mouse.y, rectW, rectH);
                scale == newScale && viewBox == ZoomAboutPoint(base, old(scale), newScale, p.0, p.1) && attribute == Some(viewBox)
      ensures originalViewBox == if old(attribute).Some? then old(attribute) else old(originalViewBox)
      ensures isPanning == old(isPanning) && startPoint == old(startPoint) && startViewBox == old(startViewBox)
    {
      SaveOriginalViewBox();
      if originalViewBox.None? {
        return;
      }
      var p := ScreenToSvg(viewBox, mouse.x, mouse.y, rectW, rectH);
      var delta := if deltaY > 0.0 then 1.0 / ZoomFactor else ZoomFactor;
      var newScale := Clamp(MinScale, MaxScale, scale * delta);
      if newScale == scale {
        return;
      }
      viewBox := ZoomAboutPoint(viewBox, scale, newScale, p.0, p.1);
      scale := newScale;
      attribute := Some(viewBox);
    }

    /** `handleMouseDown`: only the left button starts a pan, remembering the cursor and the view origin. */
    method HandleMouseDown(button: int, client: ScreenPoint)
      modifies this
      ensures button == 0 ==> isPanning && startPoint == client && startViewBox == (viewBox.x, viewBox.y)
      ensures button != 0 ==> isPanning == old(isPanning) && startPoint == old(startPoint) && startViewBox == old(startViewBox)
      ensures scale == old(scale) && viewBox == old(viewBox) && originalViewBox == old(originalViewBox) && attribute == old(attribute)
    {
      if button != 0 {
        return;
      }
      isPanning := true;
      startPoint := client;
      startViewBox := (viewBox.x, viewBox.y);
    }

    /**
     * `handleMouseMove`: nothing unless panning; otherwise the origin moves
     * against the drag, scaled from screen to drawing units, and the size is kept.
     */
    method HandleMouseMove(client: ScreenPoint, rectW: real, rectH: real)
      requires rectW > 0.0 && rectH > 0.0
      modifies this
      ensures !old(isPanning) ==> viewBox == old(viewBox) && attribute == old(attribute)
      ensures old(isPanning) ==>
                viewBox == ViewBox(startViewBox.0 - (client.x - startPoint.x) * (old(viewBox).width / rectW),
                                   startViewBox.1 - (client.y - startPoint.y) * (old(viewBox).height / rectH),
                                   old(viewBox).width, old(viewBox).height)
                && attribute == Some(viewBox)
      ensures scale == old(scale) && originalViewBox == old(originalViewBox)
      ensures isPanning == old(isPanning) && startPoint == old(startPoint) && startViewBox == old(startViewBox)
    {
      if !isPanning {
        return;
      }
      var dx := client.x - startPoint.x;
      var dy := client.y - startPoint.y;
      var nx := startViewBox.0 - dx * (viewBox.width / rectW);
      var ny := startViewBox.1 - dy * (viewBox.height / rectH);
      viewBox := ViewBox(nx, ny, viewBox.width, viewBox.height);
      attribute := Some(viewBox);
    }

    /** `handleMouseUp` and `handleMouseLeave` both end a pan. */
    method HandleMouseUp()
      modifies this
      ensures !isPanning
      ensures scale == old(scale) && viewBox == old(viewBox) && originalViewBox == old(originalViewBox) && attribute == old(attribute)
      ensures startPoint == old(startPoint) && startViewBox == old(startViewBox)
    {
      isPanning := false;
    }

    /** `zoomIn`: up by the factor, capped at the largest scale, about the centre. */
    method ZoomIn()
      requires Valid()
      modifies this
      ensures Valid()
      ensures scale == if old(scale) * ZoomFactor <= MaxScale then old(scale) * ZoomFactor else MaxScale
      ensures viewBox == ZoomAboutCenter(old(Saved()), old(scale), scale) && attribute == Some(viewBox)
      ensures Center(viewBox) == Center(old(Saved()))
      ensures viewBox.width * scale == old(Saved()).width * old(scale)
      ensures originalViewBox == if old(attribute).Some? then old(attribute) else old(originalViewBox)
      ensures isPanning == old(isPanning) && startPoint == old(startPoint) && startViewBox == old(startViewBox)
    {
      SaveOriginalViewBox();
      var newScale := if scale * ZoomFactor <= MaxScale then scale * ZoomFactor else MaxScale;
      viewBox := ZoomAboutCenter(viewBox, scale, newScale);
      scale := newScale;
      attribute := Some(viewBox);
    }

    /** `zoomOut`: down by the factor, floored at the smallest scale, about the centre. */
    method ZoomOut()
      requires Valid()
      modifies this
      ensures Valid()
      ensures scale == if old(scale) / ZoomFactor >= MinScale then old(scale) / ZoomFactor else MinScale
      ensures viewBox == ZoomAboutCenter(old(Saved()), old(scale), scale) && attribute == Some(viewBox)
      ensures Center(viewBox) == Center(old(Saved()))
      ensures viewBox.width * scale == old(Saved()).width * old(scale)
      ensures originalViewBox == if old(attribute).Some? then old(attribute) else old(originalViewBox)
      ensures isPanning == old(isPanning) && startPoint == old(startPoint) && startViewBox == old(startViewBox)
    {
      SaveOriginalViewBox();
      var newScale := if scale / ZoomFactor >= MinScale then scale / ZoomFactor else MinScale;
      viewBox := ZoomAboutCenter(viewBox, scale, newScale);
      scale := newScale;
      attribute := Some(viewBox);
    }

    /**
     * `fitToView`: back to the last saved view at scale 1. Every zoom saves
     * the view it starts from, so this undoes the latest zoom, not all of them.
     */
    method FitToView()
      requires Valid()
      modifies this
      ensures Valid()
      ensures originalViewBox.Some? ==> viewBox == originalViewBox.value && scale == 1.0 && attribute == Some(viewBox)
      ensures originalViewBox.None? ==> viewBox == old(viewBox) && scale == old(scale) && attribute == old(attribute)
      ensures originalViewBox == old(originalViewBox)
      ensures isPanning == old(isPanning) && startPoint == old(startPoint) && startViewBox == old(startViewBox)
    {
      if originalViewBox.Some? {
        viewBox := originalViewBox.value;
        scale := 1.0;
        attribute := Some(viewBox);
      }
    }

    /** `reset`, called after each new rendering: scale 1 and the rendered view saved. */
    method Reset()
      modifies this
      ensures Valid() && scale == 1.0
      ensures attribute.Some? ==> viewBox == attribute.value && originalViewBox == attribute
      ensures attribute.None? ==> viewBox == old(viewBox) && originalViewBox == old(originalViewBox)
      ensures attribute == old(attribute)
      ensures isPanning == old(isPanning) && startPoint == old(startPoint) && startViewBox == old(startViewBox)
    {
      scale := 1.0;
      SaveOriginalViewBox();
    }
  }

  /**
   * Fit after two zoom-ins on a freshly rendered view returns to the view
   * between the two zooms, not to the rendered one.
   */
  method FitUndoesOnlyLastZoom() returns (fitted: ViewBox, rendered: ViewBox, between: ViewBox)
    ensures fitted == between && fitted != rendered
  {
    rendered := ViewBox(0.0, 0.0, 1150.0, 1150.0);
    var z := new ZoomPan(Some(rendered));
    z.ZoomIn();
    between := z.viewBox;
    z.ZoomIn();
    z.FitToView();
    fitted := z.viewBox;
  }
}
