/** GraphicsTextObject's render cache: the surface of a text object is
    rendered again only when there is no surface or the object's text is not
    the text the surface was rendered from. */
module GraphicsText {
  import opened Wrappers

  /** A rendered surface, known only by a handle. */
  datatype Surface = Surface(handle: nat)

  /** The text attributes of the owning GraphicsObject: textText, textSize,
      textXSpace, textYSpace and textColour. */
  datatype TextAttributes = TextAttributes(text: string, size: int, xSpace: int, ySpace: int, colour: int)

  /** TextSystem::renderText; None stands for a null surface. */
  type TextRenderer = (string, int, int, int, int) -> Option<Surface>

  /** The surface renderText makes for the attributes `rp`. */
  function Rendered(renderText: TextRenderer, rp: TextAttributes): (s: Option<Surface>)
  {
    renderText(rp.text, rp.size, rp.xSpace, rp.ySpace, rp.colour)
  }

  class GraphicsTextObject {
    var cachedUtf8str: string
    var surface: Option<Surface>

    constructor ()
      ensures cachedUtf8str == "" && surface == None
    {
      cachedUtf8str := "";
      surface := None;
    }

    /** GraphicsTextObject::needsUpdate: the cache is stale when there is no
        surface or the surface was made from other text. */
    predicate NeedsUpdate(rp: TextAttributes)
      reads this
      ensures !NeedsUpdate(rp) <==> surface.Some? && cachedUtf8str == rp.text
    {
      surface.None? || rp.text != cachedUtf8str
    }

    /** GraphicsTextObject::updateSurface: remembers the text and renders it.
        Once the renderer gives a surface, the cache is current for `rp`. */
    method UpdateSurface(renderText: TextRenderer, rp: TextAttributes)
      modifies this
      ensures cachedUtf8str == rp.text && surface == Rendered(renderText, rp)
      ensures surface.Some? ==> !NeedsUpdate(rp)
    {
      cachedUtf8str := rp.text;
      surface := renderText(cachedUtf8str, rp.size, rp.xSpace, rp.ySpace, rp.colour);
    }

    /** GraphicsTextObject::render: refreshes the surface only when it needs
        updating, then draws it. Returns the surface drawn; None is the null
        surface the source would dereference. */
    method Render(renderText: TextRenderer, rp: TextAttributes) returns (drawn: Option<Surface>)
      modifies this
      ensures old(NeedsUpdate(rp)) ==> cachedUtf8str == rp.text && surface == Rendered(renderText, rp)
      ensures !old(NeedsUpdate(rp)) ==> cachedUtf8str == old(cachedUtf8str) && surface == old(surface)
      ensures surface.Some? ==> !NeedsUpdate(rp)
      ensures drawn == surface
    {
      if NeedsUpdate(rp) {
        UpdateSurface(renderText, rp);
      }
      drawn := surface;
    }

    /** The cache step of GraphicsTextObject::pixelWidth; returns the surface
        whose width is scaled. */
    method PixelWidth(renderText: TextRenderer, rp: TextAttributes) returns (measured: Option<Surface>)
      modifies this
      ensures old(NeedsUpdate(rp)) ==> cachedUtf8str == rp.text && surface == Rendered(renderText, rp)
      ensures !old(NeedsUpdate(rp)) ==> cachedUtf8str == old(cachedUtf8str) && surface == old(surface)
      ensures measured == surface
    {
      if NeedsUpdate(rp) {
        UpdateSurface(renderText, rp);
      }
      measured := surface;
    }

    /** The cache step of GraphicsTextObject::pixelHeight; returns the surface
        whose height is scaled. */
    method PixelHeight(renderText: TextRenderer, rp: TextAttributes) returns (measured: Option<Surface>)
      modifies this
      ensures old(NeedsUpdate(rp)) ==> cachedUtf8str == rp.text && surface == Rendered(renderText, rp)
      ensures !old(NeedsUpdate(rp)) ==> cachedUtf8str == old(cachedUtf8str) && surface == old(surface)
      ensures measured == surface
    {
      if NeedsUpdate(rp) {
        UpdateSurface(renderText, rp);
      }
      measured := surface;
    }

    /** GraphicsTextObject::clone: a new object with the same cache. */
    method Clone() returns (c: GraphicsTextObject)
      ensures fresh(c) && c.cachedUtf8str == cachedUtf8str && c.surface == surface
    {
      c := new GraphicsTextObject();
      c.cachedUtf8str := cachedUtf8str;
      c.surface := surface;
    }

    /** The cache part of GraphicsTextObject::load: the cached string and the
        surface are dropped, so the next render renders again whatever the
        text is. */
    method Load()
      modifies this
      ensures cachedUtf8str == "" && surface == None
      ensures forall rp :: NeedsUpdate(rp)
    {
      cachedUtf8str := "";
      surface := None;
    }
  }

  /** Rendering the same text twice renders it once: once a render yields a
      surface, the next render with the same text draws that surface without
      calling the renderer (`secondRerendered` is whether it decided to
      render again), while other text would need an update. */
  method RenderTwice(t: GraphicsTextObject, renderText: TextRenderer, rp: TextAttributes, other: TextAttributes)
    returns (first: Option<Surface>, second: Option<Surface>, secondRerendered: bool)
    requires other.text != rp.text
    modifies t
    ensures first.Some? ==> !secondRerendered && second == first
    ensures Rendered(renderText, rp).Some? ==> first.Some?
    ensures first.Some? ==> !t.NeedsUpdate(rp) && t.NeedsUpdate(other)
  {
    first := t.Render(renderText, rp);
    secondRerendered := t.NeedsUpdate(rp);
    second := t.Render(renderText, rp);
  }
}
