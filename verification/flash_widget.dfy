/**
 * The flash overlay widget: a full-screen overlay whose opacity follows the
 * flash intensity, and a radial image that, when a new flash starts from a
 * known place, is pinned to that place on screen until the flash fades; the
 * colour and radial texture of each kind of flash.
 *
 * Both images are taken to be bound or not once and for all; the engine's
 * projection of a world point onto the screen, and the viewport's size, are
 * parameters.
 */
module FlashWidget {
  import opened Wrappers
  import opened Geometry

  datatype FlashType = Default | Phoenix | KayO

  datatype WidgetVisibility = Visible | HitTestInvisible | Collapsed

  datatype Color = Color(r: real, g: real, b: real, a: real)

  const White: Color := Color(1.0, 1.0, 1.0, 1.0)

  /** The intensity at or below which a flash counts as over. */
  const FlashThreshold: real := 0.01
  /** How much stronger the pinned radial image is than the overlay. */
  const RadialBoost: real := 1.2

  /** The widget's per-type configuration: the three colours and the three radial textures (by id; none for a null texture). */
  datatype Style = Style(
    defaultColor: Color, phoenixColor: Color, kayoColor: Color,
    defaultTexture: Option<nat>, phoenixTexture: Option<nat>, kayoTexture: Option<nat>)

  /** The widget's state as a value. */
  datatype Flash = Flash(
    intensity: real,
    overlayOpacity: real, overlayColor: Color,
    radialOpacity: real, radialColor: Color, radialPosition: Vec2, radialTexture: Option<nat>,
    positionFixed: bool, fixedPosition: Vec2,
    flashType: FlashType, flashColor: Color,
    visibility: WidgetVisibility)

  /**
   * What every operation keeps: the intensity is in [0, 1]; a pinned position
   * belongs to a bound radial image and a live flash; an unpinned one is zero.
   */
  predicate Sane(f: Flash, hasRadial: bool)
  {
    && 0.0 <= f.intensity <= 1.0
    && (f.positionFixed ==> hasRadial && f.intensity > FlashThreshold)
    && (!f.positionFixed ==> f.fixedPosition == Zero2)
  }

  /** FMath::Clamp on floats. */
  function Clamp(v: real, lo: real, hi: real): real
  {
    if v < lo then lo else if v < hi then v else hi
  }

  /** FMath::Min on floats. */
  function Min(a: real, b: real): real
  {
    if a <= b then a else b
  }

  /** GetColorForFlashType. */
  function ColorFor(style: Style, t: FlashType): Color
  {
    match t
    case Phoenix => style.phoenixColor
    case KayO => style.kayoColor
    case Default => style.defaultColor
  }

  /** GetTextureForFlashType: the type's own texture, or the default one when that is null. */
  function TextureFor(style: Style, t: FlashType): (r: Option<nat>)
    ensures r.None? ==> style.defaultTexture.None?
    ensures style.defaultTexture.Some? ==> r.Some?
  {
    match t
    case Phoenix => if style.phoenixTexture.Some? then style.phoenixTexture else style.defaultTexture
    case KayO => if style.kayoTexture.Some? then style.kayoTexture else style.defaultTexture
    case Default => style.defaultTexture
  }

  /**
   * ConvertWorldToScreenPosition, given where the player controller projects
   * the point (none without a controller or when the projection fails) and the
   * viewport's size: the position relative to the screen's centre, or the
   * centre itself.
   */
  function ScreenPosition(projected: Option<Vec2>, viewportX: int, viewportY: int): Vec2
  {
    if projected.Some? then Vec2(projected.value.x - viewportX as real * 0.5, projected.value.y - viewportY as real * 0.5)
    else Zero2
  }

  /** NativeConstruct: both images transparent and white, the radial image on the default texture if there is one, the Default type. */
  function Constructed(f: Flash, style: Style, hasOverlay: bool, hasRadial: bool): Flash
  {
    var o := if hasOverlay then f.(overlayOpacity := 0.0, overlayColor := White) else f;
    var r := if hasRadial then
               o.(radialOpacity := 0.0, radialColor := White,
                  radialTexture := if style.defaultTexture.Some? then style.defaultTexture else o.radialTexture)
             else o;
    r.(flashType := Default)
  }

  /** A new flash starts: the intensity was at most the threshold, is now above it, and the flash comes from a known place. */
  predicate RisingEdge(previous: real, current: real, loc: Vec3)
  {
    previous <= FlashThreshold && current > FlashThreshold && !IsZero(loc)
  }

  /** The radial image's half of UpdateFlashIntensity, once the intensity is set: pin on a rising edge, place and fade, unpin at the end. */
  function RadialUpdated(f: Flash, previous: real, loc: Vec3, projected: Option<Vec2>, viewportX: int, viewportY: int): Flash
  {
    var pinned := if RisingEdge(previous, f.intensity, loc)
                  then f.(fixedPosition := ScreenPosition(projected, viewportX, viewportY), positionFixed := true)
                  else f;
    var shown := if pinned.positionFixed
                 then pinned.(radialPosition := pinned.fixedPosition,
                              radialOpacity := Min(pinned.intensity * RadialBoost, 1.0), radialColor := pinned.flashColor)
                 else pinned.(radialPosition := Zero2, radialOpacity := pinned.intensity, radialColor := pinned.flashColor);
    if shown.intensity <= FlashThreshold && shown.positionFixed then shown.(positionFixed := false, fixedPosition := Zero2)
    else shown
  }

  /** UpdateFlashIntensity: the intensity clamped to [0, 1], the overlay at that opacity, then the radial image. */
  function IntensityUpdated(f: Flash, intensity: real, loc: Vec3, projected: Option<Vec2>, viewportX: int, viewportY: int,
                            hasOverlay: bool, hasRadial: bool): Flash
  {
    var c := f.(intensity := Clamp(intensity, 0.0, 1.0));
    var o := if hasOverlay then c.(overlayOpacity := c.intensity, overlayColor := c.flashColor) else c;
    if hasRadial then RadialUpdated(o, f.intensity, loc, projected, viewportX, viewportY) else o
  }

  /** SetFlashType: the type and its colour; the radial image takes the type's texture unless that is null. */
  function TypeSet(f: Flash, style: Style, t: FlashType, hasRadial: bool): Flash
  {
    var texture := TextureFor(style, t);
    f.(flashType := t, flashColor := ColorFor(style, t),
       radialTexture := if hasRadial && texture.Some? then texture else f.radialTexture)
  }

  /** StartFlashEffect: visible without taking hits, unpinned, and set to the given type. */
  function Started(f: Flash, style: Style, t: FlashType, hasRadial: bool): Flash
  {
    TypeSet(f.(visibility := HitTestInvisible, positionFixed := false, fixedPosition := Zero2), style, t, hasRadial)
  }

  /** StopFlashEffect: collapsed, both images transparent, unpinned. */
  function Stopped(f: Flash, hasOverlay: bool, hasRadial: bool): Flash
  {
    var o := if hasOverlay then f.(overlayOpacity := 0.0) else f;
    var r := if hasRadial then o.(radialOpacity := 0.0) else o;
    r.(visibility := Collapsed, positionFixed := false, fixedPosition := Zero2)
  }

  /** The stored intensity is always in [0, 1], and is the requested one whenever that already is. */
  lemma IntensityIsClamped(f: Flash, intensity: real, loc: Vec3, projected: Option<Vec2>, viewportX: int, viewportY: int,
                           hasOverlay: bool, hasRadial: bool)
    requires Sane(f, hasRadial)
    ensures var n := IntensityUpdated(f, intensity, loc, projected, viewportX, viewportY, hasOverlay, hasRadial);
      && Sane(n, hasRadial)
      && 0.0 <= n.intensity <= 1.0
      && (0.0 <= intensity <= 1.0 ==> n.intensity == intensity)
      && (hasOverlay ==> n.overlayOpacity == n.intensity && n.overlayColor == f.flashColor)
  {
  }

  /**
   * The pin: a position is pinned exactly on a rising edge (with the radial
   * image bound and the new flash above the threshold), at the projected
   * screen position; a pinned position stays put while the flash lasts; and
   * it is released, and zeroed, as soon as the intensity is at or below the
   * threshold.
   */
  lemma PinsOnlyOnRisingEdge(f: Flash, intensity: real, loc: Vec3, projected: Option<Vec2>, viewportX: int, viewportY: int,
                             hasOverlay: bool, hasRadial: bool)
    requires Sane(f, hasRadial)
    ensures var n := IntensityUpdated(f, intensity, loc, projected, viewportX, viewportY, hasOverlay, hasRadial);
      && (n.positionFixed && !f.positionFixed <==> hasRadial && RisingEdge(f.intensity, n.intensity, loc))
      && (n.positionFixed && !f.positionFixed ==> n.fixedPosition == ScreenPosition(projected, viewportX, viewportY))
      && (n.positionFixed && f.positionFixed ==> n.fixedPosition == f.fixedPosition)
      && (n.intensity <= FlashThreshold ==> !n.positionFixed && n.fixedPosition == Zero2)
  {
  }

  /**
   * The radial image's opacity: min(1.2 x intensity, 1) while a position is
   * pinned (or was until this update), the intensity otherwise; either way
   * in [0, 1] and never weaker than the overlay.
   */
  lemma RadialOpacityRule(f: Flash, intensity: real, loc: Vec3, projected: Option<Vec2>, viewportX: int, viewportY: int,
                          hasOverlay: bool, hasRadial: bool)
    requires Sane(f, hasRadial) && hasRadial
    ensures var n := IntensityUpdated(f, intensity, loc, projected, viewportX, viewportY, hasOverlay, hasRadial);
      var wasPinned := f.positionFixed || RisingEdge(f.intensity, n.intensity, loc);
      && n.radialOpacity == (if wasPinned then Min(n.intensity * RadialBoost, 1.0) else n.intensity)
      && n.intensity <= n.radialOpacity <= 1.0
      && n.radialColor == f.flashColor
      && (!wasPinned ==> n.radialPosition == Zero2)
  {
  }

  /** Starting and stopping a flash both unpin and zero the position; stopping also clears both images and collapses the widget. */
  lemma StartAndStopUnpin(f: Flash, style: Style, t: FlashType, hasOverlay: bool, hasRadial: bool)
    requires Sane(f, hasRadial)
    ensures var s := Started(f, style, t, hasRadial);
      && Sane(s, hasRadial) && !s.positionFixed && s.fixedPosition == Zero2 && s.visibility == HitTestInvisible
      && s.flashType == t && s.intensity == f.intensity
    ensures var p := Stopped(f, hasOverlay, hasRadial);
      && Sane(p, hasRadial) && !p.positionFixed && p.fixedPosition == Zero2 && p.visibility == Collapsed
      && (hasOverlay ==> p.overlayOpacity == 0.0) && (hasRadial ==> p.radialOpacity == 0.0)
      && p.intensity == f.intensity && p.flashType == f.flashType
  {
  }

  /**
   * SetFlashType: each type gets its own colour; the radial texture is the
   * type's own when set, the default one otherwise, and is left alone when
   * both are null.
   */
  lemma TypeSelectsColorAndTexture(f: Flash, style: Style, t: FlashType, hasRadial: bool)
    ensures var n := TypeSet(f, style, t, hasRadial);
      && n.flashType == t
      && n.flashColor == (if t == Phoenix then style.phoenixColor else if t == KayO then style.kayoColor else style.defaultColor)
      && (hasRadial && t == Phoenix && style.phoenixTexture.Some? ==> n.radialTexture == style.phoenixTexture)
      && (hasRadial && t == KayO && style.kayoTexture.Some? ==> n.radialTexture == style.kayoTexture)
      && (hasRadial && style.defaultTexture.Some?
          && (t == Default || (t == Phoenix && style.phoenixTexture.None?) || (t == KayO && style.kayoTexture.None?))
          ==> n.radialTexture == style.defaultTexture)
      && (TextureFor(style, t).None? || !hasRadial ==> n.radialTexture == f.radialTexture)
      && n.intensity == f.intensity && n.positionFixed == f.positionFixed
  {
  }

  /** A successful projection is shifted by half the viewport, so adding that half back gives the projected point. */
  lemma ScreenPositionIsCentred(projected: Option<Vec2>, viewportX: int, viewportY: int)
    ensures projected.None? ==> ScreenPosition(projected, viewportX, viewportY) == Zero2
    ensures projected.Some? ==>
      var p := ScreenPosition(projected, viewportX, viewportY);
      p.x + viewportX as real * 0.5 == projected.value.x && p.y + viewportY as real * 0.5 == projected.value.y
  {
  }

  class FlashOverlay {
    const style: Style
    /** FlashOverlay is bound. */
    const hasOverlay: bool
    /** RadialFlashImage is bound. */
    const hasRadial: bool

    var intensity: real
    var overlayOpacity: real
    var overlayColor: Color
    var radialOpacity: real
    var radialColor: Color
    /** The radial image's canvas slot position. */
    var radialPosition: Vec2
    var radialTexture: Option<nat>
    var positionFixed: bool
    var fixedPosition: Vec2
    var flashType: FlashType
    var flashColor: Color
    var visibility: WidgetVisibility

    function State(): Flash
      reads this
    {
      Flash(intensity, overlayOpacity, overlayColor, radialOpacity, radialColor, radialPosition, radialTexture,
            positionFixed, fixedPosition, flashType, flashColor, visibility)
    }

    ghost predicate Valid()
      reads this
    {
      Sane(State(), hasRadial)
    }

    /**
     * A widget as its defaults leave it: no flash, nothing pinned, in the
     * default colour; its visibility is whatever the widget class starts with.
     */
    constructor (s: Style, overlay: bool, radial: bool, initialVisibility: WidgetVisibility)
      ensures Valid() && style == s && hasOverlay == overlay && hasRadial == radial
      ensures State() == Flash(0.0, 0.0, White, 0.0, White, Zero2, None, false, Zero2, Default, s.defaultColor,
                               initialVisibility)
    {
      style := s;
      hasOverlay := overlay;
      hasRadial := radial;
      intensity := 0.0;
      overlayOpacity, overlayColor := 0.0, White;
      radialOpacity, radialColor, radialPosition, radialTexture := 0.0, White, Zero2, None;
      positionFixed, fixedPosition := false, Zero2;
      flashType, flashColor := Default, s.defaultColor;
      visibility := initialVisibility;
    }

    method NativeConstruct()
      requires Valid()
      modifies this
      ensures Valid() && State() == Constructed(old(State()), style, hasOverlay, hasRadial)
    {
      if hasOverlay {
        overlayOpacity := 0.0;
        overlayColor := White;
      }
      if hasRadial {
        radialOpacity := 0.0;
        radialColor := White;
        if style.defaultTexture.Some? {
          radialTexture := style.defaultTexture;
        }
      }
      flashType := Default;
    }

    method UpdateFlashIntensity(newIntensity: real, loc: Vec3, projected: Option<Vec2>, viewportX: int, viewportY: int)
      requires Valid()
      modifies this
      ensures Valid()
      ensures State() == IntensityUpdated(old(State()), newIntensity, loc, projected, viewportX, viewportY, hasOverlay, hasRadial)
    {
      IntensityIsClamped(State(), newIntensity, loc, projected, viewportX, viewportY, hasOverlay, hasRadial);
      var previous := intensity;
      intensity := Clamp(newIntensity, 0.0, 1.0);
      if hasOverlay {
        overlayOpacity := intensity;
        overlayColor := flashColor;
      }
      if hasRadial {
        if previous <= FlashThreshold && intensity > FlashThreshold && !IsZero(loc) {
          fixedPosition := ScreenPosition(projected, viewportX, viewportY);
          positionFixed := true;
        }
        if positionFixed {
          radialPosition := fixedPosition;
          radialOpacity := Min(intensity * RadialBoost, 1.0);
          radialColor := flashColor;
        } else {
          radialPosition := Zero2;
          radialOpacity := intensity;
          radialColor := flashColor;
        }
        if intensity <= FlashThreshold && positionFixed {
          positionFixed := false;
          fixedPosition := Zero2;
        }
      }
    }

    method SetFlashType(t: FlashType)
      requires Valid()
      modifies this
      ensures Valid() && State() == TypeSet(old(State()), style, t, hasRadial)
    {
      flashType := t;
      flashColor := ColorFor(style, t);
      if hasRadial {
        var texture := TextureFor(style, t);
        if texture.Some? {
          radialTexture := texture;
        }
      }
    }

    method StartFlashEffect(duration: real, t: FlashType)
      requires Valid()
      modifies this
      ensures Valid() && State() == Started(old(State()), style, t, hasRadial)
    {
      visibility := HitTestInvisible;
      positionFixed := false;
      fixedPosition := Zero2;
      SetFlashType(t);
    }

    method StopFlashEffect()
      requires Valid()
      modifies this
      ensures Valid() && State() == Stopped(old(State()), hasOverlay, hasRadial)
    {
      visibility := Collapsed;
      if hasOverlay {
        overlayOpacity := 0.0;
      }
      if hasRadial {
        radialOpacity := 0.0;
      }
      positionFixed := false;
      fixedPosition := Zero2;
    }
  }
}
