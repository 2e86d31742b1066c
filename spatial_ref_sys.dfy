/** The metadata properties of `SpatialRefSysMixin` (django/contrib/gis/models.py)
    on installations without GDAL, where they are read off the row's WKT text,
    and the `srs` property, which builds and caches a GDAL SpatialReference.

    The two regular expressions of the mixin are parameters: `units` and
    `spheroid` stand for `units_regex.match` and `spheroid_regex.match` and
    return the named groups of a match, or None. The read-only properties are
    functions of the WKT text; `srs`, which caches its result on the instance,
    is a method of the class `SpatialRefSysRow`. */
module SpatialRefSys {
  import opened Wrappers

  /** The named groups `units_regex` captures when it matches. */
  datatype UnitsMatch = UnitsMatch(unitName: string, unit: string)

  /** The named groups `spheroid_regex` captures when it matches. */
  datatype SpheroidMatch = SpheroidMatch(name: string, major: string, flattening: string)

  /** `m.group(...)` on a failed match: `m` is None, so Python raises AttributeError. */
  datatype AttributeError = GroupOfNone

  // ---------------------------------------------------------------------------
  // Classification of a WKT text
  // ---------------------------------------------------------------------------

  predicate StartsWith(s: string, prefix: string)
  {
    |prefix| <= |s| && s[..|prefix|] == prefix
  }

  /** `projected` without GDAL. */
  predicate Projected(wkt: string)
  {
    StartsWith(wkt, "PROJCS")
  }

  /** `local` without GDAL. */
  predicate Local(wkt: string)
  {
    StartsWith(wkt, "LOCAL_CS")
  }

  /** `geographic` without GDAL. */
  predicate Geographic(wkt: string)
  {
    StartsWith(wkt, "GEOGCS")
  }

  /** A text that starts with a non-empty prefix starts with its first character. */
  lemma StartsWithHead(s: string, prefix: string)
    requires StartsWith(s, prefix) && |prefix| > 0
    ensures |s| > 0 && s[0] == prefix[0]
  {
    assert s[..|prefix|][0] == s[0];
  }

  /** The three kinds exclude one another: the prefixes already differ in
      their first character. */
  lemma ClassificationExclusive(wkt: string)
    ensures !(Projected(wkt) && Local(wkt))
    ensures !(Projected(wkt) && Geographic(wkt))
    ensures !(Local(wkt) && Geographic(wkt))
  {
    if Projected(wkt) {
      StartsWithHead(wkt, "PROJCS");
    }
    if Local(wkt) {
      StartsWithHead(wkt, "LOCAL_CS");
    }
    if Geographic(wkt) {
      StartsWithHead(wkt, "GEOGCS");
    }
  }

  // ---------------------------------------------------------------------------
  // Units and ellipsoid
  // ---------------------------------------------------------------------------

  /** `get_units` without GDAL: the `unit` and `unit_name` groups, in that order. */
  function GetUnits(units: string -> Option<UnitsMatch>, wkt: string)
    : (r: Result<(string, string), AttributeError>)
    ensures r.Failure? <==> units(wkt).None?
    ensures r.Success? ==> r.value.0 == units(wkt).value.unit && r.value.1 == units(wkt).value.unitName
  {
    match units(wkt)
    case None => Failure(GroupOfNone)
    case Some(m) => Success((m.unit, m.unitName))
  }

  /** `linear_name` without GDAL: None for a geographic system. */
  function LinearName(units: string -> Option<UnitsMatch>, wkt: string)
    : Result<Option<string>, AttributeError>
  {
    if Geographic(wkt) then Success(None)
    else
      match units(wkt)
      case None => Failure(GroupOfNone)
      case Some(m) => Success(Some(m.unitName))
  }

  /** `linear_units` without GDAL: None for a geographic system. */
  function LinearUnits(units: string -> Option<UnitsMatch>, wkt: string)
    : Result<Option<string>, AttributeError>
  {
    if Geographic(wkt) then Success(None)
    else
      match units(wkt)
      case None => Failure(GroupOfNone)
      case Some(m) => Success(Some(m.unit))
  }

  /** `angular_name` without GDAL: None for a projected system. */
  function AngularName(units: string -> Option<UnitsMatch>, wkt: string)
    : Result<Option<string>, AttributeError>
  {
    if Projected(wkt) then Success(None)
    else
      match units(wkt)
      case None => Failure(GroupOfNone)
      case Some(m) => Success(Some(m.unitName))
  }

  /** `angular_units` without GDAL: None for a projected system. */
  function AngularUnits(units: string -> Option<UnitsMatch>, wkt: string)
    : Result<Option<string>, AttributeError>
  {
    if Projected(wkt) then Success(None)
    else
      match units(wkt)
      case None => Failure(GroupOfNone)
      case Some(m) => Success(Some(m.unit))
  }

  /** Builds the pair `(units, name)`; the units are evaluated first, so their
      error is the one raised. */
  function Pair(u: Result<Option<string>, AttributeError>, n: Result<Option<string>, AttributeError>)
    : Result<(Option<string>, Option<string>), AttributeError>
  {
    if u.Failure? then Failure(u.error)
    else if n.Failure? then Failure(n.error)
    else Success((u.value, n.value))
  }

  /** `units`: the linear pair for a projected or local system, else the
      angular pair for a geographic one, else `(None, None)`. */
  function Units(units: string -> Option<UnitsMatch>, wkt: string)
    : Result<(Option<string>, Option<string>), AttributeError>
  {
    if Projected(wkt) || Local(wkt) then
      Pair(LinearUnits(units, wkt), LinearName(units, wkt))
    else if Geographic(wkt) then
      Pair(AngularUnits(units, wkt), AngularName(units, wkt))
    else Success((None, None))
  }

  /** `ellipsoid` without GDAL: the `major` and `flattening` groups, or None
      when the spheroid pattern does not match. */
  function Ellipsoid(spheroid: string -> Option<SpheroidMatch>, wkt: string)
    : (r: Option<(string, string)>)
    ensures r.None? <==> spheroid(wkt).None?
    ensures r.Some? ==> r.value == (spheroid(wkt).value.major, spheroid(wkt).value.flattening)
  {
    match spheroid(wkt)
    case None => None
    case Some(m) => Some((m.major, m.flattening))
  }

  // ---------------------------------------------------------------------------
  // Properties of the unit accessors
  // ---------------------------------------------------------------------------

  /** Outside a geographic system the linear accessors read what `get_units`
      reads, and fail exactly when it fails. */
  lemma LinearAgreesWithGetUnits(units: string -> Option<UnitsMatch>, wkt: string)
    ensures Geographic(wkt) ==> LinearUnits(units, wkt) == LinearName(units, wkt) == Success(None)
    ensures !Geographic(wkt) ==>
      && (LinearUnits(units, wkt).Failure? <==> GetUnits(units, wkt).Failure?)
      && (LinearName(units, wkt).Failure? <==> GetUnits(units, wkt).Failure?)
      && (GetUnits(units, wkt).Success? ==>
            LinearUnits(units, wkt) == Success(Some(GetUnits(units, wkt).value.0)) &&
            LinearName(units, wkt) == Success(Some(GetUnits(units, wkt).value.1)))
  {
  }

  /** Outside a projected system the angular accessors read what `get_units`
      reads, and fail exactly when it fails. */
  lemma AngularAgreesWithGetUnits(units: string -> Option<UnitsMatch>, wkt: string)
    ensures Projected(wkt) ==> AngularUnits(units, wkt) == AngularName(units, wkt) == Success(None)
    ensures !Projected(wkt) ==>
      && (AngularUnits(units, wkt).Failure? <==> GetUnits(units, wkt).Failure?)
      && (AngularName(units, wkt).Failure? <==> GetUnits(units, wkt).Failure?)
      && (GetUnits(units, wkt).Success? ==>
            AngularUnits(units, wkt) == Success(Some(GetUnits(units, wkt).value.0)) &&
            AngularName(units, wkt) == Success(Some(GetUnits(units, wkt).value.1)))
  {
  }

  /** No WKT makes both the linear and the angular units None: a system is
      never both projected and geographic. */
  lemma UnitsNeverBothNone(units: string -> Option<UnitsMatch>, wkt: string)
    ensures !(LinearUnits(units, wkt) == Success(None) && AngularUnits(units, wkt) == Success(None))
    ensures !(LinearName(units, wkt) == Success(None) && AngularName(units, wkt) == Success(None))
  {
    ClassificationExclusive(wkt);
  }

  /** `units` of a projected, local or geographic system is `get_units` with
      both parts present, and fails exactly when `get_units` does; any other
      system gives `(None, None)` whatever the pattern finds. */
  lemma UnitsDispatch(units: string -> Option<UnitsMatch>, wkt: string)
    ensures Projected(wkt) || Local(wkt) || Geographic(wkt) ==>
      && (Units(units, wkt).Failure? <==> GetUnits(units, wkt).Failure?)
      && (GetUnits(units, wkt).Success? ==>
            Units(units, wkt) == Success((Some(GetUnits(units, wkt).value.0),
                                          Some(GetUnits(units, wkt).value.1))))
    ensures !(Projected(wkt) || Local(wkt) || Geographic(wkt)) ==>
      Units(units, wkt) == Success((None, None))
  {
    ClassificationExclusive(wkt);
  }

  /** A projected or local system reports its linear pair, a geographic one
      its angular pair. */
  lemma UnitsPicksAccessors(units: string -> Option<UnitsMatch>, wkt: string)
    ensures Projected(wkt) || Local(wkt) ==>
      Units(units, wkt) == Pair(LinearUnits(units, wkt), LinearName(units, wkt))
    ensures Geographic(wkt) ==>
      Units(units, wkt) == Pair(AngularUnits(units, wkt), AngularName(units, wkt))
  {
    ClassificationExclusive(wkt);
  }

  // ---------------------------------------------------------------------------
  // `srs` and `__unicode__`
  // ---------------------------------------------------------------------------

  /** A GDAL SpatialReference, as far as the mixin sees it: its value. A clone
      has the same value. */
  datatype SpatialReference = SpatialReference(wkt: string, pretty: string)

  /** The exceptions `srs` raises. */
  datatype SrsError = GdalNotInstalled | NotFromWkt(wkt: string, msg: string)

  /** What `srs` returns, given GDAL's presence, the cached reference and the
      SpatialReference constructor (`build`, which fails with a message). */
  function SrsResult(hasGdal: bool, cache: Option<SpatialReference>, wkt: string,
                     build: string -> Result<SpatialReference, string>)
    : Result<SpatialReference, SrsError>
  {
    if !hasGdal then Failure(GdalNotInstalled)
    else if cache.Some? then Success(cache.value)
    else
      match build(wkt)
      case Success(s) => Success(s)
      case Failure(msg) => Failure(NotFromWkt(wkt, msg))
  }

  /** The cache after a call of `srs`: filled by the first successful build. */
  function CacheAfter(hasGdal: bool, cache: Option<SpatialReference>, wkt: string,
                      build: string -> Result<SpatialReference, string>): Option<SpatialReference>
  {
    if hasGdal && cache.None? && build(wkt).Success? then Some(build(wkt).value) else cache
  }

  /** `__unicode__`: the reference's text when `srs` succeeds and `unicode()`
      of the reference (`render`, None when it raises) succeeds too; the WKT
      when either raises, since the bare `except` covers both. */
  function UnicodeText(hasGdal: bool, cache: Option<SpatialReference>, wkt: string,
                       build: string -> Result<SpatialReference, string>,
                       render: SpatialReference -> Option<string>): string
  {
    match SrsResult(hasGdal, cache, wkt, build)
    case Success(s) => (match render(s) case Some(t) => t case None => wkt)
    case Failure(_) => wkt
  }

  /** A row of the spatial_ref_sys table, with the reference `srs` caches. */
  class SpatialRefSysRow {
    var wkt: string
    var cache: Option<SpatialReference>

    constructor (wkt: string)
      ensures this.wkt == wkt && cache == None
    {
      this.wkt := wkt;
      cache := None;
    }

    /** `srs`: builds the reference from the WKT once, caches it and answers
        every later call from the cache. */
    method Srs(hasGdal: bool, build: string -> Result<SpatialReference, string>)
      returns (r: Result<SpatialReference, SrsError>)
      modifies this
      decreases if cache.None? then 1 else 0
      ensures wkt == old(wkt)
      ensures r == SrsResult(hasGdal, old(cache), wkt, build)
      ensures cache == CacheAfter(hasGdal, old(cache), wkt, build)
    {
      if hasGdal {
        if cache.Some? {
          return Success(cache.value);
        } else {
          var built := build(wkt);
          match built {
            case Success(s) =>
              cache := Some(s);
              r := Srs(hasGdal, build);
            case Failure(msg) =>
              r := Failure(NotFromWkt(wkt, msg));
          }
        }
      } else {
        r := Failure(GdalNotInstalled);
      }
    }

    /** `__unicode__`: the reference's text, or the raw WKT when `srs` or
        `unicode()` of the reference raises. */
    method Unicode(hasGdal: bool, build: string -> Result<SpatialReference, string>,
                   render: SpatialReference -> Option<string>) returns (text: string)
      modifies this
      ensures wkt == old(wkt)
      ensures text == UnicodeText(hasGdal, old(cache), wkt, build, render)
      ensures cache == CacheAfter(hasGdal, old(cache), wkt, build)
    {
      var s := Srs(hasGdal, build);
      match s {
        case Success(ref) =>
          match render(ref) {
            case Some(t) => text := t;
            case None => text := wkt;
          }
        case Failure(_) => text := wkt;
      }
    }
  }

  /** Without GDAL `srs` always raises and `__unicode__` is the WKT. */
  lemma WithoutGdal(cache: Option<SpatialReference>, wkt: string,
                    build: string -> Result<SpatialReference, string>,
                    render: SpatialReference -> Option<string>)
    ensures SrsResult(false, cache, wkt, build) == Failure(GdalNotInstalled)
    ensures CacheAfter(false, cache, wkt, build) == cache
    ensures UnicodeText(false, cache, wkt, build, render) == wkt
  {
  }

  /** With a reference at hand, `__unicode__` is its text when `unicode()`
      succeeds and the WKT when it raises; the cache is filled either way. */
  lemma RenderFailure(cache: Option<SpatialReference>, wkt: string, s: SpatialReference,
                      build: string -> Result<SpatialReference, string>,
                      render: SpatialReference -> Option<string>)
    requires SrsResult(true, cache, wkt, build) == Success(s)
    ensures render(s).Some? ==> UnicodeText(true, cache, wkt, build, render) == render(s).value
    ensures render(s).None? ==> UnicodeText(true, cache, wkt, build, render) == wkt
    ensures CacheAfter(true, cache, wkt, build) == Some(s)
  {
  }

  /** Once the reference is cached, `srs` returns it without building: any
      constructor gives the same answer, and the cache stays as it is. */
  lemma CachedNotRebuilt(cache: Option<SpatialReference>, wkt: string,
                         build: string -> Result<SpatialReference, string>,
                         build': string -> Result<SpatialReference, string>)
    requires cache.Some?
    ensures SrsResult(true, cache, wkt, build) == SrsResult(true, cache, wkt, build') == Success(cache.value)
    ensures CacheAfter(true, cache, wkt, build) == cache
  {
  }

  /** A second call of `srs` returns what the first returned, whatever the
      constructor does by then; a failed build leaves nothing cached. */
  lemma SrsRepeatable(hasGdal: bool, cache: Option<SpatialReference>, wkt: string,
                      build: string -> Result<SpatialReference, string>,
                      build': string -> Result<SpatialReference, string>)
    requires SrsResult(hasGdal, cache, wkt, build).Success?
    ensures SrsResult(hasGdal, CacheAfter(hasGdal, cache, wkt, build), wkt, build') ==
            SrsResult(hasGdal, cache, wkt, build)
    ensures CacheAfter(hasGdal, CacheAfter(hasGdal, cache, wkt, build), wkt, build') ==
            CacheAfter(hasGdal, cache, wkt, build)
  {
  }

  /** A failed build raises the error naming the WKT and the constructor's
      message, and `__unicode__` falls back to the WKT. */
  lemma BuildFailure(cache: Option<SpatialReference>, wkt: string, msg: string,
                     build: string -> Result<SpatialReference, string>,
                     render: SpatialReference -> Option<string>)
    requires cache.None? && build(wkt) == Failure(msg)
    ensures SrsResult(true, cache, wkt, build) == Failure(NotFromWkt(wkt, msg))
    ensures CacheAfter(true, cache, wkt, build) == None
    ensures UnicodeText(true, cache, wkt, build, render) == wkt
  {
  }
}
