# PostGIS lookups, spatial-reference metadata and method-restricting views, in Dafny

This project models three small pieces of an early GeoDjango/Django tree and proves their
behaviour:

- **The PostGIS spatial lookup translator** (`django/contrib/gis/db/backend/postgis/query.py`),
  module `PostgisQuery` in `postgis_query.dfy`.
  - *Import.* Importing the module checks the PostGIS version. It picks the function-name prefix
    (`ST_` from 1.2.2 on, the SQL/MM naming of ISO/IEC 13249-3), the `UNION` name and whether
    `ASKML` exists. It then rewrites the geometry-function table in place, extends it, and
    builds the tuple of allowed lookup terms. The model of this is the method `Setup`, with
    helpers `FuncPrefix`, `AddPrefix`, `BuildGeometryFunctions`, `KeyList` and `BuildTerms`.
    The ghost predicate `SetUpFor(b, v)` states what a successful import under version `v`
    defines.
  - *Lookups.* `get_geom_func` and `get_geo_where_clause` are pure functions of that backend.
    The WHERE-clause function tries the operators first, then the geometry functions (with the
    2-tuple checks), then `isnull`, and otherwise raises.
- **The WKT fallback of `SpatialRefSysMixin`** (`django/contrib/gis/models.py`), module
  `SpatialRefSys` in `spatial_ref_sys.dfy`.
  - *Metadata.* Without GDAL, the classification, unit accessors, `units`, `get_units` and
    `ellipsoid` are functions of the WKT text and of two abstract regex matchers.
  - *Caching.* The `srs` property, which caches the GDAL reference on the instance, and
    `__unicode__` are methods of the class `SpatialRefSysRow`.
- **The method-restricting view decorators** (`django/views/decorators/http.py`), module
  `HttpDecorators` in `http_decorators.dfy`. The decorators are closures: `require_http_methods`
  returns a decorator, which wraps a view in `inner`.

`wrappers.dfy` holds `Option` (Python's `None`) and `Result` (a raised exception).

External calls are parameters:
- the PostGIS version tuple (`Version`; its three numbers are non-negative, as numbers read from a version string are);
- `connection.ops.quote_name` (`qn: string -> string`);
- the two regular expressions (`units`, `spheroid`: text to optional named groups);
- the GDAL `SpatialReference` constructor (`build`, which may fail with a message);
- whether GDAL is installed (`hasGdal`);
- `unicode()` of a reference (`render`, which gives None when it raises).

Three behaviours of the code worth noting:
- A wrong-length tuple argument raises `ValueError`, not a type error (query.py:178-179).
- A refused request raises the forbidden response; it does not return it (http.py:26).
- Without GDAL, `srs` raises instead of falling back (models.py:51-52). The fallback exists
  only in the other properties.

## Model

| member | source | states |
|---|---|---|
| PostgisQuery.Setup | django/contrib/gis/db/backend/postgis/query.py:17-145 | the import fails, with the version text, exactly when major ≠ 1 or the version is below 1.1; otherwise the names, tables and terms it defines are those `SetUpFor` describes |
| PostgisQuery.FuncPrefix | django/contrib/gis/db/backend/postgis/query.py:66-70 | the prefix is `ST_` exactly from PostGIS 1.2.2 on, else empty |
| PostgisQuery.AddPrefix | django/contrib/gis/db/backend/postgis/query.py:119-125 | the loop over a snapshot of the items leaves every entry, plain or tuple head, prefixed, with the same keys |
| PostgisQuery.BuildGeometryFunctions | django/contrib/gis/db/backend/postgis/query.py:98-135 | the table after the in-place rewrite and the two updates equals `GeometryFunctionsFor(prefix)` |
| PostgisQuery.KeyList | django/contrib/gis/db/backend/postgis/query.py:142-143 | `keys()` lists every key of the dict exactly once, in some order |
| PostgisQuery.BuildTerms | django/contrib/gis/db/backend/postgis/query.py:138-145 | the terms are the operator keys, then the function keys, then `isnull` |
| PostgisQuery.VersionOrder | django/contrib/gis/db/backend/postgis/query.py:17-70 | the import accepts exactly the versions from 1.1.0 below 2.0.0, and among them picks `ST_` exactly from 1.2.2 on, in lexicographic version order |
| PostgisQuery.VersionSelection | django/contrib/gis/db/backend/postgis/query.py:66-89 | `ST_` prefix iff minor1 > 2 or (minor1 = 2 and minor2 ≥ 2); `ST_Union` iff minor1 ≥ 3, and only with the prefix; no KML iff minor1 = 1, and then no prefix |
| PostgisQuery.GeometryFunctionsContents | django/contrib/gis/db/backend/postgis/query.py:98-135 | the keys are the base and distance lookups, plus `dwithin`/`coveredby`/`covers` exactly under `ST_`; base entries carry the prefix, the others keep their values |
| PostgisQuery.KeySpaces | django/contrib/gis/db/backend/postgis/query.py:22-138 | no lookup is both an operator and a geometry function, and `isnull` is neither |
| PostgisQuery.TermsFor | django/contrib/gis/db/backend/postgis/query.py:142-145 | the terms hold each operator, each geometry-function lookup and `isnull` exactly once, and nothing else |
| PostgisQuery.GetGeomFunc | django/contrib/gis/db/backend/postgis/query.py:148-153 | raises KeyError exactly for a lookup missing from the table |
| PostgisQuery.GetGeomFuncFor | django/contrib/gis/db/backend/postgis/query.py:148-153 | a base lookup gives its function name (plain name or tuple head) with the prefix |
| PostgisQuery.GetGeomFuncDistance | django/contrib/gis/db/backend/postgis/query.py:148-153 | a distance lookup gives its comparison operator, whatever the prefix |
| PostgisQuery.GetGeomFuncMissing | django/contrib/gis/db/backend/postgis/query.py:127-153 | the SQL/MM-only lookups have a function only under `ST_`; operators and `isnull` raise KeyError |
| PostgisQuery.QuotePrefix | django/contrib/gis/db/backend/postgis/query.py:157-158 | a prefix ending in `.` becomes the quoted name before the dot followed by `.`; any other prefix is kept |
| PostgisQuery.GetGeoWhereClause | django/contrib/gis/db/backend/postgis/query.py:155-199 | succeeds only for an operator, a table lookup or `isnull`; raises the invalid-lookup TypeError exactly for any other lookup; never raises KeyError |
| PostgisQuery.TupleLookupClause | django/contrib/gis/db/backend/postgis/query.py:170-189 | the tuple branch raises only the argument errors |
| PostgisQuery.OperatorClause | django/contrib/gis/db/backend/postgis/query.py:161-163 | an operator lookup gives `field op %s`, whatever the function table and the value |
| PostgisQuery.SameAsIsExact | django/contrib/gis/db/backend/postgis/query.py:47-51 | `same_as` and `exact` are both `~=` and give the same clause |
| PostgisQuery.PlainFunctionClause | django/contrib/gis/db/backend/postgis/query.py:190-193 | a plain function lookup calls the function `get_geom_func` names on the field and one parameter, whatever the value |
| PostgisQuery.TupleLookupChecks | django/contrib/gis/db/backend/postgis/query.py:170-183 | checks, in order: not a tuple (TypeError), not two elements (ValueError), second element of the wrong type (TypeError); succeeds exactly for a valid pair |
| PostgisQuery.TupleLookupResult | django/contrib/gis/db/backend/postgis/query.py:185-189 | a valid distance lookup gives `DISTANCE(field, %s) op %s`, with the module's prefixed `DISTANCE` name; any other tuple lookup gives `func(field, %s, %s)` |
| PostgisQuery.IsNullClause | django/contrib/gis/db/backend/postgis/query.py:195-197 | `isnull` gives `IS NULL` for a true value and `IS NOT NULL` for a false one |
| PostgisQuery.InvalidExactlyOutsideTerms | django/contrib/gis/db/backend/postgis/query.py:140-199 | the invalid-lookup error is raised exactly for the lookups missing from POSTGIS_TERMS |
| PostgisQuery.SqlMmNeedsNewPostgis | django/contrib/gis/db/backend/postgis/query.py:127-133 | before 1.2.2, `dwithin`, `coveredby` and `covers` are neither terms nor valid lookups |
| SpatialRefSys.Projected | django/contrib/gis/models.py:82-88 | no contract of its own; ClassificationExclusive states that it excludes the other two kinds |
| SpatialRefSys.Local | django/contrib/gis/models.py:90-96 | no contract of its own; ClassificationExclusive states that it excludes the other two kinds |
| SpatialRefSys.Geographic | django/contrib/gis/models.py:98-104 | no contract of its own; ClassificationExclusive states that it excludes the other two kinds |
| SpatialRefSys.LinearName | django/contrib/gis/models.py:106-115 | no contract of its own; LinearAgreesWithGetUnits states it |
| SpatialRefSys.LinearUnits | django/contrib/gis/models.py:117-126 | no contract of its own; LinearAgreesWithGetUnits states it |
| SpatialRefSys.AngularName | django/contrib/gis/models.py:128-137 | no contract of its own; AngularAgreesWithGetUnits states it |
| SpatialRefSys.AngularUnits | django/contrib/gis/models.py:139-148 | no contract of its own; AngularAgreesWithGetUnits states it |
| SpatialRefSys.Units | django/contrib/gis/models.py:150-158 | no contract of its own; UnitsDispatch, UnitsPicksAccessors and UnitsNeverBothNone state it |
| SpatialRefSys.ClassificationExclusive | django/contrib/gis/models.py:82-104 | no WKT is more than one of projected, local and geographic |
| SpatialRefSys.GetUnits | django/contrib/gis/models.py:160-171 | raises AttributeError exactly when the units pattern does not match; otherwise gives `(unit, unit_name)` in that order |
| SpatialRefSys.Ellipsoid | django/contrib/gis/models.py:54-65 | None exactly when the spheroid pattern does not match; otherwise the `major` and `flattening` groups |
| SpatialRefSys.LinearAgreesWithGetUnits | django/contrib/gis/models.py:106-126 | `linear_units`/`linear_name` are None for a geographic WKT; otherwise they fail exactly when `get_units` does and give its two parts |
| SpatialRefSys.AngularAgreesWithGetUnits | django/contrib/gis/models.py:128-148 | `angular_units`/`angular_name` are None for a projected WKT; otherwise they fail exactly when `get_units` does and give its two parts |
| SpatialRefSys.UnitsNeverBothNone | django/contrib/gis/models.py:106-148 | the linear and the angular accessors are never both None for one WKT |
| SpatialRefSys.UnitsDispatch | django/contrib/gis/models.py:150-158 | `units` of a classified WKT is `get_units` with both parts present, failing exactly when it fails; an unclassified WKT gives `(None, None)` |
| SpatialRefSys.UnitsPicksAccessors | django/contrib/gis/models.py:150-158 | a projected or local WKT reports the linear pair (units first), a geographic one the angular pair |
| SpatialRefSys.SpatialRefSysRow.Srs | django/contrib/gis/models.py:31-52 | returns the cached reference if there is one; otherwise builds, caches and returns it, or raises with the WKT and message; without GDAL raises and caches nothing |
| SpatialRefSys.SpatialRefSysRow.Unicode | django/contrib/gis/models.py:173-181 | the reference's text when `srs` and `unicode()` of the reference succeed, the raw WKT when either raises; the cache as `srs` leaves it |
| SpatialRefSys.RenderFailure | django/contrib/gis/models.py:173-181 | with a built reference, `__unicode__` is its text when `unicode()` succeeds and the WKT when it raises, and the reference stays cached |
| SpatialRefSys.WithoutGdal | django/contrib/gis/models.py:31-52 | without GDAL `srs` always raises, caches nothing, and `__unicode__` is the WKT |
| SpatialRefSys.CachedNotRebuilt | django/contrib/gis/models.py:36-39 | with a cached reference, `srs` returns it whatever the constructor would do, and the cache is unchanged |
| SpatialRefSys.SrsRepeatable | django/contrib/gis/models.py:36-46 | after a successful `srs`, a second call returns the same reference and keeps the cache |
| SpatialRefSys.BuildFailure | django/contrib/gis/models.py:43-50 | a failed build raises with the WKT and the message, leaves nothing cached, and `__unicode__` falls back to the WKT |
| HttpDecorators.RequestMethod | django/views/decorators/http.py:24 | None exactly when META has no `REQUEST_METHOD`, otherwise its value |
| HttpDecorators.Inner | django/views/decorators/http.py:23-27 | no contract of its own; Acceptance and MissingMethodRejected state it |
| HttpDecorators.RequireHttpMethods | django/views/decorators/http.py:11-29 | no contract of its own; Acceptance and CaseSensitive state it |
| HttpDecorators.RequireGet | django/views/decorators/http.py:31 | no contract of its own; FixedDecorators states it |
| HttpDecorators.RequirePost | django/views/decorators/http.py:34 | no contract of its own; FixedDecorators states it |
| HttpDecorators.Acceptance | django/views/decorators/http.py:22-29 | the view's own response for the same request and arguments exactly when the method is in the list; otherwise the forbidden response naming the method, the same whatever the view |
| HttpDecorators.MissingMethodRejected | django/views/decorators/http.py:24-26 | a request without a method is refused by every list, with `None` in the message |
| HttpDecorators.CaseSensitive | django/views/decorators/http.py:20-27 | a list holding `GET` refuses `get` and admits `GET` |
| HttpDecorators.FixedDecorators | django/views/decorators/http.py:31-34 | `require_GET` admits exactly GET requests and `require_POST` exactly POST requests |

## Left out

- The version tuple query and `quote_name` (query.py:6-12) are database calls. Both are
  parameters of the model.
- The NotImplementedError branch for versions below 1.0 (query.py:90-91) cannot be reached
  once the gate at line 17 has passed. `Setup` has no such path.
- The `Decimal`, `Distance`, `float` and `int` values (query.py:111) are an abstract type tag
  and a truthiness flag (`Value`). No numeric reasoning is done. `bool` is accepted where
  `dtypes` is expected, since Python's `bool` is a subclass of `int`.
- Exception message texts are not modelled, except for the forbidden response:
  - the query module's errors are constructors carrying the lookup type, or the expected type
    and the offending value;
  - `srs` keeps only the WKT and the constructor's message.
- Python 2 dict key order is unspecified. `KeyList` may visit the keys in any order, and
  POSTGIS_TERMS is specified up to the order within the operator part and within the function
  part.
- The example in the comment at query.py:191-192 (`ST_Contains("geoapp_country"."poly", ...)`)
  is covered only by the general `PlainFunctionClause`; no concrete quoting function is fixed.
- The GDAL branches of the mixin are a foreign library:
  - `ellipsoid`, `projected`, `local`, `geographic` and the unit accessors with GDAL present
    (models.py:60-61, 85-86 and similar);
  - `name`, `spheroid` and `datum`, which only read `srs` (models.py:67-80);
  - `get_units` through `SpatialReference(wkt).units`.
- SpatialRefSys.SpatialRefSysRow.Srs: `clone()` is modelled as returning the cached value.
  The identity of the copy is not modelled.
- The internals of `spheroid_regex` and `units_regex` (models.py:23, 29) are abstract matchers
  returning their named groups.
- SpatialRefSys.Ellipsoid: returns the captured texts, without the float conversion of
  models.py:64, because that is floating point.
- The settings-driven import of the backend models (models.py:183-189) is configuration.
- `conditional_page` (http.py:9) wraps middleware that is not part of this model.
- HttpDecorators.Acceptance: the view's `*args, **kwargs` are one argument value. META values
  are strings, and the allowed list is a sequence.
- HttpDecorators.Acceptance: raising the forbidden response is recorded as the `Forbidden`
  outcome. Whether Python accepts that object as an exception depends on
  `django.utils.httpwrappers`, which is not part of this model.
- tests/regressiontests/backends/tests.py exercises a live database connection and has
  nothing to model.
