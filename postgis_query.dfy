/** The PostGIS spatial lookup types and their translation to SQL WHERE-clause
    templates (django/contrib/gis/db/backend/postgis/query.py).

    The module-level code of the source (the version gate, the choice of the
    function-name prefix, the geometry-function table rewritten in place, the
    list of lookup terms) is the method `Setup`; `SetUpFor(b, v)` says what a
    successful import under PostGIS version `v` leaves behind. The two lookup
    routines are pure functions of that `Backend`. Python dicts are maps, and
    since their key order is unspecified, `keys()` is a loop that may visit
    the keys in any order. */
module PostgisQuery {
  import opened Wrappers

  // ---------------------------------------------------------------------------
  // Values
  // ---------------------------------------------------------------------------

  /** What `postgis_version_tuple()` returns: the version text and its three numbers. */
  datatype Version = Version(text: string, major: nat, minor1: nat, minor2: nat)

  /** The Python type of a lookup value, as far as the `isinstance` checks see it.
      `Bool` is listed apart because Python's `bool` is a subclass of `int`. */
  datatype TypeTag = Str | Decimal | DistanceObj | Float | Int | Bool | OtherType

  /** A lookup value: a Python tuple, or any other value (its type and truthiness). */
  datatype Value = Tuple(items: seq<Value>) | Scalar(tag: TypeTag, truthy: bool)

  /** The expected type of a tuple lookup's second element: `basestring` or `dtypes`. */
  datatype ArgType = BaseString | DistanceTypes

  /** An entry of the geometry-function table: a plain function name, or a
      (name, expected argument type) pair for lookups that take a 2-tuple. */
  datatype FuncInfo = Plain(name: string) | WithArg(name: string, argType: ArgType)

  /** The exception raised at import time for an unsupported PostGIS. */
  datatype SetupError = Unsupported(version: string)

  /** The exceptions raised by the lookup routines. */
  datatype QueryError =
    | UnknownFunction(key: string)
    | TupleRequired(lookup: string)
    | TwoElementsRequired(lookup: string)
    | ArgumentTypeMismatch(expected: ArgType, got: Value)
    | InvalidLookup(lookup: string)

  /** The Python exception classes the module raises. */
  datatype ExceptionType = TypeError | ValueError | KeyError

  /** The Python exception class of each error. */
  function ExceptionClass(e: QueryError): ExceptionType
  {
    match e
    case UnknownFunction(_) => KeyError
    case TwoElementsRequired(_) => ValueError
    case _ => TypeError
  }

  // ---------------------------------------------------------------------------
  // The lookup tables
  // ---------------------------------------------------------------------------

  /** POSTGIS_OPERATORS: the bounding-box operators of PostGIS, by lookup type. */
  const Operators: map<string, string> := map[
    "overlaps_left" := "&<",
    "overlaps_right" := "&>",
    "left" := "<<",
    "right" := ">>",
    "overlaps_below" := "&<|",
    "overlaps_above" := "|&>",
    "strictly_below" := "<<|",
    "strictly_above" := "|>>",
    "same_as" := "~=",
    "exact" := "~=",
    "contained" := "@",
    "bbcontains" := "~",
    "bboverlaps" := "&&"
  ]

  /** POSTGIS_GEOMETRY_FUNCTIONS as first written, before any prefix is added. */
  const BaseGeometryFunctions: map<string, FuncInfo> := map[
    "equals" := Plain("Equals"),
    "disjoint" := Plain("Disjoint"),
    "touches" := Plain("Touches"),
    "crosses" := Plain("Crosses"),
    "within" := Plain("Within"),
    "overlaps" := Plain("Overlaps"),
    "contains" := Plain("Contains"),
    "intersects" := Plain("Intersects"),
    "relate" := WithArg("Relate", BaseString)
  ]

  /** The routines that exist only from PostGIS 1.2.2 on (written with `ST_` already). */
  const SqlMmOnlyFunctions: map<string, FuncInfo> := map[
    "dwithin" := WithArg("ST_DWithin", DistanceTypes),
    "coveredby" := Plain("ST_CoveredBy"),
    "covers" := Plain("ST_Covers")
  ]

  /** DISTANCE_FUNCTIONS: each distance lookup with its comparison operator. */
  const DistanceFunctions: map<string, FuncInfo> := map[
    "distance_gt" := WithArg(">", DistanceTypes),
    "distance_gte" := WithArg(">=", DistanceTypes),
    "distance_lt" := WithArg("<", DistanceTypes),
    "distance_lte" := WithArg("<=", DistanceTypes)
  ]

  /** MISC_TERMS: lookups that need no table entry. */
  const MiscTerms: seq<string> := ["isnull"]

  /** `get_func` applied to an entry: the prefix goes on the plain name or on
      the tuple's first element. */
  function WithPrefix(prefix: string, f: FuncInfo): FuncInfo
  {
    match f
    case Plain(n) => Plain(prefix + n)
    case WithArg(n, a) => WithArg(prefix + n, a)
  }

  /** Every entry of a table with the prefix added. */
  function PrefixAll(prefix: string, t: map<string, FuncInfo>): map<string, FuncInfo>
  {
    map k | k in t :: WithPrefix(prefix, t[k])
  }

  /** The final POSTGIS_GEOMETRY_FUNCTIONS for a given prefix. */
  function GeometryFunctionsFor(prefix: string): map<string, FuncInfo>
  {
    (if prefix == "ST_" then PrefixAll(prefix, BaseGeometryFunctions) + SqlMmOnlyFunctions
     else BaseGeometryFunctions) + DistanceFunctions
  }

  // ---------------------------------------------------------------------------
  // Module setup
  // ---------------------------------------------------------------------------

  /** What the module defines once it has been imported. */
  datatype Backend = Backend(
    funcPrefix: string,
    union: string,
    askml: Option<string>,
    asgml: string,
    distance: string,
    geomFromText: string,
    geomFromWkb: string,
    transform: string,
    geometryFunctions: map<string, FuncInfo>,
    terms: seq<string>)

  /** The version gate: the versions for which the import raises. */
  predicate Rejected(v: Version)
  {
    v.major != 1 || (v.major == 1 && v.minor1 < 1)
  }

  /** GEOM_FUNC_PREFIX: `ST_` from PostGIS 1.2.2 on. */
  function PrefixFor(v: Version): string
  {
    if v.major >= 1 && (v.minor1 > 2 || (v.minor1 == 2 && v.minor2 >= 2)) then "ST_" else ""
  }

  /** The version `v` is `major.minor1.minor2` or later, in the usual
      lexicographic order of version numbers. */
  predicate AtLeast(v: Version, major: int, minor1: int, minor2: int)
  {
    v.major > major || (v.major == major && (v.minor1 > minor1 || (v.minor1 == minor1 && v.minor2 >= minor2)))
  }

  /** The supported versions are exactly 1.1.0 up to (not including) 2.0.0,
      and among them the `ST_` prefix is chosen exactly from 1.2.2 on. */
  lemma VersionOrder(v: Version)
    ensures !Rejected(v) <==> AtLeast(v, 1, 1, 0) && !AtLeast(v, 2, 0, 0)
    ensures !Rejected(v) ==> (PrefixFor(v) == "ST_" <==> AtLeast(v, 1, 2, 2))
    ensures !Rejected(v) ==> (PrefixFor(v) == "" <==> !AtLeast(v, 1, 2, 2))
  {
  }

  predicate Distinct(s: seq<string>)
  {
    forall i, j :: 0 <= i < j < |s| ==> s[i] != s[j]
  }

  /** `s` lists every element of `keys` exactly once. */
  ghost predicate Enumerates(s: seq<string>, keys: set<string>)
  {
    Distinct(s) && |s| == |keys| && forall k :: k in s <==> k in keys
  }

  /** POSTGIS_TERMS: the operator keys, then the geometry-function keys (each
      in its dict's order), then `isnull`. */
  ghost predicate IsTermsTuple(terms: seq<string>, ops: set<string>, funcs: set<string>)
  {
    && |terms| == |ops| + |funcs| + 1
    && Enumerates(terms[..|ops|], ops)
    && Enumerates(terms[|ops|..|ops| + |funcs|], funcs)
    && terms[|ops| + |funcs|..] == MiscTerms
  }

  /** What a successful import under version `v` defines. */
  ghost predicate SetUpFor(b: Backend, v: Version)
  {
    && !Rejected(v)
    && b.funcPrefix == PrefixFor(v)
    && b.union == (if v.minor1 < 3 then "GeomUnion" else "ST_Union")
    && b.askml == (if v.minor1 == 1 then None else Some(b.funcPrefix + "AsKML"))
    && b.asgml == b.funcPrefix + "AsGML"
    && b.distance == b.funcPrefix + "Distance"
    && b.geomFromText == b.funcPrefix + "GeomFromText"
    && b.geomFromWkb == b.funcPrefix + "GeomFromWKB"
    && b.transform == b.funcPrefix + "Transform"
    && TablesBuilt(b)
  }

  /** The tables of a backend as the import builds them from its prefix. */
  ghost predicate TablesBuilt(b: Backend)
  {
    && (b.funcPrefix == "" || b.funcPrefix == "ST_")
    && b.geometryFunctions == GeometryFunctionsFor(b.funcPrefix)
    && IsTermsTuple(b.terms, Operators.Keys, b.geometryFunctions.Keys)
  }

  /** `d.keys()`: the keys of a dict, in whatever order the dict yields them. */
  method KeyList<V>(d: map<string, V>) returns (ks: seq<string>)
    ensures Enumerates(ks, d.Keys)
  {
    ks := [];
    var rest := d.Keys;
    ghost var seen: set<string> := {};
    while rest != {}
      invariant rest <= d.Keys && seen == d.Keys - rest
      invariant Distinct(ks) && |ks| == |seen|
      invariant forall k :: k in ks <==> k in seen
      decreases rest
    {
      var k :| k in rest;
      ks := ks + [k];
      rest := rest - {k};
      seen := seen + {k};
    }
  }

  /** Lines 121-125 of the source: every entry of the table, read from a
      snapshot of its items, is replaced by its prefixed form. */
  method AddPrefix(prefix: string, table: map<string, FuncInfo>) returns (funcs: map<string, FuncInfo>)
    ensures funcs == PrefixAll(prefix, table)
  {
    funcs := table;
    var items := funcs;
    var rest := items.Keys;
    while rest != {}
      invariant rest <= items.Keys == funcs.Keys
      invariant forall k :: k in funcs ==>
        funcs[k] == if k in rest then items[k] else WithPrefix(prefix, items[k])
      decreases rest
    {
      var lookup :| lookup in rest;
      match items[lookup] {
        case WithArg(name, argType) =>
          funcs := funcs[lookup := WithArg(prefix + name, argType)];
        case Plain(name) =>
          funcs := funcs[lookup := Plain(prefix + name)];
      }
      rest := rest - {lookup};
    }
  }

  /** The geometry-function table, rewritten in place under the `ST_` prefix
      and then extended. */
  method BuildGeometryFunctions(prefix: string) returns (funcs: map<string, FuncInfo>)
    ensures funcs == GeometryFunctionsFor(prefix)
  {
    funcs := BaseGeometryFunctions;
    if prefix == "ST_" {
      funcs := AddPrefix(prefix, funcs);
      funcs := funcs + SqlMmOnlyFunctions;
    }
    funcs := funcs + DistanceFunctions;
  }

  /** GEOM_FUNC_PREFIX, chosen from the version numbers. */
  method FuncPrefix(v: Version) returns (prefix: string)
    ensures prefix == PrefixFor(v)
  {
    prefix := "";
    if v.major >= 1 {
      if v.minor1 > 2 || (v.minor1 == 2 && v.minor2 >= 2) {
        prefix := "ST_";
      }
    }
  }

  /** POSTGIS_TERMS: the operator keys, the keys of the final geometry-function
      table and the miscellaneous terms, concatenated. */
  method BuildTerms(funcs: map<string, FuncInfo>) returns (terms: seq<string>)
    ensures IsTermsTuple(terms, Operators.Keys, funcs.Keys)
  {
    var opKeys := KeyList(Operators);
    var funcKeys := KeyList(funcs);
    terms := opKeys + funcKeys + MiscTerms;
    assert terms[..|opKeys|] == opKeys;
    assert terms[|opKeys|..|opKeys| + |funcKeys|] == funcKeys;
  }

  /** The import of the module: the version gate, then the step-by-step
      construction of the names, the tables and the list of terms. */
  method Setup(v: Version) returns (r: Result<Backend, SetupError>)
    ensures r.Failure? <==> Rejected(v)
    ensures r.Failure? ==> r.error == Unsupported(v.text)
    ensures r.Success? ==> SetUpFor(r.value, v)
  {
    if v.major != 1 || (v.major == 1 && v.minor1 < 1) {
      return Failure(Unsupported(v.text));
    }
    // From here on the major version is 1, so the source's `else` branch that
    // raises NotImplementedError for versions below 1.0 cannot be reached.
    var prefix := FuncPrefix(v);
    var askml := Some(prefix + "AsKML");
    var asgml := prefix + "AsGML";
    var distance := prefix + "Distance";
    var geomFromText := prefix + "GeomFromText";
    var geomFromWkb := prefix + "GeomFromWKB";
    var transform := prefix + "Transform";
    var union;
    if v.minor1 < 3 {
      union := "GeomUnion";
    } else {
      union := "ST_Union";
    }
    if v.minor1 == 1 {
      askml := None;
    }

    var funcs := BuildGeometryFunctions(prefix);

    var terms := BuildTerms(funcs);
    r := Success(Backend(prefix, union, askml, asgml, distance, geomFromText, geomFromWkb,
                         transform, funcs, terms));
  }

  // ---------------------------------------------------------------------------
  // The lookup routines
  // ---------------------------------------------------------------------------

  /** `get_geom_func`: the database function of a geometry lookup; a lookup
      type missing from the table raises KeyError. */
  function GetGeomFunc(b: Backend, lookupType: string): (r: Result<string, QueryError>)
    ensures r.Failure? <==> lookupType !in b.geometryFunctions
    ensures r.Failure? ==> r.error == UnknownFunction(lookupType)
  {
    if lookupType !in b.geometryFunctions then Failure(UnknownFunction(lookupType))
    else
      match b.geometryFunctions[lookupType]
      case WithArg(func, _) => Success(func)
      case Plain(func) => Success(func)
  }

  predicate EndsWithDot(s: string)
  {
    |s| > 0 && s[|s| - 1] == '.'
  }

  /** The table prefix as it goes into the clause: a prefix ending in `.` has
      the name before the dot quoted; any other prefix is kept as given. */
  function QuotePrefix(qn: string -> string, tablePrefix: string): (r: string)
    ensures EndsWithDot(r) <==> EndsWithDot(tablePrefix)
    ensures !EndsWithDot(tablePrefix) ==> r == tablePrefix
    ensures EndsWithDot(tablePrefix) ==> r[..|r| - 1] == qn(tablePrefix[..|tablePrefix| - 1])
  {
    if EndsWithDot(tablePrefix) then qn(tablePrefix[..|tablePrefix| - 1]) + "." else tablePrefix
  }

  /** The quoted column as it starts every clause. */
  function FieldRef(qn: string -> string, tablePrefix: string, fieldName: string): string
  {
    QuotePrefix(qn, tablePrefix) + qn(fieldName)
  }

  /** `isinstance(x, arg_type)` for the two argument types the tables use;
      `bool` passes for `dtypes` because it is a subclass of `int`. */
  predicate IsInstance(x: Value, argType: ArgType)
  {
    match x
    case Tuple(_) => false
    case Scalar(tag, _) =>
      match argType
      case BaseString => tag == Str
      case DistanceTypes => tag in {Decimal, DistanceObj, Float, Int, Bool}
  }

  /** Python truthiness of a value: a tuple is true when it is not empty. */
  predicate Truthy(x: Value)
  {
    match x
    case Tuple(items) => |items| > 0
    case Scalar(_, truthy) => truthy
  }

  /** `get_geo_where_clause`: the WHERE-clause template for a spatial lookup,
      `%s` standing for the parameters filled in later; `qn` is the
      database's identifier quoting. */
  function GetGeoWhereClause(b: Backend, qn: string -> string, lookupType: string,
                             tablePrefix: string, fieldName: string, value: Value)
    : (r: Result<string, QueryError>)
    ensures r.Success? ==>
      lookupType in Operators || lookupType in b.geometryFunctions || lookupType == "isnull"
    ensures r.Failure? ==> !r.error.UnknownFunction?
    ensures r == Failure(InvalidLookup(lookupType)) <==>
      lookupType !in Operators && lookupType !in b.geometryFunctions && lookupType != "isnull"
  {
    var pf := FieldRef(qn, tablePrefix, fieldName);
    if lookupType in Operators then Success(pf + " " + Operators[lookupType] + " %s")
    else if lookupType in b.geometryFunctions then
      match b.geometryFunctions[lookupType]
      case WithArg(func, argType) => TupleLookupClause(b, lookupType, func, argType, pf, value)
      case Plain(func) => Success(func + "(" + pf + ", %s)")
    else if lookupType == "isnull" then
      Success(pf + " IS " + (if !Truthy(value) then "NOT " else "") + "NULL")
    else Failure(InvalidLookup(lookupType))
  }

  /** The branch of `get_geo_where_clause` for lookups whose table entry is a
      (function, argument type) pair: the value must be a 2-tuple whose second
      element has that type. */
  function TupleLookupClause(b: Backend, lookupType: string, func: string, argType: ArgType,
                             pf: string, value: Value): (r: Result<string, QueryError>)
    ensures r.Failure? ==> !r.error.InvalidLookup? && !r.error.UnknownFunction?
  {
    if !value.Tuple? then Failure(TupleRequired(lookupType))
    else if |value.items| != 2 then Failure(TwoElementsRequired(lookupType))
    else if !IsInstance(value.items[1], argType) then
      Failure(ArgumentTypeMismatch(argType, value.items[1]))
    else if lookupType in DistanceFunctions then
      Success(b.distance + "(" + pf + ", %s) " + DistanceFunctions[lookupType].name + " %s")
    else Success(func + "(" + pf + ", %s, %s)")
  }

  // ---------------------------------------------------------------------------
  // Properties of the tables
  // ---------------------------------------------------------------------------

  /** No operator lookup is also a geometry-function lookup. */
  lemma OperatorsApartFromBase()
    ensures Operators.Keys !! BaseGeometryFunctions.Keys
  {
  }

  lemma OperatorsApartFromSqlMm()
    ensures Operators.Keys !! SqlMmOnlyFunctions.Keys
  {
  }

  lemma OperatorsApartFromDistance()
    ensures Operators.Keys !! DistanceFunctions.Keys
  {
  }

  /** The three parts of the geometry-function table have no key in common. */
  lemma BaseApartFromSqlMm()
    ensures BaseGeometryFunctions.Keys !! SqlMmOnlyFunctions.Keys
  {
  }

  lemma BaseApartFromDistance()
    ensures BaseGeometryFunctions.Keys !! DistanceFunctions.Keys
  {
  }

  lemma SqlMmApartFromDistance()
    ensures SqlMmOnlyFunctions.Keys !! DistanceFunctions.Keys
  {
  }

  /** `isnull` is in none of the tables. */
  lemma IsNullInNoTable()
    ensures "isnull" !in Operators && "isnull" !in BaseGeometryFunctions
    ensures "isnull" !in SqlMmOnlyFunctions && "isnull" !in DistanceFunctions
  {
  }

  /** The final table: the base lookups (prefixed under `ST_`), the SQL/MM-only
      lookups under `ST_` alone, and the distance lookups unchanged. */
  lemma GeometryFunctionsContents(prefix: string, k: string)
    requires prefix == "" || prefix == "ST_"
    ensures GeometryFunctionsFor(prefix).Keys == BaseGeometryFunctions.Keys + DistanceFunctions.Keys
      + (if prefix == "ST_" then SqlMmOnlyFunctions.Keys else {})
    ensures k in BaseGeometryFunctions ==>
      GeometryFunctionsFor(prefix)[k] == WithPrefix(prefix, BaseGeometryFunctions[k])
    ensures k in SqlMmOnlyFunctions && prefix == "ST_" ==>
      GeometryFunctionsFor(prefix)[k] == SqlMmOnlyFunctions[k]
    ensures k in DistanceFunctions ==> GeometryFunctionsFor(prefix)[k] == DistanceFunctions[k]
  {
    BaseApartFromSqlMm();
    BaseApartFromDistance();
    SqlMmApartFromDistance();
    if k in BaseGeometryFunctions && prefix == "" {
      var f := BaseGeometryFunctions[k];
      assert prefix + f.name == f.name;
    }
  }

  /** No lookup type is both an operator and a geometry function, and
      `isnull` is neither. */
  lemma KeySpaces(prefix: string)
    ensures Operators.Keys !! GeometryFunctionsFor(prefix).Keys
    ensures "isnull" !in Operators && "isnull" !in GeometryFunctionsFor(prefix)
  {
    OperatorsApartFromBase();
    OperatorsApartFromSqlMm();
    OperatorsApartFromDistance();
    IsNullInNoTable();
    var g := GeometryFunctionsFor(prefix);
    assert g.Keys <= BaseGeometryFunctions.Keys + SqlMmOnlyFunctions.Keys + DistanceFunctions.Keys;
  }

  /** Joining three lists with no element in common keeps them free of repeats. */
  lemma {:induction false} DistinctJoin(a: seq<string>, c: seq<string>, x: string)
    requires Distinct(a) && Distinct(c)
    requires forall k :: k in a ==> k !in c
    requires x !in a && x !in c
    ensures Distinct(a + c + [x])
  {
    var s := a + c + [x];
    forall i, j | 0 <= i < j < |s|
      ensures s[i] != s[j]
    {
      if j < |a| {
      } else if i < |a| {
        assert s[i] in a;
        if j < |a| + |c| { assert s[j] == c[j - |a|]; } else { assert s[j] == x; }
      } else if j < |a| + |c| {
        assert s[i] == c[i - |a|] && s[j] == c[j - |a|];
      } else {
        assert s[i] == c[i - |a|] && s[j] == x;
      }
    }
  }

  /** A terms tuple built from two key sets with nothing in common, neither
      holding `isnull`, lists each key exactly once. */
  lemma TermsListed(terms: seq<string>, ops: set<string>, funcs: set<string>)
    requires IsTermsTuple(terms, ops, funcs)
    requires ops !! funcs && "isnull" !in ops && "isnull" !in funcs
    ensures Distinct(terms)
    ensures forall k :: k in terms <==> k in ops || k in funcs || k == "isnull"
  {
    var n := |ops|;
    var m := |funcs|;
    var a := terms[..n];
    var c := terms[n..n + m];
    assert terms == a + c + ["isnull"];
    DistinctJoin(a, c, "isnull");
  }

  /** POSTGIS_TERMS lists every operator, every geometry-function lookup and
      `isnull`, each exactly once, and nothing else. */
  lemma TermsFor(b: Backend)
    requires TablesBuilt(b)
    ensures Distinct(b.terms)
    ensures forall k :: k in b.terms <==>
      k in Operators || k in b.geometryFunctions || k == "isnull"
  {
    KeySpaces(b.funcPrefix);
    TermsListed(b.terms, Operators.Keys, b.geometryFunctions.Keys);
  }

  /** The names an import defines follow the version: `ST_` names from 1.2.2
      on, `ST_Union` only from 1.3, and no KML output on 1.1. */
  lemma VersionSelection(b: Backend, v: Version)
    requires SetUpFor(b, v)
    ensures v.major == 1 && v.minor1 >= 1
    ensures b.funcPrefix == "ST_" <==> v.minor1 > 2 || (v.minor1 == 2 && v.minor2 >= 2)
    ensures b.funcPrefix == "" <==> !(v.minor1 > 2 || (v.minor1 == 2 && v.minor2 >= 2))
    ensures b.union == "ST_Union" <==> v.minor1 >= 3
    ensures b.union == "ST_Union" ==> b.funcPrefix == "ST_"
    ensures b.askml.None? <==> v.minor1 == 1
    ensures b.askml.None? ==> b.funcPrefix == ""
    ensures b.askml.Some? ==> b.askml.value == b.funcPrefix + "AsKML"
  {
  }

  /** `get_geom_func` of a base lookup is the table's function name (the
      plain name or the tuple's head), with the prefix under `ST_`. */
  lemma GetGeomFuncFor(b: Backend, k: string)
    requires TablesBuilt(b) && k in BaseGeometryFunctions
    ensures GetGeomFunc(b, k) == Success(b.funcPrefix + BaseGeometryFunctions[k].name)
  {
    GeometryFunctionsContents(b.funcPrefix, k);
    BaseApartFromSqlMm();
    BaseApartFromDistance();
    var f := BaseGeometryFunctions[k];
    assert b.geometryFunctions[k] == WithPrefix(b.funcPrefix, f);
  }

  /** `get_geom_func` of a distance lookup is its comparison operator,
      whatever the prefix. */
  lemma GetGeomFuncDistance(b: Backend, k: string)
    requires TablesBuilt(b) && k in DistanceFunctions
    ensures GetGeomFunc(b, k) == Success(DistanceFunctions[k].name)
  {
    GeometryFunctionsContents(b.funcPrefix, k);
  }

  /** The SQL/MM-only lookups have a function only from PostGIS 1.2.2 on;
      operators and `isnull` have none: asking for it raises KeyError. */
  lemma GetGeomFuncMissing(b: Backend, k: string)
    requires TablesBuilt(b)
    ensures k in SqlMmOnlyFunctions ==>
      GetGeomFunc(b, k) == if b.funcPrefix == "ST_" then Success(SqlMmOnlyFunctions[k].name)
                           else Failure(UnknownFunction(k))
    ensures k in Operators || k == "isnull" ==> GetGeomFunc(b, k) == Failure(UnknownFunction(k))
    ensures GetGeomFunc(b, k).Failure? ==> ExceptionClass(GetGeomFunc(b, k).error) == KeyError
  {
    if k in SqlMmOnlyFunctions {
      GeometryFunctionsContents(b.funcPrefix, k);
      BaseApartFromSqlMm();
      SqlMmApartFromDistance();
      OperatorsApartFromSqlMm();
      IsNullInNoTable();
    } else {
      KeySpaces(b.funcPrefix);
    }
  }

  /** An operator lookup gives `<table>.<field> <operator> %s`, whatever the
      backend and the value: the operators are consulted first. */
  lemma OperatorClause(b: Backend, b': Backend, qn: string -> string, k: string,
                       tablePrefix: string, fieldName: string, value: Value, value': Value)
    requires k in Operators
    ensures GetGeoWhereClause(b, qn, k, tablePrefix, fieldName, value) ==
            GetGeoWhereClause(b', qn, k, tablePrefix, fieldName, value')
    ensures GetGeoWhereClause(b, qn, k, tablePrefix, fieldName, value) ==
            Success(FieldRef(qn, tablePrefix, fieldName) + " " + Operators[k] + " %s")
  {
  }

  /** `same_as` and `exact` are the same lookup: the `~=` operator. */
  lemma SameAsIsExact(b: Backend, qn: string -> string, tablePrefix: string, fieldName: string,
                      value: Value)
    ensures Operators["same_as"] == Operators["exact"] == "~="
    ensures GetGeoWhereClause(b, qn, "same_as", tablePrefix, fieldName, value) ==
            GetGeoWhereClause(b, qn, "exact", tablePrefix, fieldName, value)
  {
  }

  /** A plain geometry lookup calls, on the field and one parameter, the
      function `get_geom_func` names, whatever the value. */
  lemma PlainFunctionClause(b: Backend, qn: string -> string, k: string,
                            tablePrefix: string, fieldName: string, value: Value)
    requires TablesBuilt(b)
    requires k in b.geometryFunctions && b.geometryFunctions[k].Plain?
    ensures GetGeomFunc(b, k).Success?
    ensures GetGeoWhereClause(b, qn, k, tablePrefix, fieldName, value) ==
      Success(GetGeomFunc(b, k).value + "(" + FieldRef(qn, tablePrefix, fieldName) + ", %s)")
  {
    KeySpaces(b.funcPrefix);
  }

  /** A value that passes the checks of a tuple lookup: a 2-tuple whose
      second element has the expected type. */
  predicate ValidPair(value: Value, argType: ArgType)
  {
    value.Tuple? && |value.items| == 2 && IsInstance(value.items[1], argType)
  }

  /** A lookup whose entry is a (function, type) pair checks, in this order,
      that the value is a tuple (TypeError), has two elements (ValueError) and
      that its second element has the type (TypeError); it succeeds exactly
      for such a pair. */
  lemma TupleLookupChecks(b: Backend, qn: string -> string, k: string,
                          tablePrefix: string, fieldName: string, value: Value)
    requires TablesBuilt(b)
    requires k in b.geometryFunctions && b.geometryFunctions[k].WithArg?
    ensures var r := GetGeoWhereClause(b, qn, k, tablePrefix, fieldName, value);
      var argType := b.geometryFunctions[k].argType;
      && (!value.Tuple? ==> r == Failure(TupleRequired(k)))
      && (value.Tuple? && |value.items| != 2 ==> r == Failure(TwoElementsRequired(k)))
      && (value.Tuple? && |value.items| == 2 && !IsInstance(value.items[1], argType) ==>
            r == Failure(ArgumentTypeMismatch(argType, value.items[1])))
      && (r.Failure? ==>
            ExceptionClass(r.error) == (if r.error.TwoElementsRequired? then ValueError else TypeError))
      && (r.Success? <==> ValidPair(value, argType))
  {
    KeySpaces(b.funcPrefix);
    var f := b.geometryFunctions[k];
    assert GetGeoWhereClause(b, qn, k, tablePrefix, fieldName, value) ==
           TupleLookupClause(b, k, f.name, f.argType, FieldRef(qn, tablePrefix, fieldName), value);
  }

  /** A valid distance lookup compares `Distance(...)` with its operator; any
      other tuple lookup calls the function `get_geom_func` names with two
      parameters. */
  lemma TupleLookupResult(b: Backend, qn: string -> string, k: string,
                          tablePrefix: string, fieldName: string, value: Value)
    requires TablesBuilt(b)
    requires k in b.geometryFunctions && b.geometryFunctions[k].WithArg?
    requires ValidPair(value, b.geometryFunctions[k].argType)
    ensures var r := GetGeoWhereClause(b, qn, k, tablePrefix, fieldName, value);
      var pf := FieldRef(qn, tablePrefix, fieldName);
      && (k in DistanceFunctions ==>
            r == Success(b.distance + "(" + pf + ", %s) " + DistanceFunctions[k].name + " %s"))
      && (k !in DistanceFunctions ==>
            r == Success(GetGeomFunc(b, k).value + "(" + pf + ", %s, %s)"))
  {
    KeySpaces(b.funcPrefix);
    var f := b.geometryFunctions[k];
    assert GetGeoWhereClause(b, qn, k, tablePrefix, fieldName, value) ==
           TupleLookupClause(b, k, f.name, f.argType, FieldRef(qn, tablePrefix, fieldName), value);
  }

  // The two texts the `isnull` template `%s IS %sNULL` yields, proved once
  // for any field text so that the clause lemma need not unfold literals.
  lemma NullTests(pf: string)
    ensures pf + " IS " + "NOT " + "NULL" == pf + " IS NOT NULL"
    ensures pf + " IS " + "" + "NULL" == pf + " IS NULL"
  {
  }

  /** An `isnull` lookup tests the field for NULL, or for NOT NULL when the
      value is false in Python's sense. */
  lemma IsNullClause(b: Backend, qn: string -> string, tablePrefix: string,
                     fieldName: string, value: Value)
    requires TablesBuilt(b)
    ensures GetGeoWhereClause(b, qn, "isnull", tablePrefix, fieldName, value) ==
      Success(FieldRef(qn, tablePrefix, fieldName)
              + (if Truthy(value) then " IS NULL" else " IS NOT NULL"))
  {
    KeySpaces(b.funcPrefix);
    NullTests(FieldRef(qn, tablePrefix, fieldName));
  }

  /** The routine rejects as an invalid lookup exactly the lookup types
      missing from POSTGIS_TERMS. */
  lemma InvalidExactlyOutsideTerms(b: Backend, qn: string -> string, k: string,
                                   tablePrefix: string, fieldName: string, value: Value)
    requires TablesBuilt(b)
    ensures GetGeoWhereClause(b, qn, k, tablePrefix, fieldName, value) == Failure(InvalidLookup(k))
            <==> k !in b.terms
  {
    TermsFor(b);
  }

  /** Before PostGIS 1.2.2 `dwithin`, `coveredby` and `covers` are not lookups. */
  lemma SqlMmNeedsNewPostgis(b: Backend, v: Version, qn: string -> string, k: string,
                             tablePrefix: string, fieldName: string, value: Value)
    requires SetUpFor(b, v) && k in SqlMmOnlyFunctions
    requires v.minor1 < 2 || (v.minor1 == 2 && v.minor2 < 2)
    ensures k !in b.terms
    ensures GetGeoWhereClause(b, qn, k, tablePrefix, fieldName, value) == Failure(InvalidLookup(k))
  {
    GeometryFunctionsContents(b.funcPrefix, k);
    BaseApartFromSqlMm();
    SqlMmApartFromDistance();
    assert k !in b.geometryFunctions;
    OperatorsApartFromSqlMm();
    IsNullInNoTable();
    TermsFor(b);
  }
}
