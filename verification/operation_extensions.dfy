/** Sample request URIs for documented operations: sample values for the
    path parameters, binding them into the route's path template (with the
    route's API version substituted when the route is versioned), and the
    lazily created parameter list. */
module OperationExtensions {
  import opened Wrappers
  import opened Versioning
  import opened Swagger

  /** The name of the API-version path parameter of the versioning library. */
  const ApiVersionKeyName: string := "apiVersion"

  /** The location of a parameter that is part of the path. */
  const PathLocation: string := "path"

  /** Building the sample dictionary adds one key twice. */
  datatype Error = DuplicateKey(key: string)

  /** The URI a call produces, as the foreign call that produces it:
      appending the template to the service root as a plain path segment, or
      binding the named values into the template under the service root. */
  datatype SampleUri =
    | AppendedPathSegment(serviceRoot: string, segment: string)
    | BoundTemplate(prefix: string, template: string, bindings: map<string, string>)

  /** The OData route a versioned operation belongs to. */
  datatype ODataRoute = ODataRoute(routeConstraint: RouteConstraint)

  /** The parameters located in the path, in their original order. */
  function PathParameters(ps: seq<Parameter>): (r: seq<Parameter>)
    ensures |r| <= |ps|
    ensures forall p :: p in r <==> p in ps && p.location == PathLocation
    ensures forall p {:trigger multiset(r)[p]} :: multiset(r)[p] == if p.location == PathLocation then multiset(ps)[p] else 0
  {
    if ps == [] then []
    else
      assert ps == [ps[0]] + ps[1..];
      if ps[0].location == PathLocation then [ps[0]] + PathParameters(ps[1..])
      else PathParameters(ps[1..])
  }

  function NameSet(ps: seq<Parameter>): set<string>
  {
    set p | p in ps :: p.name
  }

  predicate DistinctNames(ps: seq<Parameter>)
  {
    forall i, j :: 0 <= i < j < |ps| ==> ps[i].name != ps[j].name
  }

  /** `key` occurs twice among the names of `ps`. */
  predicate RepeatedName(ps: seq<Parameter>, key: string)
  {
    exists i, j :: 0 <= i < j < |ps| && ps[i].name == key && ps[j].name == key
  }

  /** Adding the names of `ps` in order to a dictionary holding `acc.Keys`
      meets `key` when it is already present: `key` is a name in `ps` that is
      in `acc` or occurs earlier in `ps`. */
  predicate AddsExistingKey(ps: seq<Parameter>, acc: map<string, string>, key: string)
  {
    exists j :: 0 <= j < |ps| && ps[j].name == key &&
      (key in acc || exists i :: 0 <= i < j && ps[i].name == key)
  }

  lemma AddsExistingKeyStep(ps: seq<Parameter>, acc: map<string, string>, value: string, key: string)
    requires ps != [] && ps[0].name !in acc
    requires AddsExistingKey(ps[1..], acc[ps[0].name := value], key)
    ensures AddsExistingKey(ps, acc, key)
  {
  }

  /** A sample value starts or ends with a quote; the template supplies the
      OData quotes itself, so a bound value must not. */
  predicate StartsOrEndsWithQuote(s: string)
  {
    |s| > 0 && (s[0] == '\'' || s[|s| - 1] == '\'')
  }

  /** `ToDictionary(name, sample)` over `ps`, continuing from `acc`: each
      parameter is added in order, and adding a name already present fails. */
  function ToDictionary(ps: seq<Parameter>, gen: Parameter -> string, acc: map<string, string>)
    : (r: Result<map<string, string>, Error>)
    ensures r.Success? <==> DistinctNames(ps) && NameSet(ps) !! acc.Keys
    ensures r.Success? ==> r.value.Keys == acc.Keys + NameSet(ps)
    ensures r.Success? ==> forall k :: k in acc ==> r.value[k] == acc[k]
    ensures r.Success? ==> forall p :: p in ps ==> r.value[p.name] == gen(p)
    ensures r.Failure? ==> AddsExistingKey(ps, acc, r.error.key)
    decreases |ps|
  {
    if ps == [] then Success(acc)
    else if ps[0].name in acc then Failure(DuplicateKey(ps[0].name))
    else
      var rest := ToDictionary(ps[1..], gen, acc[ps[0].name := gen(ps[0])]);
      assert NameSet(ps) == {ps[0].name} + NameSet(ps[1..]) by {
        assert forall p :: p in ps <==> p == ps[0] || p in ps[1..];
      }
      assert DistinctNames(ps) <==> DistinctNames(ps[1..]) && ps[0].name !in NameSet(ps[1..]) by {
        if DistinctNames(ps[1..]) && ps[0].name !in NameSet(ps[1..]) {
          forall i, j | 0 <= i < j < |ps| ensures ps[i].name != ps[j].name {
            if i == 0 {
              assert ps[j] in ps[1..];
            } else {
              assert ps[i] == ps[1..][i - 1] && ps[j] == ps[1..][j - 1];
            }
          }
        }
        if DistinctNames(ps) {
          forall i, j | 0 <= i < j < |ps[1..]| ensures ps[1..][i].name != ps[1..][j].name {
            assert ps[1..][i] == ps[i + 1] && ps[1..][j] == ps[j + 1];
          }
        }
      }
      if rest.Failure? then
        AddsExistingKeyStep(ps, acc, gen(ps[0]), rest.error.key);
        rest
      else
        rest
  }

  /** `GenerateSamplePathParameterValues`: a sample value for each path
      parameter, keyed by its name. A missing parameter list gives null
      (`None`), not an empty dictionary; two path parameters with one name
      make the dictionary construction throw. */
  function GenerateSamplePathParameterValues(operation: Operation, gen: Parameter -> string)
    : (r: Result<Option<map<string, string>>, Error>)
    reads operation, operation.parameters
    ensures operation.parameters == null ==> r == Success(None)
    ensures operation.parameters != null ==>
      (r.Success? <==> DistinctNames(PathParameters(operation.parameters.items)))
    ensures r.Success? && operation.parameters != null ==>
      r.value.Some? && r.value.value.Keys == NameSet(PathParameters(operation.parameters.items))
    ensures r.Success? && r.value.Some? ==>
      forall p :: p in operation.parameters.items && p.location == PathLocation ==>
        r.value.value[p.name] == gen(p)
    ensures r.Failure? ==> RepeatedName(PathParameters(operation.parameters.items), r.error.key)
  {
    if operation.parameters == null then Success(None)
    else
      match ToDictionary(PathParameters(operation.parameters.items), gen, map[])
      case Success(m) => Success(Some(m))
      case Failure(e) =>
        var path := PathParameters(operation.parameters.items);
        assert RepeatedName(path, e.key) by {
          var j :| 0 <= j < |path| && path[j].name == e.key && exists i :: 0 <= i < j && path[i].name == e.key;
          var i :| 0 <= i < j && path[i].name == e.key;
        }
        Failure(e)
  }

  /** `GenerateSampleODataUri(serviceRoot, pathTemplate)`: with at least one
      sampled path value the template is bound under the service root;
      otherwise the template is appended to the root as a path segment. */
  function GenerateSampleODataUri(operation: Operation, serviceRoot: string, pathTemplate: string,
                                  gen: Parameter -> string)
    : (r: Result<SampleUri, Error>)
    reads operation, operation.parameters
    ensures r.Failure? <==> GenerateSamplePathParameterValues(operation, gen).Failure?
    ensures r.Success? ==>
      (r.value.AppendedPathSegment? <==>
         operation.parameters == null || PathParameters(operation.parameters.items) == [])
    ensures r.Success? && r.value.AppendedPathSegment? ==>
      r.value == AppendedPathSegment(serviceRoot, pathTemplate)
    ensures r.Success? && r.value.BoundTemplate? ==>
      && r.value.prefix == serviceRoot && r.value.template == pathTemplate
      && r.value.bindings.Keys == NameSet(PathParameters(operation.parameters.items))
      && forall p :: p in operation.parameters.items && p.location == PathLocation ==>
           r.value.bindings[p.name] == gen(p)
  {
    match GenerateSamplePathParameterValues(operation, gen)
    case Failure(e) => Failure(e)
    case Success(parameters) =>
      if parameters.Some? && |parameters.value| > 0 then
        Success(BoundTemplate(serviceRoot, pathTemplate, parameters.value))
      else
        Success(AppendedPathSegment(serviceRoot, pathTemplate))
  }

  /** `Parameters()`: the operation's parameter list, created empty and
      attached first if the operation has none. */
  method Parameters(operation: Operation) returns (list: ParameterList)
    modifies operation
    ensures operation.parameters == list
    ensures old(operation.parameters) != null ==>
      list == old(operation.parameters) && list.items == old(list.items)
    ensures old(operation.parameters) == null ==> fresh(list) && list.items == []
  {
    if operation.parameters == null {
      operation.parameters := new ParameterList();
    }
    list := operation.parameters;
  }

  /** A second `Parameters()` returns the list the first one did, unchanged. */
  method ParametersTwice(operation: Operation) returns (first: ParameterList, second: ParameterList)
    modifies operation
    ensures first == second && operation.parameters == second
    ensures old(operation.parameters) != null ==> second == old(operation.parameters)
  {
    first := Parameters(operation);
    second := Parameters(operation);
  }

  /** The version a route pins its operations to, as the URI builder reads
      it: only a constraint of exactly the versioned OData path type counts. */
  function ExactConstraintVersion(c: RouteConstraint): (v: Option<ApiVersion>)
    ensures v.Some? ==> c.VersionedODataPathRouteConstraint? && c.apiVersion == v
    ensures c.VersionedODataPathRouteConstraint? ==> v == c.apiVersion
  {
    if c.VersionedODataPathRouteConstraint? then c.apiVersion else None
  }

  /** When the generator never yields a quoted value, no value the
      unversioned overload binds starts or ends with a quote. */
  lemma BoundValuesUnquoted(operation: Operation, serviceRoot: string, pathTemplate: string,
                            gen: Parameter -> string)
    requires forall p :: !StartsOrEndsWithQuote(gen(p))
    ensures var r := GenerateSampleODataUri(operation, serviceRoot, pathTemplate, gen);
      r.Success? && r.value.BoundTemplate? ==>
        forall k :: k in r.value.bindings ==> !StartsOrEndsWithQuote(r.value.bindings[k])
  {
  }

  /** `GenerateSampleODataUri(serviceRoot, pathTemplate, odataRoute)`: the
      unversioned overload's URI, except that before binding, the sampled
      `apiVersion` value is overwritten with the text of the route's version,
      when the route constraint is exactly the versioned OData path type, its
      version is not null, and the key is already present. Without path
      samples the route is not consulted at all. */
  method GenerateVersionedSampleODataUri(operation: Operation, serviceRoot: string, pathTemplate: string,
                                         odataRoute: ODataRoute, gen: Parameter -> string)
    returns (r: Result<SampleUri, Error>)
    ensures var u := GenerateSampleODataUri(operation, serviceRoot, pathTemplate, gen);
      u.Failure? || u.value.AppendedPathSegment? ==> r == u
    ensures var u := GenerateSampleODataUri(operation, serviceRoot, pathTemplate, gen);
      u.Success? && u.value.BoundTemplate? ==>
        && r.Success? && r.value.BoundTemplate?
        && r.value.prefix == serviceRoot && r.value.template == pathTemplate
        && r.value.bindings.Keys == u.value.bindings.Keys
        && (forall k :: k in u.value.bindings && k != ApiVersionKeyName ==>
              r.value.bindings[k] == u.value.bindings[k])
        && (ApiVersionKeyName in u.value.bindings ==>
              r.value.bindings[ApiVersionKeyName] ==
                match ExactConstraintVersion(odataRoute.routeConstraint)
                case Some(v) => ToString(v)
                case None => u.value.bindings[ApiVersionKeyName])
    ensures ExactConstraintVersion(odataRoute.routeConstraint).None? ==>
      r == GenerateSampleODataUri(operation, serviceRoot, pathTemplate, gen)
    ensures operation.parameters != null &&
            ApiVersionKeyName !in NameSet(PathParameters(operation.parameters.items)) ==>
      r == GenerateSampleODataUri(operation, serviceRoot, pathTemplate, gen)
    ensures (forall p :: !StartsOrEndsWithQuote(gen(p))) && r.Success? && r.value.BoundTemplate? ==>
      forall k :: k in r.value.bindings ==> !StartsOrEndsWithQuote(r.value.bindings[k])
  {
    var sampled := GenerateSamplePathParameterValues(operation, gen);
    ghost var unversioned := GenerateSampleODataUri(operation, serviceRoot, pathTemplate, gen);
    if sampled.Failure? {
      assert unversioned == Failure(sampled.error);
      return Failure(sampled.error);
    }
    if sampled.value.None? || |sampled.value.value| == 0 {
      assert unversioned == Success(AppendedPathSegment(serviceRoot, pathTemplate));
      return Success(AppendedPathSegment(serviceRoot, pathTemplate));
    }
    var parameters := sampled.value.value;
    ghost var sampledValues := parameters;
    assert unversioned == Success(BoundTemplate(serviceRoot, pathTemplate, sampledValues));
    var version: Option<ApiVersion> := None;
    if odataRoute.routeConstraint.VersionedODataPathRouteConstraint? {
      version := odataRoute.routeConstraint.apiVersion;
    }
    if version.Some? && ApiVersionKeyName in parameters {
      parameters := parameters[ApiVersionKeyName := ToString(version.value)];
    }
    assert parameters.Keys == sampledValues.Keys;
    assert forall k :: k in sampledValues && k != ApiVersionKeyName ==> parameters[k] == sampledValues[k];
    assert ApiVersionKeyName in sampledValues ==>
      parameters[ApiVersionKeyName] ==
        match ExactConstraintVersion(odataRoute.routeConstraint)
        case Some(v) => ToString(v)
        case None => sampledValues[ApiVersionKeyName];
    r := Success(BoundTemplate(serviceRoot, pathTemplate, parameters));
    if forall p :: !StartsOrEndsWithQuote(gen(p)) {
      BoundValuesUnquoted(operation, serviceRoot, pathTemplate, gen);
    }
  }
}
