/** The version resolver of the multi-version Swagger configuration: it
    decides whether a described action belongs to the document of a given
    API version, by the version its route is constrained to. */
module AppBuilderExtensions {
  import opened Wrappers
  import opened Versioning

  /** The route-constraint key the versioning library registers. */
  const ApiVersionConstraintKey: string := "apiVersion"

  /** The route-constraint key of the OData path constraint. */
  const ODataConstraintKey: string := "ODataConstraint"

  /** A described action, reduced to the constraints of its route. */
  datatype ApiDescription = ApiDescription(routeConstraints: map<string, RouteConstraint>)

  /** The route's versioned OData path constraint: present only when both
      keys are present and the OData constraint casts to the versioned type. */
  function VersionConstraint(routeConstraints: map<string, RouteConstraint>): (c: Option<RouteConstraint>)
    ensures c.Some? <==>
      && ApiVersionConstraintKey in routeConstraints
      && ODataConstraintKey in routeConstraints
      && IsVersionedODataPathRouteConstraint(routeConstraints[ODataConstraintKey])
    ensures c.Some? ==> c.value == routeConstraints[ODataConstraintKey]
  {
    if ApiVersionConstraintKey in routeConstraints && ODataConstraintKey in routeConstraints
       && IsVersionedODataPathRouteConstraint(routeConstraints[ODataConstraintKey])
    then Some(routeConstraints[ODataConstraintKey])
    else None
  }

  /** `ResolveVersionSupportByRouteConstraint`: the route has a versioned
      OData path constraint whose version equals the parsed target. A target
      that does not parse compares as null. Nothing here can fail. */
  predicate ResolveVersionSupportByRouteConstraint(apiDesc: ApiDescription, targetApiVersion: string)
    ensures ApiVersionConstraintKey !in apiDesc.routeConstraints ==>
      !ResolveVersionSupportByRouteConstraint(apiDesc, targetApiVersion)
    ensures ODataConstraintKey !in apiDesc.routeConstraints ==>
      !ResolveVersionSupportByRouteConstraint(apiDesc, targetApiVersion)
    ensures ODataConstraintKey in apiDesc.routeConstraints &&
            !IsVersionedODataPathRouteConstraint(apiDesc.routeConstraints[ODataConstraintKey]) ==>
      !ResolveVersionSupportByRouteConstraint(apiDesc, targetApiVersion)
    ensures ResolveVersionSupportByRouteConstraint(apiDesc, targetApiVersion) ==>
      apiDesc.routeConstraints[ODataConstraintKey].apiVersion == TryParse(targetApiVersion)
    ensures VersionConstraint(apiDesc.routeConstraints).Some? &&
            apiDesc.routeConstraints[ODataConstraintKey].apiVersion == TryParse(targetApiVersion) ==>
      ResolveVersionSupportByRouteConstraint(apiDesc, targetApiVersion)
  {
    var versionConstraint := VersionConstraint(apiDesc.routeConstraints);
    var version := TryParse(targetApiVersion);
    versionConstraint.Some? && versionConstraint.value.apiVersion == version
  }

  /** A route pinned to version v is in the document of v's text form, and
      in the document of no other version's text form. */
  lemma SupportsExactlyItsOwnVersion(apiDesc: ApiDescription, v: ApiVersion, w: ApiVersion)
    requires ApiVersionConstraintKey in apiDesc.routeConstraints
    requires ODataConstraintKey in apiDesc.routeConstraints
    requires IsVersionedODataPathRouteConstraint(apiDesc.routeConstraints[ODataConstraintKey])
    requires apiDesc.routeConstraints[ODataConstraintKey].apiVersion == Some(v)
    ensures ResolveVersionSupportByRouteConstraint(apiDesc, ToString(v))
    ensures ResolveVersionSupportByRouteConstraint(apiDesc, ToString(w)) <==> v == w
  {
    ToStringRoundTrip(v);
    ToStringRoundTrip(w);
  }

  /** A route is in the documents of at most one version. */
  lemma AtMostOneVersion(apiDesc: ApiDescription, v: ApiVersion, w: ApiVersion)
    requires ResolveVersionSupportByRouteConstraint(apiDesc, ToString(v))
    requires ResolveVersionSupportByRouteConstraint(apiDesc, ToString(w))
    ensures v == w
  {
    ToStringRoundTrip(v);
    ToStringRoundTrip(w);
  }

  /** A target that fails to parse raises nothing and matches exactly the
      versioned routes whose version is null. */
  lemma UnparsableTargetMatchesOnlyNullVersion(apiDesc: ApiDescription, targetApiVersion: string)
    requires TryParse(targetApiVersion).None?
    ensures ResolveVersionSupportByRouteConstraint(apiDesc, targetApiVersion) <==>
      VersionConstraint(apiDesc.routeConstraints).Some? &&
      VersionConstraint(apiDesc.routeConstraints).value.apiVersion.None?
  {
  }

  /** The configured documents are "2.0" and "1.0": a route pinned to 1.0
      belongs to the "1.0" document and not to the "2.0" one. */
  lemma ConfiguredVersionsAreDisjoint(apiDesc: ApiDescription)
    requires ApiVersionConstraintKey in apiDesc.routeConstraints
    requires ODataConstraintKey in apiDesc.routeConstraints
    requires apiDesc.routeConstraints[ODataConstraintKey] == VersionedODataPathRouteConstraint(Some(ApiVersion(1, 0)))
    ensures ResolveVersionSupportByRouteConstraint(apiDesc, "1.0")
    ensures !ResolveVersionSupportByRouteConstraint(apiDesc, "2.0")
  {
  }
}
