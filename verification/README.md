# Swashbuckle.OData: sample request URIs, controller allow-lists, version resolution

This project models, in Dafny, the route-to-documentation logic of
Swashbuckle.OData, the extension that lets Swashbuckle describe OData routes
(including routes of the ASP.NET API-versioning library) in a Swagger document.
Three pieces are modelled and proved:

- **Sample request URIs** (`OperationExtensions`, over the `Swagger` types).
  For a documented `Operation`, the path-located parameters become a dictionary
  from parameter name to sample value. With at least one entry, the path
  template is bound with that dictionary under the service root; otherwise the
  template is appended to the service root as a plain path segment. The
  versioned overload first overwrites the `apiVersion` entry with the text of
  the route's version. It does so only when the route constraint is exactly of
  the versioned OData path type, its version is not null, and the entry is
  already there. `Parameters()` attaches an empty parameter list to an
  operation that has none and returns the attached list.
- **Test controller selectors** (`ControllerSelection`). The plain and the
  version-aware selector both narrow the mapping of the selector they extend
  to the entries whose controller type is on an allow-list. A null allow-list
  gives an empty mapping.
- **Version resolver** (`AppBuilderExtensions`). It decides whether a
  described action belongs to the Swagger document of a target version. The
  route must carry both the `apiVersion` and the `ODataConstraint` constraints.
  The latter must be a versioned OData path constraint whose version equals
  the parsed target.

Supporting modules: `Wrappers` (`Option` for a nullable reference, `Result`
for a call that returns or throws) and `Versioning` (`ApiVersion`, its text
form `major.minor`, its parser, and the route-constraint kinds).

How the model represents the source:

- Nullable references are `Option` values. `Operation.parameters` is a
  nullable field of type `ParameterList?`, and `ParameterList` is a class, so
  "the same list object" is reference equality.
- The single-value sample generator is a function parameter
  `gen: Parameter -> string`.
- The foreign URI calls become the `SampleUri` datatype. It records which call
  is made and with which arguments: `AppendedPathSegment(root, template)` or
  `BoundTemplate(root, template, bindings)`.
- A thrown duplicate-key exception becomes `Failure(DuplicateKey(name))`.
- The non-null preconditions on `operation`, `serviceRoot` and `odataRoute`
  hold by typing: Dafny's class, string and datatype types have no null.
- In the resolver, every lookup `routeConstraints["ODataConstraint"]` is
  checked by Dafny's well-formedness rules. This proves it is only made after
  the key is known to be present, so it never fails.

Behaviour of the code that the model keeps:

- Two path parameters with one name make `ToDictionary` throw
  (`OperationExtensions.cs:25`). The model returns `Failure(DuplicateKey(name))`
  and names a key that occurs twice.
- Every path parameter is kept, each occurrence in order. No parameter is
  skipped for lack of a sample.
- The lazy list initialisation in `Parameters()` has no guard against
  concurrent first access.
- The URI builder checks the constraint's exact runtime type (`GetType() ==`).
  The resolver uses a cast (`as`), which also accepts derived types. So a
  route whose constraint is of a derived type counts as versioned for the
  resolver, but gets no `apiVersion` substitution in its sample URI. See
  `GenerateVersionedSampleODataUri` and `ExactConstraintVersion`.

## Model

| member | source | states |
|---|---|---|
| `OperationExtensions.PathParameters` | Swashbuckle.OData/Descriptions/OperationExtensions.cs:24 | each path parameter is kept as often as it occurs in the list, and every other parameter (query, body, header) is dropped |
| `OperationExtensions.ToDictionary` | Swashbuckle.OData/Descriptions/OperationExtensions.cs:25 | building succeeds iff the names are distinct (and new); then the keys are exactly the names and each name maps to its parameter's sample; a failure names a key that is already present when a later parameter adds it |
| `OperationExtensions.GenerateSamplePathParameterValues` | Swashbuckle.OData/Descriptions/OperationExtensions.cs:20-26 | a null parameter list gives null, not an empty map; otherwise success iff path names are distinct, keys are exactly the path parameter names, each mapped to its generated sample; a failure names a key shared by two path parameters |
| `OperationExtensions.GenerateSampleODataUri` | Swashbuckle.OData/Descriptions/OperationExtensions.cs:28-42 | fails iff sampling fails; the result is the plain appended segment iff there are no path parameters (or no list); otherwise the template is bound under the service root with exactly the path samples |
| `OperationExtensions.Parameters` | Swashbuckle.OData/Descriptions/OperationExtensions.cs:44-49 | afterwards the operation's list is the returned one; an existing list is returned as is with its items unchanged; a missing one is created fresh and empty |
| `OperationExtensions.ParametersTwice` | Swashbuckle.OData/Descriptions/OperationExtensions.cs:48 | two calls return the same list object with the same items: the accessor is idempotent |
| `OperationExtensions.ExactConstraintVersion` | Swashbuckle.OData/Descriptions/OperationExtensions.cs:79-86 | a version is taken from the route only when the constraint is of exactly the versioned OData path type, and then it is that constraint's (possibly null) version |
| `OperationExtensions.BoundValuesUnquoted` | Swashbuckle.OData/Descriptions/OperationExtensions.cs:24-25 | the sample bindings are exactly the generator's values, so a generator that never yields a value starting or ending with a quote gives bindings that never do |
| `OperationExtensions.GenerateVersionedSampleODataUri` | Swashbuckle.OData/Descriptions/OperationExtensions.cs:60-97 | on failure or with no path samples, the same result as the unversioned overload, without consulting the route; otherwise the same bindings except `apiVersion`, which (only if present) becomes the text of the route's version when the constraint has exactly the versioned type and a non-null version; with no `apiVersion` key or another constraint type the result equals the unversioned one; no bound value is quoted when the generator's are not |
| `Versioning.ToStringRoundTrip` | Swashbuckle.OData/Descriptions/OperationExtensions.cs:89 | parsing the text form of a version gives the version back |
| `Versioning.ToStringInjective` | Swashbuckle.OData.Tests/AppBuilderExtensions.cs:217-220 | distinct versions have distinct text forms |
| `ControllerSelection.ControllerSelector.GetControllerMapping` | Swashbuckle.OData.Tests/UnitTestControllerSelector.cs:26-35 | a null allow-list gives an empty mapping; the result is a sub-map of the base mapping with identical descriptors; a base entry is kept iff its controller type is on the allow-list |
| `ControllerSelection.EmptyAllowListYieldsEmptyMapping` | Swashbuckle.OData.Tests/UnitTestControllerSelector.cs:31 | an empty, non-null allow-list also gives an empty mapping |
| `ControllerSelection.FilterIdempotent` | Swashbuckle.OData.Tests/UnitTestControllerSelector.cs:30-32 | filtering the result again with the same allow-list returns it unchanged |
| `ControllerSelection.VariantsAgree` | Swashbuckle.OData.Tests/UnitTestControllerSelector.cs:70-79 | the plain and the versioned selector return the same mapping for the same base mapping and allow-list, a consequence of their shared definition; they differ only in which base selector supplies the mapping |
| `ControllerSelection.AllowListMonotone` | Swashbuckle.OData.Tests/UnitTestControllerSelector.cs:75 | adding a type to the allow-list keeps every entry kept before and adds only entries of that type |
| `AppBuilderExtensions.VersionConstraint` | Swashbuckle.OData.Tests/AppBuilderExtensions.cs:211-215 | a constraint is found iff both keys are present and the OData constraint casts to the versioned type, and then it is that constraint |
| `AppBuilderExtensions.ResolveVersionSupportByRouteConstraint` | Swashbuckle.OData.Tests/AppBuilderExtensions.cs:204-223 | false without the `apiVersion` key, without the `ODataConstraint` key, or when that constraint is not versioned; otherwise true iff its version equals the parsed target |
| `AppBuilderExtensions.SupportsExactlyItsOwnVersion` | Swashbuckle.OData.Tests/AppBuilderExtensions.cs:217-220 | a route pinned to version v is in the document named by v's text form, and in the document named by w's text form iff w = v |
| `AppBuilderExtensions.AtMostOneVersion` | Swashbuckle.OData.Tests/AppBuilderExtensions.cs:219-220 | a route belongs to the documents of at most one version |
| `AppBuilderExtensions.UnparsableTargetMatchesOnlyNullVersion` | Swashbuckle.OData.Tests/AppBuilderExtensions.cs:217-220 | a target that fails to parse raises nothing and matches exactly the versioned routes whose version is null |
| `AppBuilderExtensions.ConfiguredVersionsAreDisjoint` | Swashbuckle.OData.Tests/AppBuilderExtensions.cs:180-186 | of the configured documents "2.0" and "1.0", a route pinned to 1.0 is in "1.0" and not in "2.0" |

## Left out

- URI text: `UriTemplate.BindByName`, `new Uri(serviceRoot)` and Flurl's `AppendPathSegment` are foreign calls. Their escaping, their handling of unbound placeholders and their exceptions for a malformed root or template are not modelled. The model records which call is made, with which arguments.
- The single-value sample generator `GenerateSamplePathParameterValue` is not part of this model. It is the parameter `gen`, of which only "returns a string" is known.
- `ApiVersion` is reduced to numeric `major.minor`. `TryParse` accepts "M" (read as M.0) and "M.m". Date-based group versions and status suffixes such as "1.0-beta" are not modelled; the model parses them as failures.
- A null `ODataRoute.RouteConstraint`, a null value in the route-constraint dictionary and a null parameter name are not modelled. A null constraint value is treated like any non-versioned constraint (`OtherConstraint`).
- The base controller mappings of the default and the version-aware selectors are external. They are inputs, and the versioning options that shape them are not modelled.
- Thread safety of the lazy `Parameters()` initialisation is not modelled. The code has no locking, so the model is sequential.
- Configuration wiring in `AppBuilderExtensions.cs` (`GetStandardHttpConfig`, `GetVersionedHttpConfig`, `ConfigureHttpConfig`, `ConfigureVersionedHttpConfig`, `InitHttpConfig`, `ConfigureSwagger`, `ConfigureMultiVersionSwagger`) only registers framework services and Swagger settings. It is not modelled.
- The integration tests in `VersionedODataTests.cs` (hosting, HTTP calls, model building, controllers with random data) are not modelled. Their checks on the key the controller receives concern hand-written request URLs, not generated sample URIs.
- Dictionary enumeration order is not modelled. Maps are unordered.
- `ApiVersion` components are unbounded naturals. The library stores them as 32-bit integers, so an all-digit target beyond that range, such as "99999999999", parses in the model but not in the library. There it would leave the version null and match the null-version constraints.
- `pathTemplate` is non-null by typing, like every Dafny string. The source has no precondition for it, and what a null template does inside the foreign calls is not modelled.
- A null element of `operation.parameters` cannot be expressed, because `Parameter` is a datatype. In the source, reading its location throws.
