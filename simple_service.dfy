/**
 * templates/simple_service.py: the "simple-python-service" template.
 * Validation turns a raw requirements mapping into the canonical service
 * specification; generation places the project tree; the metadata export
 * summarises the routes; and the generated server answers a request by
 * looking up (method, path) in a map built from the route list.
 */
module SimpleService {
  import opened Wrappers
  import opened Text
  import opened Values
  import opened Errors
  import opened Utils
  import BaseTemplate

  const Name := "simple-python-service"
  const Description := "Lightweight Python service using the standard library HTTP server."
  const Version := "1.0.0"

  const AllowedMethods: set<string> := {"GET", "POST", "PUT", "DELETE"}

  /** The keys validation writes into the mapping it returns. */
  const SpecKeys: set<string> :=
    {"service_name", "description", "version", "container_image", "slug", "routes", "port"}

  /** The keys every normalized route holds, and no others. */
  const RouteKeys: set<string> := {"name", "identifier", "method", "path", "status", "response"}

  /** The keys of a route summary in the exported metadata. */
  const SummaryKeys: set<string> := {"name", "method", "path", "status"}

  /** A normalized route. */
  datatype Route = Route(name: string, identifier: string, httpMethod: string, path: string, status: int, response: Value)

  /** The mapping validation stores for a route. */
  function RouteValue(r: Route): (v: Value)
    ensures v.Dict? && v.fields.Keys == RouteKeys
  {
    Dict(map["name" := Str(r.name), "identifier" := Str(r.identifier), "method" := Str(r.httpMethod),
             "path" := Str(r.path), "status" := Int(r.status), "response" := r.response])
  }

  function RouteValues(rs: seq<Route>): (vs: seq<Value>)
    ensures |vs| == |rs|
    ensures forall i :: 0 <= i < |rs| ==> vs[i] == RouteValue(rs[i])
  {
    seq(|rs|, i requires 0 <= i < |rs| => RouteValue(rs[i]))
  }

  /** `s.replace("-", "_")` */
  function Underscored(s: string): (r: string)
    ensures |r| == |s|
  {
    seq(|s|, i requires 0 <= i < |s| => if s[i] == '-' then '_' else s[i])
  }

  function Fallback(index: nat): string {
    "route_" + NatToText(index + 1)
  }

  /**
   * `slugify(name).replace("-", "_") or f"route_{index + 1}"`. A slug is
   * never empty, so the fallback is never taken.
   */
  function Identifier(name: string, index: nat): (r: string)
    ensures r == Underscored(Slugify(name)) && r != []
  {
    var identifier := Underscored(Slugify(name));
    if identifier != "" then identifier else Fallback(index)
  }

  /** `str(route.get("name") or f"route_{index + 1}")` */
  function RouteName(index: nat, route: Mapping): (name: string)
    ensures name != []
  {
    var given := Get(route, "name", Null);
    ToText(if Truthy(given) then given else Str(Fallback(index)))
  }

  /** `str(route.get("method", "GET")).upper()` */
  function RouteMethod(route: Mapping): string {
    Upper(ToText(Get(route, "method", Str("GET"))))
  }

  /** `path` is truthy and its `str()` starts with "/". */
  predicate PathAccepted(path: Value) {
    Truthy(path) && ToText(path) != [] && ToText(path)[0] == '/'
  }

  /** `route.get("status", 200)`, before `int()` */
  function RouteStatus(route: Mapping): Value {
    Get(route, "status", Int(200))
  }

  /** `route.get("response") or {"message": f"Response from {name}"}` */
  function RouteResponse(route: Mapping, name: string): (response: Value)
    ensures Truthy(response)
  {
    var given := Get(route, "response", Null);
    if Truthy(given) then given
    else
      var message := map["message" := Str("Response from " + name)];
      assert "message" in message;
      Dict(message)
  }

  /** What a normalized route always satisfies. */
  predicate CanonicalRoute(r: Route) {
    && r.name != []
    && r.identifier == Underscored(Slugify(r.name))
    && r.httpMethod in AllowedMethods
    && r.path != [] && r.path[0] == '/'
    && Truthy(r.response)
  }

  /** The route built from an entry that passed every check. */
  function BuildRoute(index: nat, route: Mapping, status: int): (r: Route)
    requires RouteMethod(route) in AllowedMethods
    requires PathAccepted(Get(route, "path", Null))
    ensures CanonicalRoute(r)
  {
    var name := RouteName(index, route);
    Route(name, Identifier(name, index), RouteMethod(route), ToText(Get(route, "path", Null)), status, RouteResponse(route, name))
  }

  /** Normalizes the route entry at position `index` (0-based). */
  function NormalizeRoute(index: nat, entry: Value): (r: Result<Route, Error>)
    ensures !entry.Dict? ==> r == Failure(RouteNotMapping)
    ensures r.Failure? ==>
      r.error in {RouteNotMapping, InvalidRoutePath} || r.error.UnsupportedMethod? || r.error.NotAnInteger?
    ensures r.Success? ==> CanonicalRoute(r.value) && ToInt(RouteStatus(entry.fields)) == Some(r.value.status)
  {
    if !entry.Dict? then Failure(RouteNotMapping)
    else if RouteMethod(entry.fields) !in AllowedMethods then Failure(UnsupportedMethod(RouteMethod(entry.fields)))
    else if !PathAccepted(Get(entry.fields, "path", Null)) then Failure(InvalidRoutePath)
    else match ToInt(RouteStatus(entry.fields))
      case None => Failure(NotAnInteger(RouteStatus(entry.fields)))
      case Some(status) => Success(BuildRoute(index, entry.fields, status))
  }

  /**
   * An entry is accepted exactly when it is a mapping whose upper-cased
   * method is allowed, whose path is rooted at "/", and whose status
   * converts with `int()`; anything but a mapping is rejected as such.
   */
  lemma NormalizeRouteAccepts(index: nat, entry: Value)
    ensures NormalizeRoute(index, entry).Success? <==>
      && entry.Dict?
      && RouteMethod(entry.fields) in AllowedMethods
      && PathAccepted(Get(entry.fields, "path", Null))
      && ToInt(RouteStatus(entry.fields)).Some?
    ensures !entry.Dict? ==> NormalizeRoute(index, entry) == Failure(RouteNotMapping)
  {
  }

  /** An accepted entry yields a normalized route. */
  lemma NormalizeRouteCanonical(index: nat, entry: Value)
    requires NormalizeRoute(index, entry).Success?
    ensures CanonicalRoute(NormalizeRoute(index, entry).value)
  {
  }

  /**
   * A `for index, x in enumerate(xs)` loop whose body either appends
   * `step(index, x)` or raises: every entry in order, stopping at the
   * first error.
   */
  function Traverse<X, Y, E>(xs: seq<X>, step: (nat, X) -> Result<Y, E>): (r: Result<seq<Y>, E>)
    ensures r.Success? <==> forall i :: 0 <= i < |xs| ==> step(i, xs[i]).Success?
    ensures r.Success? ==>
      && |r.value| == |xs|
      && forall i :: 0 <= i < |xs| ==> step(i, xs[i]) == Success(r.value[i])
    ensures r.Failure? ==>
      exists k :: 0 <= k < |xs| && step(k, xs[k]) == Failure(r.error)
        && forall j :: 0 <= j < k ==> step(j, xs[j]).Success?
  {
    if xs == [] then Success([])
    else
      var last := |xs| - 1;
      assert forall i :: 0 <= i < last ==> xs[..last][i] == xs[i];
      match Traverse(xs[..last], step)
      case Failure(e) => Failure(e)
      case Success(done) =>
        match step(last, xs[last])
        case Failure(e) => Failure(e)
        case Success(y) => Success(done + [y])
  }

  /** The loop over the declared route entries. */
  function NormalizeRoutes(entries: seq<Value>): Result<seq<Route>, Error> {
    Traverse(entries, NormalizeRoute)
  }

  /** When every entry before `k` succeeds and entry `k` fails, the loop raises entry `k`'s error. */
  lemma TraverseStops<X, Y, E>(xs: seq<X>, step: (nat, X) -> Result<Y, E>, k: nat)
    requires k < |xs|
    requires Traverse(xs[..k], step).Success?
    requires step(k, xs[k]).Failure?
    ensures Traverse(xs, step) == Failure(step(k, xs[k]).error)
  {
    forall j | 0 <= j < k ensures step(j, xs[j]).Success? {
      assert xs[..k][j] == xs[j];
    }
    var r := Traverse(xs, step);
    var k' :| 0 <= k' < |xs| && step(k', xs[k']) == Failure(r.error)
      && forall j :: 0 <= j < k' ==> step(j, xs[j]).Success?;
    assert k' == k;
  }

  /** One more successful step extends the traversal of a prefix by its value. */
  lemma TraverseExtends<X, Y, E>(xs: seq<X>, step: (nat, X) -> Result<Y, E>, k: nat, done: seq<Y>, y: Y)
    requires k < |xs|
    requires Traverse(xs[..k], step) == Success(done)
    requires step(k, xs[k]) == Success(y)
    ensures Traverse(xs[..k + 1], step) == Success(done + [y])
  {
    assert xs[..k + 1][..k] == xs[..k];
  }

  /** The route synthesised when the requirements declare none. */
  function DefaultRoute(serviceName: string): Route {
    Route("root", "root", "GET", "/", 200, Dict(map["message" := Str("Hello from " + serviceName + "!")]))
  }

  /**
   * `list(routes or [])`. A non-empty string or mapping lists strings, so
   * its first entry already fails the mapping check; `list()` of a true
   * bool or a non-zero int raises TypeError.
   */
  function RouteEntries(routes: Value): Result<seq<Value>, Error> {
    if !Truthy(routes) then Success([])
    else match routes
      case List(items) => Success(items)
      case Str(_) => Failure(RouteNotMapping)
      case Dict(_) => Failure(RouteNotMapping)
      case _ => Failure(NotIterable(routes))
  }

  /** The normalized routes: the default route when none are declared. */
  function RoutesFor(serviceName: string, routes: Value): Result<seq<Route>, Error> {
    match RouteEntries(routes)
    case Failure(e) => Failure(e)
    case Success(entries) =>
      if entries == [] then Success([DefaultRoute(serviceName)]) else NormalizeRoutes(entries)
  }

  /**
   * Whether the renderers' `for route in spec["routes"]` loops and their
   * `route[key]` lookups go through: a list of mappings holding every route
   * key, or an empty string or mapping, which visit nothing. A non-empty
   * string or mapping visits strings, and indexing a string by a key
   * raises TypeError; anything else is not iterable.
   */
  predicate RoutesReadable(routes: Value) {
    match routes
    case List(items) => forall i :: 0 <= i < |items| ==> items[i].Dict? && RouteKeys <= items[i].fields.Keys
    case Str(s) => s == ""
    case Dict(fields) => fields == map[]
    case _ => false
  }

  /** The routes the renderers' loops visit. */
  function RouteItems(routes: Value): (items: seq<Value>)
    requires RoutesReadable(routes)
    ensures forall i :: 0 <= i < |items| ==> items[i].Dict? && RouteKeys <= items[i].fields.Keys
  {
    if routes.List? then routes.items else []
  }

  /** The mapping the template's generator reads: derived keys present, routes readable. */
  predicate IsServiceSpec(spec: Mapping) {
    && SpecKeys <= spec.Keys
    && RoutesReadable(spec["routes"])
  }

  /** `requirements.get("container_image") or f"registry.example.com/{slug}:{version}"` */
  function ContainerImage(requirements: Mapping, slug: string, version: string): Value {
    var image := Get(requirements, "container_image", Null);
    if Truthy(image) then image else Str("registry.example.com/" + slug + ":" + version)
  }

  /** The seven entries `normalized.update` writes. */
  function Update(serviceName: string, description: string, version: string, image: string,
                  slug: string, routes: seq<Route>, port: int): Mapping
  {
    map[
      "service_name" := Str(serviceName),
      "description" := Str(description),
      "version" := Str(version),
      "container_image" := Str(image),
      "slug" := Str(slug),
      "routes" := List(RouteValues(routes)),
      "port" := Int(port)]
  }

  /** `str(requirements.get("version", "0.1.0"))` */
  function ServiceVersion(requirements: Mapping): string {
    ToText(Get(requirements, "version", Str("0.1.0")))
  }

  /** `str(container_image)`, with the image derived from the slug and the version. */
  function ServiceImage(requirements: Mapping): string
    requires "service_name" in requirements
  {
    ToText(ContainerImage(requirements, Slugify(ServiceName(requirements)), ServiceVersion(requirements)))
  }

  /**
   * `normalized.update({...})` on the copied requirements, once the routes
   * and the port are known.
   */
  function Derived(requirements: Mapping, routes: seq<Route>, port: int): Mapping
    requires "service_name" in requirements && "description" in requirements
  {
    var serviceName := ServiceName(requirements);
    requirements + Update(serviceName, ToText(requirements["description"]), ServiceVersion(requirements),
                          ServiceImage(requirements), Slugify(serviceName), routes, port)
  }

  /** The update writes exactly the derived keys, and the routes as mappings with the six route keys. */
  lemma UpdateShape(serviceName: string, description: string, version: string, image: string,
                    slug: string, routes: seq<Route>, port: int)
    ensures var u := Update(serviceName, description, version, image, slug, routes, port);
      && u.Keys == SpecKeys
      && IsServiceSpec(u)
  {
  }

  /**
   * The derived keys overwrite whatever was there, every other key is
   * carried over, and the result is a service specification.
   */
  lemma DerivedShape(requirements: Mapping, routes: seq<Route>, port: int)
    requires "service_name" in requirements && "description" in requirements
    ensures var spec := Derived(requirements, routes, port);
      && spec.Keys == requirements.Keys + SpecKeys
      && (forall k :: k in requirements && k !in SpecKeys ==> spec[k] == requirements[k])
      && IsServiceSpec(spec)
  {
    var serviceName := ServiceName(requirements);
    var description := ToText(requirements["description"]);
    var u := Update(serviceName, description, ServiceVersion(requirements), ServiceImage(requirements), Slugify(serviceName), routes, port);
    UpdateShape(serviceName, description, ServiceVersion(requirements), ServiceImage(requirements), Slugify(serviceName), routes, port);
    assert Derived(requirements, routes, port) == requirements + u;
    assert (requirements + u)["routes"] == u["routes"];
  }

  /** The required fields of the service template. */
  const Required: seq<string> := ["service_name", "description"]

  /**
   * `validate_requirements`: the canonical service specification, or the
   * error validation raises.
   */
  function Validate(requirements: Mapping): (r: Result<Mapping, Error>)
    ensures "service_name" !in requirements || "description" !in requirements ==>
      r == Failure(MissingFields(Name, BaseTemplate.MissingFrom(requirements, Required)))
    ensures r.Success? ==> IsServiceSpec(r.value)
    ensures r.Success? ==> r.value.Keys == requirements.Keys + SpecKeys
    ensures r.Success? ==> forall k :: k in requirements && k !in SpecKeys ==> r.value[k] == requirements[k]
  {
    match BaseTemplate.EnsureFields(Name, requirements, Required)
    case Some(e) => Failure(e)
    case None =>
      assert Required[0] in requirements && Required[1] in requirements;
      var serviceName := ToText(requirements["service_name"]);
      match RoutesFor(serviceName, Get(requirements, "routes", Null))
      case Failure(e) => Failure(e)
      case Success(routes) =>
        var portValue := Get(requirements, "port", Int(8000));
        match ToInt(portValue)
        case None => Failure(NotAnInteger(portValue))
        case Some(port) =>
          DerivedShape(requirements, routes, port);
          Success(Derived(requirements, routes, port))
  }

  /**
   * The `for index, route in enumerate(routes)` loop: each normalized route
   * is appended in turn, and the first rejected entry ends the loop with
   * its error.
   */
  method NormalizeEach(routes: seq<Value>) returns (r: Result<seq<Route>, Error>)
    ensures r == NormalizeRoutes(routes)
  {
    var normalized: seq<Route> := [];
    var index := 0;
    while index < |routes|
      invariant 0 <= index <= |routes|
      invariant Traverse(routes[..index], NormalizeRoute) == Success(normalized)
    {
      var route := NormalizeRoute(index, routes[index]);
      if route.Failure? {
        TraverseStops(routes, NormalizeRoute, index);
        return Failure(route.error);
      }
      TraverseExtends(routes, NormalizeRoute, index, normalized, route.value);
      normalized := normalized + [route.value];
      index := index + 1;
    }
    assert routes[..index] == routes;
    return Success(normalized);
  }

  /**
   * `validate_requirements` as the source runs it: the routes are built by
   * appending in a loop, then the copied mapping is updated.
   */
  method ValidateRequirements(requirements: Mapping) returns (r: Result<Mapping, Error>)
    ensures r == Validate(requirements)
  {
    var missing := BaseTemplate.EnsureFields(Name, requirements, Required);
    if missing.Some? {
      return Failure(missing.value);
    }
    assert Required[0] in requirements && Required[1] in requirements;
    var serviceName := ToText(requirements["service_name"]);
    var listed := RouteEntries(Get(requirements, "routes", Null));
    if listed.Failure? {
      return Failure(listed.error);
    }
    var routes := listed.value;
    var normalized: seq<Route>;
    if routes == [] {
      normalized := [DefaultRoute(serviceName)];
    } else {
      var built := NormalizeEach(routes);
      if built.Failure? {
        return Failure(built.error);
      }
      normalized := built.value;
    }
    var portValue := Get(requirements, "port", Int(8000));
    var port := ToInt(portValue);
    if port.None? {
      return Failure(NotAnInteger(portValue));
    }
    r := Success(Derived(requirements, normalized, port.value));
    DerivedShape(requirements, normalized, port.value);
  }

  /** The service name validation reads, as `str(requirements["service_name"])`. */
  function ServiceName(requirements: Mapping): string
    requires "service_name" in requirements
  {
    ToText(requirements["service_name"])
  }

  /**
   * Validation succeeds exactly when both required fields are present, the
   * routes normalize and the port converts with `int()`.
   */
  lemma ValidateSucceeds(requirements: Mapping)
    ensures Validate(requirements).Success? <==>
      && "service_name" in requirements && "description" in requirements
      && RoutesFor(ServiceName(requirements), Get(requirements, "routes", Null)).Success?
      && ToInt(Get(requirements, "port", Int(8000))).Some?
  {
    if "service_name" in requirements && "description" in requirements {
      assert BaseTemplate.EnsureFields(Name, requirements, Required).None?;
    }
  }

  /** The fields `normalized.update` writes, one by one. */
  lemma DerivedFields(requirements: Mapping, routes: seq<Route>, port: int)
    requires "service_name" in requirements && "description" in requirements
    ensures var spec := Derived(requirements, routes, port);
      var serviceName := ServiceName(requirements);
      var slug := Slugify(serviceName);
      var version := ToText(Get(requirements, "version", Str("0.1.0")));
      && spec["service_name"] == Str(serviceName)
      && spec["description"] == Str(ToText(requirements["description"]))
      && spec["slug"] == Str(slug)
      && spec["version"] == Str(version)
      && spec["container_image"] == Str(ToText(ContainerImage(requirements, slug, version)))
      && spec["routes"] == List(RouteValues(routes))
      && spec["port"] == Int(port)
  {
    var serviceName := ServiceName(requirements);
    var description := ToText(requirements["description"]);
    var u := Update(serviceName, description, ServiceVersion(requirements), ServiceImage(requirements), Slugify(serviceName), routes, port);
    UpdateFields(serviceName, description, ServiceVersion(requirements), ServiceImage(requirements), Slugify(serviceName), routes, port);
    assert Derived(requirements, routes, port) == requirements + u;
    MergedFields(requirements, u, serviceName, description, ServiceVersion(requirements), ServiceImage(requirements),
                 Slugify(serviceName), routes, port);
  }

  /** The entries an update writes are the ones read back from the updated mapping. */
  lemma MergedFields(m: Mapping, u: Mapping, serviceName: string, description: string, version: string,
                     image: string, slug: string, routes: seq<Route>, port: int)
    requires SpecKeys <= u.Keys
    requires u["service_name"] == Str(serviceName) && u["description"] == Str(description)
    requires u["slug"] == Str(slug) && u["version"] == Str(version) && u["container_image"] == Str(image)
    requires u["routes"] == List(RouteValues(routes)) && u["port"] == Int(port)
    ensures var spec := m + u;
      && spec["service_name"] == Str(serviceName) && spec["description"] == Str(description)
      && spec["slug"] == Str(slug) && spec["version"] == Str(version) && spec["container_image"] == Str(image)
      && spec["routes"] == List(RouteValues(routes)) && spec["port"] == Int(port)
  {
  }

  lemma UpdateFields(serviceName: string, description: string, version: string, image: string,
                     slug: string, routes: seq<Route>, port: int)
    ensures var u := Update(serviceName, description, version, image, slug, routes, port);
      && SpecKeys <= u.Keys
      && u["service_name"] == Str(serviceName)
      && u["description"] == Str(description)
      && u["slug"] == Str(slug)
      && u["version"] == Str(version)
      && u["container_image"] == Str(image)
      && u["routes"] == List(RouteValues(routes))
      && u["port"] == Int(port)
  {
  }

  /** When validation succeeds it is the update of the copied mapping with the normalized routes and the port. */
  lemma ValidateIsDerived(requirements: Mapping)
    requires Validate(requirements).Success?
    ensures "service_name" in requirements && "description" in requirements
    ensures RoutesFor(ServiceName(requirements), Get(requirements, "routes", Null)).Success?
    ensures ToInt(Get(requirements, "port", Int(8000))).Some?
    ensures Validate(requirements) == Success(Derived(requirements,
      RoutesFor(ServiceName(requirements), Get(requirements, "routes", Null)).value,
      ToInt(Get(requirements, "port", Int(8000))).value))
  {
    ValidateSucceeds(requirements);
    assert BaseTemplate.EnsureFields(Name, requirements, Required).None?;
  }

  /**
   * The derived top-level fields: the slug of the service name, version
   * "0.1.0" by default, the registry image built from slug and version
   * when no image is given, port 8000 by default, and the normalized
   * routes.
   */
  lemma ValidateDerives(requirements: Mapping)
    requires Validate(requirements).Success?
    ensures "service_name" in requirements && "description" in requirements
    ensures var spec := Validate(requirements).value;
      var serviceName := ServiceName(requirements);
      var version := ToText(Get(requirements, "version", Str("0.1.0")));
      && spec["service_name"] == Str(serviceName)
      && spec["description"] == Str(ToText(requirements["description"]))
      && spec["slug"] == Str(Slugify(serviceName))
      && spec["version"] == Str(version)
      && ("version" !in requirements ==> version == "0.1.0")
      && (!Truthy(Get(requirements, "container_image", Null)) ==>
            spec["container_image"] == Str("registry.example.com/" + Slugify(serviceName) + ":" + version))
      && (Truthy(Get(requirements, "container_image", Null)) ==>
            spec["container_image"] == Str(ToText(requirements["container_image"])))
      && spec["port"] == Int(ToInt(Get(requirements, "port", Int(8000))).value)
      && ("port" !in requirements ==> spec["port"] == Int(8000))
      && spec["routes"] == List(RouteValues(RoutesFor(serviceName, Get(requirements, "routes", Null)).value))
  {
    ValidateIsDerived(requirements);
    var routes := RoutesFor(ServiceName(requirements), Get(requirements, "routes", Null)).value;
    var port := ToInt(Get(requirements, "port", Int(8000))).value;
    DerivedFields(requirements, routes, port);
  }

  /** With no routes declared (absent or falsy), the one default route is used. */
  lemma ValidateDefaultRoute(requirements: Mapping)
    requires Validate(requirements).Success?
    requires !Truthy(Get(requirements, "routes", Null))
    ensures "service_name" in requirements
    ensures Validate(requirements).value["routes"] == List([RouteValue(DefaultRoute(ServiceName(requirements)))])
  {
    ValidateDerives(requirements);
    var serviceName := ServiceName(requirements);
    var routes := Get(requirements, "routes", Null);
    assert RouteEntries(routes) == Success([]);
    OneRouteValue(RoutesFor(serviceName, routes), DefaultRoute(serviceName));
  }

  lemma OneRouteValue(r: Result<seq<Route>, Error>, d: Route)
    requires r == Success([d])
    ensures r.Success? && RouteValues(r.value) == [RouteValue(d)]
  {
  }

  /**
   * Declared routes keep their number and order: route `i` of the result
   * is entry `i` normalized, holding exactly the six route keys.
   */
  lemma ValidateDeclaredRoutes(requirements: Mapping, entries: seq<Value>)
    requires Validate(requirements).Success?
    requires Get(requirements, "routes", Null) == List(entries) && entries != []
    ensures var routes := Validate(requirements).value["routes"];
      && routes.List? && |routes.items| == |entries|
      && forall i :: 0 <= i < |entries| ==>
           && NormalizeRoute(i, entries[i]).Success?
           && routes.items[i] == RouteValue(NormalizeRoute(i, entries[i]).value)
           && routes.items[i].fields.Keys == RouteKeys
  {
    ValidateDerives(requirements);
  }

  /**
   * The first entry that fails normalization decides the error: every
   * entry before it is accepted, and validation raises its error.
   */
  lemma ValidateRejectsRoute(requirements: Mapping, entries: seq<Value>, k: nat)
    requires "service_name" in requirements && "description" in requirements
    requires Get(requirements, "routes", Null) == List(entries)
    requires k < |entries|
    requires forall j :: 0 <= j < k ==> NormalizeRoute(j, entries[j]).Success?
    requires NormalizeRoute(k, entries[k]).Failure?
    ensures Validate(requirements) == Failure(NormalizeRoute(k, entries[k]).error)
  {
    assert BaseTemplate.EnsureFields(Name, requirements, Required).None?;
    forall j | 0 <= j < k ensures NormalizeRoute(j, entries[..k][j]).Success? {
      assert entries[..k][j] == entries[j];
    }
    TraverseStops(entries, NormalizeRoute, k);
  }

  /** The route an accepted entry normalizes to. */
  lemma NormalizeRouteBuilds(index: nat, fields: Mapping)
    requires NormalizeRoute(index, Dict(fields)).Success?
    ensures RouteMethod(fields) in AllowedMethods && PathAccepted(Get(fields, "path", Null))
    ensures ToInt(RouteStatus(fields)).Some?
    ensures NormalizeRoute(index, Dict(fields)) == Success(BuildRoute(index, fields, ToInt(RouteStatus(fields)).value))
  {
  }

  /** `"GET".upper()` */
  lemma UpperGet()
    ensures Upper("GET") == "GET"
  {
    var u := Upper("GET");
    assert u[0] == 'G' && u[1] == 'E' && u[2] == 'T';
  }

  /** `"patch".upper()` */
  lemma UpperPatch()
    ensures Upper("patch") == "PATCH"
  {
    var u := Upper("patch");
    assert u[0] == 'P' && u[1] == 'A' && u[2] == 'T' && u[3] == 'C' && u[4] == 'H';
  }

  /**
   * Per-route defaults: the name `route_{i+1}` when none is given, GET when
   * no method is given, status 200, and the "Response from {name}" message
   * when the response is falsy.
   */
  lemma NormalizeRouteDefaults(index: nat, fields: Mapping)
    requires NormalizeRoute(index, Dict(fields)).Success?
    ensures var r := NormalizeRoute(index, Dict(fields)).value;
      && (!Truthy(Get(fields, "name", Null)) ==> r.name == "route_" + NatToText(index + 1))
      && (Truthy(Get(fields, "name", Null)) ==> r.name == ToText(fields["name"]))
      && ("method" !in fields ==> r.httpMethod == "GET")
      && r.path == ToText(fields["path"])
      && ("status" !in fields ==> r.status == 200)
      && (!Truthy(Get(fields, "response", Null)) ==>
            r.response == Dict(map["message" := Str("Response from " + r.name)]))
      && (Truthy(Get(fields, "response", Null)) ==> r.response == fields["response"])
  {
    NormalizeRouteBuilds(index, fields);
    UpperGet();
  }

  /** `"patch"` upper-cases to "PATCH", which is not an allowed method. */
  lemma PatchRejected()
    ensures NormalizeRoute(0, Dict(map["method" := Str("patch"), "path" := Str("/items")]))
         == Failure(UnsupportedMethod("PATCH"))
  {
    var fields := map["method" := Str("patch"), "path" := Str("/items")];
    assert Get(fields, "method", Str("GET")) == Str("patch");
    UpperPatch();
    assert RouteMethod(fields) == "PATCH";
    assert "PATCH" !in AllowedMethods;
  }

  /** The allowed methods as the unsupported-method message lists them: sorted and joined by ", ". */
  lemma AllowedMethodsListed()
    ensures Join(SortedSet(AllowedMethods), ", ") == AllowedMethodsText
  {
    var r := ["DELETE", "GET", "POST", "PUT"];
    assert LessEq("DELETE", "GET") && LessEq("GET", "POST") && LessEq("POST", "PUT");
    assert Sorted(r) by {
      forall i, j | 0 <= i < j < |r| ensures LessEq(r[i], r[j]) {
        if j - i > 1 {
          LessEqTransitive(r[i], r[i + 1], r[i + 2]);
          if j - i > 2 {
            LessEqTransitive(r[i], r[i + 2], r[j]);
          }
        }
      }
    }
    assert forall x :: x in r <==> x in AllowedMethods;
    SortedSetUnique(AllowedMethods, r);
    JoinMethods(r);
  }

  lemma JoinMethods(r: seq<string>)
    requires r == ["DELETE", "GET", "POST", "PUT"]
    ensures Join(r, ", ") == AllowedMethodsText
  {
    assert Join(r[3..], ", ") == "PUT";
    assert Join(r[2..], ", ") == "POST, PUT" by { assert r[2..][1..] == r[3..]; }
    assert Join(r[1..], ", ") == "GET, POST, PUT" by { assert r[1..][1..] == r[2..]; }
  }

  /** Upper-casing leaves a string without lower-case ASCII letters alone. */
  lemma UpperFixes(s: string)
    requires forall i :: 0 <= i < |s| ==> !('a' <= s[i] <= 'z')
    ensures Upper(s) == s
  {
  }

  /** Every allowed method is already upper case. */
  lemma UpperAllowed(m: string)
    requires m in AllowedMethods
    ensures Upper(m) == m
  {
    assert forall i :: 0 <= i < |m| ==> 'A' <= m[i] <= 'Z';
    UpperFixes(m);
  }

  lemma RootIsSlug()
    ensures IsSlug("root")
  {
    var s := "root";
    assert forall i :: 0 <= i < |s| ==> 'a' <= s[i] <= 'z';
  }

  /** Replacing `-` by `_` leaves a string without `-` alone. */
  lemma UnderscoredFixes(s: string)
    requires forall i :: 0 <= i < |s| ==> s[i] != '-'
    ensures Underscored(s) == s
  {
  }

  lemma SlugifyRoot()
    ensures Slugify("root") == "root"
  {
    RootIsSlug();
    SlugifyFixesSlug("root");
  }

  lemma UnderscoredRoot()
    ensures Underscored("root") == "root"
  {
    UnderscoredFixes("root");
  }

  /** The identifier the default route carries is the one normalization would derive from its name. */
  lemma RootIdentifier()
    ensures Underscored(Slugify("root")) == "root"
  {
    SlugifyRoot();
    UnderscoredRoot();
  }

  /** The default route is a normalized route. */
  lemma DefaultRouteCanonical(serviceName: string)
    ensures CanonicalRoute(DefaultRoute(serviceName))
  {
    RootIdentifier();
    assert "message" in map["message" := Str("Hello from " + serviceName + "!")];
  }

  /** The name stored for a normalized route is read back as its name. */
  lemma RouteNameOfValue(index: nat, r: Route)
    requires r.name != []
    ensures RouteName(index, RouteValue(r).fields) == r.name
  {
    assert RouteValue(r).fields["name"] == Str(r.name);
  }

  /** The method stored for a normalized route is read back as its method. */
  lemma RouteMethodOfValue(r: Route)
    requires r.httpMethod in AllowedMethods
    ensures RouteMethod(RouteValue(r).fields) == r.httpMethod
  {
    assert RouteValue(r).fields["method"] == Str(r.httpMethod);
    UpperAllowed(r.httpMethod);
  }

  /** The path, status and response stored for a route are read back unchanged. */
  lemma RouteFieldsOfValue(r: Route)
    ensures var fields := RouteValue(r).fields;
      && Get(fields, "path", Null) == Str(r.path)
      && RouteStatus(fields) == Int(r.status)
      && Get(fields, "response", Null) == r.response
  {
  }

  /** A normalized route, stored as a mapping and normalized again, comes back unchanged. */
  lemma RenormalizeRoute(index: nat, r: Route)
    requires CanonicalRoute(r)
    ensures NormalizeRoute(index, RouteValue(r)) == Success(r)
  {
    var v := RouteValue(r);
    RouteNameOfValue(index, r);
    RouteMethodOfValue(r);
    RouteFieldsOfValue(r);
    BuildFromFields(index, v.fields, r);
    NormalizeAccepted(index, v, r.status);
  }

  /** An entry that passes every check normalizes to the route built from it. */
  lemma NormalizeAccepted(index: nat, entry: Value, status: int)
    requires entry.Dict?
    requires RouteMethod(entry.fields) in AllowedMethods
    requires PathAccepted(Get(entry.fields, "path", Null))
    requires ToInt(RouteStatus(entry.fields)) == Some(status)
    ensures NormalizeRoute(index, entry) == Success(BuildRoute(index, entry.fields, status))
  {
  }

  /** The route built from fields that hold a normalized route's parts is that route. */
  lemma BuildFromFields(index: nat, fields: Mapping, r: Route)
    requires CanonicalRoute(r)
    requires RouteName(index, fields) == r.name
    requires RouteMethod(fields) == r.httpMethod
    requires Get(fields, "path", Null) == Str(r.path)
    requires RouteStatus(fields) == Int(r.status)
    requires Get(fields, "response", Null) == r.response
    ensures PathAccepted(Get(fields, "path", Null))
    ensures ToInt(RouteStatus(fields)) == Some(r.status)
    ensures BuildRoute(index, fields, r.status) == r
  {
  }

  /** Successful route normalization never yields an empty list, and every route is normalized. */
  lemma RoutesForCanonical(serviceName: string, routes: Value)
    requires RoutesFor(serviceName, routes).Success?
    ensures RoutesFor(serviceName, routes).value != []
    ensures forall i :: 0 <= i < |RoutesFor(serviceName, routes).value| ==>
      CanonicalRoute(RoutesFor(serviceName, routes).value[i])
  {
    var entries := RouteEntries(routes).value;
    if entries == [] {
      DefaultRoutesCanonical(serviceName, routes);
    } else {
      DeclaredRoutesCanonical(serviceName, routes, entries);
    }
  }

  lemma DefaultRoutesCanonical(serviceName: string, routes: Value)
    requires RouteEntries(routes) == Success([])
    ensures RoutesFor(serviceName, routes).Success?
    ensures RoutesFor(serviceName, routes).value != []
    ensures forall i :: 0 <= i < |RoutesFor(serviceName, routes).value| ==>
      CanonicalRoute(RoutesFor(serviceName, routes).value[i])
  {
    DefaultRouteCanonical(serviceName);
    OneCanonical(RoutesFor(serviceName, routes), DefaultRoute(serviceName));
  }

  lemma OneCanonical(r: Result<seq<Route>, Error>, d: Route)
    requires r == Success([d]) && CanonicalRoute(d)
    ensures r.Success? && r.value != []
    ensures forall i :: 0 <= i < |r.value| ==> CanonicalRoute(r.value[i])
  {
  }

  lemma DeclaredRoutesCanonical(serviceName: string, routes: Value, entries: seq<Value>)
    requires RouteEntries(routes) == Success(entries) && entries != []
    requires RoutesFor(serviceName, routes).Success?
    ensures RoutesFor(serviceName, routes).value != []
    ensures forall i :: 0 <= i < |RoutesFor(serviceName, routes).value| ==>
      CanonicalRoute(RoutesFor(serviceName, routes).value[i])
  {
    assert RoutesFor(serviceName, routes) == NormalizeRoutes(entries);
    NormalizedCanonical(entries);
  }

  /** Every route the loop over declared entries returns is normalized, one per entry. */
  lemma NormalizedCanonical(entries: seq<Value>)
    requires NormalizeRoutes(entries).Success?
    ensures |NormalizeRoutes(entries).value| == |entries|
    ensures forall i :: 0 <= i < |entries| ==> CanonicalRoute(NormalizeRoutes(entries).value[i])
  {
    var rs := NormalizeRoutes(entries).value;
    forall i | 0 <= i < |entries| ensures CanonicalRoute(rs[i]) {
      NormalizeRouteCanonical(i, entries[i]);
    }
  }

  /** When every step succeeds with the given values, the traversal returns exactly those values. */
  lemma TraverseAll<X, Y, E>(xs: seq<X>, step: (nat, X) -> Result<Y, E>, ys: seq<Y>)
    requires |xs| == |ys|
    requires forall i :: 0 <= i < |xs| ==> step(i, xs[i]) == Success(ys[i])
    ensures Traverse(xs, step) == Success(ys)
  {
    var r := Traverse(xs, step);
    assert r.Success?;
    assert r.value == ys;
  }

  /** Stored normalized routes normalize again to themselves, one by one. */
  lemma RenormalizeEach(routes: seq<Route>)
    requires forall i :: 0 <= i < |routes| ==> CanonicalRoute(routes[i])
    ensures NormalizeRoutes(RouteValues(routes)) == Success(routes)
  {
    var entries := RouteValues(routes);
    forall i | 0 <= i < |entries| ensures NormalizeRoute(i, entries[i]) == Success(routes[i]) {
      RenormalizeRoute(i, routes[i]);
    }
    TraverseAll(entries, NormalizeRoute, routes);
  }

  /** A non-empty list of stored routes is normalized by the loop, not replaced by the default route. */
  lemma RoutesForDeclared(serviceName: string, entries: seq<Value>)
    requires entries != []
    ensures RoutesFor(serviceName, List(entries)) == NormalizeRoutes(entries)
  {
    assert RouteEntries(List(entries)) == Success(entries);
  }

  /** Stored normalized routes validate again to themselves. */
  lemma RenormalizeRoutes(serviceName: string, routes: seq<Route>)
    requires routes != []
    requires forall i :: 0 <= i < |routes| ==> CanonicalRoute(routes[i])
    ensures RoutesFor(serviceName, List(RouteValues(routes))) == Success(routes)
  {
    RenormalizeEach(routes);
    RoutesForDeclared(serviceName, RouteValues(routes));
  }

  /** The image validation derives is never empty. */
  lemma ContainerImageTruthy(requirements: Mapping, slug: string, version: string)
    ensures Truthy(ContainerImage(requirements, slug, version))
  {
  }

  /** Overwriting with the same entries twice is overwriting once. */
  lemma UpdateTwice(m: Mapping, u: Mapping)
    ensures (m + u) + u == m + u
  {
  }

  /** The fields a second derivation reads from an updated mapping are the ones the update wrote. */
  lemma ReadBack(m: Mapping, serviceName: string, description: string, version: string, image: string,
                 routes: seq<Route>, port: int)
    requires image != ""
    ensures var spec := m + Update(serviceName, description, version, image, Slugify(serviceName), routes, port);
      && "service_name" in spec && "description" in spec
      && ServiceName(spec) == serviceName
      && ToText(spec["description"]) == description
      && ServiceVersion(spec) == version
      && ServiceImage(spec) == image
  {
    var u := Update(serviceName, description, version, image, Slugify(serviceName), routes, port);
    UpdateFields(serviceName, description, version, image, Slugify(serviceName), routes, port);
    var spec := m + u;
    assert spec["service_name"] == Str(serviceName) && spec["description"] == Str(description);
    assert spec["version"] == Str(version) && spec["container_image"] == Str(image);
    ReadFields(spec, serviceName, description, version, image);
  }

  /** The fields derivation reads, from a mapping that holds them as strings. */
  lemma ReadFields(spec: Mapping, serviceName: string, description: string, version: string, image: string)
    requires image != ""
    requires "service_name" in spec && spec["service_name"] == Str(serviceName)
    requires "description" in spec && spec["description"] == Str(description)
    requires "version" in spec && spec["version"] == Str(version)
    requires "container_image" in spec && spec["container_image"] == Str(image)
    ensures ServiceName(spec) == serviceName
    ensures ToText(spec["description"]) == description
    ensures ServiceVersion(spec) == version
    ensures ServiceImage(spec) == image
  {
    assert ContainerImage(spec, Slugify(serviceName), version) == Str(image);
  }

  /** `Derived` in terms of the fields it reads. */
  lemma DerivedOf(m: Mapping, routes: seq<Route>, port: int,
                  serviceName: string, description: string, version: string, image: string)
    requires "service_name" in m && "description" in m
    requires ServiceName(m) == serviceName && ToText(m["description"]) == description
    requires ServiceVersion(m) == version && ServiceImage(m) == image
    ensures Derived(m, routes, port) == m + Update(serviceName, description, version, image, Slugify(serviceName), routes, port)
  {
  }

  /** Deriving the fields again from a derived mapping writes the same entries. */
  lemma DerivedFixes(requirements: Mapping, routes: seq<Route>, port: int)
    requires "service_name" in requirements && "description" in requirements
    ensures var spec := Derived(requirements, routes, port);
      "service_name" in spec && "description" in spec && Derived(spec, routes, port) == spec
  {
    var serviceName := ServiceName(requirements);
    var description := ToText(requirements["description"]);
    var version := ServiceVersion(requirements);
    var image := ServiceImage(requirements);
    var u := Update(serviceName, description, version, image, Slugify(serviceName), routes, port);
    DerivedOf(requirements, routes, port, serviceName, description, version, image);
    var spec := requirements + u;
    ContainerImageTruthy(requirements, Slugify(serviceName), version);
    ReadBack(requirements, serviceName, description, version, image, routes, port);
    DerivedOf(spec, routes, port, serviceName, description, version, image);
    UpdateTwice(requirements, u);
  }

  /** The routes and the port stored by validation are read back unchanged by a second validation. */
  lemma RevalidateInputs(requirements: Mapping)
    requires Validate(requirements).Success?
    ensures var spec := Validate(requirements).value;
      && "service_name" in requirements && "description" in requirements
      && "service_name" in spec
      && ServiceName(spec) == ServiceName(requirements)
      && RoutesFor(ServiceName(requirements), Get(requirements, "routes", Null)).Success?
      && RoutesFor(ServiceName(spec), Get(spec, "routes", Null))
         == RoutesFor(ServiceName(requirements), Get(requirements, "routes", Null))
      && ToInt(Get(requirements, "port", Int(8000))).Some?
      && ToInt(Get(spec, "port", Int(8000))) == ToInt(Get(requirements, "port", Int(8000)))
  {
    ValidateDerives(requirements);
    var serviceName := ServiceName(requirements);
    var routes := RoutesFor(serviceName, Get(requirements, "routes", Null)).value;
    RoutesForCanonical(serviceName, Get(requirements, "routes", Null));
    RenormalizeRoutes(serviceName, routes);
  }

  /** Re-validating a validated mapping returns the same mapping. */
  lemma ValidateIdempotent(requirements: Mapping)
    requires Validate(requirements).Success?
    ensures Validate(Validate(requirements).value) == Validate(requirements)
  {
    var spec := Validate(requirements).value;
    ValidateIsDerived(requirements);
    var routes := RoutesFor(ServiceName(requirements), Get(requirements, "routes", Null)).value;
    var port := ToInt(Get(requirements, "port", Int(8000))).value;
    RevalidateInputs(requirements);
    DerivedFixes(requirements, routes, port);
    ValidateSucceeds(spec);
    ValidateIsDerived(spec);
  }

  // ---------------------------------------------------------------------
  // generate_project: the spec it works from, where the project goes, and
  // what it creates.
  // ---------------------------------------------------------------------

  /** The mapping generation works from: validated unless it already carries a slug. */
  function GenerationSpec(requirements: Mapping): (r: Result<Mapping, Error>)
    ensures r.Success? ==> "slug" in r.value
    ensures "slug" in requirements ==> r == Success(requirements)
  {
    if "slug" in requirements then Success(requirements)
    else
      match Validate(requirements)
      case Failure(e) => Failure(e)
      case Success(spec) =>
        assert "slug" in SpecKeys;
        Success(spec)
  }

  /** `destination / f"{slug}-service"` */
  function ProjectDir(destination: string, slug: Value): string {
    destination + "/" + ToText(slug) + "-service"
  }

  /** The directories `mkdir(parents=True)` creates: the project directory and its three subdirectories. */
  function ProjectDirs(dir: string): set<string> {
    {dir, dir + "/app", dir + "/tests", dir + "/k8s"}
  }

  /** The files the generator writes below the project directory. */
  function ProjectFiles(dir: string): set<string> {
    AppFiles(dir + "/app") + TestFiles(dir + "/tests") + {dir + "/README.md", dir + "/Dockerfile"}
      + ManifestFiles(dir + "/k8s") + {dir + "/project-metadata.json"}
  }

  function AppFiles(appDir: string): set<string> {
    {appDir + "/__init__.py", appDir + "/routes.py", appDir + "/server.py"}
  }

  function TestFiles(testsDir: string): set<string> {
    {testsDir + "/__init__.py", testsDir + "/test_routes.py"}
  }

  function ManifestFiles(k8sDir: string): set<string> {
    {k8sDir + "/deployment.yaml", k8sDir + "/service.yaml"}
  }

  /** What one generation returns and the paths that exist afterwards. */
  datatype Generated = Generated(outcome: Result<string, Error>, paths: set<string>)

  /**
   * `generate_project` on a file system holding `existing`: an invalid
   * mapping or an existing project directory changes nothing; a mapping
   * the renderers cannot read fails once the directories exist; otherwise
   * the directories and the files are created and the directory returned.
   */
  function Generate(requirements: Mapping, destination: string, existing: set<string>): (g: Generated)
    ensures existing <= g.paths
    ensures g.outcome.Failure? && g.outcome.error != MalformedSpec ==> g.paths == existing
  {
    match GenerationSpec(requirements)
    case Failure(e) => Generated(Failure(e), existing)
    case Success(spec) =>
      var dir := ProjectDir(destination, spec["slug"]);
      if dir in existing then Generated(Failure(ProjectExists(dir)), existing)
      else if !IsServiceSpec(spec) then Generated(Failure(MalformedSpec), existing + ProjectDirs(dir))
      else Generated(Success(dir), existing + ProjectDirs(dir) + ProjectFiles(dir))
  }

  /** The three `mkdir(parents=True, exist_ok=True)` calls. */
  method MakeProjectDirs(dir: string, fs: FileSystem)
    modifies fs
    ensures fs.paths == old(fs.paths) + ProjectDirs(dir)
    ensures fs.texts == old(fs.texts)
  {
    fs.MakeDirs({dir, dir + "/app"});
    fs.MakeDirs({dir + "/tests"});
    fs.MakeDirs({dir + "/k8s"});
  }

  /** The writes of the app package, the tests, the README, the Dockerfile, the manifests and the metadata. */
  method WriteProjectFiles(dir: string, fs: FileSystem)
    modifies fs
    ensures fs.paths == old(fs.paths) + ProjectFiles(dir)
    ensures fs.texts == old(fs.texts) - ProjectFiles(dir)
  {
    WriteSources(dir, fs);
    WriteDeployables(dir, fs);
  }

  /** The app package and the tests. */
  method WriteSources(dir: string, fs: FileSystem)
    modifies fs
    ensures fs.paths == old(fs.paths) + AppFiles(dir + "/app") + TestFiles(dir + "/tests")
    ensures fs.texts == old(fs.texts) - AppFiles(dir + "/app") - TestFiles(dir + "/tests")
  {
    WriteAppPackage(dir + "/app", fs);
    WriteTests(dir + "/tests", fs);
  }

  /** `_write_app_package`: the package marker, the routes module and the server module. */
  method WriteAppPackage(appDir: string, fs: FileSystem)
    modifies fs
    ensures fs.paths == old(fs.paths) + AppFiles(appDir)
    ensures fs.texts == old(fs.texts) - AppFiles(appDir)
  {
    fs.WriteRendered(appDir + "/__init__.py");
    fs.WriteRendered(appDir + "/routes.py");
    fs.WriteRendered(appDir + "/server.py");
  }

  /** `_write_tests`: the package marker and the route tests. */
  method WriteTests(testsDir: string, fs: FileSystem)
    modifies fs
    ensures fs.paths == old(fs.paths) + TestFiles(testsDir)
    ensures fs.texts == old(fs.texts) - TestFiles(testsDir)
  {
    fs.WriteRendered(testsDir + "/__init__.py");
    fs.WriteRendered(testsDir + "/test_routes.py");
  }

  /** The README, the Dockerfile, the manifests and the metadata. */
  method WriteDeployables(dir: string, fs: FileSystem)
    modifies fs
    ensures fs.paths == old(fs.paths) + {dir + "/README.md", dir + "/Dockerfile"} + ManifestFiles(dir + "/k8s")
                        + {dir + "/project-metadata.json"}
    ensures fs.texts == old(fs.texts) - {dir + "/README.md", dir + "/Dockerfile"} - ManifestFiles(dir + "/k8s")
                        - {dir + "/project-metadata.json"}
  {
    fs.WriteRendered(dir + "/README.md");
    fs.WriteRendered(dir + "/Dockerfile");
    WriteK8sManifests(dir + "/k8s", fs);
    fs.WriteRendered(dir + "/project-metadata.json");
  }

  /** `_write_k8s_manifests`: the Deployment and the Service. */
  method WriteK8sManifests(k8sDir: string, fs: FileSystem)
    modifies fs
    ensures fs.paths == old(fs.paths) + ManifestFiles(k8sDir)
    ensures fs.texts == old(fs.texts) - ManifestFiles(k8sDir)
  {
    fs.WriteRendered(k8sDir + "/deployment.yaml");
    fs.WriteRendered(k8sDir + "/service.yaml");
  }

  /** `generate_project`: validate if needed, refuse an existing directory, then create the tree. */
  method GenerateProject(requirements: Mapping, destination: string, fs: FileSystem) returns (r: Result<string, Error>)
    modifies fs
    ensures r == Generate(requirements, destination, old(fs.paths)).outcome
    ensures fs.paths == Generate(requirements, destination, old(fs.paths)).paths
    ensures fs.texts == if r.Success? then old(fs.texts) - ProjectFiles(r.value) else old(fs.texts)
  {
    var spec := GenerationSpec(requirements);
    if spec.Failure? {
      return Failure(spec.error);
    }
    var dir := ProjectDir(destination, spec.value["slug"]);
    if fs.Exists(dir) {
      return Failure(ProjectExists(dir));
    }
    MakeProjectDirs(dir, fs);
    if !IsServiceSpec(spec.value) {
      return Failure(MalformedSpec);
    }
    WriteProjectFiles(dir, fs);
    r := Success(dir);
  }

  /** Without a slug the mapping is validated first, and a validation error leaves the file system alone. */
  lemma GenerateRejectsInvalid(requirements: Mapping, destination: string, existing: set<string>)
    requires "slug" !in requirements && Validate(requirements).Failure?
    ensures Generate(requirements, destination, existing) == Generated(Failure(Validate(requirements).error), existing)
  {
  }

  /**
   * A validated mapping lands in `{destination}/{slugify(service_name)}-service`
   * with every file written.
   */
  lemma GenerateTarget(requirements: Mapping, destination: string, existing: set<string>)
    requires "slug" !in requirements
    requires Generate(requirements, destination, existing).outcome.Success?
    ensures "service_name" in requirements
    ensures var g := Generate(requirements, destination, existing);
      && g.outcome.value == destination + "/" + Slugify(ServiceName(requirements)) + "-service"
      && g.outcome.value !in existing
      && ProjectDirs(g.outcome.value) + ProjectFiles(g.outcome.value) <= g.paths
  {
    var spec := Validate(requirements).value;
    ValidateDerives(requirements);
  }

  /** A mapping that already carries a slug is used as given, without validation. */
  lemma GenerateSkipsValidation(requirements: Mapping, destination: string, existing: set<string>)
    requires "slug" in requirements && IsServiceSpec(requirements)
    requires ProjectDir(destination, requirements["slug"]) !in existing
    ensures Generate(requirements, destination, existing).outcome == Success(ProjectDir(destination, requirements["slug"]))
  {
  }

  /** An existing project directory is refused and nothing is created. */
  lemma GenerateRefusesExisting(requirements: Mapping, destination: string, existing: set<string>)
    requires GenerationSpec(requirements).Success?
    requires ProjectDir(destination, GenerationSpec(requirements).value["slug"]) in existing
    ensures Generate(requirements, destination, existing) ==
      Generated(Failure(ProjectExists(ProjectDir(destination, GenerationSpec(requirements).value["slug"]))), existing)
  {
  }

  /**
   * A mapping that already carries a slug and whose routes are an empty
   * string or mapping generates a project exporting no routes; a
   * non-empty string as routes fails once the directories exist.
   */
  lemma GenerateRoutesAsText(spec: Mapping, destination: string, existing: set<string>)
    requires "slug" in spec && SpecKeys <= spec.Keys
    requires ProjectDir(destination, spec["slug"]) !in existing
    ensures spec["routes"] == Str("") || spec["routes"] == Dict(map[]) ==>
      && Generate(spec, destination, existing).outcome == Success(ProjectDir(destination, spec["slug"]))
      && ExportMetadata(spec)["routes"] == List([])
    ensures spec["routes"].Str? && spec["routes"].s != "" ==>
      Generate(spec, destination, existing) ==
      Generated(Failure(MalformedSpec), existing + ProjectDirs(ProjectDir(destination, spec["slug"])))
  {
    if spec["routes"] == Str("") || spec["routes"] == Dict(map[]) {
      assert IsServiceSpec(spec);
      assert RouteItems(spec["routes"]) == [];
    }
  }

  /** Generating the same project twice into the same destination fails the second time, changing nothing. */
  lemma GenerateTwice(requirements: Mapping, destination: string, existing: set<string>)
    requires Generate(requirements, destination, existing).outcome.Success?
    ensures var g := Generate(requirements, destination, existing);
      Generate(requirements, destination, g.paths) == Generated(Failure(ProjectExists(g.outcome.value)), g.paths)
  {
  }

  // ---------------------------------------------------------------------
  // _export_metadata
  // ---------------------------------------------------------------------

  /** The keys of the exported metadata. */
  const MetadataKeys: set<string> := {"template", "service_name", "description", "version", "container_image", "routes"}

  /** A route summary: the route's name, method, path and status. */
  function Summary(route: Value): Value
    requires route.Dict? && RouteKeys <= route.fields.Keys
  {
    var f := route.fields;
    Dict(map["name" := f["name"], "method" := f["method"], "path" := f["path"], "status" := f["status"]])
  }

  /** A summary holds the four summary keys, each with the route's value, and no response. */
  lemma SummaryShape(route: Value)
    requires route.Dict? && RouteKeys <= route.fields.Keys
    ensures var s := Summary(route);
      && s.Dict? && s.fields.Keys == SummaryKeys
      && "response" !in s.fields
      && forall k :: k in SummaryKeys ==> s.fields[k] == route.fields[k]
  {
  }

  function Summaries(routes: seq<Value>): seq<Value>
    requires forall i :: 0 <= i < |routes| ==> routes[i].Dict? && RouteKeys <= routes[i].fields.Keys
  {
    seq(|routes|, i requires 0 <= i < |routes| => Summary(routes[i]))
  }

  /** `_export_metadata(spec)` */
  function ExportMetadata(spec: Mapping): (m: Mapping)
    requires IsServiceSpec(spec)
    ensures m.Keys == MetadataKeys
    ensures m["template"] == Str(Name)
    ensures m["routes"].List? && |m["routes"].items| == |RouteItems(spec["routes"])|
  {
    map[
      "template" := Str(Name),
      "service_name" := spec["service_name"],
      "description" := spec["description"],
      "version" := spec["version"],
      "container_image" := spec["container_image"],
      "routes" := List(Summaries(RouteItems(spec["routes"])))]
  }

  /**
   * The metadata names the template, copies the four descriptive fields,
   * and holds one summary per route of the spec, in order.
   */
  lemma MetadataShape(spec: Mapping)
    requires IsServiceSpec(spec)
    ensures var m := ExportMetadata(spec);
      && m.Keys == MetadataKeys
      && m["template"] == Str("simple-python-service")
      && (forall k :: k in MetadataKeys && k != "template" && k != "routes" ==> m[k] == spec[k])
      && m["routes"].List? && |m["routes"].items| == |RouteItems(spec["routes"])|
      && (spec["routes"].List? ==> |m["routes"].items| == |spec["routes"].items|)
      && forall i :: 0 <= i < |RouteItems(spec["routes"])| ==> m["routes"].items[i] == Summary(RouteItems(spec["routes"])[i])
  {
  }

  /** The summary of a stored route: everything but its identifier and its response. */
  lemma SummaryOfRoute(r: Route)
    ensures Summary(RouteValue(r)) == Dict(map["name" := Str(r.name), "method" := Str(r.httpMethod),
                                                "path" := Str(r.path), "status" := Int(r.status)])
  {
  }

  /** The summaries of stored routes, in order. */
  lemma SummariesOfRoutes(routes: seq<Route>)
    ensures var summaries := Summaries(RouteValues(routes));
      && |summaries| == |routes|
      && forall i :: 0 <= i < |routes| ==>
           summaries[i] == Dict(map["name" := Str(routes[i].name), "method" := Str(routes[i].httpMethod),
                                    "path" := Str(routes[i].path), "status" := Int(routes[i].status)])
  {
    forall i | 0 <= i < |routes| {
      SummaryOfRoute(routes[i]);
    }
  }

  /**
   * For a validated spec, summary `i` is route `i` without its identifier
   * and its response.
   */
  lemma MetadataOfValidated(requirements: Mapping)
    requires Validate(requirements).Success?
    ensures "service_name" in requirements
    ensures var spec := Validate(requirements).value;
      var routes := RoutesFor(ServiceName(requirements), Get(requirements, "routes", Null)).value;
      var summaries := ExportMetadata(spec)["routes"].items;
      && |summaries| == |routes|
      && forall i :: 0 <= i < |routes| ==>
           summaries[i] == Dict(map["name" := Str(routes[i].name), "method" := Str(routes[i].httpMethod),
                                    "path" := Str(routes[i].path), "status" := Int(routes[i].status)])
  {
    var spec := Validate(requirements).value;
    ValidateDerives(requirements);
    var routes := RoutesFor(ServiceName(requirements), Get(requirements, "routes", Null)).value;
    assert ExportMetadata(spec)["routes"] == List(Summaries(RouteValues(routes)));
    SummariesOfRoutes(routes);
  }

  // ---------------------------------------------------------------------
  // The generated server: `get_route_map()` and `_handle`.
  // ---------------------------------------------------------------------

  function RouteKey(r: Route): (string, string) {
    (r.httpMethod, r.path)
  }

  /**
   * `{(route['method'], route['path']): route for route in ROUTES}`: the
   * comprehension inserts in order, so a later route replaces an earlier
   * one with the same key.
   */
  function RouteMap(routes: seq<Route>): (m: map<(string, string), Route>)
    ensures m.Keys == set i | 0 <= i < |routes| :: RouteKey(routes[i])
  {
    if routes == [] then map[]
    else
      var last := |routes| - 1;
      var m := RouteMap(routes[..last]);
      assert forall i :: 0 <= i < last ==> routes[..last][i] == routes[i];
      m[RouteKey(routes[last]) := routes[last]]
  }

  /** The server's answer to one request. */
  datatype Reply = NotFound | Respond(status: int, body: Value)

  /** `_handle(method)` for a parsed request path. */
  function Handle(routeMap: map<(string, string), Route>, httpMethod: string, path: string): (reply: Reply)
    requires httpMethod in AllowedMethods
    ensures reply == NotFound <==> (httpMethod, path) !in routeMap
    ensures reply.Respond? ==>
      reply.status == routeMap[(httpMethod, path)].status && reply.body == routeMap[(httpMethod, path)].response
  {
    if (httpMethod, path) !in routeMap then NotFound
    else
      var route := routeMap[(httpMethod, path)];
      Respond(route.status, route.response)
  }

  /** The route map holds, for each key, the last route declared with that key. */
  lemma {:induction false} RouteMapLastWins(routes: seq<Route>, k: nat)
    requires k < |routes|
    requires forall j :: k < j < |routes| ==> RouteKey(routes[j]) != RouteKey(routes[k])
    ensures RouteMap(routes)[RouteKey(routes[k])] == routes[k]
  {
    var last := |routes| - 1;
    if k < last {
      assert forall j :: k < j < last ==> routes[..last][j] == routes[j];
      RouteMapLastWins(routes[..last], k);
      assert routes[..last][k] == routes[k];
    }
  }

  /** A request is answered 404 exactly when no route declares its method and path. */
  lemma HandleNotFound(routes: seq<Route>, httpMethod: string, path: string)
    requires httpMethod in AllowedMethods
    ensures Handle(RouteMap(routes), httpMethod, path) == NotFound <==>
      forall i :: 0 <= i < |routes| ==> RouteKey(routes[i]) != (httpMethod, path)
  {
    if Handle(RouteMap(routes), httpMethod, path) != NotFound {
      var i :| 0 <= i < |routes| && RouteKey(routes[i]) == (httpMethod, path);
    }
  }

  /** A declared route that no later route shadows answers with its own status and response. */
  lemma HandleDeclared(routes: seq<Route>, k: nat)
    requires k < |routes| && routes[k].httpMethod in AllowedMethods
    requires forall j :: k < j < |routes| ==> RouteKey(routes[j]) != RouteKey(routes[k])
    ensures Handle(RouteMap(routes), routes[k].httpMethod, routes[k].path) == Respond(routes[k].status, routes[k].response)
  {
    RouteMapLastWins(routes, k);
  }

  /** Duplicate `(method, path)` pairs are accepted, and the server answers with the later one. */
  lemma DuplicateKeepsLast(first: Route, second: Route)
    requires RouteKey(first) == RouteKey(second) && first.httpMethod in AllowedMethods
    ensures Handle(RouteMap([first, second]), first.httpMethod, first.path) == Respond(second.status, second.response)
  {
    RouteMapLastWins([first, second], 1);
  }

  /**
   * The server generated for a service declared without routes greets on
   * `GET /` and answers 404 elsewhere, as the generated tests expect.
   */
  lemma DefaultServer(serviceName: string)
    ensures var m := RouteMap([DefaultRoute(serviceName)]);
      && Handle(m, "GET", "/") == Respond(200, Dict(map["message" := Str("Hello from " + serviceName + "!")]))
      && Handle(m, "GET", "/__unknown__") == NotFound
  {
    var r := DefaultRoute(serviceName);
    HandleDeclared([r], 0);
    HandleNotFound([r], "GET", "/__unknown__");
  }

  // ---------------------------------------------------------------------
  // Importing the generated routes module, as written.
  // ---------------------------------------------------------------------

  /**
   * Whether the JSON text of `v`, read back as Python source, is a literal
   * denoting `v`. JSON spells True, False and None as `true`, `false` and
   * `null`, which Python reads as undefined names.
   */
  predicate PythonLiteral(v: Value) {
    match v
    case Null => false
    case Bool(_) => false
    case Int(_) => true
    case Str(_) => true
    case List(items) => forall i :: 0 <= i < |items| ==> PythonLiteral(items[i])
    case Dict(fields) => forall k :: k in fields ==> PythonLiteral(fields[k])
  }

  /**
   * Importing the generated `routes` module: ROUTES is the list of the
   * routes' `json.dumps` blocks, evaluated in order as Python. The name,
   * identifier, method and path are strings and the status an int, so
   * only a response can hold a JSON-only name; the first such block
   * raises NameError, and the import fails (None). The module's docstring,
   * which holds the service name, is not modelled.
   */
  function ImportRoutes(routes: seq<Route>): (loaded: Option<seq<Route>>)
    ensures loaded.Some? <==> forall i :: 0 <= i < |routes| ==> PythonLiteral(routes[i].response)
    ensures loaded.Some? ==> loaded.value == routes
  {
    if routes == [] then Some([])
    else if !PythonLiteral(routes[0].response) then None
    else match ImportRoutes(routes[1..])
      case None =>
        assert exists i :: 0 < i < |routes| && !PythonLiteral(routes[i].response) by {
          var j :| 0 <= j < |routes[1..]| && !PythonLiteral(routes[1..][j].response);
          assert routes[1..][j] == routes[j + 1];
        }
        None
      case Some(rest) =>
        assert forall i :: 0 < i < |routes| ==> routes[i] == routes[1..][i - 1];
        assert [routes[0]] + routes[1..] == routes;
        Some([routes[0]] + rest)
  }

  /**
   * The generated server's answer to a request, as written: the server
   * module imports the route map from the routes module, so when that
   * import fails there is no server to answer (None). Only the route
   * blocks are modelled; the string literals holding the service's name,
   * description and version can stop the import as well.
   */
  function Served(routes: seq<Route>, httpMethod: string, path: string): (reply: Option<Reply>)
    requires httpMethod in AllowedMethods
    ensures (forall i :: 0 <= i < |routes| ==> PythonLiteral(routes[i].response)) ==>
      reply == Some(Handle(RouteMap(routes), httpMethod, path))
    ensures (exists i :: 0 <= i < |routes| && !PythonLiteral(routes[i].response)) ==> reply == None
  {
    match ImportRoutes(routes)
    case None => None
    case Some(loaded) => Some(Handle(RouteMap(loaded), httpMethod, path))
  }

  /**
   * An accepted entry whose response is not a Python literal is in the
   * route table with that response, yet its server never answers.
   */
  lemma DeclaredButNotServed(index: nat, fields: Mapping)
    requires NormalizeRoute(index, Dict(fields)).Success?
    requires "response" in fields && Truthy(fields["response"]) && !PythonLiteral(fields["response"])
    ensures var r := NormalizeRoute(index, Dict(fields)).value;
      && Handle(RouteMap([r]), r.httpMethod, r.path) == Respond(r.status, fields["response"])
      && Served([r], r.httpMethod, r.path) == None
  {
    var r := NormalizeRoute(index, Dict(fields)).value;
    NormalizeRouteDefaults(index, fields);
    NormalizeRouteCanonical(index, Dict(fields));
    HandleDeclared([r], 0);
    assert !PythonLiteral([r][0].response);
  }

  /**
   * A route declared with the response `{"ok": true}` is accepted as
   * `GET /ok` with status 200, yet the routes module generated for it does
   * not import, so the server never answers it.
   */
  lemma TrueResponseBreaksImport()
    ensures var entry := Dict(map["path" := Str("/ok"), "response" := Dict(map["ok" := Bool(true)])]);
      && NormalizeRoute(0, entry).Success?
      && var r := NormalizeRoute(0, entry).value;
      && r.httpMethod == "GET" && r.path == "/ok" && r.status == 200
      && Handle(RouteMap([r]), "GET", "/ok") == Respond(200, Dict(map["ok" := Bool(true)]))
      && Served([r], "GET", "/ok") == None
  {
    var response := Dict(map["ok" := Bool(true)]);
    var fields := map["path" := Str("/ok"), "response" := response];
    assert Get(fields, "method", Str("GET")) == Str("GET");
    UpperGet();
    assert RouteStatus(fields) == Int(200);
    NormalizeAccepted(0, Dict(fields), 200);
    NormalizeRouteDefaults(0, fields);
    assert !PythonLiteral(response.fields["ok"]);
    DeclaredButNotServed(0, fields);
  }
}
