/** The API broker: a route per configured server, in configuration order,
    each under a normalised path prefix; a request goes to the first route
    whose prefix starts its path and is forwarded with only the scheme and
    host rewritten. Reading the configuration file, formatting and parsing
    the target URL and the proxying itself are inputs or left out. */
module Broker {
  import opened Common

  /** One entry of the configuration's `servers` list. */
  datatype Server = Server(name: string, host: string, port: int, prefix: string)

  /** The parts of a `url.URL` the broker reads or writes. */
  datatype Url = Url(scheme: string, host: string, path: string, rawQuery: string)

  /** The parts of an `http.Request` the director reads or writes. */
  datatype Request = Request(url: Url, host: string)

  /** A route: its normalised prefix and the target its proxy forwards to. */
  datatype Route = Route(prefix: string, target: Url)

  /** `normalizePrefix`: every leading and trailing '/' dropped, then one of each put back. */
  function NormalizePrefix(p: string): (n: string)
    ensures |n| >= 2 && n[0] == '/' && n[|n| - 1] == '/'
    ensures n[1..|n| - 1] == TrimChar(p, '/')
  {
    "/" + TrimChar(p, '/') + "/"
  }

  /** Normalising twice gives what normalising once does. */
  lemma NormalizeIdempotent(p: string)
    ensures NormalizePrefix(NormalizePrefix(p)) == NormalizePrefix(p)
  {
    var t := TrimChar(p, '/');
    TrimCharOfWrapped(t, '/');
    assert "/" + t + "/" == ['/'] + t + ['/'];
  }

  /** A prefix with no slash inside it routes the same with or without slashes around it. */
  lemma NormalizeIgnoresSlashes(t: string)
    requires t == [] || (t[0] != '/' && t[|t| - 1] != '/')
    ensures NormalizePrefix(t) == NormalizePrefix("/" + t + "/") == "/" + t + "/"
  {
    TrimCharOfWrapped(t, '/');
    assert "/" + t + "/" == ['/'] + t + ['/'];
    assert TrimChar(t, '/') == TrimRightChar(t, '/') == t;
  }

  /** An empty prefix, or one of slashes only, normalises to "//", which
      matches only paths that start with two slashes. */
  lemma SlashOnlyPrefixes()
    ensures NormalizePrefix("") == "//"
    ensures NormalizePrefix("/") == "//"
    ensures NormalizePrefix("///") == "//"
  {
    assert TrimChar("", '/') == "";
    assert TrimChar("/", '/') == "";
    assert TrimChar("///", '/') == "";
  }

  /** The route table: one route per server, in order. `parse` is the URL
      parser applied to the target address `http://<host>:<port>`; a target
      that does not parse stops the broker, whose error is then returned. */
  method BuildRoutes(servers: seq<Server>, parse: (string, int) -> Result<Url, string>) returns (r: Result<seq<Route>, string>)
    ensures r.Ok? <==> forall i :: 0 <= i < |servers| ==> parse(servers[i].host, servers[i].port).Ok?
    ensures r.Ok? ==>
              && |r.value| == |servers|
              && forall i :: 0 <= i < |servers| ==>
                   r.value[i] == Route(NormalizePrefix(servers[i].prefix), parse(servers[i].host, servers[i].port).value)
    ensures r.Err? ==>
              exists k :: 0 <= k < |servers| && parse(servers[k].host, servers[k].port) == Err(r.error)
                          && forall i :: 0 <= i < k ==> parse(servers[i].host, servers[i].port).Ok?
  {
    var routes: seq<Route> := [];
    var i := 0;
    while i < |servers|
      invariant 0 <= i <= |servers|
      invariant |routes| == i
      invariant forall j :: 0 <= j < i ==> parse(servers[j].host, servers[j].port).Ok?
      invariant forall j :: 0 <= j < i ==>
                  routes[j] == Route(NormalizePrefix(servers[j].prefix), parse(servers[j].host, servers[j].port).value)
    {
      var target := parse(servers[i].host, servers[i].port);
      if target.Err? {
        return Err(target.error);
      }
      routes := routes + [Route(NormalizePrefix(servers[i].prefix), target.value)];
      i := i + 1;
    }
    return Ok(routes);
  }

  /** `newProxy`'s director: scheme and host from the target, path and query as they were. */
  function Direct(req: Request, target: Url): (out: Request)
    ensures out.url.scheme == target.scheme && out.url.host == target.host && out.host == target.host
    ensures out.url.path == req.url.path && out.url.rawQuery == req.url.rawQuery
  {
    Request(req.url.(scheme := target.scheme, host := target.host), target.host)
  }

  /** What the handler does with a request. */
  datatype Outcome = Proxied(route: nat, forwarded: Request) | NotFound

  /** The handler: the first route, in table order, whose prefix starts the
      request's path; otherwise 404. */
  method Handle(routes: seq<Route>, req: Request) returns (o: Outcome)
    ensures o.NotFound? <==> forall i :: 0 <= i < |routes| ==> !HasPrefix(req.url.path, routes[i].prefix)
    ensures o.Proxied? ==>
              && o.route < |routes| && HasPrefix(req.url.path, routes[o.route].prefix)
              && (forall i :: 0 <= i < o.route ==> !HasPrefix(req.url.path, routes[i].prefix))
              && o.forwarded == Direct(req, routes[o.route].target)
  {
    var i := 0;
    while i < |routes|
      invariant 0 <= i <= |routes|
      invariant forall j :: 0 <= j < i ==> !HasPrefix(req.url.path, routes[j].prefix)
    {
      if HasPrefix(req.url.path, routes[i].prefix) {
        return Proxied(i, Direct(req, routes[i].target));
      }
      i := i + 1;
    }
    return NotFound;
  }

  /** Every request the broker forwards keeps its path, and that path starts
      with '/' and with its route's prefix. */
  lemma ForwardedPathKept(servers: seq<Server>, routes: seq<Route>, req: Request, k: nat)
    requires |routes| == |servers| && k < |routes|
    requires forall i :: 0 <= i < |servers| ==> routes[i].prefix == NormalizePrefix(servers[i].prefix)
    requires HasPrefix(req.url.path, routes[k].prefix)
    ensures Direct(req, routes[k].target).url.path == req.url.path
    ensures |req.url.path| >= 2 && req.url.path[0] == '/'
  {
    assert req.url.path[..|routes[k].prefix|] == routes[k].prefix;
    assert req.url.path[0] == req.url.path[..|routes[k].prefix|][0];
  }
}
