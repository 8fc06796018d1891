// The daemon's HTTP API server (hyper/server/server.go): mapping handler
// errors to status codes, the request checks every handler shares, the API
// version gate, route registration, the argument lists two handlers build
// for their jobs, and ServeApi's address parsing.
//
// HTTP itself (requests, writers, the router library, listening sockets)
// is not modelled: a request is its Content-Type, whether it has a body,
// and its form values; the router is the list of registrations made; the
// version comparison, utils.MatchesContentType, the handlers and the
// servers' outcomes are oracle parameters.

module Server {
  import opened Common

  // -----------------------------------------------------------------------
  // Errors to status codes
  // -----------------------------------------------------------------------

  const StatusBadRequest := 400
  const StatusUnauthorized := 401
  const StatusForbidden := 403
  const StatusNotFound := 404
  const StatusNotAcceptable := 406
  const StatusConflict := 409
  const StatusInternalServerError := 500

  /** The error-text markers httpError looks for, in the order it tries them. */
  predicate Marked(l: string)
  {
    Contains(l, "no such") || Contains(l, "bad parameter") || Contains(l, "conflict")
    || Contains(l, "impossible") || Contains(l, "wrong login/password") || Contains(l, "hasn't been activated")
  }

  /**
   * httpError's status: the first marker found in the lower-cased error
   * text decides; an error with none of them is an internal error.
   */
  function HttpStatus(err: string): (code: int)
    ensures var l := ToLower(err);
            && (Contains(l, "no such") ==> code == StatusNotFound)
            && (!Contains(l, "no such") && Contains(l, "bad parameter") ==> code == StatusBadRequest)
            && (!Contains(l, "no such") && !Contains(l, "bad parameter") && Contains(l, "conflict") ==> code == StatusConflict)
            && (code == StatusInternalServerError <==> !Marked(l))
    ensures code in {400, 401, 403, 404, 406, 409, 500}
  {
    var l := ToLower(err);
    if Contains(l, "no such") then StatusNotFound
    else if Contains(l, "bad parameter") then StatusBadRequest
    else if Contains(l, "conflict") then StatusConflict
    else if Contains(l, "impossible") then StatusNotAcceptable
    else if Contains(l, "wrong login/password") then StatusUnauthorized
    else if Contains(l, "hasn't been activated") then StatusForbidden
    else StatusInternalServerError
  }

  /** Lower-casing twice is lower-casing once. */
  lemma ToLowerIdempotent(s: string)
    ensures ToLower(ToLower(s)) == ToLower(s)
  {
    var l := ToLower(s);
    assert forall i :: 0 <= i < |l| ==> !('A' <= l[i] <= 'Z');
  }

  /** The status does not depend on the case of the error text. */
  lemma HttpStatusIgnoresCase(err: string)
    ensures HttpStatus(ToLower(err)) == HttpStatus(err)
  {
    ToLowerIdempotent(err);
  }

  /** A text cannot contain a string that has a character the text lacks. */
  lemma MissingChar(s: string, sub: string, c: char)
    requires c in sub && c !in s
    ensures !Contains(s, sub)
  {
    var k :| 0 <= k < |sub| && sub[k] == c;
    forall j | 0 <= j && j + |sub| <= |s| ensures !OccursAt(s, sub, j) {
      assert s[j..j + |sub|][k] == s[j + k];
    }
  }

  // -----------------------------------------------------------------------
  // Request checks
  // -----------------------------------------------------------------------

  /** strconv.ParseBool. */
  function ParseBool(s: string): (r: Option<bool>)
    ensures r == Some(true) <==> s in {"1", "t", "T", "TRUE", "true", "True"}
    ensures r == Some(false) <==> s in {"0", "f", "F", "FALSE", "false", "False"}
  {
    if s in {"1", "t", "T", "TRUE", "true", "True"} then Some(true)
    else if s in {"0", "f", "F", "FALSE", "false", "False"} then Some(false)
    else None
  }

  /** getBoolParam: an absent value is false; an unparsable one is a bad parameter. */
  function GetBoolParam(value: string): (r: Result<bool>)
    ensures value == "" ==> r == Ok(false)
    ensures value != "" ==> (r.Ok? <==> ParseBool(value).Some?)
    ensures r.Ok? && value != "" ==> r.value == ParseBool(value).value
    ensures r.Err? ==> r.msg == "Bad parameter"
  {
    if value == "" then Ok(false)
    else match ParseBool(value)
      case Some(b) => Ok(b)
      case None => Err("Bad parameter")
  }

  /** A boolean written out as "true" or "false" reads back as itself. */
  lemma GetBoolParamRoundTrip(b: bool)
    ensures GetBoolParam(if b then "true" else "false") == Ok(b)
    ensures GetBoolParam(if b then "1" else "0") == Ok(b)
  {
  }

  /** An unparsable boolean parameter is answered with 400 Bad Request. */
  lemma BadBoolIsBadRequest(value: string)
    requires GetBoolParam(value).Err?
    ensures HttpStatus(GetBoolParam(value).msg) == StatusBadRequest
  {
    BadParameterMarked(GetBoolParam(value).msg);
  }

  /** "Bad parameter" lower-cased carries the bad-parameter marker and not the not-found one. */
  lemma BadParameterMarked(m: string)
    requires m == "Bad parameter"
    ensures Contains(ToLower(m), "bad parameter") && !Contains(ToLower(m), "no such")
  {
    var rest := "ad parameter";
    var lower := "bad parameter";
    BadParameterPieces(m, lower, rest);
    LowerCapitalB(rest);
    MissingChar(lower, "no such", 'n');
    SelfContained(lower);
  }

  lemma BadParameterPieces(m: string, lower: string, rest: string)
    requires m == "Bad parameter" && lower == "bad parameter" && rest == "ad parameter"
    ensures m == ['B'] + rest && lower == ['b'] + rest
    ensures forall i :: 0 <= i < |rest| ==> !('A' <= rest[i] <= 'Z')
    ensures 'n' in "no such" && 'n' !in lower
  {
  }

  /** A capital B followed by no capitals lower-cases to a b followed by the same text. */
  lemma LowerCapitalB(rest: string)
    requires forall i :: 0 <= i < |rest| ==> !('A' <= rest[i] <= 'Z')
    ensures ToLower(['B'] + rest) == ['b'] + rest
  {
    assert (['B'] + rest)[1..] == rest;
    ToLowerNoUpper(rest);
  }

  lemma SelfContained(x: string)
    ensures Contains(x, x)
  {
    assert x[..|x|] == x;
    PrefixIsContained(x, x);
  }

  /** Lower-casing leaves a text without capitals as it is. */
  lemma ToLowerNoUpper(s: string)
    requires forall i :: 0 <= i < |s| ==> !('A' <= s[i] <= 'Z')
    ensures ToLower(s) == s
  {
    var l := ToLower(s);
    assert forall i :: 0 <= i < |s| ==> l[i] == s[i];
  }

  /**
   * checkForJson: a request without a Content-Type is accepted when it has
   * no body (or an empty one); otherwise the type must match
   * application/json. `isJson` is utils.MatchesContentType against it.
   */
  function CheckForJson(ct: string, hasBody: bool, contentLength: int, isJson: string -> bool): (err: Option<string>)
    ensures err.None? <==> (ct == "" && (!hasBody || contentLength == 0)) || isJson(ct)
    ensures err.Some? ==> err.value == "Content-Type specified (" + ct + ") must be 'application/json'"
  {
    if ct == "" && (!hasBody || contentLength == 0) then None
    else if isJson(ct) then None
    else Some("Content-Type specified (" + ct + ") must be 'application/json'")
  }

  /** parseForm: no request is fine; a parse error is returned unless it is a "mime:" error. */
  function ParseForm(noRequest: bool, parseErr: Option<string>): (err: Option<string>)
    ensures err.Some? <==> !noRequest && parseErr.Some? && !IsPrefix("mime:", parseErr.value)
    ensures err.Some? ==> err == parseErr
  {
    if noRequest then None
    else if parseErr.Some? && !IsPrefix("mime:", parseErr.value) then parseErr
    else None
  }

  // -----------------------------------------------------------------------
  // Dispatch
  // -----------------------------------------------------------------------

  /** What a request gets: served by its handler, or an error with a status code. */
  datatype Reply = Served | Failed(status: int, msg: string)

  function VersionError(client: string, server: string): string
  {
    "client and server don't have same version (client API version: " + client + ", server API version: " + server + ")"
  }

  /**
   * makeHttpHandler's handler: the URL's version (the server's when
   * absent) above the server's is refused with 404 before the handler is
   * called; a handler error is answered through httpError.
   */
  function Dispatch(urlVersion: string, apiVersion: string, greater: (string, string) -> bool,
                    handler: string -> Option<string>): (r: Reply)
    ensures var v := if urlVersion == "" then apiVersion else urlVersion;
            && (greater(v, apiVersion) ==> r == Failed(StatusNotFound, VersionError(v, apiVersion)))
            && (!greater(v, apiVersion) ==> (r.Served? <==> handler(v).None?))
            && (!greater(v, apiVersion) && r.Failed? ==> r == Failed(HttpStatus(handler(v).value), handler(v).value))
  {
    var v := if urlVersion == "" then apiVersion else urlVersion;
    if greater(v, apiVersion) then Failed(StatusNotFound, VersionError(v, apiVersion))
    else match handler(v)
      case None => Served
      case Some(e) => Failed(HttpStatus(e), e)
  }

  /** A refused version never reaches the handler: any two handlers get the same reply. */
  lemma VersionGateSkipsHandler(urlVersion: string, apiVersion: string, greater: (string, string) -> bool,
                                h1: string -> Option<string>, h2: string -> Option<string>)
    requires greater(if urlVersion == "" then apiVersion else urlVersion, apiVersion)
    ensures Dispatch(urlVersion, apiVersion, greater, h1) == Dispatch(urlVersion, apiVersion, greater, h2)
  {
  }

  /** Without a version in the URL the server's own is used, which is never above itself. */
  lemma NoVersionPasses(apiVersion: string, greater: (string, string) -> bool, handler: string -> Option<string>)
    requires !greater(apiVersion, apiVersion)
    ensures Dispatch("", apiVersion, greater, handler) == if handler(apiVersion).None? then Served
                                                         else Failed(HttpStatus(handler(apiVersion).value), handler(apiVersion).value)
  {
  }

  // -----------------------------------------------------------------------
  // Routes
  // -----------------------------------------------------------------------

  /** createRouter's CORS header: "*" when CORS is enabled without an explicit header. */
  function CorsHeaders(corsHeaders: string, enableCors: bool): (h: string)
    ensures corsHeaders != "" ==> h == corsHeaders
    ensures corsHeaders == "" ==> (h == "*" <==> enableCors) && (h == "" <==> !enableCors)
  {
    if corsHeaders == "" && enableCors then "*" else corsHeaders
  }

  /** A registration in the router: a method for any path, or a path and a method. */
  datatype Registration = MethodOnly(verb: string) | PathRoute(path: string, verb: string)

  const VersionedPrefix := "/v{version:[0-9.]+}"

  /** The registrations one (method, route) pair makes. */
  function RouteRegs(verb: string, route: string): seq<Registration>
  {
    if route == "" then [MethodOnly(verb)]
    else [PathRoute(VersionedPrefix + route, verb), PathRoute(route, verb)]
  }

  /** The registrations for a walk over the route table, in walk order. */
  function Registrations(routes: seq<(string, string)>): seq<Registration>
  {
    if routes == [] then []
    else Registrations(routes[..|routes| - 1]) + RouteRegs(routes[|routes| - 1].0, routes[|routes| - 1].1)
  }

  /**
   * Every non-empty route is reachable with and without the version
   * prefix, the empty route by its method alone.
   */
  lemma {:induction false} RoutesRegistered(routes: seq<(string, string)>, i: int)
    requires 0 <= i < |routes|
    ensures routes[i].1 != "" ==> PathRoute(VersionedPrefix + routes[i].1, routes[i].0) in Registrations(routes)
                                  && PathRoute(routes[i].1, routes[i].0) in Registrations(routes)
    ensures routes[i].1 == "" ==> MethodOnly(routes[i].0) in Registrations(routes)
  {
    var init := routes[..|routes| - 1];
    if i < |routes| - 1 {
      RoutesRegistered(init, i);
    }
  }

  /** Nothing else is registered: every registration comes from some route. */
  lemma {:induction false} RegistrationsFromRoutes(routes: seq<(string, string)>, reg: Registration)
    requires reg in Registrations(routes)
    ensures exists i :: 0 <= i < |routes| && reg in RouteRegs(routes[i].0, routes[i].1)
  {
    var init := routes[..|routes| - 1];
    if reg in Registrations(init) {
      RegistrationsFromRoutes(init, reg);
      var i :| 0 <= i < |init| && reg in RouteRegs(init[i].0, init[i].1);
      assert routes[i] == init[i];
    } else {
      assert reg in RouteRegs(routes[|routes| - 1].0, routes[|routes| - 1].1);
    }
  }

  /** createRouter's registration loop over the route table. */
  method CreateRouter(routes: seq<(string, string)>) returns (regs: seq<Registration>)
    ensures regs == Registrations(routes)
  {
    regs := [];
    var i := 0;
    while i < |routes|
      invariant 0 <= i <= |routes|
      invariant regs == Registrations(routes[..i])
    {
      assert routes[..i + 1][..i] == routes[..i];
      var (verb, route) := routes[i];
      if route == "" {
        regs := regs + [MethodOnly(verb)];
      } else {
        regs := regs + [PathRoute(VersionedPrefix + route, verb), PathRoute(route, verb)];
      }
      i := i + 1;
    }
    assert routes[..|routes|] == routes;
  }

  // -----------------------------------------------------------------------
  // Job arguments built by handlers
  // -----------------------------------------------------------------------

  /** r.Form.Get: "" for an absent key. */
  function FormGet(form: map<string, string>, key: string): string
  {
    if key in form then form[key] else ""
  }

  const LogFlagKeys := ["follow", "timestamps", "stdout", "stderr"]

  /** The flags among `keys` whose form value is "yes", in order. */
  function YesFlags(form: map<string, string>, keys: seq<string>): seq<string>
  {
    if keys == [] then []
    else YesFlags(form, keys[..|keys| - 1]) + (if FormGet(form, keys[|keys| - 1]) == "yes" then [keys[|keys| - 1]] else [])
  }

  /** A flag is passed exactly when its value is "yes"; only listed keys are passed. */
  lemma {:induction false} YesFlagsIff(form: map<string, string>, keys: seq<string>, k: string)
    ensures k in YesFlags(form, keys) <==> k in keys && FormGet(form, k) == "yes"
  {
    if keys != [] {
      var init := keys[..|keys| - 1];
      YesFlagsIff(form, init, k);
      assert keys == init + [keys[|keys| - 1]];
    }
  }

  /** getContainerLogs' job arguments: container, tail, since, then the "yes" flags in the order listed. */
  method ContainerLogsArgs(form: map<string, string>) returns (args: seq<string>)
    ensures args == [FormGet(form, "container"), FormGet(form, "tail"), FormGet(form, "since")] + YesFlags(form, LogFlagKeys)
  {
    args := [FormGet(form, "container"), FormGet(form, "tail"), FormGet(form, "since")];
    var head := args;
    var keys := LogFlagKeys;
    var i := 0;
    while i < |keys|
      invariant 0 <= i <= |keys|
      invariant args == head + YesFlags(form, keys[..i])
    {
      assert keys[..i + 1][..i] == keys[..i];
      if FormGet(form, keys[i]) == "yes" {
        args := args + [keys[i]];
      }
      i := i + 1;
    }
    assert keys[..|keys|] == keys;
  }

  /** delImages' job arguments: the image, then force and noprune, each "yes" unless given. */
  function DelImagesArgs(form: map<string, string>): (args: seq<string>)
    ensures |args| == 3 && args[0] == FormGet(form, "imageId")
    ensures args[1] == (if FormGet(form, "force") == "" then "yes" else FormGet(form, "force"))
    ensures args[2] == (if FormGet(form, "noprune") == "" then "yes" else FormGet(form, "noprune"))
  {
    var force := if FormGet(form, "force") != "" then FormGet(form, "force") else "yes";
    var noprune := if FormGet(form, "noprune") != "" then FormGet(form, "noprune") else "yes";
    [FormGet(form, "imageId"), force, noprune]
  }

  // -----------------------------------------------------------------------
  // Serving
  // -----------------------------------------------------------------------

  /** strings.SplitN(s, "://", 2): the text before the first "://" and the rest. */
  function SplitProtoAddr(s: string): (r: Option<(string, string)>)
    ensures r.Some? <==> Contains(s, "://")
    ensures r.Some? ==> r.value.0 + "://" + r.value.1 == s && !Contains(r.value.0, "://")
  {
    match IndexOf(s, "://")
    case None => None
    case Some(k) =>
      assert s[k..k + 3] == "://";
      assert s == s[..k] + "://" + s[k + 3..];
      assert forall j :: !OccursAt(s[..k], "://", j) by {
        forall j | 0 <= j && j + 3 <= k ensures !OccursAt(s[..k], "://", j) {
          assert s[..k][j..j + 3] == s[j..j + 3];
          assert !OccursAt(s, "://", j);
        }
      }
      Some((s[..k], s[k + 3..]))
  }

  /** An address written as proto://addr with a plain protocol splits back into its parts. */
  lemma SplitProtoAddrRoundTrip(proto: string, addr: string)
    requires ':' !in proto
    ensures SplitProtoAddr(proto + "://" + addr) == Some((proto, addr))
  {
    var s := proto + "://" + addr;
    assert OccursAt(s, "://", |proto|);
    forall j | 0 <= j < |proto| ensures !OccursAt(s, "://", j) {
      assert s[j] == proto[j];
    }
    var k := IndexOf(s, "://").value;
    assert k == |proto|;
    assert s[..k] == proto;
    assert s[k + 3..] == addr;
  }

  /** NewServer's protocol check: only tcp and unix are served. */
  function NewServerCheck(proto: string): (err: Option<string>)
    ensures err.None? <==> proto == "tcp" || proto == "unix"
    ensures err.Some? ==> err.value == "Invalid protocol format."
  {
    if proto == "tcp" || proto == "unix" then None else Some("Invalid protocol format.")
  }

  function Usage(name: string): string
  {
    "usage: " + name + " PROTO://ADDR [PROTO://ADDR ...]"
  }

  /** The index of the first address without "://", if any. */
  function FirstMalformed(addrs: seq<string>): (r: Option<nat>)
    ensures r.Some? ==> r.value < |addrs| && !Contains(addrs[r.value], "://")
                        && forall j :: 0 <= j < r.value ==> Contains(addrs[j], "://")
    ensures r.None? <==> forall j :: 0 <= j < |addrs| ==> Contains(addrs[j], "://")
  {
    if addrs == [] then None
    else if !Contains(addrs[0], "://") then Some(0)
    else match FirstMalformed(addrs[1..])
      case None => None
      case Some(k) => Some(k + 1)
  }

  /**
   * An address's serving outcome. NewServer's error comes first: the
   * protocol check, else the listener setup's error (`setup`). Then
   * srv.Serve()'s error (`serve`), where a closed-connection error counts
   * as a clean stop. A setup error is reported whatever its text.
   */
  function ServeOutcome(protoAddr: (string, string), setup: (string, string) -> Option<string>,
                        serve: (string, string) -> Option<string>): (err: Option<string>)
    ensures NewServerCheck(protoAddr.0).Some? ==> err == NewServerCheck(protoAddr.0)
    ensures NewServerCheck(protoAddr.0).None? && setup(protoAddr.0, protoAddr.1).Some? ==> err == setup(protoAddr.0, protoAddr.1)
    ensures err.None? <==>
              && NewServerCheck(protoAddr.0).None?
              && setup(protoAddr.0, protoAddr.1).None?
              && (serve(protoAddr.0, protoAddr.1).Some? ==> Contains(serve(protoAddr.0, protoAddr.1).value, ClosedConnection))
    ensures err.Some? && NewServerCheck(protoAddr.0).None? && setup(protoAddr.0, protoAddr.1).None? ==>
              err == serve(protoAddr.0, protoAddr.1)
  {
    match NewServerCheck(protoAddr.0)
    case Some(e) => Some(e)
    case None =>
      match setup(protoAddr.0, protoAddr.1)
      case Some(e) => Some(e)
      case None =>
        var e := serve(protoAddr.0, protoAddr.1);
        if e.Some? && Contains(e.value, ClosedConnection) then None else e
  }

  const ClosedConnection := "use of closed network connection"

  /**
   * ServeApi's address check: no addresses, or an address without "://",
   * is a usage error. On success the addresses' protocol and address parts,
   * one server each.
   */
  method ParseServeArgs(name: string, addrs: seq<string>) returns (r: Result<seq<(string, string)>>)
    ensures |addrs| == 0 ==> r == Err(Usage(name))
    ensures |addrs| > 0 ==> (r.Err? <==> FirstMalformed(addrs).Some?)
    ensures r.Err? ==> r.msg == Usage(name)
    ensures r.Ok? ==> |r.value| == |addrs| && forall i :: 0 <= i < |addrs| ==> r.value[i].0 + "://" + r.value[i].1 == addrs[i]
  {
    if |addrs| == 0 {
      return Err(Usage(name));
    }
    var parts: seq<(string, string)> := [];
    var i := 0;
    while i < |addrs|
      invariant 0 <= i <= |addrs| && |parts| == i
      invariant forall j :: 0 <= j < i ==> Contains(addrs[j], "://") && parts[j].0 + "://" + parts[j].1 == addrs[j]
    {
      var p := SplitProtoAddr(addrs[i]);
      if p.None? {
        return Err(Usage(name));
      }
      parts := parts + [p.value];
      i := i + 1;
    }
    r := Ok(parts);
  }

  /**
   * ServeApi's wait: the servers' outcomes are received in `arrival` order
   * (an order of the server indexes) and the first error is returned.
   */
  method AwaitServers(servers: seq<(string, string)>, arrival: seq<nat>,
                      setup: (string, string) -> Option<string>, serve: (string, string) -> Option<string>)
    returns (err: Option<string>)
    requires |arrival| == |servers| && forall i :: 0 <= i < |arrival| ==> arrival[i] < |servers|
    requires forall i :: 0 <= i < |servers| ==> i in arrival
    ensures err.None? <==> forall i :: 0 <= i < |servers| ==> ServeOutcome(servers[i], setup, serve).None?
    ensures err.Some? ==>
              exists i :: 0 <= i < |arrival| && err == ServeOutcome(servers[arrival[i]], setup, serve)
                          && forall j :: 0 <= j < i ==> ServeOutcome(servers[arrival[j]], setup, serve).None?
  {
    var i := 0;
    while i < |arrival|
      invariant 0 <= i <= |arrival|
      invariant forall j :: 0 <= j < i ==> ServeOutcome(servers[arrival[j]], setup, serve).None?
    {
      var e := ServeOutcome(servers[arrival[i]], setup, serve);
      if e.Some? {
        return e;
      }
      i := i + 1;
    }
    forall k | 0 <= k < |servers| ensures ServeOutcome(servers[k], setup, serve).None? {
      assert k in arrival;
      var j :| 0 <= j < |arrival| && arrival[j] == k;
    }
    err := None;
  }
}
