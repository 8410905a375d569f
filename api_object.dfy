/** `BaseApiObject`: the base of the API client objects. Each verb helper
    sends one request to the endpoint built from the object's base path and
    the given path, logs the response status and body at a level chosen by
    success, throws for a non-success status and otherwise returns the body,
    or the default value when the body is empty. JSON serialisation is not
    modelled: a payload is given as its serialised text and a returned value
    as the body it would be read from. */
module ApiObject {
  import opened Common
  import opened Text
  import opened World

  /** `BuildEndpoint(path)` for the base path `basePath`. */
  function BuildEndpoint(basePath: string, path: string): string
  {
    TrimEnd(TrimStart(basePath, '/'), '/') + "/" + TrimStart(path, '/')
  }

  /** `CreateJsonContent`: a null payload is an empty body. */
  function JsonBody(data: Option<string>): (body: string)
    ensures data.None? ==> body == ""
    ensures data.Some? ==> body == data.value
  {
    if data.Some? then data.value else ""
  }

  /** `LogResponse`'s level. */
  function ResponseLevel(response: HttpResponse): (level: LogLevel)
    ensures level == Information <==> IsSuccess(response.status)
    ensures level == LogLevel.Error <==> !IsSuccess(response.status)
  {
    if IsSuccess(response.status) then Information else LogLevel.Error
  }

  /** `HandleResponseAsync`'s answer: the status error, the default value
      for an empty body, or the body. */
  function Handle(response: HttpResponse): (r: Result<Option<string>>)
    ensures r.Err? <==> !IsSuccess(response.status)
    ensures r.Err? ==> r.error == StatusError(response)
    ensures r == Ok(None) <==> IsSuccess(response.status) && response.content == ""
    ensures r.Ok? && r.value.Some? ==> r.value.value == response.content
  {
    if !IsSuccess(response.status) then Err(StatusError(response))
    else if response.content == "" then Ok(None)
    else Ok(Some(response.content))
  }

  /** The calls one verb helper makes: the request line, the request, and
      the two response lines. */
  function RequestEffects(verb: string, endpoint: string, body: Option<string>, response: HttpResponse): seq<Effect>
  {
    var level := ResponseLevel(response);
    [Logged(Information, verb + " request to: " + endpoint),
     HttpSent(verb, endpoint, body),
     Logged(level, "Response Status: " + IntToString(response.status) + " (" + response.reason + ")"),
     Logged(level, "Response Content: " + response.content)]
  }

  class ApiClientObject {
    const world: World
    /** The subclass's `BasePath`. */
    const basePath: string

    constructor(world: World, basePath: string)
      ensures this.world == world && this.basePath == basePath
    {
      this.world := world;
      this.basePath := basePath;
    }

    /** One request; `response` is the server's answer. */
    method Send(verb: string, path: string, body: Option<string>, response: HttpResponse)
      returns (r: Result<Option<string>>)
      modifies world
      ensures world.log == old(world.log) + RequestEffects(verb, BuildEndpoint(basePath, path), body, response)
      ensures r == Handle(response)
    {
      var endpoint := BuildEndpoint(basePath, path);
      var requestLine := Logged(Information, verb + " request to: " + endpoint);
      var level := ResponseLevel(response);
      var statusLine := Logged(level, "Response Status: " + IntToString(response.status) + " (" + response.reason + ")");
      var contentLine := Logged(level, "Response Content: " + response.content);
      world.log := world.log + [requestLine, HttpSent(verb, endpoint, body), statusLine, contentLine];
      if !IsSuccess(response.status) {
        return Err(StatusError(response));
      }
      r := if response.content == "" then Ok(None) else Ok(Some(response.content));
    }

    method GetAsync(path: string, response: HttpResponse) returns (r: Result<Option<string>>)
      modifies world
      ensures world.log == old(world.log) + RequestEffects("GET", BuildEndpoint(basePath, path), None, response)
      ensures r == Handle(response)
    {
      r := Send("GET", path, None, response);
    }

    method PostAsync(path: string, data: Option<string>, response: HttpResponse) returns (r: Result<Option<string>>)
      modifies world
      ensures world.log == old(world.log) + RequestEffects("POST", BuildEndpoint(basePath, path), Some(JsonBody(data)), response)
      ensures r == Handle(response)
    {
      r := Send("POST", path, Some(JsonBody(data)), response);
    }

    method PutAsync(path: string, data: Option<string>, response: HttpResponse) returns (r: Result<Option<string>>)
      modifies world
      ensures world.log == old(world.log) + RequestEffects("PUT", BuildEndpoint(basePath, path), Some(JsonBody(data)), response)
      ensures r == Handle(response)
    {
      r := Send("PUT", path, Some(JsonBody(data)), response);
    }

    method DeleteAsync(path: string, response: HttpResponse) returns (r: Result<Option<string>>)
      modifies world
      ensures world.log == old(world.log) + RequestEffects("DELETE", BuildEndpoint(basePath, path), None, response)
      ensures r == Handle(response)
    {
      r := Send("DELETE", path, None, response);
    }

    method PatchAsync(path: string, data: Option<string>, response: HttpResponse) returns (r: Result<Option<string>>)
      modifies world
      ensures world.log == old(world.log) + RequestEffects("PATCH", BuildEndpoint(basePath, path), Some(JsonBody(data)), response)
      ensures r == Handle(response)
    {
      r := Send("PATCH", path, Some(JsonBody(data)), response);
    }
  }

  /** A string that does not start with `c` is left alone by `TrimStart`. */
  lemma TrimStartNoop(s: string, c: char)
    requires s == [] || s[0] != c
    ensures TrimStart(s, c) == s
  {
  }

  /** A base path of slashes only cleans to "". */
  lemma CleanSlashesOnly(i: nat, b: string, k: nat)
    requires b == []
    ensures TrimEnd(TrimStart(Repeat('/', i) + b + Repeat('/', k), '/'), '/') == b
  {
    TrimStartIgnoresPrefix(Repeat('/', k), '/', i);
    TrimStartRun('/', k);
    assert Repeat('/', i) + b == Repeat('/', i);
  }

  /** A non-empty base path wrapped in slashes cleans to itself. */
  lemma CleanWrapped(i: nat, b: string, k: nat)
    requires b != [] && b[0] != '/' && b[|b| - 1] != '/'
    ensures TrimEnd(TrimStart(Repeat('/', i) + (b + Repeat('/', k)), '/'), '/') == b
  {
    var tail := b + Repeat('/', k);
    TrimStartIgnoresPrefix(tail, '/', i);
    TrimStartNoop(tail, '/');
    TrimEndIgnoresSuffix(b, '/', k);
  }

  /** Cleaning a base path wrapped in slashes recovers it. */
  lemma CleanBasePath(i: nat, b: string, k: nat)
    requires b == [] || (b[0] != '/' && b[|b| - 1] != '/')
    ensures TrimEnd(TrimStart(Repeat('/', i) + b + Repeat('/', k), '/'), '/') == b
  {
    if b == [] {
      CleanSlashesOnly(i, b, k);
    } else {
      Regroup(Repeat('/', i), b, Repeat('/', k));
      CleanWrapped(i, b, k);
    }
  }

  /** The whole behaviour: a base path with no slash at either end, wrapped
      in any number of slashes, and a path with no leading slash, preceded by
      any number of slashes, join with exactly one '/'; the path's interior
      and trailing slashes are kept. */
  lemma EndpointOfParts(i: nat, b: string, k: nat, j: nat, p: string)
    requires b == [] || (b[0] != '/' && b[|b| - 1] != '/')
    requires p == [] || p[0] != '/'
    ensures BuildEndpoint(Repeat('/', i) + b + Repeat('/', k), Repeat('/', j) + p) == b + "/" + p
  {
    CleanBasePath(i, b, k);
    TrimStartIgnoresPrefix(p, '/', j);
  }

  /** A base path made only of slashes, or empty, gives an endpoint rooted at
      '/'. */
  lemma SlashOnlyBaseIsRooted(basePath: string, path: string)
    requires forall i :: 0 <= i < |basePath| ==> basePath[i] == '/'
    ensures BuildEndpoint(basePath, path) == "/" + TrimStart(path, '/')
  {
    assert basePath == Repeat('/', |basePath|);
    TrimStartRun('/', |basePath|);
  }

  /** The request line, the request and both response lines all name the
      same endpoint, and both response lines share the level. */
  lemma ResponseLinesShareLevel(verb: string, endpoint: string, body: Option<string>, response: HttpResponse)
    ensures var e := RequestEffects(verb, endpoint, body, response);
            |e| == 4 && e[1] == HttpSent(verb, endpoint, body) &&
            e[2].level == e[3].level == (if IsSuccess(response.status) then Information else LogLevel.Error)
  {
  }
}
