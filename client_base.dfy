/**
  The REST client base: request options with the CSRF header, the route
  builders, the choice of request method and the server-version bookkeeping
  of `doFetch`. The header names come from a constants file outside this
  model, so they are fields fixed at construction.
*/
module ClientBase {
  import opened Wrappers
  import opened JsValues

  const ApiVersion: string := "/api/v4"

  /** Every route the client builds, with the ids it is built from. */
  datatype Route =
    | WebSocket
    | Users | User(userId: string)
    | Teams | Team(teamId: string) | TeamName(teamName: string)
    | TeamMembers(teamId: string) | TeamMember(teamId: string, userId: string)
    | Channels | Channel(channelId: string)
    | ChannelMembers(channelId: string) | ChannelMember(channelId: string, userId: string)
    | Posts | Post(postId: string)
    | Reactions | Commands
    | Files | File(fileId: string)
    | Preferences(userId: string)
    | IncomingHooks | IncomingHook(hookId: string)
    | OutgoingHooks | OutgoingHook(hookId: string)
    | OAuth | OAuthApps | OAuthApp(appId: string)
    | Emojis | Emoji(emojiId: string)
    | Brand | BrandImage(timestamp: string)
    | DataRetention | Roles | Timezones | RedirectLocation
    | Bots | Bot(botUserId: string)
    | AppsProxy

  /** How many other routes a route is built on, for termination. */
  function Depth(r: Route): nat
  {
    match r
    case User(_) => 1
    case Team(_) => 1
    case TeamName(_) => 1
    case TeamMembers(_) => 2
    case TeamMember(_, _) => 3
    case Channel(_) => 1
    case ChannelMembers(_) => 2
    case ChannelMember(_, _) => 3
    case Post(_) => 1
    case File(_) => 1
    case Preferences(_) => 2
    case OAuthApp(_) => 1
    case Emoji(_) => 1
    case BrandImage(_) => 1
    case Bot(_) => 1
    case _ => 0
  }

  /** The `get*Route` builders: each nested route extends the route it is built on. */
  function Path(r: Route): string
    decreases Depth(r)
  {
    match r
    case WebSocket => ApiVersion + "/websocket"
    case Users => ApiVersion + "/users"
    case User(userId) => Path(Users) + "/" + userId
    case Teams => ApiVersion + "/teams"
    case Team(teamId) => Path(Teams) + "/" + teamId
    case TeamName(teamName) => Path(Teams) + "/name/" + teamName
    case TeamMembers(teamId) => Path(Team(teamId)) + "/members"
    case TeamMember(teamId, userId) => Path(TeamMembers(teamId)) + "/" + userId
    case Channels => ApiVersion + "/channels"
    case Channel(channelId) => Path(Channels) + "/" + channelId
    case ChannelMembers(channelId) => Path(Channel(channelId)) + "/members"
    case ChannelMember(channelId, userId) => Path(ChannelMembers(channelId)) + "/" + userId
    case Posts => ApiVersion + "/posts"
    case Post(postId) => Path(Posts) + "/" + postId
    case Reactions => ApiVersion + "/reactions"
    case Commands => ApiVersion + "/commands"
    case Files => ApiVersion + "/files"
    case File(fileId) => Path(Files) + "/" + fileId
    case Preferences(userId) => Path(User(userId)) + "/preferences"
    case IncomingHooks => ApiVersion + "/hooks/incoming"
    case IncomingHook(hookId) => ApiVersion + "/hooks/incoming/" + hookId
    case OutgoingHooks => ApiVersion + "/hooks/outgoing"
    case OutgoingHook(hookId) => ApiVersion + "/hooks/outgoing/" + hookId
    case OAuth => "/oauth"
    case OAuthApps => ApiVersion + "/oauth/apps"
    case OAuthApp(appId) => Path(OAuthApps) + "/" + appId
    case Emojis => ApiVersion + "/emoji"
    case Emoji(emojiId) => Path(Emojis) + "/" + emojiId
    case Brand => ApiVersion + "/brand"
    case BrandImage(timestamp) => Path(Brand) + "/image?t=" + timestamp
    case DataRetention => ApiVersion + "/data_retention"
    case Roles => ApiVersion + "/roles"
    case Timezones => ApiVersion + "/system/timezones"
    case RedirectLocation => ApiVersion + "/redirect_location"
    case Bots => ApiVersion + "/bots"
    case Bot(botUserId) => Path(Bots) + "/" + botUserId
    case AppsProxy => "/plugins/com.mattermost.apps"
  }

  /** Appending to a path under the API version keeps it there. */
  lemma ExtendUnderApiVersion(p: string, a: string, b: string)
    requires ApiVersion <= p
    ensures ApiVersion <= p + a
    ensures ApiVersion <= p + a + b
  {
    assert (p + a)[..|ApiVersion|] == p[..|ApiVersion|];
    assert (p + a + b)[..|ApiVersion|] == p[..|ApiVersion|];
  }

  /** The team and channel routes built on another route. */
  predicate IsMemberRoute(r: Route)
  {
    || r.Team? || r.TeamName? || r.TeamMembers? || r.TeamMember?
    || r.Channel? || r.ChannelMembers? || r.ChannelMember?
  }

  /** The user, post, file and preference routes built on another route. */
  predicate IsItemRoute(r: Route)
  {
    r.User? || r.Post? || r.File? || r.Preferences?
  }

  /** The OAuth app, emoji, brand image and bot routes built on another route. */
  predicate IsResourceRoute(r: Route)
  {
    r.OAuthApp? || r.Emoji? || r.BrandImage? || r.Bot?
  }

  /** The routes built directly on the API version. */
  lemma TopRoutesUnderApiVersion(r: Route)
    requires !IsMemberRoute(r) && !IsItemRoute(r) && !IsResourceRoute(r) && !r.OAuth? && !r.AppsProxy?
    ensures ApiVersion <= Path(r)
  {
    match r
    case WebSocket => ExtendUnderApiVersion(ApiVersion, "/websocket", "");
    case Users => ExtendUnderApiVersion(ApiVersion, "/users", "");
    case Teams => ExtendUnderApiVersion(ApiVersion, "/teams", "");
    case Channels => ExtendUnderApiVersion(ApiVersion, "/channels", "");
    case Posts => ExtendUnderApiVersion(ApiVersion, "/posts", "");
    case Reactions => ExtendUnderApiVersion(ApiVersion, "/reactions", "");
    case Commands => ExtendUnderApiVersion(ApiVersion, "/commands", "");
    case Files => ExtendUnderApiVersion(ApiVersion, "/files", "");
    case IncomingHooks => ExtendUnderApiVersion(ApiVersion, "/hooks/incoming", "");
    case IncomingHook(h) => ExtendUnderApiVersion(ApiVersion, "/hooks/incoming/", h);
    case OutgoingHooks => ExtendUnderApiVersion(ApiVersion, "/hooks/outgoing", "");
    case OutgoingHook(h) => ExtendUnderApiVersion(ApiVersion, "/hooks/outgoing/", h);
    case OAuthApps => ExtendUnderApiVersion(ApiVersion, "/oauth/apps", "");
    case Emojis => ExtendUnderApiVersion(ApiVersion, "/emoji", "");
    case Brand => ExtendUnderApiVersion(ApiVersion, "/brand", "");
    case DataRetention => ExtendUnderApiVersion(ApiVersion, "/data_retention", "");
    case Roles => ExtendUnderApiVersion(ApiVersion, "/roles", "");
    case Timezones => ExtendUnderApiVersion(ApiVersion, "/system/timezones", "");
    case RedirectLocation => ExtendUnderApiVersion(ApiVersion, "/redirect_location", "");
    case Bots => ExtendUnderApiVersion(ApiVersion, "/bots", "");
  }

  /** Every route lies under the API version prefix, except the OAuth and apps-proxy routes. */
  lemma {:induction false} RoutesUnderApiVersion(r: Route)
    ensures ApiVersion <= Path(r) <==> !r.OAuth? && !r.AppsProxy?
    decreases Depth(r), 1
  {
    if r.OAuth? {
      assert |Path(r)| < |ApiVersion|;
    } else if r.AppsProxy? {
      assert Path(r)[1] != ApiVersion[1];
    } else if IsMemberRoute(r) {
      MemberRoutesUnderApiVersion(r);
    } else if IsItemRoute(r) {
      ItemRoutesUnderApiVersion(r);
    } else if IsResourceRoute(r) {
      ResourceRoutesUnderApiVersion(r);
    } else {
      TopRoutesUnderApiVersion(r);
    }
  }

  /** A team or channel route extends a route under the API version, so it is under it too. */
  lemma {:induction false} MemberRoutesUnderApiVersion(r: Route)
    requires IsMemberRoute(r)
    ensures ApiVersion <= Path(r)
    decreases Depth(r), 0
  {
    match r
    case Team(t) => RoutesUnderApiVersion(Teams); ExtendUnderApiVersion(Path(Teams), "/", t);
    case TeamName(n) => RoutesUnderApiVersion(Teams); ExtendUnderApiVersion(Path(Teams), "/name/", n);
    case TeamMembers(t) => RoutesUnderApiVersion(Team(t)); ExtendUnderApiVersion(Path(Team(t)), "/members", "");
    case TeamMember(t, u) => RoutesUnderApiVersion(TeamMembers(t)); ExtendUnderApiVersion(Path(TeamMembers(t)), "/", u);
    case Channel(c) => RoutesUnderApiVersion(Channels); ExtendUnderApiVersion(Path(Channels), "/", c);
    case ChannelMembers(c) => RoutesUnderApiVersion(Channel(c)); ExtendUnderApiVersion(Path(Channel(c)), "/members", "");
    case ChannelMember(c, u) => RoutesUnderApiVersion(ChannelMembers(c)); ExtendUnderApiVersion(Path(ChannelMembers(c)), "/", u);
  }

  /** A user, post, file or preference route extends a route under the API version, so it is under it too. */
  lemma {:induction false} ItemRoutesUnderApiVersion(r: Route)
    requires IsItemRoute(r)
    ensures ApiVersion <= Path(r)
    decreases Depth(r), 0
  {
    match r
    case User(u) => RoutesUnderApiVersion(Users); ExtendUnderApiVersion(Path(Users), "/", u);
    case Post(id) => RoutesUnderApiVersion(Posts); ExtendUnderApiVersion(Path(Posts), "/", id);
    case File(id) => RoutesUnderApiVersion(Files); ExtendUnderApiVersion(Path(Files), "/", id);
    case Preferences(u) => RoutesUnderApiVersion(User(u)); ExtendUnderApiVersion(Path(User(u)), "/preferences", "");
  }

  /** An OAuth app, emoji, brand image or bot route extends a route under the API version, so it is under it too. */
  lemma {:induction false} ResourceRoutesUnderApiVersion(r: Route)
    requires IsResourceRoute(r)
    ensures ApiVersion <= Path(r)
    decreases Depth(r), 0
  {
    match r
    case OAuthApp(id) => RoutesUnderApiVersion(OAuthApps); ExtendUnderApiVersion(Path(OAuthApps), "/", id);
    case Emoji(id) => RoutesUnderApiVersion(Emojis); ExtendUnderApiVersion(Path(Emojis), "/", id);
    case BrandImage(ts) => RoutesUnderApiVersion(Brand); ExtendUnderApiVersion(Path(Brand), "/image?t=", ts);
    case Bot(id) => RoutesUnderApiVersion(Bots); ExtendUnderApiVersion(Path(Bots), "/", id);
  }

  /** Nested routes are plain concatenations of their parts. */
  lemma TeamMemberRoute(teamId: string, userId: string)
    ensures Path(TeamMember(teamId, userId)) == "/api/v4/teams/" + teamId + "/members/" + userId
  {
    var teams := Path(Teams);
    assert teams + "/" == "/api/v4/teams/";
    assert Path(TeamMembers(teamId)) == teams + "/" + teamId + "/members";
    assert "/members" + "/" == "/members/";
    assert (teams + "/" + teamId) + "/members" + "/" == (teams + "/" + teamId) + "/members/";
  }

  lemma ChannelMemberRoute(channelId: string, userId: string)
    ensures Path(ChannelMember(channelId, userId)) == "/api/v4/channels/" + channelId + "/members/" + userId
  {
    var channels := Path(Channels);
    assert channels + "/" == "/api/v4/channels/";
    assert Path(ChannelMembers(channelId)) == channels + "/" + channelId + "/members";
    assert "/members" + "/" == "/members/";
    assert (channels + "/" + channelId) + "/members" + "/" == (channels + "/" + channelId) + "/members/";
  }

  lemma PreferencesRoute(userId: string)
    ensures Path(Preferences(userId)) == "/api/v4/users/" + userId + "/preferences"
  {
    var users := Path(Users);
    assert users + "/" == "/api/v4/users/";
    assert Path(User(userId)) == users + "/" + userId;
  }

  /** The request functions of the underlying client `doFetch` can pick. */
  datatype Verb = HttpGet | HttpPut | HttpPost | HttpPatch | HttpDelete

  /** The lower-case method name each request function answers to. */
  function VerbName(v: Verb): string
  {
    match v
    case HttpGet => "get"
    case HttpPut => "put"
    case HttpPost => "post"
    case HttpPatch => "patch"
    case HttpDelete => "delete"
  }

  /**
    The switch at the head of `doFetch`: the method, lower-cased, names one
    of the five request functions; a missing or unknown method is an
    'Invalid request method' error, and a method that is not a string
    cannot be lower-cased.
  */
  function SelectRequest(requestMethod: Json): (r: Result<Verb, string>)
    ensures r.Success? <==>
      requestMethod.JStr? && Lower(requestMethod.s) in ["get", "put", "post", "patch", "delete"]
    ensures r.Success? ==> VerbName(r.value) == Lower(requestMethod.s)
    ensures requestMethod.JStr? || requestMethod.JUndefined? || requestMethod.JNull? ==>
      (r.Failure? <==> r == Failure("Invalid request method"))
    ensures !(requestMethod.JStr? || requestMethod.JUndefined? || requestMethod.JNull?) ==>
      r == Failure("TypeError")
  {
    if requestMethod.JUndefined? || requestMethod.JNull? then Failure("Invalid request method")
    else if !requestMethod.JStr? then Failure("TypeError")
    else
      var m := Lower(requestMethod.s);
      if m == "get" then Success(HttpGet)
      else if m == "put" then Success(HttpPut)
      else if m == "post" then Success(HttpPost)
      else if m == "patch" then Success(HttpPatch)
      else if m == "delete" then Success(HttpDelete)
      else Failure("Invalid request method")
  }

  /** The header that carries the server version, read under its own name or its lower-case form. */
  function VersionHeader(headers: Fields, versionHeaderName: string): Json
  {
    var v := Lookup(headers, versionHeaderName);
    if Truthy(v) then v else Lookup(headers, Lower(versionHeaderName))
  }

  /** The new server version a response announces: none when the header is missing or caching headers are present. */
  function AnnouncedVersion(headers: Fields, versionHeaderName: string): (r: Option<Json>)
    ensures r.Some? <==>
      (Truthy(Lookup(headers, versionHeaderName)) || Truthy(Lookup(headers, Lower(versionHeaderName))))
      && !Truthy(Lookup(headers, "Cache-Control"))
    ensures r.Some? ==> Truthy(r.value)
    ensures r.Some? && Truthy(Lookup(headers, versionHeaderName)) ==> r.value == Lookup(headers, versionHeaderName)
  {
    var v := VersionHeader(headers, versionHeaderName);
    if Truthy(v) && !Truthy(Lookup(headers, "Cache-Control")) then Some(v) else None
  }

  /** What the native client answered: its headers, whether it was ok, its body and status. */
  datatype Response = Response(headers: Fields, ok: bool, data: Json, code: Json)

  /** A `ClientError`: the message, the server error id, the status code and the url. */
  datatype ClientError = ClientError(message: Json, serverErrorId: Json, statusCode: Json, url: string)

  /**
    What `doFetch` throws: a `ClientError`, or the TypeError of calling
    `toLocaleLowerCase` on a method that is not a string.
  */
  datatype FetchError = Thrown(error: ClientError) | MethodTypeError

  /** The error a response that is not ok turns into: its message, or the empty string. */
  function ResponseError(url: string, response: Response): (e: ClientError)
    ensures Truthy(Get(response.data, "message")) ==> e.message == Get(response.data, "message")
    ensures !Truthy(Get(response.data, "message")) ==> e.message == JStr("")
    ensures e.serverErrorId == Get(response.data, "id") && e.statusCode == response.code && e.url == url
  {
    var message := Get(response.data, "message");
    ClientError(if Truthy(message) then message else JStr(""), Get(response.data, "id"), response.code, url)
  }

  /**
    The `headers` of `getOptions`: the CSRF header when `sendCsrf`, then
    every header the caller gave, written over it.
  */
  function OptionsHeaders(sendCsrf: bool, csrfHeaderName: string, csrf: string, given: Json): (h: Fields)
    ensures !Truthy(given) || UniqueKeys(Spread(given)) ==>
      forall k :: Lookup(h, k) ==
        if Truthy(given) && HasKey(Spread(given), k) then Lookup(Spread(given), k)
        else if k == csrfHeaderName && sendCsrf then JStr(csrf)
        else JUndefined
  {
    var csrfHeaders: Fields := if sendCsrf then [(csrfHeaderName, JStr(csrf))] else [];
    assert forall k :: Lookup(csrfHeaders, k) == if k == csrfHeaderName && sendCsrf then JStr(csrf) else JUndefined by {
      forall k
        ensures Lookup(csrfHeaders, k) == if k == csrfHeaderName && sendCsrf then JStr(csrf) else JUndefined
      {
        if k == csrfHeaderName && sendCsrf {
          LookupAt(csrfHeaders, k, 0);
        }
      }
    }
    if Truthy(given) then
      var h := Merge(csrfHeaders, Spread(given));
      assert UniqueKeys(Spread(given)) ==>
        forall k :: Lookup(h, k) ==
          if HasKey(Spread(given), k) then Lookup(Spread(given), k) else Lookup(csrfHeaders, k)
      by {
        if UniqueKeys(Spread(given)) {
          forall k
            ensures Lookup(h, k) ==
              if HasKey(Spread(given), k) then Lookup(Spread(given), k) else Lookup(csrfHeaders, k)
          {
            MergeLookup(csrfHeaders, Spread(given), k);
          }
        }
      }
      h
    else csrfHeaders
  }

  class Client {
    /** The CSRF token; the empty string until the app sets one. */
    var csrf: string
    /** The last server version a response announced. */
    var serverVersion: Json
    const csrfHeaderName: string
    const versionHeaderName: string

    constructor(csrfHeaderName: string, versionHeaderName: string)
      ensures csrf == "" && serverVersion == JStr("")
      ensures this.csrfHeaderName == csrfHeaderName && this.versionHeaderName == versionHeaderName
    {
      csrf := "";
      serverVersion := JStr("");
      this.csrfHeaderName := csrfHeaderName;
      this.versionHeaderName := versionHeaderName;
    }

    method SetCSRF(csrfToken: string)
      modifies this
      ensures csrf == csrfToken && serverVersion == old(serverVersion)
    {
      csrf := csrfToken;
    }

    /** Whether `getOptions` adds the CSRF header: a method that is not GET, and a token. */
    predicate SendsCsrf(options: Fields)
      reads this
    {
      var verb := Lookup(options, "method");
      Truthy(verb) && verb.JStr? && Lower(verb.s) != "get" && csrf != ""
    }

    /**
      `getOptions`: the options as given, with `headers` replaced by the
      CSRF header (when `SendsCsrf`) overlaid by the caller's own headers.
      A truthy method that is not a string cannot be lower-cased.
    */
    function GetOptions(options: Fields): (r: Result<Fields, string>)
      reads this
      ensures r.Failure? <==> Truthy(Lookup(options, "method")) && !Lookup(options, "method").JStr?
      ensures r.Success? ==> forall k :: k != "headers" ==> Lookup(r.value, k) == Lookup(options, k)
      ensures r.Success? ==> Lookup(r.value, "headers").JObj?
      ensures r.Success? ==>
        var headers := Lookup(r.value, "headers").fields;
        var given := Lookup(options, "headers");
        !Truthy(given) || UniqueKeys(Spread(given)) ==>
          forall k :: Lookup(headers, k) ==
            if Truthy(given) && HasKey(Spread(given), k) then Lookup(Spread(given), k)
            else if k == csrfHeaderName && SendsCsrf(options) then JStr(csrf)
            else JUndefined
    {
      var verb := Lookup(options, "method");
      if Truthy(verb) && !verb.JStr? then Failure("TypeError")
      else
        var headers := OptionsHeaders(SendsCsrf(options), csrfHeaderName, csrf, Lookup(options, "headers"));
        Success(Put(options, "headers", JObj(headers)))
    }

    /**
      `doFetch` around the network call. The method picks the request
      function; `response` is what the request gave (None when it threw).
      The server version is taken from the response's headers before its
      status is looked at, so a failing response still updates it.
    */
    method DoFetch(url: string, options: Fields, response: Option<Response>) returns (r: Result<Response, FetchError>)
      modifies this
      ensures csrf == old(csrf)
      ensures var m := Lookup(options, "method");
        !(m.JStr? || m.JUndefined? || m.JNull?) ==>
          r == Failure(MethodTypeError) && serverVersion == old(serverVersion)
      ensures var m := Lookup(options, "method");
        (m.JStr? || m.JUndefined? || m.JNull?) && SelectRequest(m).Failure? ==>
          r == Failure(Thrown(ClientError(JStr("Invalid request method"), JUndefined, JUndefined, url)))
          && serverVersion == old(serverVersion)
      ensures SelectRequest(Lookup(options, "method")).Success? && response.None? ==>
        r == Failure(Thrown(ClientError(JStr("Received invalid response from the server."), JUndefined, JUndefined, url)))
        && serverVersion == old(serverVersion)
      ensures SelectRequest(Lookup(options, "method")).Success? && response.Some? ==>
        && serverVersion == (match AnnouncedVersion(response.value.headers, versionHeaderName)
                             case Some(v) => v
                             case None => old(serverVersion))
        && r == (if response.value.ok then Success(response.value) else Failure(Thrown(ResponseError(url, response.value))))
    {
      var request := SelectRequest(Lookup(options, "method"));
      if request.Failure? {
        if request.error == "TypeError" {
          return Failure(MethodTypeError);
        }
        return Failure(Thrown(ClientError(JStr(request.error), JUndefined, JUndefined, url)));
      }
      if response.None? {
        return Failure(Thrown(ClientError(JStr("Received invalid response from the server."), JUndefined, JUndefined, url)));
      }
      var res := response.value;
      var announced := AnnouncedVersion(res.headers, versionHeaderName);
      if announced.Some? {
        serverVersion := announced.value;
      }
      if res.ok {
        return Success(res);
      }
      return Failure(Thrown(ResponseError(url, res)));
    }
  }
}
