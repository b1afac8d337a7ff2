/**
 * The plugin configuration and the values derived from it: the user and
 * server ids, the websocket URI of the web service, the webapp URL, and the
 * default track. Derived values are cached until the entries are loaded
 * again. The older tree's Config holds the same validate, URI and URL code
 * without the default-track cache.
 */
module Config {
  import opened Wrappers
  import opened Messages

  /** The configuration entries this model reads; audio-tracks in file order. */
  datatype ConfigValues = ConfigValues(
    userId: string,
    password: string,
    serverId: string,
    endpoint: Endpoint,
    webappPort: int,
    webappPath: string,
    audioTracks: seq<(string, TrackSettings)>)

  /** connection.endpoint.secure, .host and .websocket-port. */
  datatype Endpoint = Endpoint(secure: bool, host: string, port: int)

  /** A java.net.URI built from scheme, host, port and path (no user info, query or fragment). */
  datatype Uri = Uri(scheme: string, host: string, port: int, path: string)

  /**
   * Whether `new URI(scheme, null, host, port, path, null, null)` succeeds,
   * i.e. throws no URISyntaxException; the URI parser is not part of this model.
   */
  type UriCheck = Uri -> bool

  // ---- user and server ids ----

  predicate IsUserNameChar(c: char)
  {
    'a' <= c <= 'z' || 'A' <= c <= 'Z' || '0' <= c <= '9' || c == '_'
  }

  /** USERNAME_PATTERN ^[a-zA-Z0-9_]{2,16}$ matched against the whole string. */
  predicate IsUserName(s: string)
  {
    2 <= |s| <= 16 && forall i :: 0 <= i < |s| ==> IsUserNameChar(s[i])
  }

  /**
   * The connection user id: nothing for an empty entry, the id it spells
   * when ConnectUtils.parseId accepts it, otherwise the offline player's id
   * when it is a Minecraft user name.
   */
  function ResolveUserId(s: string, parseId: string -> Option<Uuid>, playerId: string -> Uuid): (r: Option<Uuid>)
    ensures r.None? <==> s == [] || (parseId(s).None? && !IsUserName(s))
    ensures s != [] && parseId(s).Some? ==> r == parseId(s)
    ensures s != [] && parseId(s).None? && IsUserName(s) ==> r == Some(playerId(s))
  {
    if s == [] then None
    else if parseId(s).Some? then parseId(s)
    else if IsUserName(s) then Some(playerId(s))
    else None
  }

  /** The server id: nothing for an empty entry, else what ConnectUtils.parseId gives. */
  function ResolveServerId(s: string, parseId: string -> Option<Uuid>): (r: Option<Uuid>)
    ensures r.Some? ==> s != [] && r == parseId(s)
    ensures s != [] ==> r == parseId(s)
  {
    if s == [] then None else parseId(s)
  }

  /** The four required properties, in the order validate checks them. */
  datatype Property = UserIdProperty | PasswordProperty | ServerIdProperty | AudioTracksProperty

  /** The first required property that is missing or invalid, if any. */
  function FirstInvalid(values: ConfigValues, parseId: string -> Option<Uuid>, playerId: string -> Uuid): (r: Option<Property>)
    ensures r.None? <==>
      ResolveUserId(values.userId, parseId, playerId).Some? && values.password != []
      && ResolveServerId(values.serverId, parseId).Some? && values.audioTracks != []
    ensures r == Some(PasswordProperty) ==> ResolveUserId(values.userId, parseId, playerId).Some?
    ensures r == Some(ServerIdProperty) ==> ResolveUserId(values.userId, parseId, playerId).Some? && values.password != []
    ensures r == Some(AudioTracksProperty) ==>
      ResolveUserId(values.userId, parseId, playerId).Some? && values.password != []
      && ResolveServerId(values.serverId, parseId).Some?
  {
    if ResolveUserId(values.userId, parseId, playerId).None? then Some(UserIdProperty)
    else if values.password == [] then Some(PasswordProperty)
    else if ResolveServerId(values.serverId, parseId).None? then Some(ServerIdProperty)
    else if values.audioTracks == [] then Some(AudioTracksProperty)
    else None
  }

  // ---- URIs ----

  const SupplierPath: string := "/supplier"

  function WebsocketUriOf(e: Endpoint): Uri
  {
    Uri(if e.secure then "wss" else "ws", e.host, e.port, SupplierPath)
  }

  datatype ConfigError = IllegalState

  /**
   * createWebsocketUri: ws or wss by the secure flag, path /supplier, from
   * the configured endpoint, or from the default endpoint when the
   * configured host does not make a URI, or IllegalStateException when
   * neither does.
   */
  function CreateWebsocketUri(current: Endpoint, defaults: Endpoint, buildable: UriCheck): (r: Result<Uri, ConfigError>)
    ensures r.Err? <==> !buildable(WebsocketUriOf(current)) && !buildable(WebsocketUriOf(defaults))
    ensures r.Ok? ==> buildable(r.value) && r.value.path == SupplierPath
    ensures r.Ok? ==> var used := if buildable(WebsocketUriOf(current)) then current else defaults;
      r.value.host == used.host && r.value.port == used.port
      && (r.value.scheme == "wss" <==> used.secure) && (r.value.scheme == "ws" <==> !used.secure)
  {
    if buildable(WebsocketUriOf(current)) then Ok(WebsocketUriOf(current))
    else if buildable(WebsocketUriOf(defaults)) then Ok(WebsocketUriOf(defaults))
    else Err(IllegalState)
  }

  /** The webapp port: 80, the default for http, becomes -1 so that the URL leaves it out. */
  function WebappPort(port: int): (p: int)
    ensures port == 80 ==> p == -1
    ensures port != 80 ==> p == port
  {
    if port != 80 then port else -1
  }

  /** The characters after which a regular expression's $ also matches, at the end of the input. */
  predicate IsLineTerminator(c: char)
  {
    c == '\n' || c == '\r' || c == '\U{0085}' || c == '\U{2028}' || c == '\U{2029}'
  }

  /** Where $ matches in a regular expression without MULTILINE: at the very end, or before a final line terminator. */
  predicate IsFinalLineEnd(suffix: string)
  {
    suffix == [] || suffix == "\r\n" || (|suffix| == 1 && IsLineTerminator(suffix[0]))
  }

  /** replaceAll("^([^/])", "/$1"): a '/' in front of a first character that is not one. */
  function PrefixSlash(path: string): (r: string)
    ensures path != [] && path[0] != '/' ==> r == "/" + path
    ensures path == [] || path[0] == '/' ==> r == path
  {
    if path != [] && path[0] != '/' then "/" + path else path
  }

  /** replaceAll("/$", ""): the '/' that ends the string, or stands before a final line terminator, is removed. */
  function StripTrailingSlash(path: string): (r: string)
    ensures |r| == |path| || |r| == |path| - 1
    ensures |r| == |path| - 1 <==> exists k :: 0 <= k < |path| && path[k] == '/' && IsFinalLineEnd(path[k + 1..])
  {
    if |path| >= 1 && path[|path| - 1] == '/' then path[..|path| - 1]
    else if |path| >= 2 && path[|path| - 2] == '/' && IsLineTerminator(path[|path| - 1]) then
      path[..|path| - 2] + path[|path| - 1..]
    else if |path| >= 3 && path[|path| - 3..] == "/\r\n" then
      var k := |path| - 3;
      assert path[k] == '/' && path[k + 1..] == "\r\n" by { assert path[k..] == path[|path| - 3..]; }
      path[..|path| - 3] + "\r\n"
    else
      assert forall k :: 0 <= k < |path| && path[k] == '/' ==> !IsFinalLineEnd(path[k + 1..]) by {
        forall k | 0 <= k < |path| && path[k] == '/' ensures !IsFinalLineEnd(path[k + 1..]) {
          if k == |path| - 3 {
            assert path[|path| - 3..] == [path[k]] + path[k + 1..];
          }
        }
      }
      path
  }

  function NormalisePath(path: string): string
  {
    StripTrailingSlash(PrefixSlash(path))
  }

  predicate HasLineTerminator(s: string)
  {
    exists i :: 0 <= i < |s| && IsLineTerminator(s[i])
  }

  /**
   * For a path on one line the webapp path is empty or starts with '/',
   * and it is the path with a '/' put in front when it lacked one and one
   * trailing '/' taken off: "/" becomes empty, "app/" becomes "/app".
   */
  lemma NormalisePathShape(path: string)
    requires !HasLineTerminator(path)
    ensures var r := NormalisePath(path);
      (r == [] || r[0] == '/')
      && var p := PrefixSlash(path);
      (if p != [] && p[|p| - 1] == '/' then r == p[..|p| - 1] else r == p)
  {
    var p := PrefixSlash(path);
    assert forall i :: 0 <= i < |p| ==> !IsLineTerminator(p[i]) by {
      forall i | 0 <= i < |p| ensures !IsLineTerminator(p[i]) {
        if p != path { assert i == 0 || p[i] == path[i - 1]; }
      }
    }
  }

  lemma NormalisePathExamples()
    ensures NormalisePath("/") == ""
    ensures NormalisePath("") == ""
    ensures NormalisePath("app/") == "/app"
    ensures NormalisePath("/app") == "/app"
    ensures NormalisePath("app//") == "/app/"
  {
  }

  function WebappUrlOf(secure: bool, host: string, port: int, path: string): Uri
  {
    Uri(if secure then "https" else "http", host, WebappPort(port), NormalisePath(path))
  }

  /** createWebappUrl: http or https by the secure flag, with the same fallback to the defaults as the websocket URI. */
  function CreateWebappUrl(current: ConfigValues, defaults: ConfigValues, buildable: UriCheck): (r: Result<Uri, ConfigError>)
    ensures var c := WebappUrlOf(current.endpoint.secure, current.endpoint.host, current.webappPort, current.webappPath);
      var d := WebappUrlOf(defaults.endpoint.secure, defaults.endpoint.host, defaults.webappPort, defaults.webappPath);
      (r.Err? <==> !buildable(c) && !buildable(d))
      && (buildable(c) ==> r == Ok(c))
      && (!buildable(c) && buildable(d) ==> r == Ok(d))
    ensures r.Ok? ==> (r.value.scheme == "https" || r.value.scheme == "http") && r.value.port != 80
  {
    var c := WebappUrlOf(current.endpoint.secure, current.endpoint.host, current.webappPort, current.webappPath);
    var d := WebappUrlOf(defaults.endpoint.secure, defaults.endpoint.host, defaults.webappPort, defaults.webappPath);
    if buildable(c) then Ok(c) else if buildable(d) then Ok(d) else Err(IllegalState)
  }

  // ---- the default track ----

  /** The index of the last track flagged as default, if any. */
  function LastDefaultIndex(tracks: seq<(string, TrackSettings)>): (r: Option<nat>)
    ensures r.Some? ==> (r.value < |tracks| && tracks[r.value].1.defaultTrack
      && forall j :: r.value < j < |tracks| ==> !tracks[j].1.defaultTrack)
    ensures r.None? ==> forall j :: 0 <= j < |tracks| ==> !tracks[j].1.defaultTrack
  {
    if tracks == [] then None
    else if tracks[|tracks| - 1].1.defaultTrack then Some(|tracks| - 1)
    else LastDefaultIndex(tracks[..|tracks| - 1])
  }

  /** The default track: none without tracks, else the last one flagged default, else the first one. */
  function DefaultTrack(tracks: seq<(string, TrackSettings)>): Option<string>
  {
    if tracks == [] then None
    else match LastDefaultIndex(tracks)
      case Some(k) => Some(tracks[k].0)
      case None => Some(tracks[0].0)
  }

  /** findDefaultTrackId: walks the tracks in file order, keeping the first key and then each flagged one. */
  method FindDefaultTrackId(tracks: seq<(string, TrackSettings)>) returns (defaultTrackId: Option<string>)
    ensures defaultTrackId == DefaultTrack(tracks)
  {
    defaultTrackId := None;
    for i := 0 to |tracks|
      invariant defaultTrackId == DefaultTrack(tracks[..i])
    {
      assert tracks[..i + 1][..i] == tracks[..i];
      if defaultTrackId.None? {
        defaultTrackId := Some(tracks[i].0);
      }
      if tracks[i].1.defaultTrack {
        defaultTrackId := Some(tracks[i].0);
      }
    }
    assert tracks[..|tracks|] == tracks;
  }

  /** The default track is a configured key, and a flagged key wins over every earlier one. */
  lemma DefaultTrackIsConfigured(tracks: seq<(string, TrackSettings)>)
    ensures DefaultTrack(tracks).None? <==> tracks == []
    ensures DefaultTrack(tracks).Some? ==> exists i :: 0 <= i < |tracks| && tracks[i].0 == DefaultTrack(tracks).value
    ensures forall j :: 0 <= j < |tracks| && tracks[j].1.defaultTrack ==>
      (exists i :: j <= i < |tracks| && tracks[i].1.defaultTrack && tracks[i].0 == DefaultTrack(tracks).value)
  {
  }

  // ---- the track settings converter ----

  /** What a value under audio-tracks is: a configuration section with its name and boolean keys, or anything else. */
  datatype SettingsSource =
    | Section(name: string, defaultTrack: bool, repeating: bool, random: bool, fading: bool)
    | NotSection

  /** AudioTrackSettingsConverter.convert: the four flags of a section whose name is a valid track id. */
  function ConvertTrackSettings(source: SettingsSource, validId: string -> bool): (r: Option<TrackSettings>)
    ensures r.Some? <==> source.Section? && validId(source.name)
    ensures r.Some? ==> r.value == TrackSettings(source.defaultTrack, source.repeating, source.random, source.fading)
  {
    match source
    case NotSection => None
    case Section(name, d, rep, ran, f) => if validId(name) then Some(TrackSettings(d, rep, ran, f)) else None
  }

  // ---- the configuration object ----

  class AudioConnectConfig {
    var values: ConfigValues
    /** The shipped defaults the URI and URL fall back to. */
    const defaults: ConfigValues
    const parseId: string -> Option<Uuid>
    /** Bukkit.getOfflinePlayer(name).getUniqueId() */
    const playerId: string -> Uuid
    const buildable: UriCheck

    var userId: Option<Uuid>
    var serverId: Option<Uuid>
    var websocketUri: Option<Uri>
    var webappUrl: Option<Uri>
    var defaultTrackId: Option<string>

    /** Every cached value is the one derived from the current entries. */
    predicate Valid()
      reads this
    {
      (userId.Some? ==> userId == ResolveUserId(values.userId, parseId, playerId))
      && (serverId.Some? ==> serverId == ResolveServerId(values.serverId, parseId))
      && (websocketUri.Some? ==> Ok(websocketUri.value) == CreateWebsocketUri(values.endpoint, defaults.endpoint, buildable))
      && (webappUrl.Some? ==> Ok(webappUrl.value) == CreateWebappUrl(values, defaults, buildable))
      && (defaultTrackId.Some? ==> defaultTrackId == DefaultTrack(values.audioTracks))
    }

    constructor (values: ConfigValues, defaults: ConfigValues, parseId: string -> Option<Uuid>,
                 playerId: string -> Uuid, buildable: UriCheck)
      ensures Valid()
      ensures this.values == values && this.defaults == defaults
      ensures this.parseId == parseId && this.playerId == playerId && this.buildable == buildable
      ensures userId.None? && serverId.None? && websocketUri.None? && webappUrl.None? && defaultTrackId.None?
    {
      this.values := values;
      this.defaults := defaults;
      this.parseId := parseId;
      this.playerId := playerId;
      this.buildable := buildable;
      userId, serverId, websocketUri, webappUrl, defaultTrackId := None, None, None, None, None;
    }

    /** loadEntries: new entries, and every cached value forgotten. */
    method LoadEntries(newValues: ConfigValues)
      modifies this
      ensures Valid()
      ensures values == newValues
      ensures userId.None? && serverId.None? && websocketUri.None? && webappUrl.None? && defaultTrackId.None?
    {
      values := newValues;
      userId, serverId, websocketUri, webappUrl, defaultTrackId := None, None, None, None, None;
    }

    method GetConnectionUserId() returns (id: Option<Uuid>)
      requires Valid()
      modifies this`userId
      ensures Valid()
      ensures id == ResolveUserId(values.userId, parseId, playerId) && userId == id
    {
      if userId.None? {
        var userIdStr := values.userId;
        if userIdStr != [] {
          userId := parseId(userIdStr);
          if userId.None? && IsUserName(userIdStr) {
            userId := Some(playerId(userIdStr));
          }
        }
      }
      id := userId;
    }

    method GetConnectionServerId() returns (id: Option<Uuid>)
      requires Valid()
      modifies this`serverId
      ensures Valid()
      ensures id == ResolveServerId(values.serverId, parseId) && serverId == id
    {
      if serverId.None? {
        if values.serverId != [] {
          serverId := parseId(values.serverId);
        }
      }
      id := serverId;
    }

    /**
     * validate: the first required property that is missing or invalid, or
     * None when the client can be started; the user and server ids are
     * cached on the way.
     */
    method Validate() returns (failure: Option<Property>)
      requires Valid()
      modifies this`userId, this`serverId
      ensures Valid()
      ensures failure == FirstInvalid(values, parseId, playerId)
    {
      var user := GetConnectionUserId();
      if user.None? {
        return Some(UserIdProperty);
      }
      if values.password == [] {
        return Some(PasswordProperty);
      }
      var server := GetConnectionServerId();
      if server.None? {
        return Some(ServerIdProperty);
      }
      if values.audioTracks == [] {
        return Some(AudioTracksProperty);
      }
      return None;
    }

    method GetConnectionWebsocketUri() returns (uri: Result<Uri, ConfigError>)
      requires Valid()
      modifies this`websocketUri
      ensures Valid()
      ensures uri == CreateWebsocketUri(values.endpoint, defaults.endpoint, buildable)
      ensures uri.Ok? ==> websocketUri == Some(uri.value)
    {
      if websocketUri.None? {
        uri := CreateWebsocketUri(values.endpoint, defaults.endpoint, buildable);
        if uri.Ok? {
          websocketUri := Some(uri.value);
        }
      } else {
        uri := Ok(websocketUri.value);
      }
    }

    method GetConnectionWebappUrl() returns (url: Result<Uri, ConfigError>)
      requires Valid()
      modifies this`webappUrl
      ensures Valid()
      ensures url == CreateWebappUrl(values, defaults, buildable)
      ensures url.Ok? ==> webappUrl == Some(url.value)
    {
      if webappUrl.None? {
        url := CreateWebappUrl(values, defaults, buildable);
        if url.Ok? {
          webappUrl := Some(url.value);
        }
      } else {
        url := Ok(webappUrl.value);
      }
    }

    method GetDefaultTrackId() returns (trackId: Option<string>)
      requires Valid()
      modifies this`defaultTrackId
      ensures Valid()
      ensures trackId == DefaultTrack(values.audioTracks) && defaultTrackId == trackId
    {
      if defaultTrackId.None? {
        defaultTrackId := FindDefaultTrackId(values.audioTracks);
      }
      trackId := defaultTrackId;
    }
  }
}
