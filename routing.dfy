/**
 * The decisions of one step of the receive loop that depend only on the
 * decoded payload: how an `IDN` payload is read, how Python's `in` test on
 * the payload behaves, and where a placed client's command is sent.
 */
module Routing {
  import opened Wrappers
  import opened Protocol
  import opened Session

  /** `key` occurs in `s` as a contiguous substring. */
  predicate Substring(key: string, s: string)
    decreases |s|
  {
    key <= s || (|s| > 0 && Substring(key, s[1..]))
  }

  lemma {:induction false} SubstringAt(key: string, s: string, i: nat)
    requires i + |key| <= |s| && s[i..i + |key|] == key
    ensures Substring(key, s)
    decreases i
  {
    if i == 0 {
      assert s[..|key|] == key;
    } else {
      assert s[1..][i - 1..i - 1 + |key|] == s[i..i + |key|];
      SubstringAt(key, s[1..], i - 1);
    }
  }

  /**
   * Python's `key in arg` on a decoded payload: a key test on an object, a
   * substring test on a string, an element test on a list; `None`, numbers
   * and booleans raise (`None` here).
   */
  function Contains(arg: Json, key: string): (r: Option<bool>)
    ensures r.None? <==> arg.JNull? || arg.JInt? || arg.JOther?
    ensures arg.JObject? ==> r == Some(key in arg.fields)
    ensures arg.JList? ==> r == Some(JStr(key) in arg.items)
  {
    match arg
    case JObject(fields) => Some(key in fields)
    case JStr(s) => Some(Substring(key, s))
    case JList(items) => Some(JStr(key) in items)
    case _ => None
  }

  /** What an `IDN` payload supplies: nothing, a username and password, or something whose lookup raises. */
  datatype Credentials = NoCredentials | Given(username: string, password: string) | Unreadable

  /**
   * `arg["username"]`, `arg["password"]` when the payload is not `None`:
   * only an object with both keys, holding strings, can be read.
   */
  function ReadCredentials(arg: Json): (r: Credentials)
    ensures r.NoCredentials? <==> arg.JNull?
    ensures r.Given? <==> arg.JObject? && "username" in arg.fields && "password" in arg.fields
                          && arg.fields["username"].JStr? && arg.fields["password"].JStr?
    ensures r.Given? ==> r.username == arg.fields["username"].s && r.password == arg.fields["password"].s
  {
    if arg.JNull? then NoCredentials
    else if arg.JObject? && "username" in arg.fields && "password" in arg.fields
            && arg.fields["username"].JStr? && arg.fields["password"].JStr? then
      Given(arg.fields["username"].s, arg.fields["password"].s)
    else Unreadable
  }

  /** A command handed to a map's own command handler. */
  datatype Delivery = Delivery(mapId: MapId, from: ClientId, code: string, arg: Json)

  /**
   * A delivery a client standing on `onMap` may cause: its own command to
   * its own map, or to a loaded map on which it holds `map_bot`.
   */
  ghost predicate Authorized(d: Delivery, c: ClientId, onMap: Option<MapId>, loaded: set<MapId>,
                             perm: (MapId, ClientId, string) -> bool) {
    d.from == c && (onMap == Some(d.mapId) || (d.mapId in loaded && perm(d.mapId, c, "map_bot")))
  }

  /** Where a placed client's command goes: to a map's command handler, refused with an error, or an exception. */
  datatype Route = ToMap(id: MapId) | Refused | Raised

  /**
   * The routing of a command other than `IDN` and `PIN`: with a
   * `remote_map` key naming a loaded map on which the client has
   * `map_bot`, to that map; a map that is not loaded, or one without the
   * permission, is refused; without the key, to the client's own map. Every
   * other shape raises: a payload `in` cannot test, a `remote_map` that is
   * not an integer, indexing a string or list, or a client on no map.
   */
  function RouteCommand(arg: Json, c: ClientId, onMap: Option<MapId>, loaded: set<MapId>,
                        perm: (MapId, ClientId, string) -> bool): (r: Route)
    ensures r.ToMap? ==>
              (arg.JObject? && "remote_map" in arg.fields && arg.fields["remote_map"] == JInt(r.id)
               && r.id in loaded && perm(r.id, c, "map_bot"))
              || (Contains(arg, "remote_map") == Some(false) && onMap == Some(r.id))
    ensures arg.JObject? && "remote_map" in arg.fields && arg.fields["remote_map"].JInt? ==>
              var m := arg.fields["remote_map"].i;
              r == if m in loaded && perm(m, c, "map_bot") then ToMap(m) else Refused
    ensures Contains(arg, "remote_map") == Some(false) ==>
              r == if onMap.Some? then ToMap(onMap.value) else Raised
    ensures arg.JNull? ==> r == Raised
    ensures r.Refused? ==> arg.JObject? && "remote_map" in arg.fields && arg.fields["remote_map"].JInt?
  {
    match Contains(arg, "remote_map")
    case None => Raised
    case Some(false) => if onMap.Some? then ToMap(onMap.value) else Raised
    case Some(true) =>
      if !arg.JObject? then Raised
      else
        match arg.fields["remote_map"]
        case JInt(m) => if m in loaded && perm(m, c, "map_bot") then ToMap(m) else Refused
        case _ => Raised
  }

  /** A string payload is routed to the client's own map unless it mentions `remote_map`, and then it raises. */
  lemma StringPayloadRoute(s: string, c: ClientId, onMap: Option<MapId>, loaded: set<MapId>,
                           perm: (MapId, ClientId, string) -> bool)
    ensures RouteCommand(JStr(s), c, onMap, loaded, perm) ==
              if Substring("remote_map", s) || onMap.None? then Raised else ToMap(onMap.value)
  {
  }

  /** One received message: too short to carry a command, a payload that does not decode, or a command and its argument. */
  datatype Parsed = Ignored | Undecodable | Command(code: string, arg: Json)

  /**
   * The head of the receive loop: messages under three characters are
   * skipped; the command is the first three characters; the argument is
   * `None` unless the message is longer than four characters, and then it
   * is the decoded text from offset 4, whose decoding may raise.
   */
  function Parse(message: string, decode: string -> Option<Json>): (r: Parsed)
    ensures r.Ignored? <==> |message| < 3
    ensures r.Undecodable? <==> |message| > 4 && decode(message[4..]).None?
    ensures r.Command? ==> r.code == message[..3]
    ensures r.Command? && |message| <= 4 ==> r.arg == JNull
    ensures r.Command? && |message| > 4 ==> decode(message[4..]) == Some(r.arg)
  {
    match SplitFrame(message)
    case None => Ignored
    case Some(Frame(code, payload)) =>
      if payload.None? then Command(code, JNull)
      else match decode(payload.value)
        case None => Undecodable
        case Some(arg) => Command(code, arg)
  }

  /**
   * A frame built by `makeCommand` parses back to its code and the decoded
   * payload, and a bare code to its code with a `None` argument.
   */
  lemma ParseMadeCommand(code: string, params: Option<string>, decode: string -> Option<Json>, arg: Json)
    requires |code| == 3
    requires params.Some? ==> |params.value| > 0 && decode(params.value) == Some(arg)
    requires params.None? ==> arg == JNull
    ensures Parse(MakeCommand(code, params), decode) == Command(code, arg)
  {
    FrameRoundTrip(code, params);
  }

  /** Every delivery the router chooses is authorized. */
  lemma RoutedAuthorized(arg: Json, c: ClientId, onMap: Option<MapId>, loaded: set<MapId>,
                         perm: (MapId, ClientId, string) -> bool, code: string)
    requires RouteCommand(arg, c, onMap, loaded, perm).ToMap?
    ensures Authorized(Delivery(RouteCommand(arg, c, onMap, loaded, perm).id, c, code, arg), c, onMap, loaded, perm)
  {
  }
}
