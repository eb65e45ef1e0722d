/** The HTTP/WebSocket event handler: routes requests (the page at "/", the
    WebSocket upgrade at "/ws", 404 otherwise), keeps the connection table up
    to date on WebSocket open and close, and echoes text frames so the browser
    can measure round-trip time. The replies themselves are returned as an
    `Action` instead of being sent. */
module MgHandler {
  import opened Fixed
  import opened WebServer

  /** The events the handler reacts to; `Other` is any further event code. */
  datatype Event = HttpMsg(uri: seq<char>) | WsOpen | WsMsg(data: seq<char>) | Close | Other(code: int)

  /** What the handler sends. */
  datatype Action = HttpReply(status: int, servesPage: bool) | WsUpgrade | EchoText(data: seq<char>) | NoAction

  /** The routing decision for a request URI. */
  function Route(uri: seq<char>): (a: Action)
    ensures a == HttpReply(200, true) <==> uri == "/"
    ensures a == WsUpgrade <==> uri == "/ws"
    ensures a == HttpReply(404, false) <==> uri != "/" && uri != "/ws"
  {
    UriEqualsLiteral(uri, "/");
    UriEqualsLiteral(uri, "/ws");
    if UriEquals(uri, CString("/")) then HttpReply(200, true)
    else if UriEquals(uri, CString("/ws")) then WsUpgrade
    else HttpReply(404, false)
  }

  /** The reply to an event. */
  function Respond(ev: Event): (a: Action)
    ensures ev.HttpMsg? <==> a.HttpReply? || a.WsUpgrade?
    ensures ev.WsMsg? <==> a.EchoText?
    ensures ev.WsMsg? ==> a.data == ev.data
    ensures ev.HttpMsg? ==> a == Route(ev.uri)
    ensures !ev.HttpMsg? && !ev.WsMsg? ==> a == NoAction
  {
    match ev
    case HttpMsg(uri) => Route(uri)
    case WsMsg(data) => EchoText(data)
    case _ => NoAction
  }

  /** The connection table after an event on connection `c`: an opened
      WebSocket is added, a closed one removed; a closing plain HTTP
      connection and every other event leave it alone. */
  function TableAfter(live: seq<nat>, c: nat, isWebsocket: bool, ev: Event): (r: seq<nat>)
    requires |live| <= WS_CAPACITY
    ensures |r| <= WS_CAPACITY
    ensures ev.WsOpen? ==> r == Added(live, c)
    ensures ev.Close? && isWebsocket ==> r == Removed(live, c)
    ensures !ev.WsOpen? && !(ev.Close? && isWebsocket) ==> r == live
  {
    match ev
    case WsOpen => Added(live, c)
    case Close => if isWebsocket then Removed(live, c) else live
    case _ => live
  }

  /** A WebSocket that opens and closes with room in the table leaves it as it was. */
  lemma OpenThenCloseRestores(live: seq<nat>, c: nat)
    requires |live| < WS_CAPACITY && c !in live
    ensures TableAfter(TableAfter(live, c, true, WsOpen), c, true, Close) == live
  {
    AddThenRemove(live, c);
  }

  /** With four connections open, a fifth is not recorded. */
  lemma FifthOpenDropped(live: seq<nat>, c: nat)
    requires |live| == WS_CAPACITY
    ensures TableAfter(live, c, true, WsOpen) == live
  {
  }

  /** Handle one event on connection `c`. */
  method EventHandler(reg: Registry, c: nat, isWebsocket: bool, ev: Event) returns (a: Action)
    requires reg.Valid()
    modifies reg, reg.slots
    ensures reg.Valid() && reg.Live() == TableAfter(old(reg.Live()), c, isWebsocket, ev)
    ensures a == Respond(ev)
  {
    a := NoAction;
    match ev {
      case HttpMsg(uri) =>
        if UriEquals(uri, CString("/")) {
          a := HttpReply(200, true);
        } else if UriEquals(uri, CString("/ws")) {
          a := WsUpgrade;
        } else {
          a := HttpReply(404, false);
        }
      case WsOpen =>
        reg.Add(c);
      case WsMsg(data) =>
        a := EchoText(data);
      case Close =>
        if isWebsocket {
          reg.Remove(c);
        }
      case Other(_) =>
    }
  }
}
