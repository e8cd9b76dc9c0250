/**
 * The server side of the harness (server.c): the per-server resource record,
 * the close-command route, the drain rule run on every poll, fleet start-up
 * and the coordinator pass that the main loop runs once per tick.
 *
 * The fleet `res[SERVERS]` is an array of records; a connection's `fn_data`
 * pointer into it is the index `res` of its record.
 */
module Server {
  import opened Basics

  /** The `close_this` sentinel: no close command is pending. */
  const NONE: byte := 0xFF

  /**
   * `struct res_s` without its address and TLS options.
   * `hasListener` is `c != NULL`: whether `mg_http_listen` gave a listener.
   */
  datatype ServerRes = ServerRes(
    hasListener: bool,
    mustClose: bool,
    connected: bool,
    closeThis: byte,
    id: byte)

  /** A server has a close command to forward (the test the coordinator skips on). */
  predicate Pending(r: ServerRes) {
    r.hasListener && r.closeThis != NONE
  }

  // ---------------------------------------------------------------- routing

  const STATS_PATH: seq<byte> := Ascii("/api/stats")
  const CLOSE_PREFIX: seq<byte> := Ascii("/api/close/")

  datatype Route = Stats | Close | Static

  /** The three branches of the request handler; the close route as a prefix test. */
  function RouteOf(uri: seq<byte>): (route: Route)
    ensures route == Stats <==> uri == STATS_PATH
    ensures route == Close <==> uri != STATS_PATH && |uri| >= 11 && uri[..11] == CLOSE_PREFIX
  {
    if uri == STATS_PATH then Stats
    else if CLOSE_PREFIX <= uri then Close
    else Static
  }

  /** What the handler sends back. The stats table and static files are produced by the engine. */
  datatype Reply = Json(status: nat, body: seq<byte>) | StatsTable | StaticFile

  /** `{%m: %m}` with `MG_ESC("result")` and `MG_ESC("OK")` or `MG_ESC("ERROR")`. */
  function ReplyBody(ok: bool): (body: seq<byte>)
    ensures |body| == if ok then 16 else 19
    ensures body[..12] == Ascii("{\"result\": \"") && body[|body| - 2..] == Ascii("\"}")
    ensures body[12] == (if ok then 'O' else 'E') as int
  {
    if ok then Ascii("{\"result\": \"OK\"}") else Ascii("{\"result\": \"ERROR\"}")
  }

  /**
   * `uint8_t target = uri[11] - '0'`: byte 11 alone decides, and the
   * subtraction wraps, so exactly the digits give a value below 10.
   */
  function CloseTarget(uri: seq<byte>): (t: byte)
    requires |uri| >= 12
    ensures t < 10 <==> IsDigit(uri[11])
    ensures IsDigit(uri[11]) ==> t == uri[11] - ZERO
  {
    (uri[11] - ZERO) % 256
  }

  /** The effect of a close request on the receiving server's record. */
  function RecordClose(r: ServerRes, uri: seq<byte>): (r': ServerRes)
    requires |uri| >= 12
    ensures IsDigit(uri[11]) ==> r' == r.(closeThis := uri[11] - ZERO)
    ensures !IsDigit(uri[11]) ==> r' == r
  {
    var target := CloseTarget(uri);
    if target < 10 then r.(closeThis := target) else r
  }

  /** A later accepted close request replaces an earlier pending one: there is no queue. */
  lemma LastCloseWins(r: ServerRes, first: seq<byte>, second: seq<byte>)
    requires |first| >= 12 && |second| >= 12
    requires IsDigit(second[11])
    ensures RecordClose(RecordClose(r, first), second) == RecordClose(r, second)
    ensures RecordClose(RecordClose(r, first), second).closeThis == second[11] - ZERO
  {
  }

  // ------------------------------------------------------------ drain rule

  datatype PollOut = PollOut(res: ServerRes, closing: bool)

  /**
   * One `MG_EV_POLL` on a connection of the server owning `r`: the listener
   * ends an observation window, an accepted connection reports itself and
   * is told to close while a drain is on.
   */
  function PollStep(r: ServerRes, listening: bool): (o: PollOut)
    ensures listening ==> !o.closing && !o.res.connected
    ensures listening ==> (o.res.mustClose <==> r.mustClose && r.connected)
    ensures !listening ==> o.res.connected && o.res.mustClose == r.mustClose
    ensures !listening ==> (o.closing <==> r.mustClose)
    ensures o.res.closeThis == r.closeThis && o.res.id == r.id && o.res.hasListener == r.hasListener
  {
    if listening then
      var mustClose := if r.mustClose && !r.connected then false else r.mustClose;
      PollOut(r.(mustClose := mustClose, connected := false), false)
    else
      PollOut(r.(connected := true), r.mustClose)
  }

  datatype PollRun = PollRun(res: ServerRes, closings: seq<bool>)

  /**
   * A sequence of polls on the connections of one server, `true` for its
   * listener and `false` for an accepted connection; `closings[i]` says
   * whether poll `i` marked its connection closing.
   */
  function Polls(r: ServerRes, listening: seq<bool>): (o: PollRun)
    ensures |o.closings| == |listening|
    decreases |listening|
  {
    if listening == [] then PollRun(r, [])
    else
      var p := PollStep(r, listening[0]);
      var rest := Polls(p.res, listening[1..]);
      PollRun(rest.res, [p.closing] + rest.closings)
  }

  /**
   * Every listener poll saw a child connection since the previous listener
   * poll (`connected0` is the flag before the first poll).
   */
  predicate Busy(connected0: bool, listening: seq<bool>) {
    forall i :: 0 <= i < |listening| && listening[i] ==> ConnectedBefore(connected0, listening, i)
  }

  /** The `connected` flag just before poll `i`: set by an accepted poll, cleared by a listener poll. */
  predicate ConnectedBefore(connected0: bool, listening: seq<bool>, i: nat)
    requires i < |listening|
  {
    if i == 0 then connected0 else !listening[i - 1]
  }

  lemma BusyUnfold(connected0: bool, listening: seq<bool>)
    requires listening != []
    ensures Busy(connected0, listening) <==>
      (listening[0] ==> connected0) && Busy(!listening[0], listening[1..])
  {
    var tail := listening[1..];
    if (listening[0] ==> connected0) && Busy(!listening[0], tail) {
      forall i | 0 <= i < |listening| && listening[i]
        ensures ConnectedBefore(connected0, listening, i)
      {
        if i > 0 {
          assert tail[i - 1];
          assert ConnectedBefore(!listening[0], tail, i - 1);
        }
      }
    }
    if Busy(connected0, listening) {
      forall j | 0 <= j < |tail| && tail[j]
        ensures ConnectedBefore(!listening[0], tail, j)
      {
        assert listening[j + 1];
        assert ConnectedBefore(connected0, listening, j + 1);
      }
    }
  }

  /**
   * Drain and resume: a drain stays on exactly as long as every listener
   * poll has seen a child connection since the one before; meanwhile every
   * accepted connection that polls is marked closing, and the listener never is.
   */
  lemma {:induction false} DrainWindow(r: ServerRes, listening: seq<bool>)
    ensures Polls(r, listening).res.mustClose <==> r.mustClose && Busy(r.connected, listening)
    ensures forall i :: 0 <= i < |listening| && listening[i] ==> !Polls(r, listening).closings[i]
    ensures r.mustClose && Busy(r.connected, listening) ==>
      forall i :: 0 <= i < |listening| && !listening[i] ==> Polls(r, listening).closings[i]
    decreases |listening|
  {
    if listening != [] {
      var p := PollStep(r, listening[0]);
      var tail := listening[1..];
      DrainWindow(p.res, tail);
      BusyUnfold(r.connected, listening);
      var o := Polls(r, listening);
      var rest := Polls(p.res, tail);
      assert o.closings == [p.closing] + rest.closings;
      forall i | 0 < i < |listening|
        ensures o.closings[i] == rest.closings[i - 1] && listening[i] == tail[i - 1]
      {
      }
    }
  }

  // ------------------------------------------------------------ coordinator

  /** The body of the coordinator loop for server `i`. */
  function Forward(s: seq<ServerRes>, i: nat): (r: seq<ServerRes>)
    requires i < |s|
    ensures |r| == |s|
    ensures r[i].closeThis == if Pending(s[i]) then NONE else s[i].closeThis
    ensures forall j :: 0 <= j < |s| && j != i ==> r[j].closeThis == s[j].closeThis
    ensures forall t :: 0 <= t < |s| ==>
      (r[t].mustClose <==> s[t].mustClose || (Pending(s[i]) && s[i].closeThis as int == t))
    ensures forall j :: 0 <= j < |s| ==>
      r[j].id == s[j].id && r[j].connected == s[j].connected && r[j].hasListener == s[j].hasListener
  {
    if !Pending(s[i]) then s
    else
      var target := s[i].closeThis as int;
      var s1 := if target < |s| then s[target := s[target].(mustClose := true)] else s;
      s1[i := s1[i].(closeThis := NONE)]
  }

  /** Some server at index `from` or later has a pending command naming `t`. */
  predicate Requested(s: seq<ServerRes>, from: nat, t: int) {
    exists j :: from <= j < |s| && Pending(s[j]) && s[j].closeThis as int == t
  }

  /**
   * The coordinator loop from index `i` to the end, in order. Each server's
   * pending command is read before the loop can touch it, so the outcome
   * does not depend on the order.
   */
  function PassFrom(s: seq<ServerRes>, i: nat): (r: seq<ServerRes>)
    requires i <= |s|
    ensures |r| == |s|
    ensures forall j :: 0 <= j < |s| ==>
      r[j].id == s[j].id && r[j].connected == s[j].connected && r[j].hasListener == s[j].hasListener
    ensures forall j :: 0 <= j < i ==> r[j].closeThis == s[j].closeThis
    ensures forall j :: i <= j < |s| ==> r[j].closeThis == if Pending(s[j]) then NONE else s[j].closeThis
    ensures forall t :: 0 <= t < |s| ==> (r[t].mustClose <==> s[t].mustClose || Requested(s, i, t))
    decreases |s| - i
  {
    if i == |s| then s
    else
      var s' := Forward(s, i);
      assert forall j :: i < j < |s| ==> s'[j].closeThis == s[j].closeThis && Pending(s'[j]) == Pending(s[j]);
      assert forall t :: Requested(s, i, t) <==>
        (Pending(s[i]) && s[i].closeThis as int == t) || Requested(s', i + 1, t);
      PassFrom(s', i + 1)
  }

  /**
   * One coordinator pass over the whole fleet: every pending command is
   * consumed, every in-range target gets `mustClose`, and nothing else moves.
   */
  function Coordinate(s: seq<ServerRes>): (r: seq<ServerRes>)
    ensures |r| == |s|
    ensures forall j :: 0 <= j < |s| && !Pending(s[j]) ==> r[j].closeThis == s[j].closeThis
    ensures forall j :: 0 <= j < |s| && Pending(s[j]) ==> r[j].closeThis == NONE
    ensures forall j :: 0 <= j < |s| && Pending(s[j]) && (s[j].closeThis as int) < |s| ==>
      r[s[j].closeThis].mustClose
    ensures forall t :: 0 <= t < |s| ==> (r[t].mustClose <==> s[t].mustClose || Requested(s, 0, t))
    ensures forall t :: 0 <= t < |s| ==>
      r[t].id == s[t].id && r[t].connected == s[t].connected && r[t].hasListener == s[t].hasListener
  {
    PassFrom(s, 0)
  }

  /** A pass never ends a drain, and changes nothing when no command is pending. */
  lemma CoordinateMonotone(s: seq<ServerRes>)
    ensures forall t :: 0 <= t < |s| && s[t].mustClose ==> Coordinate(s)[t].mustClose
    ensures (forall j :: 0 <= j < |s| ==> !Pending(s[j])) ==> Coordinate(s) == s
  {
    var r := Coordinate(s);
    if forall j :: 0 <= j < |s| ==> !Pending(s[j]) {
      assert forall t :: !Requested(s, 0, t);
      assert forall t :: 0 <= t < |s| ==> r[t] == s[t];
    }
  }

  /** The coordinator loop of `main`, run once after each `mg_mgr_poll`. */
  method CoordinatorPass(fleet: array<ServerRes>)
    modifies fleet
    ensures fleet[..] == Coordinate(old(fleet[..]))
  {
    var i := 0;
    while i < fleet.Length
      invariant 0 <= i <= fleet.Length
      invariant PassFrom(fleet[..], i) == Coordinate(old(fleet[..]))
    {
      ghost var before := fleet[..];
      if fleet[i].hasListener && fleet[i].closeThis != NONE {
        var target := fleet[i].closeThis;
        if (target as int) < fleet.Length {
          fleet[target] := fleet[target].(mustClose := true);
        }
        fleet[i] := fleet[i].(closeThis := NONE);
      }
      assert fleet[..] == Forward(before, i);
      i := i + 1;
    }
  }

  // ------------------------------------------------------------ start-up

  /**
   * The start-up loop of `main`; `listenOk[i]` is whether `mg_http_listen`
   * returned a listener for address `i`.
   */
  method InitFleet(listenOk: seq<bool>) returns (fleet: array<ServerRes>)
    ensures fresh(fleet)
    ensures fleet.Length == |listenOk|
    ensures forall i :: 0 <= i < fleet.Length ==>
      fleet[i] == ServerRes(listenOk[i], false, false, NONE, i % 256)
    ensures forall i :: 0 <= i < fleet.Length ==> !Pending(fleet[i])
    ensures fleet.Length <= 256 ==> forall i :: 0 <= i < fleet.Length ==> fleet[i].id == i
  {
    fleet := new ServerRes[|listenOk|];
    var i := 0;
    while i < fleet.Length
      invariant 0 <= i <= fleet.Length
      invariant forall j :: 0 <= j < i ==> fleet[j] == ServerRes(listenOk[j], false, false, NONE, j % 256)
    {
      fleet[i] := ServerRes(listenOk[i], false, false, NONE, i % 256);
      i := i + 1;
    }
  }

  // ------------------------------------------------------------ connections

  /** A connection of a server: its listener or one it accepted. */
  class ServerConn {
    const isListening: bool
    /** The index of its server's record (`c->fn_data`). */
    const res: nat
    var isClosing: bool

    constructor (listening: bool, owner: nat)
      ensures isListening == listening && res == owner && !isClosing
    {
      isListening := listening;
      res := owner;
      isClosing := false;
    }

    /** The `MG_EV_HTTP_MSG` branch of the server's event handler. */
    method OnHttpMsg(fleet: array<ServerRes>, uri: seq<byte>) returns (reply: Reply)
      requires res < fleet.Length
      requires RouteOf(uri) == Close ==> |uri| >= 12
      modifies fleet
      ensures RouteOf(uri) == Stats ==> reply == StatsTable && fleet[..] == old(fleet[..])
      ensures RouteOf(uri) == Static ==> reply == StaticFile && fleet[..] == old(fleet[..])
      ensures RouteOf(uri) == Close ==>
        fleet[..] == old(fleet[..])[res := RecordClose(old(fleet[res]), uri)] &&
        reply == Json(200, ReplyBody(IsDigit(uri[11])))
    {
      var route := RouteOf(uri);
      if route == Stats {
        reply := StatsTable;
      } else if route == Close {
        var target := CloseTarget(uri);
        var ok := target < 10;
        if ok {
          fleet[res] := fleet[res].(closeThis := target);
        }
        reply := Json(200, ReplyBody(ok));
      } else {
        reply := StaticFile;
      }
    }

    /** The `MG_EV_POLL` branch of the server's event handler. */
    method OnPoll(fleet: array<ServerRes>)
      requires res < fleet.Length
      modifies fleet, this`isClosing
      ensures fleet[..] == old(fleet[..])[res := PollStep(old(fleet[res]), isListening).res]
      ensures isClosing == (old(isClosing) || PollStep(old(fleet[res]), isListening).closing)
      ensures isListening ==> isClosing == old(isClosing)
    {
      if isListening {
        if fleet[res].mustClose && !fleet[res].connected {
          fleet[res] := fleet[res].(mustClose := false);
        }
        fleet[res] := fleet[res].(connected := false);
      } else {
        fleet[res] := fleet[res].(connected := true);
        if fleet[res].mustClose {
          isClosing := true;
        }
      }
    }
  }
}
