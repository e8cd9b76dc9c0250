/**
 * The client side of the harness (client.c): the per-client resource record,
 * the timer that spawns stats probes and close commands, and the event
 * handler of each spawned connection (deadlines, re-probes, draining,
 * release of the connection's own copy of the record).
 *
 * The fleet `res[SERVERS]` is an array of records. A spawned connection owns
 * a copy of its parent's record; the copy's `pconnected` pointer back to the
 * parent's `connected` flag is the parent's index, `observer`.
 */
module Client {
  import opened Basics

  /** Stats probes per cycle (`CONNS`). */
  const CONNS: nat := 10
  /** Connect timeout in milliseconds (`s_timeout_ms`). */
  const TIMEOUT_MS: nat := 500
  /** Re-probe interval in milliseconds (`s_next_ms`). */
  const NEXT_MS: nat := 997

  const STATS_SUFFIX: seq<byte> := Ascii("/api/stats")
  const CLOSE_SUFFIX: seq<byte> := Ascii("/api/close/")

  /**
   * `struct res_s` without the manager pointer and the TLS options.
   * `observer` is `pconnected`: `None` in a fleet record, where the pointer
   * is never set, and the parent's index in a spawned copy.
   */
  datatype ClientRes = ClientRes(
    id: uint,
    count: uint,
    url: seq<byte>,
    connected: bool,
    observer: Option<nat>)

  /** The URL of a spawned copy ends in a digit: it carries a close command. */
  predicate EndsInDigit(url: seq<byte>) {
    |url| > 0 && IsDigit(url[|url| - 1])
  }

  // ------------------------------------------------------------------ timer

  /** The copy `timer_fn` allocates for a new connection of client `k`. */
  function Spawn(r: ClientRes, k: nat, suffix: seq<byte>): (c: ClientRes)
    ensures |c.url| == |r.url| + |suffix| && c.url[..|r.url|] == r.url && c.url[|r.url|..] == suffix
    ensures c.observer == Some(k) && c.count == r.count && c.connected == r.connected
    ensures 100 * r.id + r.count < U32 ==> c.id == 100 * r.id + r.count
  {
    r.(id := (100 * r.id + r.count) % U32, observer := Some(k), url := r.url + suffix)
  }

  datatype Tick = Tick(parent: ClientRes, spawned: Option<ClientRes>)

  /** One firing of `timer_fn` for the client record `r` at index `k`. */
  function TimerStep(r: ClientRes, k: nat): (t: Tick)
    ensures t.parent.id == r.id && t.parent.url == r.url && t.parent.observer == r.observer
    ensures t.spawned.Some? <==> r.count < CONNS || (r.connected && r.count == CONNS && r.id != 0)
    ensures t.spawned.Some? ==> t.spawned.value.observer == Some(k) && r.url < t.spawned.value.url
    ensures r.count < CONNS ==> t.parent.count == r.count + 1 && t.parent.connected == r.connected
    ensures r.count >= CONNS ==> !t.parent.connected
  {
    if r.count >= CONNS then
      var count := if !r.connected then 0 else r.count;
      var r1 := r.(count := count, connected := false);
      if count == CONNS && r.id != 0 then
        Tick(r1.(count := CONNS + 1), Some(Spawn(r1, k, CLOSE_SUFFIX + Decimal(r.id - 1))))
      else
        Tick(r1, None)
    else
      Tick(r.(count := r.count + 1), Some(Spawn(r, k, STATS_SUFFIX)))
  }

  /** Below the threshold a tick spawns one stats probe and counts it. */
  lemma ProbeTick(r: ClientRes, k: nat)
    requires r.count < CONNS
    ensures TimerStep(r, k).parent == r.(count := r.count + 1)
    ensures TimerStep(r, k).spawned == Some(r.(id := (100 * r.id + r.count) % U32,
                                             observer := Some(k), url := r.url + STATS_SUFFIX))
    ensures 100 * r.id + r.count < U32 ==> TimerStep(r, k).spawned.value.id == 100 * r.id + r.count
  {
  }

  /**
   * At or past the threshold a tick restarts the cycle exactly when no
   * connection was observed since the last tick, always clears the flag,
   * spawns nothing when it restarts, and otherwise spawns at most the one
   * close command, addressed to server `id - 1`, after which the count sits
   * past the threshold.
   */
  lemma ThresholdTick(r: ClientRes, k: nat)
    requires r.count >= CONNS
    ensures var t := TimerStep(r, k);
      !t.parent.connected &&
      (t.parent.count == 0 <==> !r.connected) &&
      (!r.connected ==> t.spawned == None) &&
      (t.spawned.Some? <==> r.connected && r.count == CONNS && r.id != 0) &&
      (t.spawned.Some? ==>
         (t.parent.count == CONNS + 1 &&
          t.spawned.value.url == r.url + CLOSE_SUFFIX + Decimal(r.id - 1) &&
          t.spawned.value.observer == Some(k))) &&
      (t.spawned.None? && r.connected ==> t.parent.count == r.count)
  {
  }

  /** Client 0 never sends a close command, however its ticks and polls interleave. */
  lemma {:induction false} ClientZeroNeverCloses(r: ClientRes, k: nat, seen: seq<bool>)
    requires r.id == 0
    ensures forall i :: 0 <= i < |seen| && Observed(r, k, seen).1[i].Some? ==>
      !EndsInDigit(Observed(r, k, seen).1[i].value.url)
    decreases |seen|
  {
    if seen != [] {
      var t := TimerStep(r.(connected := r.connected || seen[0]), k);
      var rest := Observed(t.parent, k, seen[1..]);
      ClientZeroNeverCloses(t.parent, k, seen[1..]);
      assert Observed(r, k, seen).1 == [t.spawned] + rest.1;
      forall i | 0 < i < |seen| ensures Observed(r, k, seen).1[i] == rest.1[i - 1] {}
    }
  }

  /** A tick keeps the count at most `CONNS + 1`, so from start-up it never passes it. */
  lemma TimerKeepsCountBounded(r: ClientRes, k: nat)
    requires r.count <= CONNS + 1
    ensures TimerStep(r, k).parent.count <= CONNS + 1
  {
  }

  /**
   * What a tick spawns drains on its response exactly when it is the close
   * command: the stats suffix ends in a letter, the close suffix in a digit.
   */
  lemma SpawnDrainsIffClose(r: ClientRes, k: nat)
    ensures TimerStep(r, k).spawned.Some? ==>
      (EndsInDigit(TimerStep(r, k).spawned.value.url) <==> r.count >= CONNS)
  {
    var t := TimerStep(r, k);
    if t.spawned.Some? && r.count >= CONNS {
      var url := t.spawned.value.url;
      var d := Decimal(r.id - 1);
      assert url == r.url + CLOSE_SUFFIX + d;
      assert url[|url| - 1] == d[|d| - 1];
    }
  }

  /**
   * Ticks interleaved with connection polls: before tick `i`, `seen[i]`
   * says whether some poll of a spawned connection set the parent's flag.
   */
  function Observed(r: ClientRes, k: nat, seen: seq<bool>): (out: (ClientRes, seq<Option<ClientRes>>))
    ensures |out.1| == |seen|
    decreases |seen|
  {
    if seen == [] then (r, [])
    else
      var t := TimerStep(r.(connected := r.connected || seen[0]), k);
      var rest := Observed(t.parent, k, seen[1..]);
      (rest.0, [t.spawned] + rest.1)
  }

  /** Some poll of the sequence saw a connection. */
  predicate AnySeen(seen: seq<bool>) {
    exists i :: 0 <= i < |seen| && seen[i]
  }

  lemma AnySeenAppend(a: seq<bool>, b: seq<bool>)
    ensures AnySeen(a + b) <==> AnySeen(a) || AnySeen(b)
  {
    if AnySeen(a) {
      var j :| 0 <= j < |a| && a[j];
      assert (a + b)[j];
    }
    if AnySeen(b) {
      var j :| 0 <= j < |b| && b[j];
      assert (a + b)[|a| + j];
    }
    if AnySeen(a + b) && !AnySeen(a) {
      var j :| 0 <= j < |a + b| && (a + b)[j];
      assert b[j - |a|];
    }
  }

  /**
   * Below the threshold a tick does not look at the flag: from a count of
   * `c`, `CONNS - c` ticks spawn one stats probe each and reach the
   * threshold whatever the polls in between saw, and the flag then says
   * whether any of them saw a connection.
   */
  lemma {:induction false} ProbesUpToThreshold(r: ClientRes, k: nat, seen: seq<bool>)
    requires r.count <= CONNS && |seen| == CONNS - r.count
    ensures var out := Observed(r, k, seen);
      out.0 == r.(count := CONNS, connected := r.connected || AnySeen(seen)) &&
      forall i :: 0 <= i < |out.1| ==>
        out.1[i].Some? && out.1[i].value.url == r.url + STATS_SUFFIX && out.1[i].value.observer == Some(k)
    decreases |seen|
  {
    if seen != [] {
      var t := TimerStep(r.(connected := r.connected || seen[0]), k);
      ProbesUpToThreshold(t.parent, k, seen[1..]);
      var out := Observed(r, k, seen);
      var rest := Observed(t.parent, k, seen[1..]);
      assert out.1 == [t.spawned] + rest.1;
      forall i | 0 < i < |out.1| ensures out.1[i] == rest.1[i - 1] {}
      AnySeenAppend([seen[0]], seen[1..]);
      assert [seen[0]] + seen[1..] == seen;
      assert AnySeen([seen[0]]) <==> seen[0] by {
        if seen[0] { assert [seen[0]][0]; }
      }
    }
  }

  /** Observing `a + b` is observing `a`, then `b` from where `a` left the record. */
  lemma {:induction false} ObservedSplit(r: ClientRes, k: nat, a: seq<bool>, b: seq<bool>)
    ensures var mid := Observed(r, k, a);
      Observed(r, k, a + b) == (Observed(mid.0, k, b).0, mid.1 + Observed(mid.0, k, b).1)
    decreases |a|
  {
    if a == [] {
      assert a + b == b;
      assert [] + Observed(r, k, b).1 == Observed(r, k, b).1;
    } else {
      var t := TimerStep(r.(connected := r.connected || a[0]), k);
      ObservedSplit(t.parent, k, a[1..], b);
      assert (a + b)[0] == a[0];
      assert (a + b)[1..] == a[1..] + b;
      var head := Observed(t.parent, k, a[1..]);
      var tail := Observed(head.0, k, b);
      assert [t.spawned] + (head.1 + tail.1) == ([t.spawned] + head.1) + tail.1;
    }
  }

  /**
   * A whole cycle from a fresh count, however polls and ticks interleave:
   * `CONNS` stats probes, then one more tick that sends exactly one close
   * command if the flag was set at the start or by any poll of the cycle,
   * and otherwise restarts the count without one.
   */
  lemma ProbeCycle(r: ClientRes, k: nat, seen: seq<bool>)
    requires r.count == 0 && r.id != 0 && |seen| == CONNS + 1
    ensures var out := Observed(r, k, seen);
      (forall i :: 0 <= i < CONNS ==> out.1[i].Some? && out.1[i].value.url == r.url + STATS_SUFFIX) &&
      (r.connected || AnySeen(seen) ==>
         out.1[CONNS].Some? && out.1[CONNS].value.url == r.url + CLOSE_SUFFIX + Decimal(r.id - 1) &&
         out.0.count == CONNS + 1) &&
      (!(r.connected || AnySeen(seen)) ==> out.1[CONNS].None? && out.0.count == 0)
  {
    var a, b := seen[..CONNS], seen[CONNS..];
    assert seen == a + b;
    ProbesUpToThreshold(r, k, a);
    ObservedSplit(r, k, a, b);
    AnySeenAppend(a, b);
    assert AnySeen(b) <==> b[0] by {
      if b[0] { assert b[0]; }
    }
    var mid := Observed(r, k, a);
    var t := TimerStep(mid.0.(connected := mid.0.connected || b[0]), k);
    ThresholdTick(mid.0.(connected := mid.0.connected || b[0]), k);
    assert b[1..] == [];
    assert Observed(t.parent, k, b[1..]) == (t.parent, []);
    assert Observed(mid.0, k, b) == (t.parent, [t.spawned] + []);
  }

  /**
   * The spawns of a run are well spaced when each close command is preceded
   * by at least `CONNS` stats probes since the previous close command;
   * `credit` is the number of probes already sent.
   */
  predicate WellSpaced(spawns: seq<Option<ClientRes>>, credit: nat)
    decreases |spawns|
  {
    if spawns == [] then true
    else match spawns[0]
      case None => WellSpaced(spawns[1..], credit)
      case Some(c) =>
        if EndsInDigit(c.url) then credit >= CONNS && WellSpaced(spawns[1..], 0)
        else WellSpaced(spawns[1..], credit + 1)
  }

  /**
   * However polls and ticks interleave, a client never sends two close
   * commands without at least `CONNS` probes between them, and never sends
   * the first before `CONNS` probes of its own.
   */
  lemma {:induction false} CloseCommandsWellSpaced(r: ClientRes, k: nat, seen: seq<bool>, credit: nat)
    requires r.count <= CONNS ==> r.count <= credit
    ensures WellSpaced(Observed(r, k, seen).1, credit)
    decreases |seen|
  {
    if seen != [] {
      var r0 := r.(connected := r.connected || seen[0]);
      var t := TimerStep(r0, k);
      var out := Observed(r, k, seen);
      assert out.1 == [t.spawned] + Observed(t.parent, k, seen[1..]).1;
      assert out.1[1..] == Observed(t.parent, k, seen[1..]).1;
      SpawnDrainsIffClose(r0, k);
      match t.spawned
      case None =>
        CloseCommandsWellSpaced(t.parent, k, seen[1..], credit);
      case Some(c) =>
        if EndsInDigit(c.url) {
          CloseCommandsWellSpaced(t.parent, k, seen[1..], 0);
        } else {
          CloseCommandsWellSpaced(t.parent, k, seen[1..], credit + 1);
        }
    }
  }

  /** `timer_fn`: one firing of the timer of client `k`; `spawned` is what `mg_http_connect` receives. */
  method OnTimer(fleet: array<ClientRes>, k: nat) returns (spawned: Option<ClientRes>)
    requires k < fleet.Length
    modifies fleet
    ensures Tick(fleet[k], spawned) == TimerStep(old(fleet[k]), k)
    ensures forall j :: 0 <= j < fleet.Length && j != k ==> fleet[j] == old(fleet[j])
  {
    if fleet[k].count >= CONNS {
      if !fleet[k].connected {
        fleet[k] := fleet[k].(count := 0);
      }
      fleet[k] := fleet[k].(connected := false);
      if fleet[k].count == CONNS && fleet[k].id != 0 {
        var res := fleet[k];
        var cres := res.(id := (100 * res.id + res.count) % U32, observer := Some(k));
        cres := cres.(url := cres.url + (CLOSE_SUFFIX + Decimal(res.id - 1)));
        spawned := Some(cres);
        fleet[k] := fleet[k].(count := fleet[k].count + 1);
      } else {
        spawned := None;
      }
    } else {
      var res := fleet[k];
      var cres := res.(id := (100 * res.id + res.count) % U32, observer := Some(k));
      cres := cres.(url := cres.url + STATS_SUFFIX);
      spawned := Some(cres);
      fleet[k] := fleet[k].(count := fleet[k].count + 1);
    }
  }

  /**
   * The start-up loop of `main`. `connected0` stands for the flags `main`
   * leaves uninitialised, whatever they happen to hold.
   */
  method InitFleet(urls: seq<seq<byte>>, connected0: seq<bool>) returns (fleet: array<ClientRes>)
    requires |connected0| == |urls| && |urls| <= U32
    ensures fresh(fleet)
    ensures fleet.Length == |urls|
    ensures forall i :: 0 <= i < fleet.Length ==>
      fleet[i].id == i && fleet[i].count == 0 && fleet[i].url == urls[i] &&
      fleet[i].connected == connected0[i] && fleet[i].observer == None
  {
    fleet := new ClientRes[|urls|];
    var i := 0;
    while i < fleet.Length
      invariant 0 <= i <= fleet.Length
      invariant forall j :: 0 <= j < i ==> fleet[j] == ClientRes(j, 0, urls[j], connected0[j], None)
    {
      fleet[i] := ClientRes(i, 0, urls[i], connected0[i], None);
      i := i + 1;
    }
  }

  // ------------------------------------------------------------ connections

  /**
   * The events the engine delivers to a client connection; `now` is
   * `mg_millis()` when it is read, `pending` is `is_connecting || is_resolving`.
   */
  datatype Event =
    | Open(now: nat)
    | Connect(now: nat)
    | HttpMsg
    | Error
    | Poll(now: nat, pending: bool)
    | Close

  /**
   * What the handler keeps per connection: the deadline in `c->data`, the
   * drain mark, whether it raised the connect timeout, how many requests it
   * sent, and how many times it released its copy of the record.
   */
  datatype ConnView = ConnView(deadline: nat, draining: bool, timedOut: bool, sent: nat, releases: nat)

  datatype StepOut = StepOut(view: ConnView, observed: bool)

  /** The client event handler for one event; `observed` is the write through `pconnected`. */
  function Step(url: seq<byte>, v: ConnView, ev: Event): (o: StepOut)
    requires |url| > 0
    ensures o.observed <==> ev.Poll?
    ensures o.view.releases == v.releases + (if ev.Close? then 1 else 0)
    ensures o.view.sent == v.sent +
      (if ev.Connect? || (ev.Poll? && ev.now > v.deadline && !ev.pending) then 1 else 0)
    ensures o.view.draining <==> v.draining || (ev.HttpMsg? && EndsInDigit(url))
    ensures o.view.timedOut <==> v.timedOut || (ev.Poll? && ev.pending && ev.now > v.deadline)
    ensures ev.Error? || ev.Close? || ev.HttpMsg? ==> o.view.deadline == v.deadline
  {
    match ev
    case Open(now) => StepOut(v.(deadline := now + TIMEOUT_MS), false)
    case Connect(now) => StepOut(v.(sent := v.sent + 1, deadline := now + NEXT_MS), false)
    case HttpMsg =>
      var last := url[|url| - 1];
      StepOut(if '0' as int <= last <= '9' as int then v.(draining := true) else v, false)
    case Error => StepOut(v, false)
    case Poll(now, pending) =>
      var v' :=
        if now > v.deadline then
          if pending then v.(timedOut := true)
          else v.(sent := v.sent + 1, deadline := now + NEXT_MS)
        else v;
      StepOut(v', true)
    case Close => StepOut(v.(releases := v.releases + 1), false)
  }

  /** Opening arms the connect timeout; connecting sends the request and arms the re-probe. */
  lemma DeadlineRules(url: seq<byte>, v: ConnView, now: nat)
    requires |url| > 0
    ensures Step(url, v, Open(now)).view.deadline == now + TIMEOUT_MS
    ensures Step(url, v, Connect(now)).view.deadline == now + NEXT_MS
    ensures Step(url, v, Connect(now)).view.sent == v.sent + 1
  {
  }

  /**
   * Every poll reports the connection to its parent. Past the deadline, a
   * connection still connecting raises the timeout and keeps its deadline;
   * an established one sends the request again and moves the deadline.
   * Up to the deadline nothing else changes.
   */
  lemma PollRules(url: seq<byte>, v: ConnView, now: nat, pending: bool)
    requires |url| > 0
    ensures var o := Step(url, v, Poll(now, pending));
      o.observed &&
      (now > v.deadline && pending ==> o.view == v.(timedOut := true)) &&
      (now > v.deadline && !pending ==> o.view == v.(sent := v.sent + 1, deadline := now + NEXT_MS)) &&
      (now <= v.deadline ==> o.view == v)
  {
  }

  /** A response drains the connection exactly when its URL ends in a digit. */
  lemma DrainOnResponse(url: seq<byte>, v: ConnView)
    requires |url| > 0
    ensures Step(url, v, HttpMsg).view.draining <==> v.draining || EndsInDigit(url)
  {
  }

  /** The handler over a sequence of events. */
  function Run(url: seq<byte>, v: ConnView, evs: seq<Event>): ConnView
    requires |url| > 0
    decreases |evs|
  {
    if evs == [] then v else Run(url, Step(url, v, evs[0]).view, evs[1..])
  }

  function CloseCount(evs: seq<Event>): nat
    decreases |evs|
  {
    if evs == [] then 0 else (if evs[0].Close? then 1 else 0) + CloseCount(evs[1..])
  }

  /** Only `MG_EV_CLOSE` releases the copy; errors and timeouts do not. */
  lemma {:induction false} ReleasesOnlyOnClose(url: seq<byte>, v: ConnView, evs: seq<Event>)
    requires |url| > 0
    ensures Run(url, v, evs).releases == v.releases + CloseCount(evs)
    decreases |evs|
  {
    if evs != [] {
      ReleasesOnlyOnClose(url, Step(url, v, evs[0]).view, evs[1..]);
    }
  }

  /** A connection's life as the engine reports it: opened first, closed last and only then. */
  predicate Lifetime(evs: seq<Event>) {
    |evs| >= 2 && evs[0].Open? && evs[|evs| - 1].Close? &&
    forall i :: 0 <= i < |evs| - 1 ==> !evs[i].Close?
  }

  lemma {:induction false} NoCloseCount(evs: seq<Event>)
    requires forall i :: 0 <= i < |evs| ==> !evs[i].Close?
    ensures CloseCount(evs) == 0
    decreases |evs|
  {
    if evs != [] {
      NoCloseCount(evs[1..]);
    }
  }

  lemma {:induction false} CloseCountAppend(a: seq<Event>, b: seq<Event>)
    ensures CloseCount(a + b) == CloseCount(a) + CloseCount(b)
    decreases |a|
  {
    if a == [] {
      assert a + b == b;
    } else {
      assert (a + b)[0] == a[0];
      assert (a + b)[1..] == a[1..] + b;
      CloseCountAppend(a[1..], b);
    }
  }

  /**
   * Over its whole life a connection releases its copy of the record
   * exactly once, whether it ended normally or by a connect timeout.
   */
  lemma ReleasedExactlyOnce(url: seq<byte>, v: ConnView, evs: seq<Event>)
    requires |url| > 0 && v.releases == 0
    requires Lifetime(evs)
    ensures Run(url, v, evs).releases == 1
  {
    var n := |evs| - 1;
    assert evs == evs[..n] + [evs[n]];
    NoCloseCount(evs[..n]);
    CloseCountAppend(evs[..n], [evs[n]]);
    ReleasesOnlyOnClose(url, v, evs);
  }

  /** A connection the engine opened for a spawned copy. */
  class ClientConn {
    /** The copy of the parent's record this connection owns (`c->fn_data`). */
    const res: ClientRes
    var deadline: nat
    var draining: bool
    var timedOut: bool
    var sent: nat
    var releases: nat

    constructor (owned: ClientRes)
      ensures res == owned && View() == ConnView(0, false, false, 0, 0)
    {
      res := owned;
      deadline, draining, timedOut, sent, releases := 0, false, false, 0, 0;
    }

    function View(): ConnView
      reads this
    {
      ConnView(deadline, draining, timedOut, sent, releases)
    }

    /** The client's event handler `fn`; a poll writes the parent's flag through `pconnected`. */
    method Handle(fleet: array<ClientRes>, ev: Event)
      requires |res.url| > 0
      requires ev.Poll? ==> res.observer.Some? && res.observer.value < fleet.Length
      modifies this, fleet
      ensures View() == Step(res.url, old(View()), ev).view
      ensures !ev.Poll? ==> fleet[..] == old(fleet[..])
      ensures ev.Poll? ==> fleet[..] == old(fleet[..])[res.observer.value := old(fleet[res.observer.value]).(connected := true)]
    {
      match ev {
        case Open(now) =>
          deadline := now + TIMEOUT_MS;
        case Connect(now) =>
          sent := sent + 1;
          deadline := now + NEXT_MS;
        case HttpMsg =>
          var lastchar := res.url[|res.url| - 1];
          if '0' as int <= lastchar <= '9' as int {
            draining := true;
          }
        case Error =>
        case Poll(now, pending) =>
          var p := res.observer.value;
          fleet[p] := fleet[p].(connected := true);
          if now > deadline {
            if pending {
              timedOut := true;
            } else {
              sent := sent + 1;
              deadline := now + NEXT_MS;
            }
          }
        case Close =>
          releases := releases + 1;
      }
    }
  }
}
