/**
 * The close-command protocol end to end: the path a client's timer writes
 * with `"/api/close/%u"`, as the receiving server's handler reads it, and
 * what the coordinator then does with it.
 *
 * The server handler sees only the path of the client's URL; the client's
 * URL is its server address followed by that path.
 */
module CloseCommand {
  import opened Basics
  import Server
  import Client

  /** The path a client with id `id` puts in its close command. */
  function ClosePath(id: nat): seq<byte>
    requires id >= 1
  {
    Client.CLOSE_SUFFIX + Decimal(id - 1)
  }

  /**
   * The server reads only the first digit the client wrote: the command is
   * routed to the close branch, accepted, and names the leading digit of
   * `id - 1`, which is `id - 1` itself for the clients 1 to 10 only.
   */
  lemma ServerReadsLeadingDigit(id: nat)
    requires id >= 1
    ensures var path := ClosePath(id);
      |path| >= 12 &&
      Server.RouteOf(path) == Server.Close &&
      IsDigit(path[11]) &&
      Server.CloseTarget(path) as int == LeadingDigit(id - 1)
    ensures id <= 10 ==> Server.CloseTarget(ClosePath(id)) as int == id - 1
  {
    var path := ClosePath(id);
    var d := Decimal(id - 1);
    assert |Client.CLOSE_SUFFIX| == 11;
    assert path[11] == d[0];
    assert Server.CLOSE_PREFIX <= path by {
      assert Server.CLOSE_PREFIX == Client.CLOSE_SUFFIX;
      assert path[..11] == Client.CLOSE_SUFFIX;
    }
  }

  /** `/api/close/12` commands server 1: only byte 11 is read. */
  lemma TwoDigitPathReadsFirstDigit()
    ensures Server.CloseTarget(Ascii("/api/close/12")) == 1
  {
  }

  /**
   * A close command sent by client `id` (1 to 10) at the end of a cycle and
   * received by server `m` is answered OK and recorded on `m`; the next
   * coordinator pass drains server `id - 1` if the fleet has it, consumes
   * the command, and leaves every flag other than the target's as it was
   * (given that no other command is pending).
   */
  lemma CloseCommandReachesTarget(r: Client.ClientRes, k: nat, s: seq<Server.ServerRes>, m: nat)
    requires r.count == Client.CONNS && r.connected && 1 <= r.id <= 10
    requires m < |s| && s[m].hasListener
    requires forall j :: 0 <= j < |s| ==> !Server.Pending(s[j])
    ensures var t := Client.TimerStep(r, k);
      t.spawned.Some? && t.spawned.value.url == r.url + ClosePath(r.id)
    ensures var path := ClosePath(r.id);
      var s' := s[m := Server.RecordClose(s[m], path)];
      var after := Server.Coordinate(s');
      Server.ReplyBody(IsDigit(path[11])) == Server.ReplyBody(true) &&
      s'[m].closeThis as int == r.id - 1 &&
      after[m].closeThis == Server.NONE &&
      (r.id - 1 < |s| ==> after[r.id - 1].mustClose) &&
      forall t :: 0 <= t < |s| && t != r.id - 1 ==> after[t].mustClose == s[t].mustClose
  {
    var path := ClosePath(r.id);
    ServerReadsLeadingDigit(r.id);
    Client.ThresholdTick(r, k);
    assert r.url + Client.CLOSE_SUFFIX + Decimal(r.id - 1) == r.url + path;
    var s' := s[m := Server.RecordClose(s[m], path)];
    assert Server.Pending(s'[m]);
    forall t | 0 <= t < |s| && t != r.id - 1
      ensures !Server.Requested(s', 0, t)
    {
      assert forall j :: 0 <= j < |s'| && j != m ==> s'[j] == s[j];
    }
  }

  /**
   * A command naming a server the fleet does not have (`/api/close/9` with
   * three servers) is consumed and changes no drain flag.
   */
  lemma OutOfRangeTargetIgnored(s: seq<Server.ServerRes>)
    requires forall j :: 0 <= j < |s| && Server.Pending(s[j]) ==> s[j].closeThis as int >= |s|
    ensures forall t :: 0 <= t < |s| ==> Server.Coordinate(s)[t].mustClose == s[t].mustClose
    ensures forall j :: 0 <= j < |s| && Server.Pending(s[j]) ==> Server.Coordinate(s)[j].closeThis == Server.NONE
  {
    forall t | 0 <= t < |s|
      ensures !Server.Requested(s, 0, t)
    {
    }
  }
}
