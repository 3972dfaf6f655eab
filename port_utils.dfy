/** Looking for a free local port (port-utils): a port is available when a
    listener can bind it on the loopback address; the search tries the range in
    ascending order and takes the first available port. Whether a bind succeeds
    is the operating system's answer, passed in as `bindSucceeds`. */
module PortUtils {
  import opened Wrappers
  import opened Text

  const DEFAULT_START_PORT := 3000
  const DEFAULT_END_PORT := 9999
  const LOOPBACK := "127.0.0.1"

  /** The largest port `listen` takes; it refuses negative ports too. */
  const MAX_LISTEN_PORT := 65535

  predicate InListenRange(port: int) {
    0 <= port <= MAX_LISTEN_PORT
  }

  /** What the probe does with its throw-away listener. */
  datatype ServerAction = Listen(port: int, host: string) | Close

  /** How the probe's promise settles: with an answer, or rejected because
      `listen` threw a RangeError for a port outside 0..65535. */
  datatype ProbeAnswer = Answered(available: bool) | PortRangeError(port: int)

  datatype Probe = Probe(answer: ProbeAnswer, actions: seq<ServerAction>)

  /** `checkPortAvailable`: listen on 127.0.0.1:port; a port `listen` refuses
      rejects the promise; a bind error answers false; a successful bind closes
      the listener and only then answers true. */
  function CheckPortAvailable(port: int, bindSucceeds: int -> bool): (r: Probe)
    ensures r.answer.PortRangeError? <==> !InListenRange(port)
    ensures r.answer.PortRangeError? ==> r.answer.port == port
    ensures r.answer == Answered(true) <==> InListenRange(port) && bindSucceeds(port)
    ensures |r.actions| >= 1 && r.actions[0] == Listen(port, LOOPBACK)
    ensures r.answer == Answered(true) <==> r.actions[|r.actions| - 1] == Close
  {
    if !InListenRange(port) then Probe(PortRangeError(port), [Listen(port, LOOPBACK)])
    else if bindSucceeds(port) then Probe(Answered(true), [Listen(port, LOOPBACK), Close])
    else Probe(Answered(false), [Listen(port, LOOPBACK)])
  }

  /** The ports `lo`, `lo + 1`, ..., `hi - 1`, ascending. */
  function Ascending(lo: int, hi: int): (r: seq<int>)
    ensures |r| == if hi <= lo then 0 else hi - lo
    ensures forall k :: 0 <= k < |r| ==> r[k] == lo + k
  {
    seq(if hi <= lo then 0 else hi - lo, k => lo + k)
  }

  lemma AscendingSnoc(lo: int, hi: int)
    requires lo <= hi
    ensures Ascending(lo, hi) + [hi] == Ascending(lo, hi + 1)
  {
  }

  function NoPortMessage(startPort: int, endPort: int): string {
    "No available port found between " + IntToString(startPort) + " and " + IntToString(endPort)
  }

  /** How the search fails: no port in the range was free, or a probe was
      rejected, which ends the search with that rejection. */
  datatype SearchError = NoAvailablePort(message: string) | ProbeRejected(port: int)

  /** `findAvailablePort`: the first port from `startPort` to `endPort` (both
      included) that is available, having probed exactly the ports before it, in
      ascending order. A port outside 0..65535 reached before a free one ends the
      search with the probe's rejection; when every port of the range was probed
      and busy, including when the range is empty, the error names both bounds. */
  method FindAvailablePort(startPort: int, endPort: int, bindSucceeds: int -> bool)
    returns (r: Result<int, SearchError>, probed: seq<int>)
    ensures r.Success? ==> startPort <= r.value <= endPort
                           && CheckPortAvailable(r.value, bindSucceeds).answer == Answered(true)
    ensures r.Success? ==> forall p :: startPort <= p < r.value ==> InListenRange(p) && !bindSucceeds(p)
    ensures r.Success? ==> probed == Ascending(startPort, r.value + 1)
    ensures r.Failure? && r.error.ProbeRejected? ==>
              var q := r.error.port;
              && startPort <= q <= endPort && !InListenRange(q)
              && CheckPortAvailable(q, bindSucceeds).answer == PortRangeError(q)
              && (forall p :: startPort <= p < q ==> InListenRange(p) && !bindSucceeds(p))
              && probed == Ascending(startPort, q + 1)
    ensures (r.Failure? && r.error.NoAvailablePort?)
            <==> forall p :: startPort <= p <= endPort ==> InListenRange(p) && !bindSucceeds(p)
    ensures r.Failure? && r.error.NoAvailablePort? ==>
              r.error.message == NoPortMessage(startPort, endPort)
              && probed == Ascending(startPort, endPort + 1)
  {
    probed := [];
    var port := startPort;
    while port <= endPort
      invariant startPort <= port
      invariant port <= endPort + 1 || port == startPort
      invariant probed == Ascending(startPort, port)
      invariant forall p :: startPort <= p < port ==> InListenRange(p) && !bindSucceeds(p)
      decreases endPort - port
    {
      var probe := CheckPortAvailable(port, bindSucceeds);
      AscendingSnoc(startPort, port);
      probed := probed + [port];
      match probe.answer
      case PortRangeError(q) =>
        assert q == port && !InListenRange(port);
        return Failure(ProbeRejected(q)), probed;
      case Answered(available) =>
        if available {
          assert InListenRange(port) && bindSucceeds(port);
          return Success(port), probed;
        }
      port := port + 1;
    }
    r := Failure(NoAvailablePort(NoPortMessage(startPort, endPort)));
  }

  /** The search with its default bounds, 3000 to 9999, which `listen` always
      takes, so it never ends with a rejected probe. */
  method SuggestPort(bindSucceeds: int -> bool) returns (r: Result<int, SearchError>)
    ensures r.Success? ==> DEFAULT_START_PORT <= r.value <= DEFAULT_END_PORT && bindSucceeds(r.value)
    ensures r.Success? ==> forall p :: DEFAULT_START_PORT <= p < r.value ==> !bindSucceeds(p)
    ensures r.Failure? ==> r.error == NoAvailablePort(NoPortMessage(DEFAULT_START_PORT, DEFAULT_END_PORT))
    ensures r.Failure? <==> forall p :: DEFAULT_START_PORT <= p <= DEFAULT_END_PORT ==> !bindSucceeds(p)
  {
    var probed;
    r, probed := FindAvailablePort(DEFAULT_START_PORT, DEFAULT_END_PORT, bindSucceeds);
  }

  /** With 3000 and 3001 taken, the search from 3000 to 3010 settles on 3002
      after three probes. */
  method TwoBusyPortsAreSkipped() returns (r: Result<int, SearchError>, probed: seq<int>)
    ensures r == Success(3002) && probed == [3000, 3001, 3002]
  {
    var bindSucceeds := (p: int) => p > 3001;
    r, probed := FindAvailablePort(3000, 3010, bindSucceeds);
    assert bindSucceeds(3002);
    assert r.value == 3002;
    assert probed == [3000, 3001, 3002];
  }

  /** With every port taken, the search from 3000 to 3002 fails naming both
      bounds. */
  method FullRangeFails() returns (r: Result<int, SearchError>)
    ensures r == Failure(NoAvailablePort("No available port found between 3000 and 3002"))
  {
    var probed;
    var bindSucceeds := (p: int) => false;
    r, probed := FindAvailablePort(3000, 3002, bindSucceeds);
    assert forall p :: 3000 <= p <= 3002 ==> !bindSucceeds(p);
    assert r.Failure? && r.error.NoAvailablePort?;
    NoPortMessageFor3000To3002();
  }

  /** The message for the range 3000 to 3002, written out. */
  lemma NoPortMessageFor3000To3002()
    ensures NoPortMessage(3000, 3002) == "No available port found between 3000 and 3002"
  {
    assert IntToString(3000) == "3000" by {
      assert NatToDecimal(3) == "3";
      assert NatToDecimal(30) == "30";
      assert NatToDecimal(300) == "300";
    }
    assert IntToString(3002) == "3002" by {
      assert NatToDecimal(300) == "300";
      assert NatToDecimal(3002) == NatToDecimal(300) + [DigitChar(2)];
    }
    assert NoPortMessage(3000, 3002) == "No available port found between " + "3000" + " and " + "3002";
    assert "No available port found between " + "3000" + " and " + "3002"
        == "No available port found between 3000 and 3002";
  }

  /** A range that reaches past 65535 with every lower port busy ends with the
      rejected probe of 65536, not with "No available port found". */
  method RangePastMaxIsRejected() returns (r: Result<int, SearchError>, probed: seq<int>)
    ensures r == Failure(ProbeRejected(65536)) && probed == [65535, 65536]
  {
    var bindSucceeds := (p: int) => false;
    r, probed := FindAvailablePort(65535, 65540, bindSucceeds);
    assert !bindSucceeds(65535) && !InListenRange(65536);
    assert !r.Success?;
    assert !(r.Failure? && r.error.NoAvailablePort?);
    var q := r.error.port;
    assert 65536 <= q <= 65540;
    assert 65536 < q ==> InListenRange(65536);
    assert q == 65536;
    assert probed == Ascending(65535, 65537);
    assert Ascending(65535, 65537) == [65535, 65536];
  }
}
