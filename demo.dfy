/** The demonstration simulator of code/demo: an edge with two circuits
    feeds requests to an app, the app forwards them to a database queue,
    and the database returns successes and timeouts.  The Prometheus
    metrics the simulator exports are kept as request counts; the random
    octet sizes per request are not modelled.  Seconds are reals and Go's
    float-to-int conversion truncates towards zero. */
module Demo {
  import opened Wrappers
  import opened Data
  import opened BotGroupSession

  datatype EdgeState = EdgeNormal | EdgeDownCircuit1 | EdgeDownCircuit2 | EdgeDownCircuitAll

  datatype DatabaseState = DatabaseNormal | DatabaseStorageDegraded

  const NormalRequestProcessSpeed: int := 1000
  const DegradedRequestProcessSpeed: int := 250
  const TimeoutWaitLimit: int := 2000
  const InitialRequestsPerSecond: real := 800.0

  /** The edge's change guard: `time.Duration(15)`, in nanoseconds. */
  const EdgeChangeWait: Duration := 15

  predicate Circuit1Down(s: EdgeState)
  {
    s == EdgeDownCircuit1 || s == EdgeDownCircuitAll
  }

  predicate Circuit2Down(s: EdgeState)
  {
    s == EdgeDownCircuit2 || s == EdgeDownCircuitAll
  }

  /** An edge state is nothing more than which circuits are down. */
  lemma StateIsItsCircuits(s: EdgeState, t: EdgeState)
    requires Circuit1Down(s) == Circuit1Down(t) && Circuit2Down(s) == Circuit2Down(t)
    ensures s == t
  {
  }

  /** `FixCircuit1`: circuit 1 comes up, circuit 2 stays as it is. */
  function FixCircuit1State(s: EdgeState): (r: EdgeState)
    ensures !Circuit1Down(r) && Circuit2Down(r) == Circuit2Down(s)
  {
    if s == EdgeDownCircuit1 then EdgeNormal
    else if s == EdgeDownCircuitAll then EdgeDownCircuit2
    else s
  }

  /** `FixCircuit2`: circuit 2 comes up, circuit 1 stays as it is. */
  function FixCircuit2State(s: EdgeState): (r: EdgeState)
    ensures !Circuit2Down(r) && Circuit1Down(r) == Circuit1Down(s)
  {
    if s == EdgeDownCircuit2 then EdgeNormal
    else if s == EdgeDownCircuitAll then EdgeDownCircuit1
    else s
  }

  /** `BreakCircuit1` once the guard has passed: circuit 1 goes down,
      circuit 2 stays as it is. */
  function BreakCircuit1State(s: EdgeState): (r: EdgeState)
    ensures Circuit1Down(r) && Circuit2Down(r) == Circuit2Down(s)
    ensures r != EdgeNormal
  {
    if s == EdgeDownCircuit2 then EdgeDownCircuitAll
    else if s != EdgeDownCircuitAll then EdgeDownCircuit1
    else s
  }

  /** `BreakCircuit2` once the guard has passed. */
  function BreakCircuit2State(s: EdgeState): (r: EdgeState)
    ensures Circuit2Down(r) && Circuit1Down(r) == Circuit1Down(s)
    ensures r != EdgeNormal
  {
    if s == EdgeDownCircuit1 then EdgeDownCircuitAll
    else if s != EdgeDownCircuitAll then EdgeDownCircuit2
    else s
  }

  /** Breaking a circuit and fixing it again is the same as only fixing it;
      in particular a normal edge returns to normal. */
  lemma BreakThenFix(s: EdgeState)
    ensures FixCircuit1State(BreakCircuit1State(s)) == FixCircuit1State(s)
    ensures FixCircuit2State(BreakCircuit2State(s)) == FixCircuit2State(s)
    ensures FixCircuit1State(BreakCircuit1State(EdgeNormal)) == EdgeNormal
    ensures FixCircuit2State(BreakCircuit2State(EdgeNormal)) == EdgeNormal
  {
    StateIsItsCircuits(FixCircuit1State(BreakCircuit1State(s)), FixCircuit1State(s));
    StateIsItsCircuits(FixCircuit2State(BreakCircuit2State(s)), FixCircuit2State(s));
  }

  /** Go's `int(x)` for a float: the integer part, truncated towards zero. */
  function TruncToInt(x: real): (r: int)
    ensures x >= 0.0 ==> 0 <= r && r as real <= x < r as real + 1.0
    ensures x < 0.0 ==> r <= 0 && x <= r as real && r as real - 1.0 < x
  {
    if x >= 0.0 then x.Floor else -((-x).Floor)
  }

  /** `PerSecond`: a per-second amount scaled to the elapsed seconds. */
  function PerSecond(original: int, seconds: real): (r: int)
    ensures original >= 0 && seconds >= 0.0 ==> r >= 0
    ensures seconds == 1.0 ==> r == original
  {
    TruncToInt(Weighted(original as real, seconds))
  }

  /** Go's `n / 2` on an `int`, truncated towards zero. */
  function Half(n: int): (r: int)
    ensures n >= 0 ==> 0 <= r && 2 * r <= n <= 2 * r + 1
    ensures n < 0 ==> r <= 0 && 2 * r - 1 <= n <= 2 * r
  {
    if n >= 0 then n / 2 else -((-n) / 2)
  }

  /** The exported metrics, as counts of requests.  The circuit counters
      count the requests whose octets were added to that circuit's in or out
      counter; the link states are 1 while the circuit is up. */
  datatype DemoMetrics = DemoMetrics(
    edgeRequests: int,
    requestsIn1: int,
    requestsIn2: int,
    requestsOut1: int,
    requestsOut2: int,
    linkState1: int,
    linkState2: int,
    appWaiting: int,
    appSuccess: int,
    appTimeout: int,
    databaseWaiting: int,
    databaseSuccess: int,
    databaseTimeout: int)

  const ZeroMetrics := DemoMetrics(0, 0, 0, 0, 0, 0, 0, 0, 0, 0, 0, 0, 0)

  /** The ingress `UpdateEdge` accounts for: a normal edge splits the
      requests between the two circuits, a single circuit carries them all,
      and the link states follow the circuits. */
  function EdgeIngress(m: DemoMetrics, s: EdgeState, requests: int): (r: DemoMetrics)
    ensures r.linkState1 == (if Circuit1Down(s) then 0 else 1)
    ensures r.linkState2 == (if Circuit2Down(s) then 0 else 1)
    ensures Circuit1Down(s) ==> r.requestsIn1 == m.requestsIn1
    ensures Circuit2Down(s) ==> r.requestsIn2 == m.requestsIn2
    ensures s == EdgeDownCircuit1 ==> r.requestsIn2 == m.requestsIn2 + requests
    ensures s == EdgeDownCircuit2 ==> r.requestsIn1 == m.requestsIn1 + requests
    ensures s == EdgeNormal ==> r.requestsIn1 == m.requestsIn1 + Half(requests) && r.requestsIn2 == m.requestsIn2 + Half(requests)
    ensures r.(requestsIn1 := m.requestsIn1, requestsIn2 := m.requestsIn2, linkState1 := m.linkState1, linkState2 := m.linkState2) == m
  {
    match s
    case EdgeNormal =>
      m.(requestsIn1 := m.requestsIn1 + Half(requests), linkState1 := 1,
         requestsIn2 := m.requestsIn2 + Half(requests), linkState2 := 1)
    case EdgeDownCircuit1 =>
      m.(linkState1 := 0, requestsIn2 := m.requestsIn2 + requests, linkState2 := 1)
    case EdgeDownCircuit2 =>
      m.(requestsIn1 := m.requestsIn1 + requests, linkState1 := 1, linkState2 := 0)
    case EdgeDownCircuitAll =>
      m.(linkState1 := 0, linkState2 := 0)
  }

  /** The egress `ReceiveSuccessFromApp` accounts for: nothing leaves a
      down circuit. */
  function EdgeEgress(m: DemoMetrics, s: EdgeState, requests: int): (r: DemoMetrics)
    ensures Circuit1Down(s) ==> r.requestsOut1 == m.requestsOut1
    ensures Circuit2Down(s) ==> r.requestsOut2 == m.requestsOut2
    ensures s == EdgeDownCircuit1 ==> r.requestsOut2 == m.requestsOut2 + requests
    ensures s == EdgeDownCircuit2 ==> r.requestsOut1 == m.requestsOut1 + requests
    ensures s == EdgeNormal ==> r.requestsOut1 == m.requestsOut1 + Half(requests) && r.requestsOut2 == m.requestsOut2 + Half(requests)
    ensures r.(requestsOut1 := m.requestsOut1, requestsOut2 := m.requestsOut2) == m
  {
    match s
    case EdgeNormal =>
      m.(requestsOut1 := m.requestsOut1 + Half(requests), requestsOut2 := m.requestsOut2 + Half(requests))
    case EdgeDownCircuit1 => m.(requestsOut2 := m.requestsOut2 + requests)
    case EdgeDownCircuit2 => m.(requestsOut1 := m.requestsOut1 + requests)
    case EdgeDownCircuitAll => m
  }

  /** With one circuit down the other carries every request; a normal edge
      accounts for all of them but one when the count is odd. */
  lemma EgressCarriesRequests(m: DemoMetrics, s: EdgeState, requests: nat)
    ensures var r := EdgeEgress(m, s, requests);
      var carried := (r.requestsOut1 - m.requestsOut1) + (r.requestsOut2 - m.requestsOut2);
      && (s == EdgeDownCircuit1 || s == EdgeDownCircuit2 ==> carried == requests)
      && (s == EdgeNormal ==> requests - 1 <= carried <= requests)
      && (s == EdgeDownCircuitAll ==> carried == 0)
  {
  }

  /** What one `UpdateDatabase` step does with the queue. */
  datatype DatabaseOutcome = DatabaseOutcome(processed: int, timedOut: int, remaining: int)

  /** The processing speed of the database's current state. */
  function ProcessSpeed(state: DatabaseState, seconds: real): int
  {
    if state == DatabaseStorageDegraded then PerSecond(DegradedRequestProcessSpeed, seconds)
    else PerSecond(NormalRequestProcessSpeed, seconds)
  }

  /** The queue accounting of `UpdateDatabase`: a queue shorter than the
      processing speed is processed whole, otherwise the speed's worth is;
      requests left above `TimeoutWaitLimit` time out at a per-second rate,
      at most as many as are queued. */
  function DatabaseStep(queue: int, processSpeed: int, seconds: real): (r: DatabaseOutcome)
    ensures r.processed + r.timedOut + r.remaining == queue
    ensures queue < processSpeed ==> r.processed == queue && r.timedOut == 0 && r.remaining == 0
    ensures queue >= processSpeed ==> r.processed == processSpeed
    ensures r.timedOut != 0 ==> queue - r.processed > TimeoutWaitLimit
    ensures queue - r.processed > TimeoutWaitLimit ==> r.timedOut <= queue - r.processed
    ensures queue >= 0 && processSpeed >= 0 && seconds >= 0.0 ==> 0 <= r.processed && 0 <= r.timedOut && 0 <= r.remaining
  {
    var processed := if queue < processSpeed then queue else processSpeed;
    var left := queue - processed;
    var timedOut :=
      if left > TimeoutWaitLimit then
        var timeoutNow := PerSecond(left - TimeoutWaitLimit, seconds);
        if timeoutNow > left then left else timeoutNow
      else 0;
    DatabaseOutcome(processed, timedOut, left - timedOut)
  }

  /** The simulator's package-level state. */
  class DemoSimulation {
    var edgeState: EdgeState
    var edgeChangeLastTime: Time
    var currentRequestsPerSecond: real
    var appRequestQueueLength: int
    var databaseRequestQueueLength: int
    var databaseState: DatabaseState
    var metrics: DemoMetrics

    /** The package variables' initial values. */
    constructor ()
      ensures edgeState == EdgeNormal && edgeChangeLastTime == ZeroTime
      ensures currentRequestsPerSecond == InitialRequestsPerSecond
      ensures appRequestQueueLength == 0 && databaseRequestQueueLength == 0
      ensures databaseState == DatabaseNormal && metrics == ZeroMetrics
    {
      edgeState := EdgeNormal;
      edgeChangeLastTime := ZeroTime;
      currentRequestsPerSecond := InitialRequestsPerSecond;
      appRequestQueueLength := 0;
      databaseRequestQueueLength := 0;
      databaseState := DatabaseNormal;
      metrics := ZeroMetrics;
    }

    /** `AddDatabaseRequests`. */
    method AddDatabaseRequests(requests: int)
      modifies this
      ensures databaseRequestQueueLength == old(databaseRequestQueueLength) + requests
      ensures edgeState == old(edgeState) && edgeChangeLastTime == old(edgeChangeLastTime)
      ensures currentRequestsPerSecond == old(currentRequestsPerSecond)
      ensures appRequestQueueLength == old(appRequestQueueLength) && databaseState == old(databaseState)
      ensures metrics == old(metrics)
    {
      databaseRequestQueueLength := databaseRequestQueueLength + requests;
    }

    /** `ReceiveRequestsFromEdge`: the app queues the requests and hands the
        same number to the database. */
    method ReceiveRequestsFromEdge(requests: int)
      modifies this
      ensures appRequestQueueLength == old(appRequestQueueLength) + requests
      ensures databaseRequestQueueLength == old(databaseRequestQueueLength) + requests
      ensures metrics == old(metrics).(appWaiting := old(metrics).appWaiting + requests)
      ensures edgeState == old(edgeState) && edgeChangeLastTime == old(edgeChangeLastTime)
      ensures currentRequestsPerSecond == old(currentRequestsPerSecond) && databaseState == old(databaseState)
    {
      appRequestQueueLength := appRequestQueueLength + requests;
      metrics := metrics.(appWaiting := metrics.appWaiting + requests);
      AddDatabaseRequests(requests);
    }

    /** `ReceiveSuccessFromApp`: the edge sends successes back over the
        circuits that are up. */
    method ReceiveSuccessFromApp(requests: int)
      modifies this
      ensures metrics == EdgeEgress(old(metrics), edgeState, requests)
      ensures edgeState == old(edgeState) && edgeChangeLastTime == old(edgeChangeLastTime)
      ensures currentRequestsPerSecond == old(currentRequestsPerSecond)
      ensures appRequestQueueLength == old(appRequestQueueLength) && databaseState == old(databaseState)
      ensures databaseRequestQueueLength == old(databaseRequestQueueLength)
    {
      match edgeState
      case EdgeNormal =>
        metrics := metrics.(requestsOut1 := metrics.requestsOut1 + Half(requests));
        metrics := metrics.(requestsOut2 := metrics.requestsOut2 + Half(requests));
      case EdgeDownCircuit1 =>
        metrics := metrics.(requestsOut2 := metrics.requestsOut2 + requests);
      case EdgeDownCircuit2 =>
        metrics := metrics.(requestsOut1 := metrics.requestsOut1 + requests);
      case EdgeDownCircuitAll =>
    }

    /** `ReceiveSuccessFromDatabase`: the app counts the successes and hands
        the same number to the edge. */
    method ReceiveSuccessFromDatabase(requests: int)
      modifies this
      ensures metrics == EdgeEgress(old(metrics).(appSuccess := old(metrics).appSuccess + requests), edgeState, requests)
      ensures edgeState == old(edgeState) && edgeChangeLastTime == old(edgeChangeLastTime)
      ensures currentRequestsPerSecond == old(currentRequestsPerSecond)
      ensures appRequestQueueLength == old(appRequestQueueLength) && databaseState == old(databaseState)
      ensures databaseRequestQueueLength == old(databaseRequestQueueLength)
    {
      metrics := metrics.(appSuccess := metrics.appSuccess + requests);
      ReceiveSuccessFromApp(requests);
    }

    /** `ReceiveTimeoutsFromDatabase`. */
    method ReceiveTimeoutsFromDatabase(requests: int)
      modifies this
      ensures metrics == old(metrics).(appTimeout := old(metrics).appTimeout + requests)
      ensures edgeState == old(edgeState) && edgeChangeLastTime == old(edgeChangeLastTime)
      ensures currentRequestsPerSecond == old(currentRequestsPerSecond)
      ensures appRequestQueueLength == old(appRequestQueueLength) && databaseState == old(databaseState)
      ensures databaseRequestQueueLength == old(databaseRequestQueueLength)
    {
      metrics := metrics.(appTimeout := metrics.appTimeout + requests);
    }

    /** `UpdateApp`: the demo app keeps no state of its own to update. */
    method UpdateApp(seconds: real)
    {
    }

    /** `UpdateEdge`: the requests of the elapsed time arrive; the edge
        accounts for them on the circuits that are up and forwards them to
        the app unless both circuits are down. */
    method UpdateEdge(seconds: real)
      modifies this
      ensures var added := TruncToInt(Weighted(old(currentRequestsPerSecond), seconds));
        var forwarded := if old(edgeState) == EdgeDownCircuitAll then 0 else added;
        && appRequestQueueLength == old(appRequestQueueLength) + forwarded
        && databaseRequestQueueLength == old(databaseRequestQueueLength) + forwarded
        && metrics == EdgeIngress(old(metrics).(edgeRequests := old(metrics).edgeRequests + added), old(edgeState), added)
                        .(appWaiting := old(metrics).appWaiting + forwarded)
      ensures edgeState == old(edgeState) && edgeChangeLastTime == old(edgeChangeLastTime)
      ensures currentRequestsPerSecond == old(currentRequestsPerSecond) && databaseState == old(databaseState)
    {
      var requestAdded := TruncToInt(Weighted(currentRequestsPerSecond, seconds));
      metrics := metrics.(edgeRequests := metrics.edgeRequests + requestAdded);
      match edgeState
      case EdgeNormal =>
        metrics := metrics.(requestsIn1 := metrics.requestsIn1 + Half(requestAdded), linkState1 := 1);
        metrics := metrics.(requestsIn2 := metrics.requestsIn2 + Half(requestAdded), linkState2 := 1);
        ReceiveRequestsFromEdge(requestAdded);
      case EdgeDownCircuit1 =>
        metrics := metrics.(linkState1 := 0);
        metrics := metrics.(requestsIn2 := metrics.requestsIn2 + requestAdded, linkState2 := 1);
        ReceiveRequestsFromEdge(requestAdded);
      case EdgeDownCircuit2 =>
        metrics := metrics.(requestsIn1 := metrics.requestsIn1 + requestAdded, linkState1 := 1);
        metrics := metrics.(linkState2 := 0);
        ReceiveRequestsFromEdge(requestAdded);
      case EdgeDownCircuitAll =>
        metrics := metrics.(linkState1 := 0, linkState2 := 0);
    }

    /** `UpdateDatabase`: one step of the queue accounting, with the
        successes sent back through the app to the edge and the timeouts to
        the app. */
    method UpdateDatabase(seconds: real)
      modifies this
      ensures var o := DatabaseStep(old(databaseRequestQueueLength), ProcessSpeed(old(databaseState), seconds), seconds);
        var m := EdgeEgress(old(metrics).(appSuccess := old(metrics).appSuccess + o.processed,
                                          databaseSuccess := old(metrics).databaseSuccess + o.processed),
                            old(edgeState), o.processed);
        && databaseRequestQueueLength == o.remaining
        && metrics == m.(databaseTimeout := m.databaseTimeout + o.timedOut,
                         appTimeout := m.appTimeout + o.timedOut,
                         databaseWaiting := o.remaining)
      ensures edgeState == old(edgeState) && edgeChangeLastTime == old(edgeChangeLastTime)
      ensures currentRequestsPerSecond == old(currentRequestsPerSecond)
      ensures appRequestQueueLength == old(appRequestQueueLength) && databaseState == old(databaseState)
    {
      ghost var o := DatabaseStep(databaseRequestQueueLength, ProcessSpeed(databaseState, seconds), seconds);
      var processSpeed := PerSecond(NormalRequestProcessSpeed, seconds);
      if databaseState == DatabaseStorageDegraded {
        processSpeed := PerSecond(DegradedRequestProcessSpeed, seconds);
      }
      if databaseRequestQueueLength < processSpeed {
        ReceiveSuccessFromDatabase(databaseRequestQueueLength);
        metrics := metrics.(databaseSuccess := metrics.databaseSuccess + databaseRequestQueueLength);
        databaseRequestQueueLength := 0;
      } else {
        ReceiveSuccessFromDatabase(processSpeed);
        metrics := metrics.(databaseSuccess := metrics.databaseSuccess + processSpeed);
        databaseRequestQueueLength := databaseRequestQueueLength - processSpeed;
      }
      assert databaseRequestQueueLength == o.remaining + o.timedOut;
      if databaseRequestQueueLength > TimeoutWaitLimit {
        var timeoutCount := databaseRequestQueueLength - TimeoutWaitLimit;
        var timeoutNow := PerSecond(timeoutCount, seconds);
        if timeoutNow > databaseRequestQueueLength {
          timeoutNow := databaseRequestQueueLength;
        }
        assert timeoutNow == o.timedOut;
        metrics := metrics.(databaseTimeout := metrics.databaseTimeout + timeoutNow);
        ReceiveTimeoutsFromDatabase(timeoutNow);
        databaseRequestQueueLength := databaseRequestQueueLength - timeoutNow;
      }
      metrics := metrics.(databaseWaiting := databaseRequestQueueLength);
    }

    /** `FixCircuit1`. */
    method FixCircuit1()
      modifies this
      ensures edgeState == FixCircuit1State(old(edgeState))
      ensures edgeChangeLastTime == old(edgeChangeLastTime) && currentRequestsPerSecond == old(currentRequestsPerSecond)
      ensures appRequestQueueLength == old(appRequestQueueLength) && databaseState == old(databaseState)
      ensures databaseRequestQueueLength == old(databaseRequestQueueLength) && metrics == old(metrics)
    {
      if edgeState == EdgeDownCircuit1 {
        edgeState := EdgeNormal;
      } else if edgeState == EdgeDownCircuitAll {
        edgeState := EdgeDownCircuit2;
      }
    }

    /** `FixCircuit2`. */
    method FixCircuit2()
      modifies this
      ensures edgeState == FixCircuit2State(old(edgeState))
      ensures edgeChangeLastTime == old(edgeChangeLastTime) && currentRequestsPerSecond == old(currentRequestsPerSecond)
      ensures appRequestQueueLength == old(appRequestQueueLength) && databaseState == old(databaseState)
      ensures databaseRequestQueueLength == old(databaseRequestQueueLength) && metrics == old(metrics)
    {
      if edgeState == EdgeDownCircuit2 {
        edgeState := EdgeNormal;
      } else if edgeState == EdgeDownCircuitAll {
        edgeState := EdgeDownCircuit1;
      }
    }

    /** `BreakCircuit1`: too soon after the last change nothing happens and
        the reply says to wait; otherwise circuit 1 goes down, which an edge
        with both circuits down ignores.  `formatWait` is the `%0.1f`
        formatting of the remaining wait. */
    method BreakCircuit1(now: Time, formatWait: Duration -> string) returns (output: string)
      modifies this
      ensures var wait := now - old(edgeChangeLastTime) - EdgeChangeWait;
        && (wait < 0 ==> edgeState == old(edgeState) && output == "Wait: Too many requests: " + formatWait(wait))
        && (wait >= 0 ==> edgeState == BreakCircuit1State(old(edgeState)))
        && (wait >= 0 && old(edgeState) == EdgeDownCircuitAll ==> output == "Ignored, incorrect state")
        && (wait >= 0 && old(edgeState) != EdgeDownCircuitAll ==> output == "Circuit 1 has gone down")
      ensures edgeChangeLastTime == old(edgeChangeLastTime) && currentRequestsPerSecond == old(currentRequestsPerSecond)
      ensures appRequestQueueLength == old(appRequestQueueLength) && databaseState == old(databaseState)
      ensures databaseRequestQueueLength == old(databaseRequestQueueLength) && metrics == old(metrics)
    {
      output := "Ignored, incorrect state";
      var durationSinceLastChange := now - edgeChangeLastTime - EdgeChangeWait;
      if durationSinceLastChange < 0 {
        output := "Wait: Too many requests: " + formatWait(durationSinceLastChange);
      } else if edgeState == EdgeDownCircuit2 {
        edgeState := EdgeDownCircuitAll;
        output := "Circuit 1 has gone down";
      } else if edgeState != EdgeDownCircuitAll {
        edgeState := EdgeDownCircuit1;
        output := "Circuit 1 has gone down";
      }
    }

    /** `BreakCircuit2`, the mirror of `BreakCircuit1`. */
    method BreakCircuit2(now: Time, formatWait: Duration -> string) returns (output: string)
      modifies this
      ensures var wait := now - old(edgeChangeLastTime) - EdgeChangeWait;
        && (wait < 0 ==> edgeState == old(edgeState) && output == "Wait: Too many requests: " + formatWait(wait))
        && (wait >= 0 ==> edgeState == BreakCircuit2State(old(edgeState)))
        && (wait >= 0 && old(edgeState) == EdgeDownCircuitAll ==> output == "Ignored, incorrect state")
        && (wait >= 0 && old(edgeState) != EdgeDownCircuitAll ==> output == "Circuit 2 has gone down")
      ensures edgeChangeLastTime == old(edgeChangeLastTime) && currentRequestsPerSecond == old(currentRequestsPerSecond)
      ensures appRequestQueueLength == old(appRequestQueueLength) && databaseState == old(databaseState)
      ensures databaseRequestQueueLength == old(databaseRequestQueueLength) && metrics == old(metrics)
    {
      output := "Ignored, incorrect state";
      var durationSinceLastChange := now - edgeChangeLastTime - EdgeChangeWait;
      if durationSinceLastChange < 0 {
        output := "Wait: Too many requests: " + formatWait(durationSinceLastChange);
      } else if edgeState == EdgeDownCircuit1 {
        edgeState := EdgeDownCircuitAll;
        output := "Circuit 2 has gone down";
      } else if edgeState != EdgeDownCircuitAll {
        edgeState := EdgeDownCircuit2;
        output := "Circuit 2 has gone down";
      }
    }

    /** `DemoBreakBot`: the two Edge bots break their circuit, whatever the
        Break reports; the reply is always a `_success` envelope, with an
        empty message for a bot it does not know. */
    method DemoBreakBot(botGroupName: string, botName: string, now: Time, formatWait: Duration -> string)
      returns (reply: string)
      modifies this
      ensures reply == SuccessEnvelope(BreakMessage(botGroupName, botName))
      ensures edgeState == BreakEdge(botGroupName, botName, old(edgeState), now - old(edgeChangeLastTime) - EdgeChangeWait)
      ensures edgeChangeLastTime == old(edgeChangeLastTime) && currentRequestsPerSecond == old(currentRequestsPerSecond)
      ensures appRequestQueueLength == old(appRequestQueueLength) && databaseState == old(databaseState)
      ensures databaseRequestQueueLength == old(databaseRequestQueueLength) && metrics == old(metrics)
    {
      var message := "";
      if botGroupName == "Edge" {
        if botName == "SFO-WAS-11" {
          var _ := BreakCircuit2(now, formatWait);
          message := "Breaking circuit SFO-WAS-11, please wait about 15 seconds and check Action History";
        } else if botName == "SFO-LAS-27" {
          var _ := BreakCircuit1(now, formatWait);
          message := "Breaking circuit SFO-LAS-27, please wait about 15 seconds and check Action History";
        }
      } else if botGroupName == "Database" {
        message := "Degrading database storage, please wait about 15 seconds and check Action History";
      }
      reply := SuccessEnvelope(message);
    }

    /** `DemoFixBot`: the two Edge bots fix their circuit; anything else
        changes no circuit. */
    method DemoFixBot(botGroupName: string, botName: string) returns (reply: string)
      modifies this
      ensures reply == SuccessEnvelope(FixMessage(botGroupName, botName))
      ensures edgeState == FixEdge(botGroupName, botName, old(edgeState))
      ensures edgeChangeLastTime == old(edgeChangeLastTime) && currentRequestsPerSecond == old(currentRequestsPerSecond)
      ensures appRequestQueueLength == old(appRequestQueueLength) && databaseState == old(databaseState)
      ensures databaseRequestQueueLength == old(databaseRequestQueueLength) && metrics == old(metrics)
    {
      var message := "";
      if botGroupName == "Edge" {
        if botName == "SFO-WAS-11" {
          FixCircuit2();
          message := "Fixing circuit SFO-WAS-11, please wait about 15 seconds and check Edge States";
        } else if botName == "SFO-LAS-27" {
          FixCircuit1();
          message := "Fixing circuit SFO-LAS-27, please wait about 15 seconds and check Edge States";
        }
      } else if botGroupName == "Database" {
        message := "Fixing database storage, please wait about 15 seconds and check Edge States";
      }
      reply := SuccessEnvelope(message);
    }

    /** `ProcessWebDemoAction`, on the decoded form body: dispatch on
        `action`.  `parseFloat` is `strconv.ParseFloat` with its error text,
        `formatRate` the `%0.0f` formatting of the new rate. */
    method ProcessWebDemoAction(input: map<string, string>, site: Site, enableDemo: bool, now: Time,
                                parseFloat: string -> Result<real, string>, formatWait: Duration -> string,
                                formatRate: real -> string)
      returns (reply: string)
      modifies this, site.sessionCache
      ensures WebDemoDone(input, site, enableDemo, now, parseFloat, formatRate, reply)
    {
      if "action" !in input {
        return FailureEnvelope("Invalid Demo Action request, no 'action' field specified.");
      }
      match ActionOf(input["action"])
      case BreakAction =>
        reply := WebBreak(input, site, enableDemo, now, parseFloat, formatWait, formatRate);
      case FixAction =>
        reply := WebFix(input, site, enableDemo, now, parseFloat, formatRate);
      case ClearCommandHistoryAction =>
        ClearCommandHistory(site, enableDemo, now);
        reply := SuccessEnvelope("Command History has been cleared.");
      case SetEdgeTrafficAction =>
        reply := SetEdgeTraffic(input, parseFloat, formatRate);
      case UnknownAction(_) =>
        reply := FailureEnvelope("Unknown action: " + input["action"]);
    }

    /** What a web demo request leaves behind: the reply, the request rate
        and the edge state the request calls for, the production histories
        cleared only by `clear_command_history` with the demo enabled, and
        nothing else changed. */
    twostate predicate WebDemoDone(input: map<string, string>, site: Site, enableDemo: bool, now: Time,
                                   parseFloat: string -> Result<real, string>, formatRate: real -> string,
                                   reply: string)
      reads this, site.sessionCache
    {
      && reply == WebDemoReply(input, parseFloat, formatRate)
      && currentRequestsPerSecond == WebDemoRate(input, parseFloat, old(currentRequestsPerSecond))
      && edgeState == WebDemoEdge(input, old(edgeState), now - old(edgeChangeLastTime) - EdgeChangeWait)
      && (ClearsHistory(input, enableDemo) ==>
            site.productionControl.sessionUUID in site.sessionCache.sessions
            && GroupsHistory(site.sessionCache.sessions[site.productionControl.sessionUUID].botGroups) == [])
      && (!ClearsHistory(input, enableDemo) ==> site.sessionCache.sessions == old(site.sessionCache.sessions))
      && edgeChangeLastTime == old(edgeChangeLastTime) && databaseState == old(databaseState)
      && appRequestQueueLength == old(appRequestQueueLength)
      && databaseRequestQueueLength == old(databaseRequestQueueLength) && metrics == old(metrics)
    }

    /** The `break` action. */
    method WebBreak(input: map<string, string>, site: Site, enableDemo: bool, now: Time,
                    parseFloat: string -> Result<real, string>, formatWait: Duration -> string,
                    formatRate: real -> string) returns (reply: string)
      requires "action" in input && ActionOf(input["action"]) == BreakAction
      modifies this
      ensures WebDemoDone(input, site, enableDemo, now, parseFloat, formatRate, reply)
    {
      BreakRequest(input, parseFloat, currentRequestsPerSecond, edgeState, now - edgeChangeLastTime - EdgeChangeWait, enableDemo);
      reply := DemoBreakBot(MapGet(input, "bot_group"), MapGet(input, "bot"), now, formatWait);
      assert reply == WebDemoReply(input, parseFloat, formatRate);
    }

    /** The `fix` action. */
    method WebFix(input: map<string, string>, site: Site, enableDemo: bool, now: Time,
                  parseFloat: string -> Result<real, string>, formatRate: real -> string) returns (reply: string)
      requires "action" in input && ActionOf(input["action"]) == FixAction
      modifies this
      ensures WebDemoDone(input, site, enableDemo, now, parseFloat, formatRate, reply)
    {
      FixRequest(input, parseFloat, currentRequestsPerSecond, edgeState, now - edgeChangeLastTime - EdgeChangeWait, enableDemo);
      reply := DemoFixBot(MapGet(input, "bot_group"), MapGet(input, "bot"));
      assert reply == WebDemoReply(input, parseFloat, formatRate);
    }

    /** The `set_edge_traffic` action: the new request rate, if `value`
        is present and parses. */
    method SetEdgeTraffic(input: map<string, string>, parseFloat: string -> Result<real, string>,
                          formatRate: real -> string) returns (reply: string)
      modifies this
      ensures "value" !in input ==> reply == FailureEnvelope("Missing key 'value'") && currentRequestsPerSecond == old(currentRequestsPerSecond)
      ensures "value" in input && parseFloat(input["value"]).Err? ==>
        reply == FailureEnvelope("Invalid value: " + parseFloat(input["value"]).error)
        && currentRequestsPerSecond == old(currentRequestsPerSecond)
      ensures "value" in input && parseFloat(input["value"]).Ok? ==>
        currentRequestsPerSecond == parseFloat(input["value"]).value
        && reply == SuccessEnvelope("Edge traffic set to " + formatRate(currentRequestsPerSecond) + " requests per second")
      ensures edgeState == old(edgeState) && edgeChangeLastTime == old(edgeChangeLastTime) && databaseState == old(databaseState)
      ensures appRequestQueueLength == old(appRequestQueueLength)
      ensures databaseRequestQueueLength == old(databaseRequestQueueLength) && metrics == old(metrics)
    {
      if "value" !in input {
        return FailureEnvelope("Missing key 'value'");
      }
      var value := parseFloat(input["value"]);
      if value.Err? {
        return FailureEnvelope("Invalid value: " + value.error);
      }
      currentRequestsPerSecond := value.value;
      reply := SuccessEnvelope("Edge traffic set to " + formatRate(currentRequestsPerSecond) + " requests per second");
    }

    /** The `/fix/circuit` handler of the demo API server: only SFO-WAS-11
        can be fixed from the client; SFO-LAS-27 must be fixed by hand. */
    method FixCircuitRoute(name: string) returns (reply: string)
      modifies this
      ensures name == "SFO-WAS-11" ==> reply == "{\"status\": 201}" && edgeState == FixCircuit2State(old(edgeState))
      ensures name == "SFO-LAS-27" ==> reply == "{\"status\": 501}" && edgeState == old(edgeState)
      ensures name != "SFO-WAS-11" && name != "SFO-LAS-27" ==> reply == "{\"status\": 404}" && edgeState == old(edgeState)
      ensures edgeChangeLastTime == old(edgeChangeLastTime) && currentRequestsPerSecond == old(currentRequestsPerSecond)
      ensures appRequestQueueLength == old(appRequestQueueLength) && databaseState == old(databaseState)
      ensures databaseRequestQueueLength == old(databaseRequestQueueLength) && metrics == old(metrics)
    {
      if name == "SFO-WAS-11" {
        FixCircuit2();
        reply := "{\"status\": 201}";
      } else if name == "SFO-LAS-27" {
        reply := "{\"status\": 501}";
      } else {
        reply := "{\"status\": 404}";
      }
    }
  }

  /** The actions `ProcessWebDemoAction` knows. */
  datatype DemoAction = BreakAction | FixAction | ClearCommandHistoryAction | SetEdgeTrafficAction | UnknownAction(name: string)

  function ActionOf(name: string): (a: DemoAction)
    ensures a.UnknownAction? <==> name !in {"break", "fix", "clear_command_history", "set_edge_traffic"}
    ensures a.UnknownAction? ==> a.name == name
  {
    if name == "break" then BreakAction
    else if name == "fix" then FixAction
    else if name == "clear_command_history" then ClearCommandHistoryAction
    else if name == "set_edge_traffic" then SetEdgeTrafficAction
    else UnknownAction(name)
  }

  /** The `clear_command_history` action: `AdminClearCommandHistory`, which
      empties the production session's histories when the demo is
      enabled. */
  method ClearCommandHistory(site: Site, enableDemo: bool, now: Time)
    modifies site.sessionCache
    ensures enableDemo ==>
      site.productionControl.sessionUUID in site.sessionCache.sessions
      && GroupsHistory(site.sessionCache.sessions[site.productionControl.sessionUUID].botGroups) == []
    ensures !enableDemo ==> site.sessionCache.sessions == old(site.sessionCache.sessions)
  {
    site.AdminClearCommandHistory(enableDemo, now);
  }

  /** Whether a web demo request clears the command history. */
  predicate ClearsHistory(input: map<string, string>, enableDemo: bool)
  {
    "action" in input && ActionOf(input["action"]) == ClearCommandHistoryAction && enableDemo
  }

  /** The reply `ProcessWebDemoAction` sends: a missing or unknown action
      and a missing or unparsable traffic value are failures, everything
      else succeeds. */
  function WebDemoReply(input: map<string, string>, parseFloat: string -> Result<real, string>,
                        formatRate: real -> string): (r: string)
    ensures "action" !in input ==> r == FailureEnvelope("Invalid Demo Action request, no 'action' field specified.")
    ensures "action" in input && ActionOf(input["action"]).UnknownAction? ==>
      r == FailureEnvelope("Unknown action: " + input["action"])
    ensures "action" in input && ActionOf(input["action"]) == BreakAction ==>
      r == SuccessEnvelope(BreakMessage(MapGet(input, "bot_group"), MapGet(input, "bot")))
    ensures "action" in input && ActionOf(input["action"]) == FixAction ==>
      r == SuccessEnvelope(FixMessage(MapGet(input, "bot_group"), MapGet(input, "bot")))
    ensures "action" in input && ActionOf(input["action"]) == ClearCommandHistoryAction ==>
      r == SuccessEnvelope("Command History has been cleared.")
    ensures "action" in input && ActionOf(input["action"]) == SetEdgeTrafficAction ==>
      && ("value" !in input ==> r == FailureEnvelope("Missing key 'value'"))
      && ("value" in input && parseFloat(input["value"]).Err? ==>
            r == FailureEnvelope("Invalid value: " + parseFloat(input["value"]).error))
      && ("value" in input && parseFloat(input["value"]).Ok? ==>
            r == SuccessEnvelope("Edge traffic set to " + formatRate(parseFloat(input["value"]).value) + " requests per second"))
  {
    if "action" !in input then FailureEnvelope("Invalid Demo Action request, no 'action' field specified.")
    else match ActionOf(input["action"])
      case BreakAction => SuccessEnvelope(BreakMessage(MapGet(input, "bot_group"), MapGet(input, "bot")))
      case FixAction => SuccessEnvelope(FixMessage(MapGet(input, "bot_group"), MapGet(input, "bot")))
      case ClearCommandHistoryAction => SuccessEnvelope("Command History has been cleared.")
      case SetEdgeTrafficAction =>
        if "value" !in input then FailureEnvelope("Missing key 'value'")
        else (match parseFloat(input["value"])
          case Err(e) => FailureEnvelope("Invalid value: " + e)
          case Ok(v) => SuccessEnvelope("Edge traffic set to " + formatRate(v) + " requests per second"))
      case UnknownAction(name) => FailureEnvelope("Unknown action: " + name)
  }

  /** The request rate after a web demo request: only a `set_edge_traffic`
      with a value that parses changes it. */
  function WebDemoRate(input: map<string, string>, parseFloat: string -> Result<real, string>, rate: real): (r: real)
    ensures r != rate ==>
      "action" in input && ActionOf(input["action"]) == SetEdgeTrafficAction
      && "value" in input && parseFloat(input["value"]) == Ok(r)
  {
    if "action" in input && ActionOf(input["action"]) == SetEdgeTrafficAction && "value" in input
       && parseFloat(input["value"]).Ok?
    then parseFloat(input["value"]).value
    else rate
  }

  /** The edge state after a web demo request: only `break` and `fix` on
      the two Edge bots touch a circuit, and a break waits out the guard. */
  function WebDemoEdge(input: map<string, string>, s: EdgeState, wait: Duration): (r: EdgeState)
    ensures r != s ==>
      "action" in input && ActionOf(input["action"]) in {BreakAction, FixAction}
      && MapGet(input, "bot_group") == "Edge" && MapGet(input, "bot") in {"SFO-WAS-11", "SFO-LAS-27"}
  {
    if "action" !in input then s
    else
      var group := MapGet(input, "bot_group");
      var bot := MapGet(input, "bot");
      match ActionOf(input["action"])
      case BreakAction => BreakEdge(group, bot, s, wait)
      case FixAction => FixEdge(group, bot, s)
      case _ => s
  }

  /** The edge state a break of a Bot leaves: SFO-WAS-11 breaks circuit 2,
      SFO-LAS-27 circuit 1, once the guard has passed. */
  function BreakEdge(group: string, bot: string, s: EdgeState, wait: Duration): (r: EdgeState)
    ensures r != s ==> group == "Edge" && bot in {"SFO-WAS-11", "SFO-LAS-27"} && wait >= 0
  {
    if group == "Edge" && bot == "SFO-WAS-11" && wait >= 0 then BreakCircuit2State(s)
    else if group == "Edge" && bot == "SFO-LAS-27" && wait >= 0 then BreakCircuit1State(s)
    else s
  }

  /** The edge state a fix of a Bot leaves: SFO-WAS-11 fixes circuit 2,
      SFO-LAS-27 circuit 1. */
  function FixEdge(group: string, bot: string, s: EdgeState): (r: EdgeState)
    ensures r != s ==> group == "Edge" && bot in {"SFO-WAS-11", "SFO-LAS-27"}
  {
    if group == "Edge" && bot == "SFO-WAS-11" then FixCircuit2State(s)
    else if group == "Edge" && bot == "SFO-LAS-27" then FixCircuit1State(s)
    else s
  }

  /** A `break` request changes no rate and clears no history; its edge
      state is the one `DemoBreakBot` leaves. */
  lemma BreakRequest(input: map<string, string>, parseFloat: string -> Result<real, string>, rate: real,
                     s: EdgeState, wait: Duration, enableDemo: bool)
    requires "action" in input && ActionOf(input["action"]) == BreakAction
    ensures WebDemoRate(input, parseFloat, rate) == rate && !ClearsHistory(input, enableDemo)
    ensures WebDemoEdge(input, s, wait) == BreakEdge(MapGet(input, "bot_group"), MapGet(input, "bot"), s, wait)
  {
  }

  /** A `fix` request changes no rate and clears no history; its edge state
      is the one `DemoFixBot` leaves. */
  lemma FixRequest(input: map<string, string>, parseFloat: string -> Result<real, string>, rate: real,
                   s: EdgeState, wait: Duration, enableDemo: bool)
    requires "action" in input && ActionOf(input["action"]) == FixAction
    ensures WebDemoRate(input, parseFloat, rate) == rate && !ClearsHistory(input, enableDemo)
    ensures WebDemoEdge(input, s, wait) == FixEdge(MapGet(input, "bot_group"), MapGet(input, "bot"), s)
  {
  }

  function SuccessEnvelope(message: string): string
  {
    "{\"_success\": \"" + message + "\"}"
  }

  function FailureEnvelope(message: string): string
  {
    "{\"_failure\": \"" + message + "\"}"
  }

  /** The message `DemoBreakBot` puts in its reply. */
  function BreakMessage(botGroupName: string, botName: string): string
  {
    if botGroupName == "Edge" then
      if botName == "SFO-WAS-11" then "Breaking circuit SFO-WAS-11, please wait about 15 seconds and check Action History"
      else if botName == "SFO-LAS-27" then "Breaking circuit SFO-LAS-27, please wait about 15 seconds and check Action History"
      else ""
    else if botGroupName == "Database" then "Degrading database storage, please wait about 15 seconds and check Action History"
    else ""
  }

  /** The message `DemoFixBot` puts in its reply. */
  function FixMessage(botGroupName: string, botName: string): string
  {
    if botGroupName == "Edge" then
      if botName == "SFO-WAS-11" then "Fixing circuit SFO-WAS-11, please wait about 15 seconds and check Edge States"
      else if botName == "SFO-LAS-27" then "Fixing circuit SFO-LAS-27, please wait about 15 seconds and check Edge States"
      else ""
    else if botGroupName == "Database" then "Fixing database storage, please wait about 15 seconds and check Edge States"
    else ""
  }

  /** Every demo reply names its outcome: a break or fix always succeeds,
      and an unknown bot gets an empty message. */
  lemma DemoRepliesSucceed(botGroupName: string, botName: string)
    ensures botGroupName != "Edge" && botGroupName != "Database" ==>
      BreakMessage(botGroupName, botName) == "" && FixMessage(botGroupName, botName) == ""
    ensures botGroupName == "Edge" && botName != "SFO-WAS-11" && botName != "SFO-LAS-27" ==>
      BreakMessage(botGroupName, botName) == "" && FixMessage(botGroupName, botName) == ""
    ensures SuccessEnvelope(BreakMessage(botGroupName, botName)) != FailureEnvelope(BreakMessage(botGroupName, botName))
  {
    assert SuccessEnvelope(BreakMessage(botGroupName, botName))[2] == '_';
    assert SuccessEnvelope(BreakMessage(botGroupName, botName))[3] != FailureEnvelope(BreakMessage(botGroupName, botName))[3];
  }
}
