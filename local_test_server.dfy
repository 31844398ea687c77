/** A model of the lifecycle of LocalTestServer: an in-process graph-database web
    server for integration tests that is started with a bounded readiness poll and
    stopped unconditionally.

    The foreign collaborators (the server object, its web container, the classpath)
    are replaced by an Environment that answers the only questions the lifecycle
    asks of them: does the properties resource exist, what status does the
    container report in each poll iteration, and was each sleep interrupted. */
module LocalTestServerModel {

  /** The container status as one poll iteration sees it. */
  datatype Status = Started | Starting | Failed | Unknown

  /** The outcome of start(): normal return, or the exception it throws. */
  datatype StartResult =
    | Ok               // returned normally
    | IllegalState     // IllegalStateException: a server reference already exists
    | IllegalArgument  // IllegalArgumentException: properties resource not found
    | StartupFailed    // DataAccessResourceFailureException: container reported failure
    | Timeout          // DataAccessResourceFailureException: gave up waiting

  /** What the lifecycle observes of the outside world during one start(). */
  datatype Environment = Environment(
    resources: set<string>,       // resource paths the classpath can resolve
    status: nat -> Status,        // status(k): the snapshot read while sleepCount == k
    interrupted: nat -> bool)     // interrupted(n): the n-th sleep was interrupted

  const DefaultHostname: string := "localhost"
  const DefaultPort: int := 7473
  const DefaultPropertiesFile: string := "test-db.properties"

  /** The loop gives up once sleepCount exceeds this bound. */
  const SleepLimit: nat := 5
  /** Hence at most this many sleeps, and one more status observation. */
  const MaxSleeps: nat := SleepLimit + 1
  const MaxObservations: nat := MaxSleeps + 1

  /** The classpath lookup is made with a leading slash. */
  function ResourcePath(propertiesFile: string): string {
    "/" + propertiesFile
  }

  predicate Resolvable(propertiesFile: string, resources: set<string>) {
    ResourcePath(propertiesFile) in resources
  }

  /** A status that ends the poll without a timeout. */
  predicate Decisive(s: Status) {
    s == Started || s == Failed
  }

  /** The outcome of the readiness loop together with the value of sleepCount
      it leaves with, which is the number of sleeps performed. */
  datatype Readiness = Readiness(result: StartResult, sleeps: nat)

  /** The readiness loop, entered with the given sleepCount: the specification
      of AwaitReadiness. */
  function Poll(status: nat -> Status, sleepCount: nat): (r: Readiness)
    requires sleepCount <= MaxSleeps
    ensures r.result == Ok || r.result == StartupFailed || r.result == Timeout
    ensures sleepCount <= r.sleeps <= MaxSleeps
    ensures forall i :: sleepCount <= i < r.sleeps ==> !Decisive(status(i))
    ensures r.result == Ok <==> status(r.sleeps) == Started
    ensures r.result == StartupFailed <==> status(r.sleeps) == Failed
    ensures r.result == Timeout <==> r.sleeps == MaxSleeps && !Decisive(status(MaxSleeps))
    decreases MaxSleeps - sleepCount
  {
    if status(sleepCount) == Started then Readiness(Ok, sleepCount)
    else if status(sleepCount) == Failed then Readiness(StartupFailed, sleepCount)
    else if sleepCount > SleepLimit then Readiness(Timeout, sleepCount)
    else Poll(status, sleepCount + 1)
  }

  /** The sleeps, numbered from 1 to n, that were interrupted. */
  ghost function InterruptedSleeps(interrupted: nat -> bool, n: nat): set<nat> {
    set k: nat | 1 <= k <= n && interrupted(k)
  }

  /** The number of interrupted sleeps among the first n. */
  function Interruptions(interrupted: nat -> bool, n: nat): (c: nat)
    ensures c == |InterruptedSleeps(interrupted, n)|
    ensures c <= n
    ensures c == 0 <== forall k :: 1 <= k <= n ==> !interrupted(k)
    ensures c == n <== forall k :: 1 <= k <= n ==> interrupted(k)
  {
    if n == 0 then
      assert InterruptedSleeps(interrupted, n) == {};
      0
    else
      var rest := Interruptions(interrupted, n - 1);
      if interrupted(n) then
        assert InterruptedSleeps(interrupted, n) == InterruptedSleeps(interrupted, n - 1) + {n};
        rest + 1
      else
        assert InterruptedSleeps(interrupted, n) == InterruptedSleeps(interrupted, n - 1);
        rest
  }

  /** The readiness loop of start(). It reads one status snapshot per iteration;
      it increments sleepCount before each sleep, and an interrupted sleep is
      only reported (counted in interruptions) before polling goes on. */
  method AwaitReadiness(status: nat -> Status, interrupted: nat -> bool)
    returns (r: StartResult, sleeps: nat, interruptions: nat)
    ensures Readiness(r, sleeps) == Poll(status, 0)
    ensures sleeps <= MaxSleeps
    ensures interruptions == Interruptions(interrupted, sleeps)
  {
    var sleepCount: nat := 0;
    interruptions := 0;
    while status(sleepCount) != Started
      invariant sleepCount <= MaxSleeps
      invariant Poll(status, sleepCount) == Poll(status, 0)
      invariant interruptions == Interruptions(interrupted, sleepCount)
      decreases MaxSleeps - sleepCount
    {
      if status(sleepCount) == Failed {
        return StartupFailed, sleepCount, interruptions;
      }
      if sleepCount > SleepLimit {
        return Timeout, sleepCount, interruptions;
      }
      sleepCount := sleepCount + 1;
      if interrupted(sleepCount) {
        interruptions := interruptions + 1;
      }
    }
    return Ok, sleepCount, interruptions;
  }

  /** The readiness loop returns normally exactly when some observation reports
      Started and every earlier one was neither started nor failed. */
  lemma ReadyIffFirstDecisiveIsStarted(status: nat -> Status)
    ensures Poll(status, 0).result == Ok <==>
      exists i :: 0 <= i <= MaxSleeps && status(i) == Started &&
                  (forall j :: 0 <= j < i ==> !Decisive(status(j)))
  {
  }

  /** A Failed report on any observation fails the start, provided no earlier
      observation was decisive; this includes the seventh and last observation,
      where the failure check comes before the timeout check. */
  lemma FailedBeatsTimeout(status: nat -> Status, i: nat)
    requires i <= MaxSleeps && status(i) == Failed
    requires forall j :: 0 <= j < i ==> !Decisive(status(j))
    ensures Poll(status, 0) == Readiness(StartupFailed, i)
  {
  }

  /** The loop times out exactly when none of the seven observations is decisive. */
  lemma TimeoutIffNoDecisiveObservation(status: nat -> Status)
    ensures Poll(status, 0).result == Timeout <==>
      forall i :: 0 <= i < MaxObservations ==> !Decisive(status(i))
  {
  }

  /** The lifecycle state of one LocalTestServer, as a value. */
  datatype Controller = Controller(hasServer: bool, propertiesFile: string)

  datatype Step = Step(after: Controller, result: StartResult)

  /** start() as a state transition: the specification of LocalTestServer.Start. */
  function StartStep(c: Controller, env: Environment): (s: Step)
    ensures s.after.propertiesFile == c.propertiesFile
    ensures s.result == IllegalState <==> c.hasServer
    ensures s.result == IllegalState ==> s.after == c
    ensures s.result == IllegalArgument <==>
      !c.hasServer && !Resolvable(c.propertiesFile, env.resources)
    ensures s.after.hasServer <==> s.result != IllegalArgument
    ensures !c.hasServer && Resolvable(c.propertiesFile, env.resources) ==>
              s.result == Poll(env.status, 0).result
    ensures s.result == Ok ==> env.status(Poll(env.status, 0).sleeps) == Started
  {
    if c.hasServer then Step(c, IllegalState)
    else if !Resolvable(c.propertiesFile, env.resources) then Step(c, IllegalArgument)
    else Step(c.(hasServer := true), Poll(env.status, 0).result)
  }

  /** stop() as a state transition: whatever the teardown does, no server is left. */
  function StopStep(c: Controller): (d: Controller)
    ensures !d.hasServer
    ensures d.propertiesFile == c.propertiesFile
  {
    c.(hasServer := false)
  }

  /** A start that gets past the resource check leaves a server reference behind,
      even when it fails or times out, so a second start without stop is rejected
      and changes nothing. */
  lemma RestartWithoutStopIsRejected(c: Controller, env1: Environment, env2: Environment)
    requires StartStep(c, env1).result != IllegalArgument
    ensures StartStep(StartStep(c, env1).after, env2) == Step(StartStep(c, env1).after, IllegalState)
  {
  }

  /** A start that gets past the guard and the resource check fails with
      StartupFailed as soon as the first decisive observation is Failed, even the
      seventh, and with Timeout exactly when no observation is decisive. */
  lemma StartFailsOnFailedOrTimesOut(c: Controller, env: Environment, i: nat)
    requires !c.hasServer && Resolvable(c.propertiesFile, env.resources)
    ensures i <= MaxSleeps && env.status(i) == Failed &&
            (forall j :: 0 <= j < i ==> !Decisive(env.status(j))) ==>
              StartStep(c, env).result == StartupFailed
    ensures StartStep(c, env).result == Timeout <==>
              forall k :: 0 <= k < MaxObservations ==> !Decisive(env.status(k))
  {
  }

  /** A start that cannot resolve its properties resource creates no server. */
  lemma MissingResourceCreatesNoServer(c: Controller, env: Environment)
    requires !c.hasServer && !Resolvable(c.propertiesFile, env.resources)
    ensures StartStep(c, env) == Step(c, IllegalArgument)
  {
  }

  /** stop() is idempotent, and after it the guard of start() no longer fires. */
  lemma StopIsIdempotentAndUnblocksStart(c: Controller, env: Environment)
    ensures StopStep(StopStep(c)) == StopStep(c)
    ensures StartStep(StopStep(c), env).result != IllegalState
  {
  }

  /** A normal return from start() means the container reported Started on the
      last observation and on no earlier one reported failure. */
  lemma NormalStartSawStarted(c: Controller, env: Environment)
    requires StartStep(c, env).result == Ok
    ensures !c.hasServer && Resolvable(c.propertiesFile, env.resources)
    ensures exists i :: 0 <= i <= MaxSleeps && env.status(i) == Started &&
                        (forall j :: 0 <= j < i ==> !Decisive(env.status(j)))
  {
  }

  class LocalTestServer {
    /** Stands for `neoServer != null`. */
    var hasServer: bool
    const port: int
    const hostname: string
    var propertiesFile: string

    function State(): (c: Controller)
      reads this
      ensures c.hasServer == hasServer && c.propertiesFile == propertiesFile
    {
      Controller(hasServer, propertiesFile)
    }

    constructor (hostname: string, port: int)
      ensures this.hostname == hostname && this.port == port
      ensures State() == Controller(false, DefaultPropertiesFile)
    {
      this.hostname := hostname;
      this.port := port;
      hasServer := false;
      propertiesFile := DefaultPropertiesFile;
    }

    constructor Default()
      ensures hostname == DefaultHostname && port == DefaultPort
      ensures State() == Controller(false, DefaultPropertiesFile)
    {
      hostname := DefaultHostname;
      port := DefaultPort;
      hasServer := false;
      propertiesFile := DefaultPropertiesFile;
    }

    method Start(env: Environment) returns (r: StartResult)
      modifies this
      ensures Step(State(), r) == StartStep(old(State()), env)
      ensures old(hasServer) ==> r == IllegalState && unchanged(this)
    {
      if hasServer {
        return IllegalState;
      }
      if !Resolvable(propertiesFile, env.resources) {
        return IllegalArgument;
      }
      hasServer := true;
      var sleeps, interruptions;
      r, sleeps, interruptions := AwaitReadiness(env.status, env.interrupted);
    }

    /** stop() throws no Exception. `teardownThrows` says whether the server's own
        stop raises an Exception; `caught` says whether the catch block ran and printed an error,
        which also happens when there is no server (the null dereference). */
    method Stop(teardownThrows: bool) returns (caught: bool)
      modifies this
      ensures State() == StopStep(old(State()))
      ensures caught <==> !old(hasServer) || teardownThrows
    {
      caught := !hasServer || teardownThrows;
      hasServer := false;
    }

    function GetPort(): (p: int)
      ensures p == port
    {
      port
    }

    function GetHostname(): (h: string)
      ensures h == hostname
    {
      hostname
    }

    /** Fluent setter: changes only the properties file and returns this object. */
    method WithPropertiesFile(name: string) returns (self: LocalTestServer)
      modifies this
      ensures self == this
      ensures State() == old(State()).(propertiesFile := name)
    {
      propertiesFile := name;
      return this;
    }
  }
}
