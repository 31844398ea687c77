# LocalTestServer lifecycle model

`LocalTestServer` (spring-data-neo4j-rest, test support) boots an in-process Neo4j
server behind an embedded Jetty container for integration tests and tears it down
afterwards. This project models its lifecycle in Dafny:

- the class `LocalTestServer` with the mutable server reference (`hasServer` stands
  for `neoServer != null`), the fixed endpoint (`port`, `hostname`, declared `const`
  like the Java `final` fields) and the mutable `propertiesFile`;
- `start()`: the "already running" guard, the properties-resource check, the
  creation of the server (represented only by `hasServer := true`) and the bounded
  readiness loop, which is the method `AwaitReadiness` proved against the recursive
  specification function `Poll`;
- `stop()`, which swallows every Exception and then clears the reference;
- the accessors and the fluent `withPropertiesFile`.

The outside world is an `Environment`: the set of classpath resource paths (the
lookup is `"/" + propertiesFile`), the container status seen in each loop iteration
(`status(k)` is the snapshot read while `sleepCount == k`) and whether each sleep is
interrupted. `start()` returns a `StartResult` instead of throwing: `Ok`,
`IllegalState`, `IllegalArgument`, `StartupFailed` or `Timeout` (the last two are both
`DataAccessResourceFailureException` in the source).

`StartStep` and `StopStep` describe `start()` and `stop()` as transitions on the value
`Controller(hasServer, propertiesFile)`; the class methods are proved to follow them,
and the lifecycle lemmas are stated on them.

Behaviour of the code worth noting:

- The loop observes the status up to seven times and sleeps up to six times: the
  timeout check `sleepCount > 5` runs after the failure check and before the
  increment, so the seventh observation can still report Started or Failed.
- A start that fails or times out leaves the server reference set (it is assigned
  before the loop), so a second `start()` without `stop()` is rejected with
  `IllegalState`; there is no separate "Failed" state.
- `stop()` without a server is a no-op: the null dereference is caught by the
  same `catch (Exception e)` that absorbs teardown Exceptions.
- `withPropertiesFile` has no guard; it may be called at any time.

## Model

| member | source | states |
|---|---|---|
| `LocalTestServerModel.Poll` | spring-data-neo4j-rest/src/test/java/org/springframework/data/neo4j/rest/support/LocalTestServer.java:111-131 | the loop ends with Ok, StartupFailed or Timeout after at most 6 sleeps (7 observations); every observation before the last was neither started nor failed; Ok exactly when the last one is Started, StartupFailed exactly when it is Failed, Timeout exactly when 6 sleeps were made and the 7th observation is neither |
| `LocalTestServerModel.Interruptions` | spring-data-neo4j-rest/src/test/java/org/springframework/data/neo4j/rest/support/LocalTestServer.java:124-130 | the number of interrupted sleeps reported is exactly the size of the set of interrupted sleeps among those made, hence at most the number of sleeps, zero when none is interrupted and all of them when all are |
| `LocalTestServerModel.AwaitReadiness` | spring-data-neo4j-rest/src/test/java/org/springframework/data/neo4j/rest/support/LocalTestServer.java:110-131 | the loop's result and final sleepCount are those of `Poll` whatever the interruptions; sleepCount never exceeds 6; interrupted sleeps are counted and still consume an attempt |
| `LocalTestServerModel.ReadyIffFirstDecisiveIsStarted` | spring-data-neo4j-rest/src/test/java/org/springframework/data/neo4j/rest/support/LocalTestServer.java:112 | the loop returns normally if and only if some observation among the seven is Started and none before it was Started or Failed |
| `LocalTestServerModel.FailedBeatsTimeout` | spring-data-neo4j-rest/src/test/java/org/springframework/data/neo4j/rest/support/LocalTestServer.java:118-123 | a Failed observation preceded only by indecisive ones yields StartupFailed at that observation, even the seventh, because the failure check precedes the timeout check |
| `LocalTestServerModel.TimeoutIffNoDecisiveObservation` | spring-data-neo4j-rest/src/test/java/org/springframework/data/neo4j/rest/support/LocalTestServer.java:121-123 | the loop times out if and only if none of the seven observations is Started or Failed |
| `LocalTestServerModel.StartStep` | spring-data-neo4j-rest/src/test/java/org/springframework/data/neo4j/rest/support/LocalTestServer.java:65-131 | IllegalState exactly when a server exists, with nothing changed; IllegalArgument exactly when none exists and the resource is missing, with no server created; otherwise a server exists afterwards whatever the loop's outcome and the result is exactly the readiness loop's (`Poll`): Ok only when the container reported Started, StartupFailed or Timeout as the loop decides; the properties file never changes |
| `LocalTestServerModel.StopStep` | spring-data-neo4j-rest/src/test/java/org/springframework/data/neo4j/rest/support/LocalTestServer.java:134-141 | after stop no server reference remains and the properties file is kept |
| `LocalTestServerModel.StartFailsOnFailedOrTimesOut` | spring-data-neo4j-rest/src/test/java/org/springframework/data/neo4j/rest/support/LocalTestServer.java:118-123 | once past the guard and the resource check, start fails with StartupFailed when the first decisive observation is Failed (even the seventh), and times out if and only if none of the seven observations is Started or Failed |
| `LocalTestServerModel.RestartWithoutStopIsRejected` | spring-data-neo4j-rest/src/test/java/org/springframework/data/neo4j/rest/support/LocalTestServer.java:65-108 | after any start that passed the resource check (including one that failed or timed out), a second start fails with IllegalState and leaves the state unchanged |
| `LocalTestServerModel.MissingResourceCreatesNoServer` | spring-data-neo4j-rest/src/test/java/org/springframework/data/neo4j/rest/support/LocalTestServer.java:67-68 | with no server and an unresolvable properties file, start fails with IllegalArgument and the state is unchanged |
| `LocalTestServerModel.StopIsIdempotentAndUnblocksStart` | spring-data-neo4j-rest/src/test/java/org/springframework/data/neo4j/rest/support/LocalTestServer.java:134-141 | stopping twice is the same as stopping once, and a start after stop is never rejected by the guard |
| `LocalTestServerModel.NormalStartSawStarted` | spring-data-neo4j-rest/src/test/java/org/springframework/data/neo4j/rest/support/LocalTestServer.java:65-112 | a normal return from start implies no server existed, the resource resolved, and some observation was Started with no earlier Started or Failed |
| `LocalTestServerModel.LocalTestServer.constructor` | spring-data-neo4j-rest/src/test/java/org/springframework/data/neo4j/rest/support/LocalTestServer.java:54-63 | the endpoint is the one given, there is no server, and the properties file is "test-db.properties" |
| `LocalTestServerModel.LocalTestServer.Default` | spring-data-neo4j-rest/src/test/java/org/springframework/data/neo4j/rest/support/LocalTestServer.java:56-58 | the endpoint is localhost:7473, with no server and the default properties file |
| `LocalTestServerModel.LocalTestServer.Start` | spring-data-neo4j-rest/src/test/java/org/springframework/data/neo4j/rest/support/LocalTestServer.java:65-131 | the new state and the result are those of `StartStep` on the old state; a start while a server exists changes no field |
| `LocalTestServerModel.LocalTestServer.Stop` | spring-data-neo4j-rest/src/test/java/org/springframework/data/neo4j/rest/support/LocalTestServer.java:134-141 | throws no Exception; the new state is `StopStep` of the old; the catch block runs exactly when there was no server or the teardown threw |
| `LocalTestServerModel.LocalTestServer.GetPort` | spring-data-neo4j-rest/src/test/java/org/springframework/data/neo4j/rest/support/LocalTestServer.java:143-145 | returns the port; that it never changes comes from its `const` declaration and the constructors' ensures, not from this accessor's contract |
| `LocalTestServerModel.LocalTestServer.GetHostname` | spring-data-neo4j-rest/src/test/java/org/springframework/data/neo4j/rest/support/LocalTestServer.java:147-149 | returns the hostname; that it never changes comes from its `const` declaration and the constructors' ensures, not from this accessor's contract |
| `LocalTestServerModel.LocalTestServer.WithPropertiesFile` | spring-data-neo4j-rest/src/test/java/org/springframework/data/neo4j/rest/support/LocalTestServer.java:151-154 | sets only the properties file and returns the same object |

## Left out

- Building the Neo4j and Jetty collaborators (the anonymous `Bootstrapper`, database factory, address resolver, `NeoServerWithEmbeddedWebServer`, `Jetty6WebServer`, lines 69-107): foreign library objects; the model records only that a server now exists.
- `neoServer.start()` and `setStopAtShutdown(true)` (lines 108-109): foreign side effects; the model keeps only the statuses they lead the container to report, the sequence in `Environment`.
- Exceptions from the foreign calls in `start()`: building the collaborators (lines 101-102, e.g. the `PropertyFileConfigurator` for a resource inside a jar) can throw with the reference still null, and `neoServer.start()` or `getJetty()` (lines 108-118) can throw with it set. `StartResult` has no case for either; the model assumes these calls return normally, and `StartStep`, `Start` and `RestartWithoutStopIsRejected` hold only under that assumption.
- LocalTestServerModel.LocalTestServer.Stop: `teardownThrows` stands for an Exception from the server's own stop; a `java.lang.Error` (AssertionError, OutOfMemoryError, ...) escapes the `catch (Exception e)` at line 137, skips the reset at line 140 and leaves the reference set, which is not modelled.
- Re-reads of the container status within one iteration (lines 112-118): the model takes one snapshot per iteration, so a status change between the loop test and the failure test is not represented.
- `Thread.sleep(500L)` and elapsed time: each sleep is a step that is interrupted or not; duration is not modelled.
- The classpath lookup `getClass().getResource` (line 67): replaced by membership of `"/" + propertiesFile` in a given set of resource paths.
- Console output on `System.out`/`System.err`: not modelled, except that `AwaitReadiness` counts the interrupted sleeps it reports and `Stop` returns whether its catch block ran.
- What the server's own `stop()` does: a boolean input says whether it throws.
- `getDatabase`, `baseUri`, `getGraphDatabase` and `cleanDb` (lines 155-170): one-line delegations to the foreign server; `Neo4jDatabaseCleaner` is not part of this model.
