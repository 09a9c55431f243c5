/** The request coalescer of lib/notion/getNotionAPI.js (`callNotion`): a
    process-wide map from a call key, `methodName-JSON(args)`, to the promise
    of the execution in flight for it. A call with a key already in flight
    joins that execution; otherwise exactly one execution starts and is
    registered under the key until it settles, with success or failure.

    Promises become discrete events: `Call` returns the id of the execution
    whose promise the caller receives, and `Settle` is that promise's
    `finally` handler. `JSON.stringify(args)` is taken as given: a call
    carries its arguments already serialised. */
module Coalescer {
  import opened Strings
  import opened Platform

  /** How an execution was started: queued through the rate limiter, or run
      directly. */
  datatype Route = Direct | RateLimited

  /** One execution of a client method, in start order. */
  datatype Execution = Execution(key: string, route: Route)

  /** How a settled execution ended. */
  datatype Settlement = Fulfilled | Rejected

  /** `inflight` maps a key to the id (index into `started`) of its pending
      execution; `settled` records how finished executions ended.
      `unhandled` counts the rejections nobody handles: the promise that
      `promise.finally(...)` returns is dropped, and it rejects whenever the
      execution does, even though the caller handles the original promise. */
  datatype State = State(inflight: map<string, nat>, started: seq<Execution>, settled: map<nat, Settlement>,
                         unhandled: nat)

  /** The empty store a process begins with. */
  const Initial: State := State(map[], [], map[], 0)

  /** `useRateLimiter`: calls are queued through the rate limiter when
      BUILD_MODE or EXPORT is set to any non-empty string (even "false"). */
  predicate UseRateLimiter(env: ProcessEnv) {
    env.buildMode != "" || env.exportMode != ""
  }

  /** What stays fixed for a process: the names the Notion client answers as
      functions, and the environment it was started with. */
  datatype Client = Client(methods: set<string>, env: ProcessEnv)

  /** The answer to one call. */
  datatype Reply = NotAFunction(message: string) | Joined(id: nat) | Started(id: nat)

  /** The coalescing key of a call: the method name, a dash, and the
      serialised arguments. */
  function Key(methodName: string, argsJson: string): (k: string)
    ensures StartsWith(k, methodName + "-")
    ensures k[|methodName| + 1..] == argsJson
  {
    methodName + "-" + argsJson
  }

  /** For method names without a dash, such as the client's `getPage`,
      `getBlocks` and `getUsers`, two calls share a key exactly when they
      name the same method with the same arguments. */
  lemma KeyInjective(m1: string, a1: string, m2: string, a2: string)
    requires '-' !in m1 && '-' !in m2
    ensures Key(m1, a1) == Key(m2, a2) <==> m1 == m2 && a1 == a2
  {
    var k1, k2 := Key(m1, a1), Key(m2, a2);
    if k1 == k2 {
      if |m1| < |m2| {
        ShorterNameOtherKey(m1, a1, m2, a2);
      } else if |m2| < |m1| {
        ShorterNameOtherKey(m2, a2, m1, a1);
      }
      assert m1 == k1[..|m1|] == k2[..|m2|] == m2;
    }
  }

  /** The dash that ends a shorter name would have to sit inside the longer
      one. */
  lemma ShorterNameOtherKey(m1: string, a1: string, m2: string, a2: string)
    requires |m1| < |m2| && '-' !in m2
    ensures Key(m1, a1) != Key(m2, a2)
  {
    assert Key(m1, a1)[|m1|] == '-';
    assert Key(m2, a2)[|m1|] == m2[|m1|];
  }

  /** An execution has started and not yet settled. */
  predicate Pending(st: State, id: nat) {
    id < |st.started| && id !in st.settled
  }

  /** The store's invariant: every execution is pending or settled, never
      both, and an execution is pending exactly when its key maps to it. */
  predicate Valid(st: State) {
    && (forall k :: k in st.inflight ==> st.inflight[k] < |st.started| && st.started[st.inflight[k]].key == k)
    && (forall id :: id in st.settled ==> id < |st.started|)
    && (forall id :: 0 <= id < |st.started| ==>
          (id !in st.settled <==> (st.started[id].key in st.inflight && st.inflight[st.started[id].key] == id)))
  }

  lemma InitialValid()
    ensures Valid(Initial)
  {
  }

  /** `callNotion(methodName, ...args)`. */
  function Call(client: Client, st: State, methodName: string, argsJson: string): (res: (State, Reply))
    // a name that is not a client function throws and leaves the map alone
    ensures methodName !in client.methods ==>
              res == (st, NotAFunction(methodName + " is not a function"))
    // a key already in flight returns the stored promise; nothing starts
    ensures methodName in client.methods && Key(methodName, argsJson) in st.inflight ==>
              res == (st, Joined(st.inflight[Key(methodName, argsJson)]))
    // otherwise exactly one execution starts and is registered under the key
    ensures methodName in client.methods && Key(methodName, argsJson) !in st.inflight ==>
              var (st', reply) := res;
              && reply == Started(|st.started|)
              && |st'.started| == |st.started| + 1
              && st'.started[..|st.started|] == st.started
              && st'.started[|st.started|].key == Key(methodName, argsJson)
              && (st'.started[|st.started|].route == RateLimited <==> UseRateLimiter(client.env))
              && st'.inflight == st.inflight[Key(methodName, argsJson) := |st.started|]
              && st'.settled == st.settled
              && st'.unhandled == st.unhandled
  {
    if methodName !in client.methods then
      (st, NotAFunction(methodName + " is not a function"))
    else
      var key := Key(methodName, argsJson);
      if key in st.inflight then
        (st, Joined(st.inflight[key]))
      else
        var id := |st.started|;
        var route := if UseRateLimiter(client.env) then RateLimited else Direct;
        (State(st.inflight[key := id], st.started + [Execution(key, route)], st.settled, st.unhandled), Started(id))
  }

  /** The `finally` handler of the promise registered under `key`: the key
      leaves the map whether the execution fulfilled or rejected, and a
      rejection also rejects the dropped promise `finally` returned. */
  function Settle(st: State, key: string, outcome: Settlement): (st': State)
    ensures st'.inflight == st.inflight - {key}
    ensures st'.started == st.started
    ensures key in st.inflight ==> st'.settled == st.settled[st.inflight[key] := outcome]
    ensures key !in st.inflight ==> st'.settled == st.settled
    ensures st'.unhandled == st.unhandled + (if key in st.inflight && outcome == Rejected then 1 else 0)
  {
    if key in st.inflight then
      var raised := if outcome == Rejected then 1 else 0;
      State(st.inflight - {key}, st.started, st.settled[st.inflight[key] := outcome], st.unhandled + raised)
    else
      State(st.inflight - {key}, st.started, st.settled, st.unhandled)
  }

  lemma CallPreservesValid(client: Client, st: State, methodName: string, argsJson: string)
    requires Valid(st)
    ensures Valid(Call(client, st, methodName, argsJson).0)
  {
    var key := Key(methodName, argsJson);
    if methodName in client.methods && key !in st.inflight {
      var st' := Call(client, st, methodName, argsJson).0;
      var n := |st.started|;
      forall id | 0 <= id < |st'.started|
        ensures id !in st'.settled <==>
                (st'.started[id].key in st'.inflight && st'.inflight[st'.started[id].key] == id)
      {
        if id < n {
          assert st'.started[id] == st.started[id];
          if st.started[id].key == key {
            // the key was not in flight, so this older execution has settled
            assert id in st.settled;
          }
        }
      }
    }
  }

  lemma SettlePreservesValid(st: State, key: string, outcome: Settlement)
    requires Valid(st)
    ensures Valid(Settle(st, key, outcome))
  {
    var st' := Settle(st, key, outcome);
    forall id | 0 <= id < |st'.started|
      ensures id !in st'.settled <==>
              (st'.started[id].key in st'.inflight && st'.inflight[st'.started[id].key] == id)
    {
      if key in st.inflight && id == st.inflight[key] {
        assert st.started[id].key == key;
      }
    }
  }

  /** At most one execution is pending per key, and it is the one the map
      holds. */
  lemma AtMostOnePendingPerKey(st: State, i: nat, j: nat)
    requires Valid(st)
    requires Pending(st, i) && Pending(st, j)
    requires st.started[i].key == st.started[j].key
    ensures i == j
    ensures st.inflight[st.started[i].key] == i
  {
  }

  /** Every caller of a key while it is in flight receives the same
      execution, so they all observe one settlement. */
  lemma JoinersShareExecution(client: Client, st: State, methodName: string, argsJson: string)
    requires Valid(st)
    requires methodName in client.methods
    ensures var (st1, r1) := Call(client, st, methodName, argsJson);
            var (st2, r2) := Call(client, st1, methodName, argsJson);
            && st2 == st1
            && r2.Joined?
            && (r1.Started? || r1.Joined?)
            && r2.id == r1.id
            && Pending(st2, r2.id)
  {
  }

  /** Once the execution of a key settles, success or failure alike, the
      next identical call starts a fresh execution instead of replaying the
      settled one: failures are not cached. */
  lemma SettledKeyStartsFresh(client: Client, st: State, methodName: string, argsJson: string,
                              outcome: Settlement)
    requires Valid(st)
    requires methodName in client.methods
    requires Key(methodName, argsJson) in st.inflight
    ensures var old_id := st.inflight[Key(methodName, argsJson)];
            var st1 := Settle(st, Key(methodName, argsJson), outcome);
            var (st2, r) := Call(client, st1, methodName, argsJson);
            && r == Started(|st.started|)
            && r.id != old_id
            && st2.settled[old_id] == outcome
            && st2.unhandled == st.unhandled + (if outcome == Rejected then 1 else 0)
  {
  }

  /** The events a process goes through. */
  datatype Event = CallEvent(methodName: string, argsJson: string) | SettleEvent(key: string, outcome: Settlement)

  function Step(client: Client, st: State, e: Event): State {
    match e
    case CallEvent(m, a) => Call(client, st, m, a).0
    case SettleEvent(k, o) => Settle(st, k, o)
  }

  /** The store after a sequence of events. */
  function Run(client: Client, st: State, events: seq<Event>): State
    decreases |events|
  {
    if |events| == 0 then st else Run(client, Step(client, st, events[0]), events[1..])
  }

  /** Every store a process reaches from the empty one is valid, so at any
      instant at most one execution per key is in flight. */
  lemma {:induction false} RunPreservesValid(client: Client, st: State, events: seq<Event>)
    requires Valid(st)
    ensures Valid(Run(client, st, events))
    decreases |events|
  {
    if |events| > 0 {
      match events[0] {
        case CallEvent(m, a) => CallPreservesValid(client, st, m, a);
        case SettleEvent(k, o) => SettlePreservesValid(st, k, o);
      }
      RunPreservesValid(client, Step(client, st, events[0]), events[1..]);
    }
  }

  /** Every execution ever started takes the same route: through the rate
      limiter exactly when the process runs with it. */
  predicate RoutedBy(client: Client, st: State) {
    forall id :: 0 <= id < |st.started| ==> (st.started[id].route == RateLimited <==> UseRateLimiter(client.env))
  }

  lemma {:induction false} RunKeepsRoute(client: Client, st: State, events: seq<Event>)
    requires RoutedBy(client, st)
    ensures RoutedBy(client, Run(client, st, events))
    decreases |events|
  {
    if |events| > 0 {
      var st1 := Step(client, st, events[0]);
      assert RoutedBy(client, st1) by {
        forall id | 0 <= id < |st1.started|
          ensures st1.started[id].route == RateLimited <==> UseRateLimiter(client.env)
        {
          if id < |st.started| {
            assert st1.started[id] == st.started[id];
          }
        }
      }
      RunKeepsRoute(client, st1, events[1..]);
    }
  }

  /** From the empty store, every execution a process starts is queued
      through the rate limiter exactly when BUILD_MODE or EXPORT is set. */
  lemma RunRoutesByEnv(client: Client, events: seq<Event>)
    ensures var st := Run(client, Initial, events);
            forall id :: 0 <= id < |st.started| ==>
              (st.started[id].route == RateLimited <==> client.env.buildMode != "" || client.env.exportMode != "")
  {
    RunKeepsRoute(client, Initial, events);
  }

  /** BUILD_MODE set to the string "false" still queues calls: the flag is
      tested for being set, not for its value. */
  lemma FalseBuildModeStillQueues(client: Client, methodName: string, argsJson: string)
    requires client.env.buildMode == "false"
    requires methodName in client.methods
    ensures var (st, r) := Call(client, Initial, methodName, argsJson);
            r == Started(0) && st.started[0].route == RateLimited
  {
  }
}
