/** Authorization/middleware.go and DatabaseEngine/RatelimitRepo.go: a counter per address that is read,
    then incremented, then given an expiry, by separate Redis commands of many requests at once. */
module RateLimiter {
  import opened Wrappers
  import opened Redis

  const LIMIT: int := 15
  const WINDOW: int := 15 * 60

  // ---- the commands ----

  type Counters = map<string, Entry<int>>

  /** GET with a missing key read as zero. */
  function Count(db: Counters, now: int, key: string): int {
    if Live(db, now, key) then db[key].value else 0
  }

  /** INCR: a missing key starts at one, without an expiry. */
  function Incr(db: Counters, now: int, key: string): Counters {
    db[key := if Live(db, now, key) then db[key].(value := db[key].value + 1) else Entry(1, None)]
  }

  /** One request served without interruption. */
  function Served(db: Counters, now: int, key: string): Counters {
    if Count(db, now, key) >= LIMIT then db
    else if Count(Incr(db, now, key), now, key) == 1 then Expire(Incr(db, now, key), now, key, WINDOW)
    else Incr(db, now, key)
  }

  // ---- the repository and the middleware ----

  datatype Answer = Unlimited | Denied | Admitted(remaining: int)

  class RateRepo {
    var counters: Counters
    var now: int

    constructor (start: int)
      ensures counters == map[] && now == start
    {
      counters, now := map[], start;
    }

    method CheckLimit(address: string) returns (count: int)
      ensures count == Count(counters, now, "ratelimit:" + address)
    {
      var key := "ratelimit:" + address;
      count := 0;
      if key in counters && (counters[key].expiry.None? || now < counters[key].expiry.value) {
        count := counters[key].value;
      }
    }

    /** The expiry is set only by the request that started the counter. */
    method Increment(address: string, window: int) returns (count: int)
      requires window > 0
      modifies this`counters
      ensures count == Count(old(counters), now, "ratelimit:" + address) + 1
      ensures var incremented := Incr(old(counters), now, "ratelimit:" + address);
              counters == if count == 1 then Expire(incremented, now, "ratelimit:" + address, window) else incremented
    {
      var key := "ratelimit:" + address;
      counters := Incr(counters, now, key);
      count := counters[key].value;
      if count == 1 {
        counters := Expire(counters, now, key, window);
      }
    }

    method RateLimiting(clientIP: string) returns (answer: Answer)
      modifies this`counters
      ensures clientIP == "::1" || clientIP == "127.0.0.1" ==> answer == Unlimited && counters == old(counters)
      ensures clientIP != "::1" && clientIP != "127.0.0.1" ==>
                var key := "ratelimit:" + clientIP;
                && counters == Served(old(counters), now, key)
                && answer == if Count(old(counters), now, key) >= LIMIT then Denied
                             else Admitted(LIMIT - Count(old(counters), now, key) - 1)
    {
      if clientIP == "::1" || clientIP == "127.0.0.1" {
        return Unlimited;
      }
      var limit := CheckLimit(clientIP);
      if limit >= LIMIT {
        return Denied;
      }
      var newLimit := Increment(clientIP, WINDOW);
      return Admitted(LIMIT - newLimit);
    }
  }

  // ---- many requests at once ----

  /** An increment that let a request through: when, and in which life of the counter. */
  datatype Admission = Admission(key: string, at: int, window: nat)

  /** passed: requests that read a count below the limit and have not incremented yet.
      owing: requests whose increment returned one and whose EXPIRE is still to come.
      log and starts are history: the admissions, and when each life of a counter began. */
  datatype State = State(
    now: int,
    counters: Counters,
    passed: map<nat, string>,
    owing: map<nat, string>,
    log: seq<Admission>,
    starts: map<string, seq<int>>)

  datatype Step =
    | Tick(seconds: nat)
    | Check(request: nat, key: string)
    | Increment(request: nat)
    | SetExpiry(request: nat)

  function RequestsOn(requests: map<nat, string>, key: string): set<nat> {
    set r | r in requests && requests[r] == key
  }

  /** The requests between their check and their increment on one counter. */
  function InFlight(s: State, key: string): set<nat> {
    RequestsOn(s.passed, key)
  }

  function Owing(s: State, key: string): set<nat> {
    RequestsOn(s.owing, key)
  }

  /** A request takes its commands in order; at most k requests stand between check and increment. */
  predicate Enabled(k: nat, s: State, step: Step) {
    match step
    case Tick(_) => true
    case Check(r, key) => r !in s.passed && r !in s.owing && |InFlight(s, key)| < k
    case Increment(r) => r in s.passed
    case SetExpiry(r) => r in s.owing
  }

  function Starts(s: State, key: string): seq<int> {
    if key in s.starts then s.starts[key] else []
  }

  function Exec(s: State, step: Step): State {
    match step
    case Tick(seconds) => s.(now := s.now + seconds)
    case Check(r, key) => if Count(s.counters, s.now, key) >= LIMIT then s else s.(passed := s.passed[r := key])
    case Increment(r) => if r in s.passed then DoIncrement(s, r, s.passed[r]) else s
    case SetExpiry(r) =>
      if r in s.owing then
        s.(counters := Expire(s.counters, s.now, s.owing[r], WINDOW), owing := s.owing - {r})
      else s
  }

  function DoIncrement(s: State, r: nat, key: string): State {
    var counters := Incr(s.counters, s.now, key);
    var first := counters[key].value == 1;
    var starts := if first then Starts(s, key) + [s.now] else Starts(s, key);
    State(s.now, counters, s.passed - {r},
          if first then s.owing[r := key] else s.owing,
          s.log + [Admission(key, s.now, if |starts| == 0 then 0 else |starts| - 1)],
          s.starts[key := starts])
  }

  /** The admissions of one life of a counter, as positions in the log. */
  function InWindow(log: seq<Admission>, key: string, window: int): set<nat> {
    set i: nat | i < |log| && log[i].key == key && log[i].window == window
  }

  // ---- the invariant, counter by counter ----

  /** The counter lacks an expiry exactly while one request owes it. */
  predicate ExpiryOk(s: State, key: string) {
    && |Owing(s, key)| <= 1
    && (Owing(s, key) != {} <==> key in s.counters && s.counters[key].expiry.None?)
    && (key in s.counters && s.counters[key].expiry.Some? ==> s.counters[key].expiry.value <= s.now + WINDOW)
  }

  /** The counter counts the admissions of its current life, and lives start a full window apart. */
  ghost predicate WindowsOk(k: nat, s: State, key: string) {
    var starts := Starts(s, key);
    && (key in s.counters <==> starts != [])
    && (key in s.counters ==>
          && s.counters[key].value >= 1
          && s.counters[key].value == |InWindow(s.log, key, |starts| - 1)|
          && (s.counters[key].expiry.Some? ==> starts[|starts| - 1] + WINDOW <= s.counters[key].expiry.value))
    && (forall i :: 0 <= i < |starts| ==> starts[i] <= s.now)
    && (forall i :: 0 < i < |starts| ==> starts[i - 1] + WINDOW <= starts[i])
    && (forall w :: |InWindow(s.log, key, w)| <= LIMIT - 1 + k)
  }

  ghost predicate LogOk(s: State, i: nat)
    requires i < |s.log|
  {
    var a := s.log[i];
    var starts := Starts(s, a.key);
    && a.window < |starts|
    && starts[a.window] <= a.at <= s.now
    && (a.window + 1 < |starts| ==> a.at <= starts[a.window + 1])
  }

  /** Counter plus requests in flight never exceeds the limit minus one plus k. */
  predicate BoundOk(k: nat, s: State, key: string) {
    Count(s.counters, s.now, key) + |InFlight(s, key)| <= LIMIT - 1 + k
  }

  ghost predicate KeyOk(k: nat, s: State, key: string) {
    ExpiryOk(s, key) && WindowsOk(k, s, key) && BoundOk(k, s, key)
  }

  ghost predicate Inv(k: nat, s: State) {
    && s.passed.Keys !! s.owing.Keys
    && (forall key :: KeyOk(k, s, key))
    && (forall i: nat :: i < |s.log| ==> LogOk(s, i))
  }

  ghost predicate Init(s: State) {
    s.counters == map[] && s.passed == map[] && s.owing == map[] && s.log == [] && s.starts == map[]
  }

  lemma InitInv(k: nat, s: State)
    requires Init(s)
    ensures Inv(k, s)
  {
    forall key ensures KeyOk(k, s, key) {
      assert InFlight(s, key) == {} && Owing(s, key) == {};
      forall w: int ensures InWindow(s.log, key, w) == {} {}
    }
  }

  // ---- preservation, counter by counter ----

  lemma TickKey(k: nat, s: State, seconds: nat, key: string)
    requires KeyOk(k, s, key)
    ensures KeyOk(k, Exec(s, Tick(seconds)), key)
  {
    var s' := Exec(s, Tick(seconds));
    assert InFlight(s', key) == InFlight(s, key) && Owing(s', key) == Owing(s, key);
  }

  lemma CheckSets(s: State, r: nat, key: string, j: string)
    requires r !in s.passed
    ensures var s' := Exec(s, Check(r, key));
            && Owing(s', j) == Owing(s, j)
            && |InFlight(s', j)| == |InFlight(s, j)| + (if s' != s && j == key then 1 else 0)
  {
    hide Count, RequestsOn;
    RequestAdded(s.passed, r, key, j);
  }

  lemma RequestAdded(requests: map<nat, string>, r: nat, key: string, j: string)
    requires r !in requests
    ensures RequestsOn(requests[r := key], j)
         == if j == key then RequestsOn(requests, j) + {r} else RequestsOn(requests, j)
    ensures |RequestsOn(requests[r := key], j)| == |RequestsOn(requests, j)| + (if j == key then 1 else 0)
  {
    assert RequestsOn(requests[r := key], j)
        == if j == key then RequestsOn(requests, j) + {r} else RequestsOn(requests, j);
  }

  lemma RequestRemoved(requests: map<nat, string>, r: nat, j: string)
    requires r in requests
    ensures RequestsOn(requests - {r}, j)
         == if j == requests[r] then RequestsOn(requests, j) - {r} else RequestsOn(requests, j)
    ensures |RequestsOn(requests - {r}, j)| == |RequestsOn(requests, j)| - (if j == requests[r] then 1 else 0)
  {
    assert RequestsOn(requests - {r}, j)
        == if j == requests[r] then RequestsOn(requests, j) - {r} else RequestsOn(requests, j);
  }

  lemma CheckKey(k: nat, s: State, r: nat, key: string, j: string)
    requires KeyOk(k, s, j) && Enabled(k, s, Check(r, key))
    ensures KeyOk(k, Exec(s, Check(r, key)), j)
  {
    var s' := Exec(s, Check(r, key));
    CheckSets(s, r, key, j);
    assert forall w: int :: InWindow(s'.log, j, w) == InWindow(s.log, j, w);
  }

  lemma OnlyOne(xs: set<nat>, x: nat)
    requires x in xs && |xs| <= 1
    ensures xs == {x}
  {
    assert |xs - {x}| == |xs| - 1;
  }

  lemma SetExpirySets(s: State, r: nat, j: string)
    requires r in s.owing
    ensures var s' := Exec(s, SetExpiry(r));
            && InFlight(s', j) == InFlight(s, j)
            && Owing(s', j) == (if j == s.owing[r] then Owing(s, j) - {r} else Owing(s, j))
            && r in Owing(s, s.owing[r])
  {
    RequestRemoved(s.owing, r, j);
  }

  /** Only the expiry of the one counter changes. */
  lemma SetExpiryCounters(s: State, r: nat, j: string)
    requires r in s.owing
    ensures var s', key := Exec(s, SetExpiry(r)), s.owing[r];
            && s'.log == s.log && s'.starts == s.starts && s'.now == s.now
            && (j in s'.counters <==> j in s.counters)
            && (j in s.counters ==> s'.counters[j].value == s.counters[j].value)
            && (j in s.counters && (j != key || !Live(s.counters, s.now, key)) ==> s'.counters[j] == s.counters[j])
            && (j == key && Live(s.counters, s.now, key) ==> s'.counters[j].expiry == Some(s.now + WINDOW))
  {
  }

  lemma SetExpiryKey(k: nat, s: State, r: nat, j: string)
    requires r in s.owing && KeyOk(k, s, s.owing[r]) && KeyOk(k, s, j)
    ensures KeyOk(k, Exec(s, SetExpiry(r)), j)
  {
    hide Exec, InFlight, Owing, InWindow, Starts;
    var s' := Exec(s, SetExpiry(r));
    SetExpirySets(s, r, j);
    SetExpiryCounters(s, r, j);
    SameStarts(s, s', j);
    if j == s.owing[r] {
      OnlyOne(Owing(s, j), r);
    }
  }

  lemma SameStarts(s: State, s': State, key: string)
    requires s'.starts == s.starts
    ensures Starts(s', key) == Starts(s, key)
  {
  }

  lemma IncrementSets(s: State, r: nat, j: string)
    requires r in s.passed && r !in s.owing
    ensures var s', key := Exec(s, Increment(r)), s.passed[r];
            && |InFlight(s', j)| == |InFlight(s, j)| - (if j == key then 1 else 0)
            && Owing(s', j) == (if j == key && s'.counters[key].value == 1 then Owing(s, j) + {r} else Owing(s, j))
  {
    hide Starts, RequestsOn;
    RequestRemoved(s.passed, r, j);
    RequestAdded(s.owing, r, s.passed[r], j);
  }

  lemma IncrementExpiryAndBound(k: nat, s: State, r: nat, j: string)
    requires r in s.passed && r !in s.owing && KeyOk(k, s, j)
    ensures ExpiryOk(Exec(s, Increment(r)), j) && BoundOk(k, Exec(s, Increment(r)), j)
  {
    IncrementSets(s, r, j);
  }

  /** Appending an admission adds one position to its own window. */
  lemma InWindowAppend(log: seq<Admission>, a: Admission, key: string, w: int)
    ensures |InWindow(log + [a], key, w)|
         == |InWindow(log, key, w)| + (if a.key == key && a.window == w then 1 else 0)
  {
    assert InWindow(log + [a], key, w)
        == if a.key == key && a.window == w then InWindow(log, key, w) + {|log|} else InWindow(log, key, w);
  }

  lemma NewWindowIsEmpty(s: State, key: string)
    requires forall i: nat :: i < |s.log| ==> LogOk(s, i)
    ensures InWindow(s.log, key, |Starts(s, key)|) == {}
  {
    forall i: nat | i < |s.log| && s.log[i].key == key ensures s.log[i].window != |Starts(s, key)| {
      assert LogOk(s, i);
    }
  }

  lemma IncrementWindows(k: nat, s: State, r: nat)
    requires r in s.passed && r !in s.owing && KeyOk(k, s, s.passed[r])
    requires InWindow(s.log, s.passed[r], |Starts(s, s.passed[r])|) == {}
    ensures WindowsOk(k, Exec(s, Increment(r)), s.passed[r])
  {
    hide InFlight, InWindow, Owing;
    var s', key := Exec(s, Increment(r)), s.passed[r];
    var a := s'.log[|s.log|];
    IncrementExpiryAndBound(k, s, r, key);
    forall w: int ensures |InWindow(s'.log, key, w)| == |InWindow(s.log, key, w)| + (if a.window == w then 1 else 0) {
      InWindowAppend(s.log, a, key, w);
    }
    assert |InWindow(s.log, key, |Starts(s, key)|)| == 0;
  }

  lemma IncrementOtherWindows(k: nat, s: State, r: nat, j: string)
    requires r in s.passed && KeyOk(k, s, j) && j != s.passed[r]
    ensures WindowsOk(k, Exec(s, Increment(r)), j)
  {
    var s' := Exec(s, Increment(r));
    forall w: int ensures |InWindow(s'.log, j, w)| == |InWindow(s.log, j, w)| {
      InWindowAppend(s.log, s'.log[|s.log|], j, w);
    }
  }

  lemma IncrementLog(k: nat, s: State, r: nat, i: nat)
    requires r in s.passed && KeyOk(k, s, s.passed[r]) && i < |s.log| + 1
    requires i < |s.log| ==> LogOk(s, i)
    ensures LogOk(Exec(s, Increment(r)), i)
  {
    var s' := Exec(s, Increment(r));
    if i < |s.log| {
      assert s'.log[i] == s.log[i];
    }
  }

  lemma IncrementKeeps(k: nat, s: State, r: nat)
    requires Inv(k, s) && r in s.passed
    ensures Inv(k, Exec(s, Increment(r)))
  {
    hide KeyOk, LogOk;
    var s', key := Exec(s, Increment(r)), s.passed[r];
    assert KeyOk(k, s, key);
    NewWindowIsEmpty(s, key);
    forall j ensures KeyOk(k, s', j) {
      assert KeyOk(k, s, j);
      IncrementKey(k, s, r, j);
    }
    forall i: nat | i < |s'.log| ensures LogOk(s', i) {
      IncrementLog(k, s, r, i);
    }
  }

  lemma IncrementKey(k: nat, s: State, r: nat, j: string)
    requires r in s.passed && r !in s.owing && KeyOk(k, s, s.passed[r]) && KeyOk(k, s, j)
    requires InWindow(s.log, s.passed[r], |Starts(s, s.passed[r])|) == {}
    ensures KeyOk(k, Exec(s, Increment(r)), j)
  {
    hide ExpiryOk, WindowsOk, BoundOk, Exec;
    IncrementExpiryAndBound(k, s, r, j);
    if j == s.passed[r] {
      IncrementWindows(k, s, r);
    } else {
      IncrementOtherWindows(k, s, r, j);
    }
  }

  /** Every command of every request, in whatever order, and every advance of the clock keeps the
      invariant. */
  lemma StepKeeps(k: nat, s: State, step: Step)
    requires Inv(k, s) && Enabled(k, s, step)
    ensures Inv(k, Exec(s, step))
  {
    hide KeyOk;
    var s' := Exec(s, step);
    if step.Increment? {
      IncrementKeeps(k, s, step.request);
    } else {
      forall j ensures KeyOk(k, s', j) {
        assert KeyOk(k, s, j);
        OtherKey(k, s, step, j);
      }
      forall i: nat | i < |s'.log| ensures LogOk(s', i) {
        assert LogOk(s, i);
      }
    }
  }

  lemma OtherKey(k: nat, s: State, step: Step, j: string)
    requires Enabled(k, s, step) && !step.Increment? && KeyOk(k, s, j)
    requires step.SetExpiry? ==> KeyOk(k, s, s.owing[step.request])
    ensures KeyOk(k, Exec(s, step), j)
  {
    hide KeyOk;
    match step
    case Tick(seconds) => TickKey(k, s, seconds, j);
    case Check(r, key) => CheckKey(k, s, r, key, j);
    case SetExpiry(r) => SetExpiryKey(k, s, r, j);
    case Increment(_) =>
  }

  // ---- whole interleavings ----

  ghost predicate IsRun(k: nat, states: seq<State>, steps: seq<Step>) {
    && |states| == |steps| + 1
    && Init(states[0])
    && forall i :: 0 <= i < |steps| ==> Enabled(k, states[i], steps[i]) && states[i + 1] == Exec(states[i], steps[i])
  }

  lemma {:induction false} RunInv(k: nat, states: seq<State>, steps: seq<Step>, n: nat)
    requires IsRun(k, states, steps) && n < |states|
    ensures Inv(k, states[n])
  {
    hide Inv, Exec, Enabled;
    if n == 0 {
      InitInv(k, states[0]);
    } else {
      RunInv(k, states, steps, n - 1);
      StepKeeps(k, states[n - 1], steps[n - 1]);
    }
  }

  /** With at most k requests between check and increment, under any interleaving and any expiry:
      the counter plus the requests about to increment it stays at or below 14 + k, and no life of the
      counter lets more than 14 + k requests through (15 when requests are served one at a time). */
  lemma WindowBound(k: nat, states: seq<State>, steps: seq<Step>, n: nat, key: string, window: nat)
    requires IsRun(k, states, steps) && n < |states|
    ensures Count(states[n].counters, states[n].now, key) + |InFlight(states[n], key)| <= 14 + k
    ensures |InWindow(states[n].log, key, window)| <= 14 + k
  {
    RunInv(k, states, steps, n);
    assert KeyOk(k, states[n], key);
  }

  // ---- the bound is reached ----

  /** Requests n up to, not including, n + p on one counter. */
  function Waiting(key: string, n: nat, p: nat): (requests: map<nat, string>)
    ensures forall r :: r in requests <==> n <= r < n + p
    ensures forall r :: r in requests ==> requests[r] == key
  {
    if p == 0 then map[] else Waiting(key, n, p - 1)[n + p - 1 := key]
  }

  /** n requests admitted at time zero, and the next p past their check. */
  function Crowd(key: string, n: nat, p: nat): State {
    State(0,
          if n == 0 then map[] else map[key := Entry(n, None)],
          Waiting(key, n, p),
          if n == 0 then map[] else map[0 := key],
          seq(n, _ => Admission(key, 0, 0)),
          if n == 0 then map[] else map[key := [0]])
  }

  lemma {:induction false} CrowdInFlight(key: string, n: nat, p: nat)
    ensures |InFlight(Crowd(key, n, p), key)| == p
  {
    if p == 0 {
      assert InFlight(Crowd(key, n, p), key) == {};
    } else {
      hide RequestsOn;
      CrowdInFlight(key, n, p - 1);
      RequestAdded(Waiting(key, n, p - 1), n + p - 1, key, key);
    }
  }

  lemma CrowdChecks(key: string, n: nat, p: nat)
    requires n < 15
    ensures Exec(Crowd(key, n, p), Check(n + p, key)) == Crowd(key, n, p + 1)
  {
    assert Crowd(key, n, p + 1).passed == Crowd(key, n, p).passed[n + p := key];
  }

  lemma CrowdIncrements(key: string, n: nat, p: nat)
    requires p > 0
    ensures Exec(Crowd(key, n, p), Increment(n)) == Crowd(key, n + 1, p - 1)
  {
    var s := Crowd(key, n, p);
    assert Crowd(key, n + 1, p - 1).passed == s.passed - {n};
    assert Crowd(key, n + 1, p - 1).log == s.log + [Admission(key, 0, 0)];
    if n > 0 {
      assert Starts(s, key) == [0];
      assert s.counters[key := Entry(n + 1, None)] == map[key := Entry(n + 1, None)];
      assert s.starts[key := [0]] == map[key := [0]];
    } else {
      assert Starts(s, key) + [0] == [0];
      assert s.owing[n := key] == map[0 := key];
    }
    assert Exec(s, Increment(n)).owing == Crowd(key, n + 1, p - 1).owing;
  }

  lemma RunGoesOn(k: nat, states: seq<State>, steps: seq<Step>, step: Step)
    requires IsRun(k, states, steps) && Enabled(k, states[|steps|], step)
    ensures IsRun(k, states + [Exec(states[|steps|], step)], steps + [step])
  {
  }

  /** Any crowd that the limit allows can be reached: fourteen requests one by one, then k at once. */
  lemma {:induction false} CrowdReached(k: nat, key: string, n: nat, p: nat)
    returns (states: seq<State>, steps: seq<Step>)
    requires 0 < k && p <= k && n + p <= 14 + k && (n < 14 ==> p <= 1)
    ensures IsRun(k, states, steps) && states[|steps|] == Crowd(key, n, p)
    decreases n, p
  {
    hide Crowd, Exec;
    if n == 0 && p == 0 {
      states, steps := [Crowd(key, 0, 0)], [];
      CrowdStarts(key);
    } else if p > 0 && n < 15 {
      states, steps := CrowdReached(k, key, n, p - 1);
      CrowdMayCheck(k, key, n, p - 1);
      CrowdChecks(key, n, p - 1);
      RunGoesOn(k, states, steps, Check(n + p - 1, key));
      states, steps := states + [Crowd(key, n, p)], steps + [Check(n + p - 1, key)];
    } else {
      states, steps := CrowdReached(k, key, n - 1, p + 1);
      CrowdMayIncrement(k, key, n - 1, p + 1);
      CrowdIncrements(key, n - 1, p + 1);
      RunGoesOn(k, states, steps, Increment(n - 1));
      states, steps := states + [Crowd(key, n, p)], steps + [Increment(n - 1)];
    }
  }

  lemma CrowdStarts(key: string)
    ensures Init(Crowd(key, 0, 0))
  {
    assert Crowd(key, 0, 0).passed == map[];
  }

  lemma CrowdMayCheck(k: nat, key: string, n: nat, p: nat)
    requires p < k
    ensures Enabled(k, Crowd(key, n, p), Check(n + p, key))
  {
    CrowdInFlight(key, n, p);
  }

  lemma CrowdMayIncrement(k: nat, key: string, n: nat, p: nat)
    requires p > 0
    ensures Enabled(k, Crowd(key, n, p), Increment(n))
  {
  }

  lemma {:induction false} CrowdWindow(key: string, n: nat)
    ensures |InWindow(Crowd(key, n, 0).log, key, 0)| == n
  {
    if n == 0 {
      assert InWindow(Crowd(key, n, 0).log, key, 0) == {};
    } else {
      CrowdWindow(key, n - 1);
      assert InWindow(Crowd(key, n, 0).log, key, 0) == InWindow(Crowd(key, n - 1, 0).log, key, 0) + {n - 1};
    }
  }

  /** 14 + k is the exact bound: for every k there is an interleaving in which one life of a counter lets
      that many requests through. */
  lemma WindowBoundIsReached(k: nat, key: string) returns (states: seq<State>, steps: seq<Step>)
    requires k > 0
    ensures IsRun(k, states, steps) && |InWindow(states[|steps|].log, key, 0)| == 14 + k
  {
    states, steps := CrowdReached(k, key, 14 + k, 0);
    CrowdWindow(key, 14 + k);
  }

  // ---- expiry ----

  /** A counter without an expiry exists exactly while one request still owes it; with none owing, every
      counter expires within fifteen minutes and equals the number of increments of its current life. */
  lemma NoImmortalCounter(k: nat, states: seq<State>, steps: seq<Step>, n: nat, key: string)
    requires IsRun(k, states, steps) && n < |states|
    ensures var s := states[n];
            && (key in s.counters && s.counters[key].expiry.None? <==> exists r :: Owing(s, key) == {r})
            && (key in s.counters && Owing(s, key) == {} ==>
                  s.counters[key].expiry.Some? && s.counters[key].expiry.value <= s.now + 15 * 60)
            && (key in s.counters ==> s.counters[key].value == |InWindow(s.log, key, |Starts(s, key)| - 1)|)
  {
    RunInv(k, states, steps, n);
    var s := states[n];
    assert KeyOk(k, s, key);
    if r :| r in Owing(s, key) {
      OnlyOne(Owing(s, key), r);
    }
  }

  // ---- any fifteen minutes ----

  /** The admissions on a counter from time a up to, not including, a plus one window. */
  function InInterval(log: seq<Admission>, key: string, a: int): set<nat> {
    set i: nat | i < |log| && log[i].key == key && a <= log[i].at < a + 15 * 60
  }

  /** Two admissions in the same interval lie in the same life of the counter or in neighbouring ones. */
  lemma NeighbouringWindows(k: nat, s: State, key: string, a: int, i: nat, j: nat)
    requires Inv(k, s) && i in InInterval(s.log, key, a) && j in InInterval(s.log, key, a)
    ensures s.log[j].window <= s.log[i].window + 1
  {
    assert KeyOk(k, s, key) && LogOk(s, i) && LogOk(s, j);
    var starts, w := Starts(s, key), s.log[i].window;
    if s.log[j].window > w + 1 {
      StartsSpread(starts, w + 2, s.log[j].window);
    }
  }

  lemma {:induction false} StartsSpread(starts: seq<int>, v: nat, w: nat)
    requires forall i :: 0 < i < |starts| ==> starts[i - 1] + WINDOW <= starts[i]
    requires v <= w < |starts|
    ensures starts[v] <= starts[w]
  {
    if v < w {
      StartsSpread(starts, v, w - 1);
    }
  }

  lemma SubsetSize(xs: set<nat>, ys: set<nat>)
    requires xs <= ys
    ensures |xs| <= |ys|
  {
    assert ys == xs + (ys - xs);
  }

  lemma IntervalBoundAt(k: nat, s: State, key: string, a: int)
    requires Inv(k, s)
    ensures |InInterval(s.log, key, a)| <= 2 * (14 + k)
  {
    var all := InInterval(s.log, key, a);
    if all != {} {
      var i := EarliestWindow(s.log, all);
      var w := s.log[i].window;
      var both := InWindow(s.log, key, w) + InWindow(s.log, key, w + 1);
      forall j | j in all ensures j in both {
        NeighbouringWindows(k, s, key, a, i, j);
      }
      SubsetSize(all, both);
      assert KeyOk(k, s, key);
      assert |InWindow(s.log, key, w)| <= LIMIT - 1 + k && |InWindow(s.log, key, w + 1)| <= LIMIT - 1 + k;
      UnionSize(InWindow(s.log, key, w), InWindow(s.log, key, w + 1));
    }
  }

  lemma UnionSize(xs: set<nat>, ys: set<nat>)
    ensures |xs + ys| <= |xs| + |ys|
  {
    assert xs + ys == xs + (ys - xs);
    SubsetSize(ys - xs, ys);
  }

  lemma {:induction false} EarliestWindow(log: seq<Admission>, xs: set<nat>) returns (i: nat)
    requires xs != {} && forall x :: x in xs ==> x < |log|
    ensures i in xs && forall x :: x in xs ==> log[i].window <= log[x].window
    decreases |xs|
  {
    i :| i in xs;
    if xs != {i} {
      var rest := xs - {i};
      var j := EarliestWindow(log, rest);
      if log[j].window < log[i].window {
        i := j;
      }
    }
  }

  /** No stretch of fifteen minutes admits more than 2 (14 + k) requests of one address: at most 30 when
      requests are served one at a time. */
  lemma IntervalBound(k: nat, states: seq<State>, steps: seq<Step>, n: nat, key: string, a: int)
    requires IsRun(k, states, steps) && n < |states|
    ensures |InInterval(states[n].log, key, a)| <= 2 * (14 + k)
    ensures k == 1 ==> |InInterval(states[n].log, key, a)| <= 30
  {
    RunInv(k, states, steps, n);
    IntervalBoundAt(k, states[n], key, a);
  }

  // ---- one request at a time ----

  /** A request that takes its three commands without interruption does what the middleware does. */
  lemma UninterruptedIsServed(s: State, r: nat, key: string)
    requires r !in s.passed && r !in s.owing
    ensures Exec(Exec(Exec(s, Check(r, key)), Increment(r)), SetExpiry(r)).counters == Served(s.counters, s.now, key)
  {
    var s1 := Exec(s, Check(r, key));
    var s2 := Exec(s1, Increment(r));
    if Count(s.counters, s.now, key) < LIMIT {
      assert s1.passed[r] == key;
      assert r in s2.owing <==> s2.counters[key].value == 1;
    }
  }

  /** The first request of a window starts it at one for fifteen minutes, the others up to the fifteenth count
      up within it, and later ones change nothing. */
  lemma ServedExactly(db: Counters, now: int, key: string)
    ensures var count, db' := Count(db, now, key), Served(db, now, key);
            && (count == 0 && !Live(db, now, key) ==> db' == db[key := Entry(1, Some(now + 900))])
            && (0 < count < 15 ==> db' == db[key := Entry(count + 1, db[key].expiry)])
            && (count >= 15 ==> db' == db)
  {
  }

  /** The counters after n requests of one address at one instant. */
  function Burst(db: Counters, now: int, key: string, n: nat): Counters {
    if n == 0 then db else Served(Burst(db, now, key, n - 1), now, key)
  }

  /** Of a burst on a fresh counter exactly the first fifteen requests are admitted. */
  lemma {:induction false} BurstAdmitsFifteen(db: Counters, now: int, key: string, n: nat)
    requires Count(db, now, key) == 0
    ensures Count(Burst(db, now, key, n), now, key) == if n <= 15 then n else 15
  {
    if n > 0 {
      BurstAdmitsFifteen(db, now, key, n - 1);
    }
  }
}
