/** The login rate limiter (backend/auth/ratelimit.go). */
module RateLimit {
  // A bounded table of clients in order of activity, each with a sliding window
  // of attempts, against a limiter that never forgets.

  import opened Common

  /** A client address. */
  datatype Key = Key(address: nat)

  /** One client. `refusedAt` is None until a refusal was reported. */
  datatype Client = Client(key: Key, times: seq<int>, lastSeen: int, refusedAt: Option<int>)

  /** The clients, most recently active first. */
  type Table = seq<Client>

  datatype Config = Config(limit: nat, window: nat, maxKeys: nat)

  // ------------------------------------------------------- the operations

  function Find(t: Table, k: Key): (r: Option<Client>)
    ensures r.Some? ==> r.value.key == k
  {
    if t == [] then None else if t[0].key == k then Some(t[0]) else Find(t[1..], k)
  }

  function Without(t: Table, k: Key): Table {
    if t == [] then [] else if t[0].key == k then t[1..] else [t[0]] + Without(t[1..], k)
  }

  /** The clients seen after the cutoff: the order puts them first. */
  function Fresh(t: Table, cutoff: int): Table {
    if t == [] || t[0].lastSeen <= cutoff then [] else [t[0]] + Fresh(t[1..], cutoff)
  }

  /** The client as touched: its bucket, or a new one. */
  function Touched(t: Table, k: Key, now: int): Client {
    match Find(t, k)
    case Some(b) => b.(lastSeen := now)
    case None => Client(k, [], now, None)
  }

  /** The other clients, with room for `k`. */
  function Room(t: Table, k: Key, maxKeys: nat): Table {
    if Find(t, k).Some? then Without(t, k) else if |t| >= maxKeys && t != [] then t[..|t| - 1] else t
  }

  /** Puts `k` at the front. */
  function Touch(t: Table, k: Key, now: int, maxKeys: nat): (u: Table)
    ensures u != [] && u[0].key == k
  {
    [Touched(t, k, now)] + Room(t, k, maxKeys)
  }

  function Expire(times: seq<int>, cutoff: int): seq<int> {
    if times == [] || times[0] > cutoff then times else Expire(times[1..], cutoff)
  }

  datatype Answer = Answer(client: Client, allowed: bool, firstRefusal: bool)

  /** Expires a client's attempts and counts or refuses one more. */
  function Decide(b: Client, now: int, c: Config): Answer {
    var cutoff := now - c.window;
    var times := Expire(b.times, cutoff);
    if |times| >= c.limit then
      var first := b.refusedAt.None? || b.refusedAt.value <= cutoff;
      Answer(b.(times := times, refusedAt := if first then Some(now) else b.refusedAt), false, first)
    else
      Answer(b.(times := times + [now]), true, false)
  }

  /** The table with stale clients swept out and `k` at the front. */
  function Prepare(t: Table, k: Key, now: int, c: Config): (u: Table)
    ensures u != [] && u[0].key == k
  {
    Touch(Fresh(t, now - c.window), k, now, c.maxKeys)
  }

  function Attempt(t: Table, k: Key, now: int, c: Config): Answer {
    Decide(Prepare(t, k, now, c)[0], now, c)
  }

  /** The table after an attempt. */
  function Attempted(t: Table, k: Key, now: int, c: Config): Table {
    [Attempt(t, k, now, c).client] + Prepare(t, k, now, c)[1..]
  }

  function Replace(t: Table, b: Client): Table {
    if t == [] then [] else if t[0].key == b.key then [b] + t[1..] else [t[0]] + Replace(t[1..], b)
  }

  function Forget(t: Table, k: Key): Table {
    match Find(t, k)
    case None => t
    case Some(b) =>
      if |b.times| == 0 then t
      else if |b.times| == 1 then Without(t, k)
      else Replace(t, b.(times := Pop(b.times)))
  }

  // -------------------------------------------------- the table's invariant

  /** Attempts in order, the last of them no later than `latest`. */
  ghost predicate Rising(times: seq<int>, latest: int) {
    times == [] || (times[0] <= (if |times| == 1 then latest else times[1]) && Rising(times[1..], latest))
  }

  ghost predicate ClientOk(b: Client, limit: nat) {
    |b.times| <= limit && Rising(b.times, b.lastSeen)
  }

  /** Every client is listed once, by activity, and holds at most `limit`
      attempts. */
  ghost predicate Listed(t: Table, latest: int, limit: nat) {
    t == [] ||
    (ClientOk(t[0], limit) && t[0].lastSeen <= latest && Find(t[1..], t[0].key).None? && Listed(t[1..], t[0].lastSeen, limit))
  }

  ghost predicate Consistent(t: Table, c: Config, clock: int) {
    Listed(t, clock, c.limit) && |t| <= c.maxKeys
  }

  lemma {:induction false} ListedLater(t: Table, latest: int, later: int, limit: nat)
    requires Listed(t, latest, limit) && latest <= later
    ensures Listed(t, later, limit)
  {
  }

  lemma {:induction false} WithoutListed(t: Table, k: Key, latest: int, limit: nat)
    requires Listed(t, latest, limit)
    ensures Listed(Without(t, k), latest, limit)
    ensures forall x :: Find(Without(t, k), x) == if x == k then None else Find(t, x)
    ensures |Without(t, k)| == if Find(t, k).None? then |t| else |t| - 1
  {
    if t != [] {
      if t[0].key == k {
        ListedLater(t[1..], t[0].lastSeen, latest, limit);
      } else {
        WithoutListed(t[1..], k, t[0].lastSeen, limit);
      }
    }
  }

  lemma {:induction false} FreshListed(t: Table, cutoff: int, latest: int, limit: nat)
    requires Listed(t, latest, limit)
    ensures Listed(Fresh(t, cutoff), latest, limit) && |Fresh(t, cutoff)| <= |t|
    ensures forall x :: Find(Fresh(t, cutoff), x)
                == if Find(t, x).Some? && Find(t, x).value.lastSeen <= cutoff then None else Find(t, x)
  {
    if t != [] {
      if t[0].lastSeen <= cutoff {
        forall x ensures Find(t, x).Some? ==> Find(t, x).value.lastSeen <= cutoff {
          FoundBy(t, x, latest, limit);
          FoundBy(t[1..], x, t[0].lastSeen, limit);
        }
      } else {
        FreshListed(t[1..], cutoff, t[0].lastSeen, limit);
      }
    }
  }

  lemma {:induction false} FoundBy(t: Table, x: Key, latest: int, limit: nat)
    requires Listed(t, latest, limit)
    ensures Find(t, x).Some? ==> Find(t, x).value.lastSeen <= latest && ClientOk(Find(t, x).value, limit)
  {
    if t != [] && t[0].key != x {
      FoundBy(t[1..], x, t[0].lastSeen, limit);
    }
  }

  lemma {:induction false} InitListed(t: Table, latest: int, limit: nat)
    requires Listed(t, latest, limit) && t != []
    ensures Listed(t[..|t| - 1], latest, limit)
    ensures forall x :: Find(t[..|t| - 1], x) == if x == t[|t| - 1].key then None else Find(t, x)
    ensures Find(t, t[|t| - 1].key) == Some(t[|t| - 1])
  {
    var init := t[..|t| - 1];
    if |t| > 1 {
      InitListed(t[1..], t[0].lastSeen, limit);
      assert init[1..] == t[1..][..|t| - 2];
      assert t[1..][|t| - 2] == t[|t| - 1];
      forall x ensures Find(init, x) == if x == t[|t| - 1].key then None else Find(t, x) {
        assert Find(init, x) == if t[0].key == x then Some(t[0]) else Find(init[1..], x);
      }
    } else {
      assert t[1..] == [];
    }
  }

  lemma {:induction false} ReplaceListed(t: Table, b: Client, latest: int, limit: nat)
    requires Listed(t, latest, limit) && ClientOk(b, limit)
    requires Find(t, b.key).Some? && Find(t, b.key).value.lastSeen == b.lastSeen
    ensures Listed(Replace(t, b), latest, limit) && |Replace(t, b)| == |t|
    ensures forall x :: Find(Replace(t, b), x) == if x == b.key then Some(b) else Find(t, x)
  {
    if t[0].key != b.key {
      ReplaceListed(t[1..], b, t[0].lastSeen, limit);
    }
  }

  lemma RoomKeeps(t: Table, k: Key, c: Config, clock: int)
    requires Consistent(t, c, clock)
    ensures Consistent(Room(t, k, c.maxKeys), c, clock)
  {
    WithoutListed(t, k, clock, c.limit);
    if t != [] {
      InitListed(t, clock, c.limit);
    }
  }

  lemma TouchKeeps(t: Table, k: Key, c: Config, clock: int, now: int)
    requires Consistent(t, c, clock) && clock <= now && c.maxKeys > 0
    ensures Consistent(Touch(t, k, now, c.maxKeys), c, now)
    ensures Touch(t, k, now, c.maxKeys)[0].lastSeen == now
  {
    ListedLater(t, clock, now, c.limit);
    WithoutListed(t, k, now, c.limit);
    FoundBy(t, k, clock, c.limit);
    if Find(t, k).Some? {
      RisingLater(Times(t, k), Find(t, k).value.lastSeen, now);
    }
    if t != [] {
      InitListed(t, now, c.limit);
    }
  }

  lemma PrepareKeeps(t: Table, k: Key, now: int, c: Config, clock: int)
    requires Consistent(t, c, clock) && clock <= now && c.maxKeys > 0
    ensures Consistent(Prepare(t, k, now, c), c, now) && Prepare(t, k, now, c)[0].lastSeen == now
  {
    FreshListed(t, now - c.window, clock, c.limit);
    TouchKeeps(Fresh(t, now - c.window), k, c, clock, now);
  }

  lemma {:induction false} RisingLater(times: seq<int>, latest: int, later: int)
    requires Rising(times, latest) && latest <= later
    ensures Rising(times, later) && Rising(times + [later], later)
  {
    if times != [] {
      RisingLater(times[1..], latest, later);
      assert (times + [later])[1..] == times[1..] + [later];
    }
  }

  lemma {:induction false} PopRising(times: seq<int>, latest: int)
    requires Rising(times, latest)
    ensures Rising(Pop(times), latest)
    ensures times != [] ==> times[0] <= latest
  {
    if |times| > 1 {
      PopRising(times[1..], latest);
      assert Pop(times)[1..] == Pop(times[1..]);
    }
  }

  lemma {:induction false} ExpireRising(times: seq<int>, cutoff: int, latest: int)
    requires Rising(times, latest)
    ensures Rising(Expire(times, cutoff), latest) && |Expire(times, cutoff)| <= |times|
    ensures times != [] && times[0] <= cutoff ==> |Expire(times, cutoff)| < |times|
  {
    if times != [] && times[0] <= cutoff {
      ExpireRising(times[1..], cutoff, latest);
    }
  }

  lemma DecideKeeps(b: Client, now: int, c: Config)
    requires ClientOk(b, c.limit) && b.lastSeen == now
    ensures ClientOk(Decide(b, now, c).client, c.limit)
  {
    ExpireRising(b.times, now - c.window, now);
    RisingLater(Expire(b.times, now - c.window), now, now);
  }

  /** The table's invariant survives an attempt. */
  lemma AttemptKeeps(t: Table, k: Key, now: int, c: Config, clock: int)
    requires Consistent(t, c, clock) && clock <= now && c.maxKeys > 0
    ensures Consistent(Attempted(t, k, now, c), c, now)
  {
    PrepareKeeps(t, k, now, c, clock);
    DecideKeeps(Prepare(t, k, now, c)[0], now, c);
  }

  lemma ForgetKeeps(t: Table, k: Key, c: Config, clock: int)
    requires Consistent(t, c, clock)
    ensures Consistent(Forget(t, k), c, clock)
    ensures forall x :: x != k ==> Find(Forget(t, k), x) == Find(t, x)
  {
    WithoutListed(t, k, clock, c.limit);
    FoundBy(t, k, clock, c.limit);
    var f := Find(t, k);
    if f.Some? && |f.value.times| > 1 {
      PopRising(f.value.times, f.value.lastSeen);
      ReplaceListed(t, f.value.(times := Pop(f.value.times)), clock, c.limit);
    }
  }

  // ------------------------------------- the limiter that never forgets

  /** What a limiter that remembers everything would know: every attempt counted
      and not withdrawn, per client. `lost` is when a client was last evicted
      with attempts still in the window, and `clock` the time of the last event. */
  datatype History = History(counted: map<Key, seq<int>>, lost: map<Key, int>, clock: int)

  function Counted(h: History, k: Key): seq<int> {
    if k in h.counted then h.counted[k] else []
  }

  /** How many attempts are later than the cutoff. */
  function After(times: seq<int>, cutoff: int): nat {
    if times == [] then 0 else (if times[0] > cutoff then 1 else 0) + After(times[1..], cutoff)
  }

  predicate ReferenceAllows(h: History, k: Key, now: int, c: Config) {
    After(Counted(h, k), now - c.window) < c.limit
  }

  datatype Event = Try(key: Key, at: int) | Withdraw(key: Key) | Sweep(at: int)

  datatype State = State(table: Table, history: History)

  function Times(t: Table, k: Key): seq<int> {
    match Find(t, k) case None => [] case Some(b) => b.times
  }

  /** The client evicted to make room for `k`, if any. */
  function Victim(t: Table, k: Key, maxKeys: nat): Option<Key> {
    if Find(t, k).None? && |t| >= maxKeys && t != [] then Some(t[|t| - 1].key) else None
  }

  lemma {:induction false} LastIsFound(t: Table)
    requires t != []
    ensures Find(t, t[|t| - 1].key).Some?
  {
    if t[0].key != t[|t| - 1].key {
      LastIsFound(t[1..]);
    }
  }

  lemma VictimIsOther(t: Table, k: Key, maxKeys: nat)
    ensures var v := Victim(t, k, maxKeys); v.Some? ==> v.value != k && Find(t, v.value).Some?
  {
    if t != [] {
      LastIsFound(t);
    }
  }

  /** Who loses its bucket to `k` in an attempt. */
  function Evicted(t: Table, k: Key, at: int, c: Config): Option<Key> {
    Victim(Fresh(t, at - c.window), k, c.maxKeys)
  }

  /** The history after an attempt. */
  function Recorded(h: History, t: Table, k: Key, at: int, c: Config): History {
    var v := Evicted(t, k, at, c);
    var lost := if v.Some? && After(Times(t, v.value), at - c.window) > 0 then h.lost[v.value := at] else h.lost;
    var counted := if Attempt(t, k, at, c).allowed then h.counted[k := Counted(h, k) + [at]] else h.counted;
    History(counted, lost, at)
  }

  function Pop(s: seq<int>): seq<int> {
    if s == [] then [] else s[..|s| - 1]
  }

  function Step(s: State, e: Event, c: Config): State {
    match e
    case Try(k, at) => State(Attempted(s.table, k, at, c), Recorded(s.history, s.table, k, at, c))
    case Withdraw(k) =>
      State(Forget(s.table, k), s.history.(counted := s.history.counted[k := Pop(Counted(s.history, k))]))
    case Sweep(at) => State(Fresh(s.table, at - c.window), s.history.(clock := at))
  }

  predicate Timely(e: Event, clock: int) {
    e.Withdraw? || e.at >= clock
  }

  /** Attempts the table no longer holds are at or before this. */
  function Horizon(h: History, k: Key, window: nat): int {
    if k in h.lost && h.lost[k] > h.clock - window then h.lost[k] else h.clock - window
  }

  /** `times` is the end of `log`, and the rest of it is too old to matter. */
  ghost predicate Holds(times: seq<int>, log: seq<int>, horizon: int) {
    log == times || (|log| > |times| && log[0] <= horizon && Holds(times, log[1..], horizon))
  }

  ghost predicate LostBy(h: History) {
    forall k :: k in h.lost ==> h.lost[k] <= h.clock
  }

  ghost predicate Inv(s: State, c: Config) {
    && Consistent(s.table, c, s.history.clock) && LostBy(s.history)
    && forall k :: Holds(Times(s.table, k), Counted(s.history, k), Horizon(s.history, k, c.window))
  }

  lemma {:induction false} ExpireCounts(times: seq<int>, cutoff: int, latest: int)
    requires Rising(times, latest)
    ensures |Expire(times, cutoff)| == After(times, cutoff)
    ensures times != [] && times[0] > cutoff ==> After(times, cutoff) == |times|
  {
    if times != [] {
      ExpireCounts(times[1..], cutoff, latest);
    }
  }

  /** What is held counts the same as everything, from the horizon on; before
      that it can only count less. */
  lemma {:induction false} HeldCounts(times: seq<int>, log: seq<int>, horizon: int, cutoff: int)
    requires Holds(times, log, horizon)
    ensures After(times, cutoff) <= After(log, cutoff)
    ensures horizon <= cutoff ==> After(times, cutoff) == After(log, cutoff)
  {
    if log != times {
      HeldCounts(times, log[1..], horizon, cutoff);
    }
  }

  // ------------------------------------------------ every step refines it

  /** Dropping expired attempts. */
  lemma {:induction false} HoldsExpired(times: seq<int>, log: seq<int>, horizon: int, cutoff: int)
    requires Holds(times, log, horizon) && cutoff <= horizon
    ensures Holds(Expire(times, cutoff), log, horizon) && |Expire(times, cutoff)| <= |times|
  {
    if log != times {
      HoldsExpired(times, log[1..], horizon, cutoff);
    } else if times != [] && times[0] <= cutoff {
      HoldsExpired(times[1..], times[1..], horizon, cutoff);
    }
  }

  /** Dropping every attempt. */
  lemma {:induction false} HoldsNothing(times: seq<int>, log: seq<int>, horizon: int, latest: int)
    requires Holds(times, log, horizon) && Rising(times, latest) && latest <= horizon
    ensures Holds([], log, horizon)
  {
    if log != times {
      HoldsNothing(times, log[1..], horizon, latest);
    } else if times != [] {
      PopRising(times, latest);
      HoldsNothing(times[1..], times[1..], horizon, latest);
    }
  }

  /** Dropping every attempt when none is in the window. */
  lemma {:induction false} HoldsNoneAfter(times: seq<int>, log: seq<int>, horizon: int, cutoff: int)
    requires Holds(times, log, horizon) && After(times, cutoff) == 0 && cutoff <= horizon
    ensures Holds([], log, horizon)
  {
    if log != times {
      HoldsNoneAfter(times, log[1..], horizon, cutoff);
    } else if times != [] {
      HoldsNoneAfter(times[1..], times[1..], horizon, cutoff);
    }
  }

  /** A client is dropped as stale only once all its attempts have expired. */
  lemma FreshHolds(t: Table, cutoff: int, x: Key, log: seq<int>, horizon: int, c: Config, clock: int)
    requires Consistent(t, c, clock) && Holds(Times(t, x), log, horizon) && cutoff <= horizon
    ensures Holds(Times(Fresh(t, cutoff), x), log, horizon)
  {
    FreshListed(t, cutoff, clock, c.limit);
    FoundBy(t, x, clock, c.limit);
    if Find(t, x).Some? && Find(t, x).value.lastSeen <= cutoff {
      HoldsNothing(Times(t, x), log, horizon, Find(t, x).value.lastSeen);
    }
  }

  lemma FreshTimes(t: Table, cutoff: int, x: Key, c: Config, clock: int)
    requires Consistent(t, c, clock)
    ensures Consistent(Fresh(t, cutoff), c, clock)
    ensures Times(Fresh(t, cutoff), x) == Times(t, x) || Times(Fresh(t, cutoff), x) == []
  {
    FreshListed(t, cutoff, clock, c.limit);
  }

  lemma TouchTimes(t: Table, k: Key, now: int, c: Config, x: Key, clock: int)
    requires Consistent(t, c, clock)
    ensures Times(Touch(t, k, now, c.maxKeys), x) == if Victim(t, k, c.maxKeys) == Some(x) then [] else Times(t, x)
  {
    WithoutListed(t, k, clock, c.limit);
    if t != [] {
      InitListed(t, clock, c.limit);
    }
    var u := Touch(t, k, now, c.maxKeys);
    assert Find(u, x) == if u[0].key == x then Some(u[0]) else Find(u[1..], x);
  }

  lemma TouchHolds(live: Table, k: Key, at: int, c: Config, clock: int, x: Key, log: seq<int>, horizon: int)
    requires Consistent(live, c, clock) && clock <= at && Holds(Times(live, x), log, horizon) && at - c.window <= horizon
    requires Victim(live, k, c.maxKeys) == Some(x) && After(Times(live, x), at - c.window) > 0 ==> at <= horizon
    ensures Holds(Times(Touch(live, k, at, c.maxKeys), x), log, horizon)
  {
    TouchTimes(live, k, at, c, x, clock);
    VictimIsOther(live, k, c.maxKeys);
    if Victim(live, k, c.maxKeys) == Some(x) {
      EvictionHolds(live, x, log, at - c.window, horizon, c, clock);
    }
  }

  /** Sweeping and touching lose only expired attempts, or those of the client
      evicted. */
  lemma PrepareHolds(t: Table, k: Key, at: int, c: Config, clock: int, x: Key, log: seq<int>, horizon: int)
    requires Consistent(t, c, clock) && clock <= at && Holds(Times(t, x), log, horizon) && at - c.window <= horizon
    requires Evicted(t, k, at, c) == Some(x) && After(Times(t, x), at - c.window) > 0 ==> at <= horizon
    ensures Holds(Times(Prepare(t, k, at, c), x), log, horizon)
  {
    var cutoff := at - c.window;
    FreshHolds(t, cutoff, x, log, horizon, c, clock);
    FreshTimes(t, cutoff, x, c, clock);
    TouchHolds(Fresh(t, cutoff), k, at, c, clock, x, log, horizon);
  }

  lemma {:induction false} HoldsLater(times: seq<int>, log: seq<int>, horizon: int, horizon': int)
    requires Holds(times, log, horizon) && horizon <= horizon'
    ensures Holds(times, log, horizon')
  {
    if log != times {
      HoldsLater(times, log[1..], horizon, horizon');
    }
  }

  lemma {:induction false} HoldsAppend(times: seq<int>, log: seq<int>, horizon: int, x: int)
    requires Holds(times, log, horizon)
    ensures Holds(times + [x], log + [x], horizon)
  {
    if log != times {
      HoldsAppend(times, log[1..], horizon, x);
      assert (log + [x])[1..] == log[1..] + [x];
    }
  }

  /** The decision expires only what is past the window, and counts what it
      allows. */
  lemma DecideHolds(b: Client, now: int, c: Config, log: seq<int>, horizon: int)
    requires Holds(b.times, log, horizon) && now - c.window <= horizon
    ensures var a := Decide(b, now, c); Holds(a.client.times, if a.allowed then log + [now] else log, horizon)
  {
    HoldsExpired(b.times, log, horizon, now - c.window);
    HoldsAppend(Expire(b.times, now - c.window), log, horizon, now);
  }

  lemma RecordedHorizon(h: History, t: Table, k: Key, at: int, c: Config, x: Key)
    requires LostBy(h) && at >= h.clock
    ensures var h' := Recorded(h, t, k, at, c);
            && Horizon(h, x, c.window) <= Horizon(h', x, c.window) && at - c.window <= Horizon(h', x, c.window)
            && (Evicted(t, k, at, c) == Some(x) && After(Times(t, x), at - c.window) > 0 ==> at <= Horizon(h', x, c.window))
            && LostBy(h')
  {
  }

  lemma TryHolds(t: Table, h: History, k: Key, at: int, c: Config, x: Key)
    requires Consistent(t, c, h.clock) && Holds(Times(t, x), Counted(h, x), Horizon(h, x, c.window))
    requires at >= h.clock && c.maxKeys > 0 && LostBy(h)
    ensures var h' := Recorded(h, t, k, at, c);
            Holds(Times(Attempted(t, k, at, c), x), Counted(h', x), Horizon(h', x, c.window))
  {
    var horizon := Horizon(Recorded(h, t, k, at, c), x, c.window);
    RecordedHorizon(h, t, k, at, c, x);
    HoldsLater(Times(t, x), Counted(h, x), Horizon(h, x, c.window), horizon);
    PrepareHolds(t, k, at, c, h.clock, x, Counted(h, x), horizon);
    PrepareKeeps(t, k, at, c, h.clock);
    AttemptedHolds(t, k, at, c, x, Counted(h, x), horizon);
  }

  lemma AttemptedHolds(t: Table, k: Key, at: int, c: Config, x: Key, log: seq<int>, horizon: int)
    requires ClientOk(Prepare(t, k, at, c)[0], c.limit) && Holds(Times(Prepare(t, k, at, c), x), log, horizon)
    requires at - c.window <= horizon
    ensures Holds(Times(Attempted(t, k, at, c), x),
                  if x == k && Attempt(t, k, at, c).allowed then log + [at] else log, horizon)
  {
    var u := Prepare(t, k, at, c);
    assert Attempted(t, k, at, c)[1..] == u[1..];
    if x == k {
      DecideHolds(u[0], at, c, log, horizon);
    }
  }

  /** An evicted client is lost until its attempts expire. */
  lemma EvictionHolds(t: Table, x: Key, log: seq<int>, cutoff: int, horizon: int, c: Config, clock: int)
    requires Consistent(t, c, clock) && Find(t, x).Some? && Holds(Times(t, x), log, horizon)
    requires cutoff <= horizon && (After(Times(t, x), cutoff) > 0 ==> clock <= horizon)
    ensures Holds([], log, horizon)
  {
    FoundBy(t, x, clock, c.limit);
    if After(Times(t, x), cutoff) == 0 {
      HoldsNoneAfter(Times(t, x), log, horizon, cutoff);
    } else {
      HoldsNothing(Times(t, x), log, horizon, Find(t, x).value.lastSeen);
    }
  }

  lemma {:induction false} HoldsPop(times: seq<int>, log: seq<int>, horizon: int)
    requires Holds(times, log, horizon)
    ensures Holds(Pop(times), Pop(log), horizon)
  {
    if log != times {
      HoldsPop(times, log[1..], horizon);
      if |log| > 1 {
        assert Pop(log)[1..] == Pop(log[1..]);
      }
    }
  }

  lemma WithdrawHolds(t: Table, h: History, k: Key, c: Config, x: Key)
    requires Consistent(t, c, h.clock) && Holds(Times(t, x), Counted(h, x), Horizon(h, x, c.window))
    ensures var s' := Step(State(t, h), Withdraw(k), c);
            Holds(Times(s'.table, x), Counted(s'.history, x), Horizon(s'.history, x, c.window))
  {
    ForgetKeeps(t, k, c, h.clock);
    if x == k {
      HoldsPop(Times(t, k), Counted(h, k), Horizon(h, k, c.window));
      ForgetTimes(t, k, c, h.clock);
    }
  }

  lemma ForgetTimes(t: Table, k: Key, c: Config, clock: int)
    requires Consistent(t, c, clock)
    ensures Times(Forget(t, k), k) == Pop(Times(t, k))
  {
    WithoutListed(t, k, clock, c.limit);
    FoundBy(t, k, clock, c.limit);
    var f := Find(t, k);
    if f.Some? && |f.value.times| > 1 {
      PopRising(f.value.times, f.value.lastSeen);
      ReplaceListed(t, f.value.(times := Pop(f.value.times)), clock, c.limit);
    }
  }

  lemma SweepHolds(t: Table, h: History, at: int, c: Config, x: Key)
    requires Consistent(t, c, h.clock) && Holds(Times(t, x), Counted(h, x), Horizon(h, x, c.window)) && at >= h.clock
    ensures var s' := Step(State(t, h), Sweep(at), c);
            Holds(Times(s'.table, x), Counted(s'.history, x), Horizon(s'.history, x, c.window))
  {
    var horizon := Horizon(h.(clock := at), x, c.window);
    HoldsLater(Times(t, x), Counted(h, x), Horizon(h, x, c.window), horizon);
    FreshHolds(t, at - c.window, x, Counted(h, x), horizon, c, h.clock);
  }

  /** Every event keeps the table consistent and faithful to the history. */
  lemma StepKeeps(s: State, e: Event, c: Config)
    requires Inv(s, c) && Timely(e, s.history.clock) && c.maxKeys > 0
    ensures Inv(Step(s, e, c), c)
  {
    var s' := Step(s, e, c);
    match e {
      case Try(k, at) =>
        AttemptKeeps(s.table, k, at, c, s.history.clock);
        RecordedHorizon(s.history, s.table, k, at, c, k);
      case Withdraw(k) => ForgetKeeps(s.table, k, c, s.history.clock);
      case Sweep(at) =>
        FreshListed(s.table, at - c.window, s.history.clock, c.limit);
        ListedLater(s'.table, s.history.clock, at, c.limit);
    }
    forall x ensures Holds(Times(s'.table, x), Counted(s'.history, x), Horizon(s'.history, x, c.window)) {
      match e {
        case Try(k, at) => TryHolds(s.table, s.history, k, at, c, x);
        case Withdraw(k) => WithdrawHolds(s.table, s.history, k, c, x);
        case Sweep(at) => SweepHolds(s.table, s.history, at, c, x);
      }
    }
  }

  // ------------------------------------------------------- over every run

  ghost function Next(s: State, e: Event, c: Config): (s': State)
    requires Inv(s, c) && Timely(e, s.history.clock) && c.maxKeys > 0
    ensures Inv(s', c) && s' == Step(s, e, c)
  {
    StepKeeps(s, e, c);
    Step(s, e, c)
  }

  /** The time of the last event. */
  function Clock(events: seq<Event>, start: int): int {
    if events == [] then start
    else if events[|events| - 1].Withdraw? then Clock(events[..|events| - 1], start)
    else events[|events| - 1].at
  }

  /** Events come at non-decreasing times. */
  predicate InOrder(events: seq<Event>, start: int) {
    events == [] ||
    (InOrder(events[..|events| - 1], start) && Timely(events[|events| - 1], Clock(events[..|events| - 1], start)))
  }

  /** The limiter and the reference after a run from an empty table. */
  ghost function Run(events: seq<Event>, start: int, c: Config): (s: State)
    requires InOrder(events, start) && c.maxKeys > 0
    ensures Inv(s, c) && s.history.clock == Clock(events, start)
  {
    if events == [] then State([], History(map[], map[], start))
    else Next(Run(events[..|events| - 1], start, c), events[|events| - 1], c)
  }

  /** After any run the next attempt is never refused wrongly, and it gets the
      reference's very answer unless its client was evicted, with attempts in
      the window, less than a window ago. */
  lemma AnswersMatch(events: seq<Event>, start: int, k: Key, at: int, c: Config)
    requires InOrder(events, start) && at >= Clock(events, start) && c.maxKeys > 0
    ensures var s := Run(events, start, c); var allowed := Attempt(s.table, k, at, c).allowed;
            && (ReferenceAllows(s.history, k, at, c) ==> allowed)
            && (k !in s.history.lost || s.history.lost[k] <= at - c.window
                ==> (allowed <==> ReferenceAllows(s.history, k, at, c)))
  {
    var s := Run(events, start, c);
    StepAnswers(s, k, at, c);
  }

  lemma StepAnswers(s: State, k: Key, at: int, c: Config)
    requires Inv(s, c) && at >= s.history.clock && c.maxKeys > 0
    ensures var allowed := Attempt(s.table, k, at, c).allowed;
            && (ReferenceAllows(s.history, k, at, c) ==> allowed)
            && (k !in s.history.lost || s.history.lost[k] <= at - c.window
                ==> (allowed <==> ReferenceAllows(s.history, k, at, c)))
  {
    var h, cutoff := s.history, at - c.window;
    var horizon := Horizon(h.(clock := at), k, c.window);
    HoldsLater(Times(s.table, k), Counted(h, k), Horizon(h, k, c.window), horizon);
    VictimIsOther(Fresh(s.table, cutoff), k, c.maxKeys);
    PrepareHolds(s.table, k, at, c, h.clock, k, Counted(h, k), horizon);
    PrepareKeeps(s.table, k, at, c, h.clock);
    var times := Times(Prepare(s.table, k, at, c), k);
    assert ClientOk(Prepare(s.table, k, at, c)[0], c.limit);
    ExpireCounts(times, cutoff, at);
    HeldCounts(times, Counted(h, k), horizon, cutoff);
  }

  // ---------------------------------------------------------- retry after

  const SECOND: int := 1_000_000_000

  /** Seconds until the oldest attempt leaves the window, as told to a refused
      client; times are in nanoseconds. */
  function RetryAfter(t: Table, k: Key, now: int, c: Config): int {
    if Times(t, k) == [] then 0
    else
      var left := Times(t, k)[0] + c.window - now;
      if left < 0 then 1 else left / SECOND + 1
  }

  predicate About(e: Event, k: Key) {
    !e.Sweep? && e.key == k
  }

  lemma OthersPrepare(t: Table, x: Key, at: int, c: Config, clock: int, k: Key)
    requires Consistent(t, c, clock) && k != x
    ensures var f := Find(Prepare(t, x, at, c), k); f.None? || f == Find(t, k)
  {
    var live := Fresh(t, at - c.window);
    FreshListed(t, at - c.window, clock, c.limit);
    WithoutListed(live, x, clock, c.limit);
    if live != [] {
      InitListed(live, clock, c.limit);
    }
    var u := Prepare(t, x, at, c);
    assert Find(u, k) == Find(u[1..], k);
  }

  /** Other clients' events leave a client's bucket alone, or drop it. */
  lemma OthersKeep(s: State, e: Event, k: Key, c: Config)
    requires Inv(s, c) && Timely(e, s.history.clock) && c.maxKeys > 0 && !About(e, k)
    ensures var f := Find(Step(s, e, c).table, k); f.None? || f == Find(s.table, k)
  {
    match e {
      case Try(x, at) =>
        OthersPrepare(s.table, x, at, c, s.history.clock, k);
        assert Attempted(s.table, x, at, c)[1..] == Prepare(s.table, x, at, c)[1..];
      case Withdraw(x) => ForgetKeeps(s.table, x, c, s.history.clock);
      case Sweep(at) => FreshListed(s.table, at - c.window, s.history.clock, c.limit);
    }
  }

  /** Further events from a given state on. */
  ghost function Continue(s: State, events: seq<Event>, c: Config): (s': State)
    requires Inv(s, c) && InOrder(events, s.history.clock) && c.maxKeys > 0
    ensures Inv(s', c) && s'.history.clock == Clock(events, s.history.clock)
  {
    if events == [] then s
    else Next(Continue(s, events[..|events| - 1], c), events[|events| - 1], c)
  }

  lemma {:induction false} OthersContinue(s: State, events: seq<Event>, k: Key, c: Config)
    requires Inv(s, c) && InOrder(events, s.history.clock) && c.maxKeys > 0
    requires forall i :: 0 <= i < |events| ==> !About(events[i], k)
    ensures var f := Find(Continue(s, events, c).table, k); f.None? || f == Find(s.table, k)
  {
    if events != [] {
      OthersContinue(s, events[..|events| - 1], k, c);
      OthersKeep(Continue(s, events[..|events| - 1], c), events[|events| - 1], k, c);
    }
  }

  /** A refused client that asks how long to wait, then or later, and waits that
      long without trying in between, is allowed, whatever other clients do
      before it asks (`events`) and while it waits (`more`). */
  lemma WaitingIsEnough(s: State, k: Key, now: int, events: seq<Event>, asked: int, more: seq<Event>, at: int, c: Config)
    requires Inv(s, c) && now >= s.history.clock && c.maxKeys > 0 && c.limit > 0
    requires !Attempt(s.table, k, now, c).allowed
    requires InOrder(events, now) && forall i :: 0 <= i < |events| ==> !About(events[i], k)
    requires InOrder(more, Clock(events, now)) && forall i :: 0 <= i < |more| ==> !About(more[i], k)
    requires at >= Clock(more, Clock(events, now))
    requires at >= asked + RetryAfter(Continue(Next(s, Try(k, now), c), events, c).table, k, asked, c) * SECOND
    ensures Attempt(Continue(Continue(Next(s, Try(k, now), c), events, c), more, c).table, k, at, c).allowed
  {
    RefusedIsFull(s.table, k, now, c, s.history.clock);
    WaitsOut(Next(s, Try(k, now), c), k, now, events, asked, more, at, c);
  }

  lemma {:induction false} ClockRuns(events: seq<Event>, start: int)
    requires InOrder(events, start)
    ensures Clock(events, start) >= start
  {
    if events != [] {
      ClockRuns(events[..|events| - 1], start);
    }
  }

  lemma WaitsOut(s: State, k: Key, now: int, events: seq<Event>, asked: int, more: seq<Event>, at: int, c: Config)
    requires Inv(s, c) && s.history.clock == now && c.maxKeys > 0 && c.limit > 0
    requires |Times(s.table, k)| == c.limit && Rising(Times(s.table, k), now)
    requires InOrder(events, now) && forall i :: 0 <= i < |events| ==> !About(events[i], k)
    requires InOrder(more, Clock(events, now)) && forall i :: 0 <= i < |more| ==> !About(more[i], k)
    requires at >= Clock(more, Clock(events, now))
    requires at >= asked + RetryAfter(Continue(s, events, c).table, k, asked, c) * SECOND
    ensures Attempt(Continue(Continue(s, events, c), more, c).table, k, at, c).allowed
  {
    var t := Continue(s, events, c);
    var u := Continue(t, more, c);
    OthersContinue(s, events, k, c);
    OthersContinue(t, more, k, c);
    ClockRuns(events, now);
    ClockRuns(more, Clock(events, now));
    WaitedIsAllowed(t.table, u.table, k, Times(s.table, k), now, asked, at, c, u.history.clock);
  }

  /** The client's bucket is dropped, or as it was when it asked. */
  lemma WaitedIsAllowed(t: Table, u: Table, k: Key, times: seq<int>, now: int, asked: int, at: int, c: Config, clock: int)
    requires Consistent(u, c, clock) && (Find(u, k).None? || (Find(u, k) == Find(t, k) && Times(t, k) == times))
    requires |times| == c.limit > 0 && Rising(times, now) && now <= at
    requires at >= asked + RetryAfter(t, k, asked, c) * SECOND
    ensures Attempt(u, k, at, c).allowed
  {
    if Find(u, k).None? {
      PreparedTimes(u, k, at, c, clock, []);
    } else {
      WaitReaches(t, k, asked, at, c);
      RisingLater(times, now, at);
      ExpiredIsAllowed(u, k, at, c, clock, times);
    }
  }

  /** Until then it is refused: while other clients are at it, a refused client is
      allowed again exactly when its bucket was dropped or its oldest attempt has
      left the window, so it was told to wait at most a second too long. */
  lemma AllowedExactly(s: State, k: Key, now: int, events: seq<Event>, at: int, c: Config)
    requires Inv(s, c) && now >= s.history.clock && c.maxKeys > 0 && c.limit > 0
    requires !Attempt(s.table, k, now, c).allowed
    requires InOrder(events, now) && at >= Clock(events, now) && forall i :: 0 <= i < |events| ==> !About(events[i], k)
    ensures var t := Continue(Next(s, Try(k, now), c), events, c).table;
            && (Attempt(t, k, at, c).allowed
                <==> Find(t, k).None? || (Times(t, k) != [] && Times(t, k)[0] <= at - c.window))
            && (forall asked :: asked <= at < asked + (RetryAfter(t, k, asked, c) - 1) * SECOND ==> !Attempt(t, k, at, c).allowed)
  {
    var s1 := Next(s, Try(k, now), c);
    var s2 := Continue(s1, events, c);
    RefusedIsFull(s.table, k, now, c, s.history.clock);
    OthersContinue(s1, events, k, c);
    ClockRuns(events, now);
    HeldUntil(s2.table, k, Times(s1.table, k), now, at, c, s2.history.clock);
    forall asked | asked <= at < asked + (RetryAfter(s2.table, k, asked, c) - 1) * SECOND
      ensures !Attempt(s2.table, k, at, c).allowed
    {
      ToldInTime(s2.table, k, asked, at, c);
    }
  }

  lemma HeldUntil(t: Table, k: Key, times: seq<int>, now: int, at: int, c: Config, clock: int)
    requires Consistent(t, c, clock) && (Find(t, k).None? || Times(t, k) == times)
    requires |times| == c.limit > 0 && Rising(times, now) && clock <= at && now <= at && c.maxKeys > 0
    ensures Attempt(t, k, at, c).allowed <==> Find(t, k).None? || times[0] <= at - c.window
  {
    RisingLater(times, now, at);
    if Find(t, k).None? {
      PreparedTimes(t, k, at, c, clock, []);
    } else if times[0] <= at - c.window {
      ExpiredIsAllowed(t, k, at, c, clock, times);
    } else {
      StillHeld(t, k, at, c, clock);
    }
  }

  lemma StillListed(t: Table, k: Key, cutoff: int, limit: nat, clock: int)
    requires Listed(t, clock, limit) && Find(t, k).Some? && Times(t, k) != [] && Times(t, k)[0] > cutoff
    ensures Find(Fresh(t, cutoff), k) == Find(t, k)
  {
    FoundBy(t, k, clock, limit);
    PopRising(Times(t, k), Find(t, k).value.lastSeen);
    FreshListed(t, cutoff, clock, limit);
  }

  lemma StillHeld(t: Table, k: Key, at: int, c: Config, clock: int)
    requires Consistent(t, c, clock) && Find(t, k).Some? && |Times(t, k)| == c.limit > 0 && Times(t, k)[0] > at - c.window
    ensures !Attempt(t, k, at, c).allowed
  {
    var times, cutoff := Times(t, k), at - c.window;
    StillListed(t, k, cutoff, c.limit, clock);
    assert Touched(Fresh(t, cutoff), k, at).times == times;
    HeldIsRefused(Touched(Fresh(t, cutoff), k, at), at, c);
  }

  lemma HeldIsRefused(b: Client, at: int, c: Config)
    requires |b.times| == c.limit > 0 && b.times[0] > at - c.window
    ensures !Decide(b, at, c).allowed
  {
    assert Expire(b.times, at - c.window) == b.times;
  }

  lemma ToldInTime(t: Table, k: Key, asked: int, at: int, c: Config)
    requires asked <= at < asked + (RetryAfter(t, k, asked, c) - 1) * SECOND
    ensures Times(t, k) != [] && Times(t, k)[0] > at - c.window
  {
    if Times(t, k) != [] {
      var left := Times(t, k)[0] + c.window - asked;
      assert left >= 0 ==> (left / SECOND) * SECOND <= left;
    }
  }

  lemma WaitReaches(t: Table, k: Key, now: int, at: int, c: Config)
    requires Times(t, k) != [] && at >= now + RetryAfter(t, k, now, c) * SECOND
    ensures Times(t, k)[0] <= at - c.window
  {
    var left := Times(t, k)[0] + c.window - now;
    if left >= 0 {
      assert left < (left / SECOND + 1) * SECOND;
    }
  }

  lemma ExpiredIsAllowed(t: Table, k: Key, at: int, c: Config, clock: int, times: seq<int>)
    requires Consistent(t, c, clock) && (Find(t, k).None? || Times(t, k) == times) && Rising(times, at)
    requires 0 < |times| <= c.limit && times[0] <= at - c.window
    ensures Attempt(t, k, at, c).allowed
  {
    PreparedTimes(t, k, at, c, clock, times);
    ExpireRising(times, at - c.window, at);
  }

  lemma RefusedIsFull(t: Table, k: Key, now: int, c: Config, clock: int)
    requires Consistent(t, c, clock) && now >= clock && c.maxKeys > 0 && c.limit > 0
    requires !Attempt(t, k, now, c).allowed
    ensures var times := Times(Attempted(t, k, now, c), k); |times| == c.limit && Rising(times, now)
  {
    PrepareKeeps(t, k, now, c, clock);
    DecideKeeps(Prepare(t, k, now, c)[0], now, c);
  }

  lemma FreshFind(t: Table, k: Key, cutoff: int, limit: nat, clock: int)
    requires Listed(t, clock, limit)
    ensures Find(Fresh(t, cutoff), k).None? || Find(Fresh(t, cutoff), k) == Find(t, k)
  {
    FreshListed(t, cutoff, clock, limit);
  }

  lemma PreparedTimes(t: Table, k: Key, at: int, c: Config, clock: int, times: seq<int>)
    requires Consistent(t, c, clock) && (Find(t, k).None? || Times(t, k) == times)
    ensures var u := Prepare(t, k, at, c)[0].times; u == [] || u == times
  {
    var live := Fresh(t, at - c.window);
    FreshFind(t, k, at - c.window, c.limit, clock);
    assert Prepare(t, k, at, c)[0] == Touched(live, k, at);
  }

  // ------------------------------------------------- how many clients it takes

  /** The clients that made an attempt. */
  function Clients(events: seq<Event>): set<Key> {
    if events == [] then {}
    else Clients(events[..|events| - 1]) + if events[|events| - 1].Try? then {events[|events| - 1].key} else {}
  }

  predicate Right(s: State, k: Key, at: int, c: Config) {
    Attempt(s.table, k, at, c).allowed <==> ReferenceAllows(s.history, k, at, c)
  }

  /** Every attempt of the run got the reference's answer. */
  ghost predicate AllRight(events: seq<Event>, start: int, c: Config)
    requires InOrder(events, start) && c.maxKeys > 0
  {
    events == [] ||
    var init, e := events[..|events| - 1], events[|events| - 1];
    AllRight(init, start, c) && (e.Try? ==> Right(Run(init, start, c), e.key, e.at, c))
  }

  function Keys(t: Table): set<Key> {
    if t == [] then {} else {t[0].key} + Keys(t[1..])
  }

  lemma {:induction false} KeysFound(t: Table, x: Key)
    ensures x in Keys(t) <==> Find(t, x).Some?
  {
    if t != [] {
      KeysFound(t[1..], x);
    }
  }

  lemma {:induction false} KeysCount(t: Table, latest: int, limit: nat)
    requires Listed(t, latest, limit)
    ensures |Keys(t)| == |t|
  {
    if t != [] {
      KeysFound(t[1..], t[0].key);
      KeysCount(t[1..], t[0].lastSeen, limit);
    }
  }

  lemma {:induction false} FewerOf<T>(a: set<T>, b: set<T>)
    requires a <= b
    ensures |a| <= |b|
  {
    if x :| x in a {
      FewerOf(a - {x}, b - {x});
    }
  }

  lemma FreshKeys(t: Table, cutoff: int, latest: int, limit: nat)
    requires Listed(t, latest, limit)
    ensures Keys(Fresh(t, cutoff)) <= Keys(t)
  {
    FreshListed(t, cutoff, latest, limit);
    forall x | x in Keys(Fresh(t, cutoff)) ensures x in Keys(t) {
      KeysFound(Fresh(t, cutoff), x);
      KeysFound(t, x);
    }
  }

  /** With room for all clients, nobody is evicted. */
  lemma RoomForAll(t: Table, k: Key, at: int, c: Config, clock: int, clients: set<Key>)
    requires Consistent(t, c, clock) && Keys(t) <= clients && k in clients && |clients| <= c.maxKeys
    ensures Evicted(t, k, at, c) == None
  {
    var live := Fresh(t, at - c.window);
    FreshKeys(t, at - c.window, clock, c.limit);
    FreshListed(t, at - c.window, clock, c.limit);
    if Find(live, k).None? {
      KeysFound(live, k);
      KeysCount(live, clock, c.limit);
      assert |Keys(live) + {k}| == |live| + 1;
      FewerOf(Keys(live) + {k}, clients);
    }
  }

  lemma AttemptedKeys(t: Table, k: Key, at: int, c: Config, clock: int)
    requires Consistent(t, c, clock)
    ensures Keys(Attempted(t, k, at, c)) <= Keys(t) + {k}
  {
    var u := Attempted(t, k, at, c);
    assert u[1..] == Prepare(t, k, at, c)[1..] && u[0].key == k;
    forall x | x in Keys(u) ensures x in Keys(t) + {k} {
      KeysFound(u, x);
      KeysFound(t, x);
      if x != k {
        OthersPrepare(t, k, at, c, clock, x);
      }
    }
  }

  lemma ForgetKeys(t: Table, k: Key, c: Config, clock: int)
    requires Consistent(t, c, clock)
    ensures Keys(Forget(t, k)) <= Keys(t)
  {
    ForgetKeeps(t, k, c, clock);
    forall x | x in Keys(Forget(t, k)) ensures x in Keys(t) {
      KeysFound(Forget(t, k), x);
      KeysFound(t, x);
    }
  }

  lemma NobodyLost(s: State, e: Event, c: Config, clients: set<Key>)
    requires Inv(s, c) && Timely(e, s.history.clock) && c.maxKeys > 0
    requires Keys(s.table) <= clients && s.history.lost == map[] && (e.Try? ==> e.key in clients) && |clients| <= c.maxKeys
    ensures Keys(Step(s, e, c).table) <= clients && Step(s, e, c).history.lost == map[]
  {
    match e {
      case Try(k, at) =>
        RoomForAll(s.table, k, at, c, s.history.clock, clients);
        AttemptedKeys(s.table, k, at, c, s.history.clock);
      case Withdraw(k) => ForgetKeys(s.table, k, c, s.history.clock);
      case Sweep(at) => FreshKeys(s.table, at - c.window, s.history.clock, c.limit);
    }
  }

  lemma {:induction false} FewClientsRight(events: seq<Event>, start: int, c: Config)
    requires InOrder(events, start) && c.maxKeys > 0 && |Clients(events)| <= c.maxKeys
    ensures AllRight(events, start, c)
    ensures Keys(Run(events, start, c).table) <= Clients(events) && Run(events, start, c).history.lost == map[]
  {
    if events != [] {
      var init, e := events[..|events| - 1], events[|events| - 1];
      FewerOf(Clients(init), Clients(events));
      FewClientsRight(init, start, c);
      NobodyLost(Run(init, start, c), e, c, Clients(events));
      if e.Try? {
        AnswersMatch(init, start, e.key, e.at, c);
      }
    }
  }

  // one client uses up its limit, then so many others come that it is evicted

  const FIRST := Key(0)

  function Zeros(n: nat): seq<int> {
    if n == 0 then [] else Zeros(n - 1) + [0]
  }

  lemma {:induction false} ZerosCount(n: nat, cutoff: int)
    requires cutoff < 0
    ensures |Zeros(n)| == n && After(Zeros(n), cutoff) == n && Expire(Zeros(n), cutoff) == Zeros(n)
  {
    if n > 0 {
      ZerosCount(n - 1, cutoff);
      AfterMore(Zeros(n - 1), 0, cutoff);
      FirstZero(n);
    }
  }

  lemma {:induction false} FirstZero(n: nat)
    requires n > 0
    ensures Zeros(n) != [] && Zeros(n)[0] == 0
  {
    if n > 1 {
      FirstZero(n - 1);
    }
  }

  lemma {:induction false} AfterMore(times: seq<int>, x: int, cutoff: int)
    ensures After(times + [x], cutoff) == After(times, cutoff) + if x > cutoff then 1 else 0
  {
    if times == [] {
      assert (times + [x])[1..] == [];
    } else {
      AfterMore(times[1..], x, cutoff);
      assert (times + [x])[1..] == times[1..] + [x];
    }
  }

  /** `n` attempts of the first client. */
  function Burst(n: nat): seq<Event> {
    if n == 0 then [] else Burst(n - 1) + [Try(FIRST, 0)]
  }

  /** Then `m` clients with one attempt each. */
  function Crowd(n: nat, m: nat): seq<Event> {
    if m == 0 then Burst(n) else Crowd(n, m - 1) + [Try(Key(m), 0)]
  }

  predicate AtZero(events: seq<Event>) {
    events == [] || (events[|events| - 1].Try? && events[|events| - 1].at == 0 && AtZero(events[..|events| - 1]))
  }

  lemma {:induction false} AtZeroInOrder(events: seq<Event>)
    requires AtZero(events)
    ensures InOrder(events, 0) && Clock(events, 0) == 0
  {
    if events != [] {
      AtZeroInOrder(events[..|events| - 1]);
    }
  }

  lemma EventsMore(events: seq<Event>, e: Event)
    ensures (events + [e])[..|events + [e]| - 1] == events && (events + [e])[|events + [e]| - 1] == e
    ensures Clients(events + [e]) == Clients(events) + if e.Try? then {e.key} else {}
    ensures AtZero(events + [e]) <==> e.Try? && e.at == 0 && AtZero(events)
  {
    assert (events + [e])[..|events|] == events;
  }

  lemma RunMore(events: seq<Event>, e: Event, c: Config)
    requires AtZero(events) && e.Try? && e.at == 0 && c.maxKeys > 0
    ensures AtZero(events + [e]) && InOrder(events, 0) && InOrder(events + [e], 0)
    ensures Run(events + [e], 0, c) == Step(Run(events, 0, c), e, c)
    ensures AllRight(events + [e], 0, c) ==> Right(Run(events, 0, c), e.key, 0, c)
  {
    EventsMore(events, e);
    AtZeroInOrder(events);
    AtZeroInOrder(events + [e]);
  }

  predicate AfterBurst(s: State, n: nat) {
    && s.table == (if n == 0 then [] else [Client(FIRST, Zeros(n), 0, None)])
    && Counted(s.history, FIRST) == Zeros(n)
  }

  lemma BurstStep(s: State, n: nat, c: Config)
    requires c.window > 0 && c.maxKeys > 0 && n < c.limit && AfterBurst(s, n)
    ensures AfterBurst(Step(s, Try(FIRST, 0), c), n + 1)
  {
    var cutoff := 0 - c.window;
    ZerosCount(n, cutoff);
    assert Fresh(s.table, cutoff) == s.table;
    assert Prepare(s.table, FIRST, 0, c) == [Client(FIRST, Zeros(n), 0, None)];
  }

  lemma BurstMore(events: seq<Event>, n: nat, c: Config)
    requires c.window > 0 && c.maxKeys > 0 && n < c.limit
    requires AtZero(events) && InOrder(events, 0) && Clients(events) <= {FIRST} && AfterBurst(Run(events, 0, c), n)
    ensures var more := events + [Try(FIRST, 0)];
            AtZero(more) && InOrder(more, 0) && Clients(more) <= {FIRST} && AfterBurst(Run(more, 0, c), n + 1)
  {
    RunMore(events, Try(FIRST, 0), c);
    EventsMore(events, Try(FIRST, 0));
    BurstStep(Run(events, 0, c), n, c);
  }

  lemma {:induction false} BurstRun(n: nat, c: Config)
    requires c.window > 0 && c.maxKeys > 0 && n <= c.limit
    ensures AtZero(Burst(n)) && InOrder(Burst(n), 0) && Clients(Burst(n)) <= {FIRST}
    ensures AfterBurst(Run(Burst(n), 0, c), n)
  {
    if n > 0 {
      BurstRun(n - 1, c);
      BurstMore(Burst(n - 1), n - 1, c);
    }
  }

  /** All seen at 0, and no client beyond the `m`-th. */
  predicate Crowded(t: Table, m: nat) {
    t == [] || (t[0].lastSeen == 0 && t[0].key.address <= m && Crowded(t[1..], m))
  }

  lemma {:induction false} CrowdedIsFresh(t: Table, m: nat, cutoff: int)
    requires Crowded(t, m) && cutoff < 0
    ensures Fresh(t, cutoff) == t && Find(t, Key(m + 1)).None? && Crowded(t, m + 1)
  {
    if t != [] {
      CrowdedIsFresh(t[1..], m, cutoff);
    }
  }

  lemma {:induction false} CrowdedInit(t: Table, m: nat)
    requires Crowded(t, m) && t != []
    ensures Crowded(t[..|t| - 1], m)
  {
    if |t| > 1 {
      CrowdedInit(t[1..], m);
      assert t[..|t| - 1][1..] == t[1..][..|t| - 2];
    }
  }

  /** A new client comes to the front, and evicts the last of a full table. */
  lemma CrowdStep(s: State, m: nat, c: Config)
    requires c.window > 0 && c.limit > 0 && c.maxKeys > 0 && Crowded(s.table, m) && s.table != []
    ensures var s' := Step(s, Try(Key(m + 1), 0), c);
            s'.table == [Client(Key(m + 1), [0], 0, None)] + (if |s.table| >= c.maxKeys then s.table[..|s.table| - 1] else s.table)
            && Crowded(s'.table, m + 1) && Counted(s'.history, FIRST) == Counted(s.history, FIRST)
  {
    var t, k := s.table, Key(m + 1);
    CrowdedIsFresh(t, m, 0 - c.window);
    CrowdedInit(t, m + 1);
    var u := Prepare(t, k, 0, c);
    assert u[0] == Client(k, [], 0, None);
    assert u[1..] == if |t| >= c.maxKeys then t[..|t| - 1] else t;
    var a := Attempted(t, k, 0, c);
    assert [] + [0] == [0];
    assert a[0] == Client(k, [0], 0, None) && a[1..] == u[1..];
  }

  /** The first client is at the back, behind `m` others. */
  predicate FirstLast(t: Table, m: nat) {
    |t| == m + 1 && t[m].key == FIRST && Crowded(t, m) && forall i :: 0 <= i < m ==> t[i].key != FIRST
  }

  predicate AfterCrowd(s: State, m: nat, limit: nat) {
    FirstLast(s.table, m) && Counted(s.history, FIRST) == Zeros(limit)
  }

  lemma CrowdGrows(s: State, m: nat, c: Config)
    requires c.window > 0 && c.maxKeys > m + 1 && c.limit > 0 && AfterCrowd(s, m, c.limit)
    ensures AfterCrowd(Step(s, Try(Key(m + 1), 0), c), m + 1, c.limit)
  {
    CrowdStep(s, m, c);
    var t, u := s.table, Step(s, Try(Key(m + 1), 0), c).table;
    assert u[0].key == Key(m + 1) && u[1..] == t;
    forall i | 0 <= i < m + 1 ensures u[i].key != FIRST {
      assert i > 0 ==> u[i] == t[i - 1];
    }
  }

  lemma CrowdMore(events: seq<Event>, m: nat, c: Config)
    requires c.window > 0 && c.maxKeys > m + 1 && c.limit > 0
    requires AtZero(events) && InOrder(events, 0) && Clients(events) <= Numbered(m) && AfterCrowd(Run(events, 0, c), m, c.limit)
    ensures var more := events + [Try(Key(m + 1), 0)];
            AtZero(more) && InOrder(more, 0) && Clients(more) <= Numbered(m + 1) && AfterCrowd(Run(more, 0, c), m + 1, c.limit)
  {
    RunMore(events, Try(Key(m + 1), 0), c);
    EventsMore(events, Try(Key(m + 1), 0));
    CrowdGrows(Run(events, 0, c), m, c);
  }

  lemma {:induction false} CrowdRun(m: nat, c: Config)
    requires c.window > 0 && c.maxKeys > m && c.limit > 0
    ensures var events := Crowd(c.limit, m);
            AtZero(events) && InOrder(events, 0) && Clients(events) <= Numbered(m) && AfterCrowd(Run(events, 0, c), m, c.limit)
  {
    if m == 0 {
      BurstRun(c.limit, c);
    } else {
      CrowdRun(m - 1, c);
      CrowdMore(Crowd(c.limit, m - 1), m - 1, c);
    }
  }

  /** The keys 0 to `m`. */
  function Numbered(m: nat): (ks: set<Key>)
    ensures |ks| == m + 1 && forall k :: k in ks <==> k.address <= m
  {
    if m == 0 then {FIRST} else Numbered(m - 1) + {Key(m)}
  }

  lemma {:induction false} NotFound(t: Table, k: Key)
    requires forall i :: 0 <= i < |t| ==> t[i].key != k
    ensures Find(t, k).None?
  {
    if t != [] {
      NotFound(t[1..], k);
    }
  }

  lemma NewIsAllowed(t: Table, k: Key, at: int, c: Config, clock: int)
    requires Consistent(t, c, clock) && Find(t, k).None? && c.limit > 0
    ensures Attempt(t, k, at, c).allowed
  {
    PreparedTimes(t, k, at, c, clock, []);
  }

  lemma FirstGone(s: State, m: nat, c: Config)
    requires c.window > 0 && c.limit > 0 && c.maxKeys == m + 1 && AfterCrowd(s, m, c.limit)
    ensures var s' := Step(s, Try(Key(m + 1), 0), c);
            Find(s'.table, FIRST).None? && Counted(s'.history, FIRST) == Zeros(c.limit)
  {
    CrowdStep(s, m, c);
    NotFound(Step(s, Try(Key(m + 1), 0), c).table, FIRST);
  }

  lemma GoneIsWrong(s: State, c: Config)
    requires Inv(s, c) && c.window > 0 && c.limit > 0
    requires Find(s.table, FIRST).None? && Counted(s.history, FIRST) == Zeros(c.limit)
    ensures !Right(s, FIRST, 0, c)
  {
    NewIsAllowed(s.table, FIRST, 0, c, s.history.clock);
    ZerosCount(c.limit, 0 - c.window);
  }

  lemma TooMany(before: seq<Event>, m: nat, c: Config) returns (events: seq<Event>)
    requires c.window > 0 && c.limit > 0 && c.maxKeys == m + 1
    requires AtZero(before) && InOrder(before, 0) && Clients(before) <= Numbered(m) && AfterCrowd(Run(before, 0, c), m, c.limit)
    ensures InOrder(events, 0) && Clients(events) <= Numbered(m + 1) && !AllRight(events, 0, c)
  {
    var e, last := Try(Key(m + 1), 0), Try(FIRST, 0);
    RunMore(before, e, c);
    EventsMore(before, e);
    FirstGone(Run(before, 0, c), m, c);
    var crowd := before + [e];
    GoneIsWrong(Run(crowd, 0, c), c);
    RunMore(crowd, last, c);
    EventsMore(crowd, last);
    events := crowd + [last];
  }

  /** One client more than the table holds: the first client, evicted with its
      limit used up, is allowed again. */
  lemma EvictedIsAllowed(c: Config) returns (events: seq<Event>)
    requires c.window > 0 && c.limit > 0 && c.maxKeys > 0
    ensures InOrder(events, 0) && |Clients(events)| <= c.maxKeys + 1 && !AllRight(events, 0, c)
  {
    var m := c.maxKeys - 1;
    CrowdRun(m, c);
    events := TooMany(Crowd(c.limit, m), m, c);
    FewerOf(Clients(events), Numbered(m + 1));
  }

  /** All runs of at most `d` clients get the reference's answers. */
  ghost predicate RightForUpTo(d: nat, c: Config)
    requires c.maxKeys > 0
  {
    forall events, start :: InOrder(events, start) && |Clients(events)| <= d ==> AllRight(events, start, c)
  }

  /** The limiter answers like one that remembers everything, over all runs of at
      most `d` clients, if and only if its table holds `d` clients. */
  lemma RightExactly(d: nat, c: Config)
    requires c.limit > 0 && c.window > 0 && c.maxKeys > 0
    ensures RightForUpTo(d, c) <==> d <= c.maxKeys
  {
    if d <= c.maxKeys {
      forall events, start | InOrder(events, start) && |Clients(events)| <= d ensures AllRight(events, start, c) {
        FewClientsRight(events, start, c);
      }
    } else {
      var events := EvictedIsAllowed(c);
      assert !AllRight(events, 0, c);
    }
  }

  // ------------------------------------------------------- the first refusal

  /** In this run client `k` was refused at `t` and told it was its first refusal. */
  ghost predicate WasReported(events: seq<Event>, start: int, k: Key, t: int, c: Config)
    requires InOrder(events, start) && c.maxKeys > 0
  {
    events != [] &&
    var init, e := events[..|events| - 1], events[|events| - 1];
    WasReported(init, start, k, t, c) || (e == Try(k, t) && Reports(Run(init, start, c), k, t, c))
  }

  predicate Reports(s: State, k: Key, at: int, c: Config) {
    var a := Attempt(s.table, k, at, c);
    !a.allowed && a.firstRefusal
  }

  lemma FreshBucket(t: Table, k: Key, at: int, c: Config, clock: int)
    requires Consistent(t, c, clock)
    ensures var u := Prepare(t, k, at, c)[0];
            u.lastSeen == at && (u.refusedAt == None || (Find(t, k).Some? && u.refusedAt == Find(t, k).value.refusedAt))
  {
    FreshFind(t, k, at - c.window, c.limit, clock);
  }

  /** Where the time in a bucket comes from. */
  lemma {:induction false} RefusedAtWasReported(events: seq<Event>, start: int, k: Key, c: Config)
    requires InOrder(events, start) && c.maxKeys > 0
    ensures var f := Find(Run(events, start, c).table, k);
            f.Some? && f.value.refusedAt.Some? ==> WasReported(events, start, k, f.value.refusedAt.value, c)
  {
    if events != [] {
      var init, e := events[..|events| - 1], events[|events| - 1];
      RefusedAtWasReported(init, start, k, c);
      StepRefusedAt(Run(init, start, c), e, k, c);
    }
  }

  lemma StepRefusedAt(s: State, e: Event, k: Key, c: Config)
    requires Inv(s, c) && Timely(e, s.history.clock) && c.maxKeys > 0
    ensures var f, g := Find(s.table, k), Find(Step(s, e, c).table, k);
            g.Some? && g.value.refusedAt.Some? ==>
              (f.Some? && g.value.refusedAt == f.value.refusedAt) || (e == Try(k, g.value.refusedAt.value) && Reports(s, k, e.at, c))
  {
    if !About(e, k) {
      OthersKeep(s, e, k, c);
    } else if e.Try? {
      FreshBucket(s.table, k, e.at, c, s.history.clock);
    } else {
      ForgetKeepsRefusedAt(s.table, k, c, s.history.clock);
    }
  }

  lemma ForgetKeepsRefusedAt(t: Table, k: Key, c: Config, clock: int)
    requires Consistent(t, c, clock)
    ensures var f, g := Find(t, k), Find(Forget(t, k), k);
            g.Some? ==> f.Some? && g.value.refusedAt == f.value.refusedAt
  {
    WithoutListed(t, k, clock, c.limit);
    FoundBy(t, k, clock, c.limit);
    var f := Find(t, k);
    if f.Some? && |f.value.times| > 1 {
      PopRising(f.value.times, f.value.lastSeen);
      ReplaceListed(t, f.value.(times := Pop(f.value.times)), clock, c.limit);
    }
  }

  /** A refusal is passed over only if one of the same client was reported within
      the window before it. */
  lemma RefusalIsReported(events: seq<Event>, start: int, k: Key, at: int, c: Config) returns (t: int)
    requires InOrder(events, start) && at >= Clock(events, start) && c.maxKeys > 0
    requires var a := Attempt(Run(events, start, c).table, k, at, c); !a.allowed && !a.firstRefusal
    ensures at - c.window < t && WasReported(events, start, k, t, c)
  {
    var s := Run(events, start, c);
    FreshBucket(s.table, k, at, c, s.history.clock);
    RefusedAtWasReported(events, start, k, c);
    t := Find(s.table, k).value.refusedAt.value;
  }

  /** The bucket remembers a report at `t` or a later one. */
  predicate Recalls(t: Table, k: Key, at: int) {
    var f := Find(t, k);
    f.Some? && f.value.lastSeen >= at && f.value.refusedAt.Some? && f.value.refusedAt.value >= at
  }

  lemma RecallsFresh(t: Table, k: Key, r: int, cutoff: int, limit: nat, clock: int)
    requires Listed(t, clock, limit) && Recalls(t, k, r) && r > cutoff
    ensures Recalls(Fresh(t, cutoff), k, r)
  {
    FreshListed(t, cutoff, clock, limit);
  }

  /** Nobody else's attempt costs a client its bucket when there is room. */
  lemma RecallsOthers(t: Table, x: Key, at: int, c: Config, clock: int, k: Key, r: int, clients: set<Key>)
    requires Consistent(t, c, clock) && Recalls(t, k, r) && r > at - c.window && x != k
    requires Keys(t) <= clients && x in clients && |clients| <= c.maxKeys
    ensures Recalls(Attempted(t, x, at, c), k, r)
  {
    var live := Fresh(t, at - c.window);
    RecallsFresh(t, k, r, at - c.window, c.limit, clock);
    RoomForAll(t, x, at, c, clock, clients);
    FreshListed(t, at - c.window, clock, c.limit);
    WithoutListed(live, x, clock, c.limit);
    RestOfAttempted(t, x, at, c, k);
  }

  lemma RestOfAttempted(t: Table, x: Key, at: int, c: Config, k: Key)
    requires x != k
    ensures Find(Attempted(t, x, at, c), k) == Find(Room(Fresh(t, at - c.window), x, c.maxKeys), k)
  {
    var u, p := Attempted(t, x, at, c), Prepare(t, x, at, c);
    assert p[0].key == x;
    assert p[1..] == Room(Fresh(t, at - c.window), x, c.maxKeys);
    assert u[0].key == x;
    assert u[1..] == p[1..];
    assert Find(u, k) == Find(u[1..], k);
  }

  lemma RecallsOwn(t: Table, k: Key, at: int, c: Config, clock: int, r: int)
    requires Consistent(t, c, clock) && Recalls(t, k, r) && r > at - c.window && at >= clock
    ensures Recalls(Attempted(t, k, at, c), k, r) && !Attempt(t, k, at, c).firstRefusal
  {
    RecallsFresh(t, k, r, at - c.window, c.limit, clock);
    var b := Prepare(t, k, at, c)[0];
    assert b == Touched(Fresh(t, at - c.window), k, at);
    assert b.refusedAt.Some? && b.refusedAt.value >= r;
    FoundBy(t, k, clock, c.limit);
    assert b.lastSeen == at >= r;
    assert Attempted(t, k, at, c)[0] == Decide(b, at, c).client;
  }

  lemma RecallsStep(s: State, e: Event, k: Key, r: int, c: Config, clients: set<Key>)
    requires Inv(s, c) && Timely(e, s.history.clock) && c.maxKeys > 0
    requires Keys(s.table) <= clients && (e.Try? ==> e.key in clients) && |clients| <= c.maxKeys
    requires e != Withdraw(k) && Recalls(s.table, k, r) && r > Step(s, e, c).history.clock - c.window
    ensures Recalls(Step(s, e, c).table, k, r)
  {
    match e {
      case Try(x, at) =>
        if x == k {
          RecallsOwn(s.table, k, at, c, s.history.clock, r);
        } else {
          RecallsOthers(s.table, x, at, c, s.history.clock, k, r, clients);
        }
      case Withdraw(x) => ForgetKeeps(s.table, x, c, s.history.clock);
      case Sweep(at) => RecallsFresh(s.table, k, r, at - c.window, c.limit, s.history.clock);
    }
  }

  lemma ReportRecalled(s: State, k: Key, at: int, c: Config)
    requires Inv(s, c) && at >= s.history.clock && c.maxKeys > 0 && Reports(s, k, at, c)
    ensures Recalls(Step(s, Try(k, at), c).table, k, at)
  {
    FreshBucket(s.table, k, at, c, s.history.clock);
  }

  lemma {:induction false} ReportedIsRecalled(events: seq<Event>, start: int, k: Key, t: int, c: Config)
    requires InOrder(events, start) && c.maxKeys > 0 && |Clients(events)| <= c.maxKeys
    requires (forall i :: 0 <= i < |events| ==> events[i] != Withdraw(k))
    requires WasReported(events, start, k, t, c) && t > Clock(events, start) - c.window
    ensures Recalls(Run(events, start, c).table, k, t)
  {
    var init, e := events[..|events| - 1], events[|events| - 1];
    var s := Run(init, start, c);
    FewerOf(Clients(init), Clients(events));
    FewClientsRight(init, start, c);
    if WasReported(init, start, k, t, c) {
      ReportedIsRecalled(init, start, k, t, c);
      RecallsStep(s, e, k, t, c, Clients(events));
    } else {
      ReportRecalled(s, k, t, c);
    }
  }

  /** No refusal of the client after `cutoff` was reported in the run. */
  ghost predicate NoneReportedAfter(events: seq<Event>, start: int, k: Key, cutoff: int, c: Config)
    requires InOrder(events, start) && c.maxKeys > 0
  {
    forall t :: WasReported(events, start, k, t, c) ==> t <= cutoff
  }

  lemma SomeReported(events: seq<Event>, start: int, k: Key, cutoff: int, t: int, c: Config)
    requires InOrder(events, start) && c.maxKeys > 0 && WasReported(events, start, k, t, c) && t > cutoff
    ensures !NoneReportedAfter(events, start, k, cutoff, c)
  {
  }

  lemma FirstIsOnly(events: seq<Event>, start: int, k: Key, at: int, c: Config)
    requires InOrder(events, start) && at >= Clock(events, start) && c.maxKeys > 0
    requires |Clients(events)| <= c.maxKeys && forall i :: 0 <= i < |events| ==> events[i] != Withdraw(k)
    requires Attempt(Run(events, start, c).table, k, at, c).firstRefusal
    ensures NoneReportedAfter(events, start, k, at - c.window, c)
  {
    forall t | WasReported(events, start, k, t, c) ensures t <= at - c.window {
      FirstIsNew(events, start, k, t, at, c);
    }
  }

  /** Over any run with room for all clients, and no withdrawal by this one, a
      refusal is told to be the first exactly when none was within the window, so
      that each client is reported once per window. */
  lemma FirstRefusalExactly(events: seq<Event>, start: int, k: Key, at: int, c: Config)
    requires InOrder(events, start) && at >= Clock(events, start) && c.maxKeys > 0
    requires |Clients(events)| <= c.maxKeys && forall i :: 0 <= i < |events| ==> events[i] != Withdraw(k)
    requires !Attempt(Run(events, start, c).table, k, at, c).allowed
    ensures Attempt(Run(events, start, c).table, k, at, c).firstRefusal <==> NoneReportedAfter(events, start, k, at - c.window, c)
  {
    if Attempt(Run(events, start, c).table, k, at, c).firstRefusal {
      FirstIsOnly(events, start, k, at, c);
    } else {
      var t := RefusalIsReported(events, start, k, at, c);
      SomeReported(events, start, k, at - c.window, t, c);
    }
  }

  lemma FirstIsNew(events: seq<Event>, start: int, k: Key, t: int, at: int, c: Config)
    requires InOrder(events, start) && at >= Clock(events, start) && c.maxKeys > 0
    requires |Clients(events)| <= c.maxKeys && forall i :: 0 <= i < |events| ==> events[i] != Withdraw(k)
    requires WasReported(events, start, k, t, c)
    ensures t > at - c.window ==> !Attempt(Run(events, start, c).table, k, at, c).firstRefusal
  {
    if t > at - c.window {
      var s := Run(events, start, c);
      ReportedIsRecalled(events, start, k, t, c);
      RecallsOwn(s.table, k, at, c, s.history.clock, t);
    }
  }

  lemma RunOn(events: seq<Event>, e: Event, c: Config)
    requires InOrder(events, 0) && Timely(e, Clock(events, 0)) && c.maxKeys > 0
    ensures InOrder(events + [e], 0) && Run(events + [e], 0, c) == Step(Run(events, 0, c), e, c)
  {
    EventsMore(events, e);
  }

  lemma ReportedOn(events: seq<Event>, e: Event, k: Key, t: int, c: Config)
    requires InOrder(events, 0) && Timely(e, Clock(events, 0)) && c.maxKeys > 0
    requires WasReported(events, 0, k, t, c) || (e == Try(k, t) && Reports(Run(events, 0, c), k, t, c))
    ensures InOrder(events + [e], 0) && WasReported(events + [e], 0, k, t, c)
  {
    EventsMore(events, e);
  }

  /** A client with one attempt and room for no other. */
  lemma SecondAttempt(t: Table, c: Config)
    requires t == [Client(FIRST, [0], 0, None)] && c.limit == 1 && c.window > 0 && c.maxKeys > 0
    ensures Attempt(t, FIRST, 0, c) == Answer(Client(FIRST, [0], 0, Some(0)), false, true)
    ensures Attempted(t, FIRST, 0, c) == [Client(FIRST, [0], 0, Some(0))]
  {
    assert Fresh(t, 0 - c.window) == t;
    assert Room(t, FIRST, c.maxKeys) == [];
  }

  lemma FirstAttempt(c: Config)
    requires c.limit == 1 && c.maxKeys > 0
    ensures Attempted([], FIRST, 0, c) == [Client(FIRST, [0], 0, None)]
  {
    assert [] + [0] == [0];
  }

  /** A withdrawal can make the limiter forget that it reported a refusal: the
      client's bucket goes with its last attempt. */
  lemma ReportedAgain(c: Config) returns (events: seq<Event>)
    requires c.limit == 1 && c.window > 0 && c.maxKeys > 0
    ensures InOrder(events, 0) && Clock(events, 0) == 0 && |Clients(events)| <= c.maxKeys
    ensures var a := Attempt(Run(events, 0, c).table, FIRST, 0, c); !a.allowed && a.firstRefusal
    ensures !NoneReportedAfter(events, 0, FIRST, 0 - c.window, c)
  {
    var one, two, three := [Try(FIRST, 0)], [Try(FIRST, 0)] + [Try(FIRST, 0)], [Try(FIRST, 0)] + [Try(FIRST, 0)] + [Withdraw(FIRST)];
    events := three + [Try(FIRST, 0)];
    FirstAttempt(c);
    RunOn([], Try(FIRST, 0), c);
    assert [] + one == one;
    SecondAttempt(Run(one, 0, c).table, c);
    RunOn(one, Try(FIRST, 0), c);
    RunOn(two, Withdraw(FIRST), c);
    assert Run(three, 0, c).table == [];
    RunOn(three, Try(FIRST, 0), c);
    ReportedOn(one, Try(FIRST, 0), FIRST, 0, c);
    ReportedOn(two, Withdraw(FIRST), FIRST, 0, c);
    ReportedOn(three, Try(FIRST, 0), FIRST, 0, c);
    SomeReported(events, 0, FIRST, 0 - c.window, 0, c);
    SecondAttempt(Run(events, 0, c).table, c);
    EventsMore([], Try(FIRST, 0));
    EventsMore(one, Try(FIRST, 0));
    EventsMore(two, Withdraw(FIRST));
    EventsMore(three, Try(FIRST, 0));
    FewerOf(Clients(events), {FIRST});
  }

  // ------------------------------------------------- the map and the list

  /** Every key of the list has its client in the map. */
  predicate Indexed(order: seq<Key>, attempts: map<Key, Client>) {
    order == [] ||
    (order[0] in attempts && attempts[order[0]].key == order[0] && Indexed(order[1..], attempts))
  }

  /** The clients in the order of the list. */
  function Listing(order: seq<Key>, attempts: map<Key, Client>): (t: Table)
    requires Indexed(order, attempts)
    ensures |t| == |order|
  {
    if order == [] then [] else [attempts[order[0]]] + Listing(order[1..], attempts)
  }

  function WithoutKey(order: seq<Key>, k: Key): seq<Key> {
    if order == [] then [] else if order[0] == k then order[1..] else [order[0]] + WithoutKey(order[1..], k)
  }

  lemma {:induction false} ListingFind(order: seq<Key>, attempts: map<Key, Client>, k: Key)
    requires Indexed(order, attempts)
    ensures k in order ==> k in attempts && Find(Listing(order, attempts), k) == Some(attempts[k])
    ensures k !in order ==> Find(Listing(order, attempts), k) == None
  {
    if order != [] {
      ListingFind(order[1..], attempts, k);
      assert order == [order[0]] + order[1..];
    }
  }

  lemma {:induction false} ListingWithout(order: seq<Key>, attempts: map<Key, Client>, k: Key)
    requires Indexed(order, attempts)
    ensures Indexed(WithoutKey(order, k), attempts)
    ensures Listing(WithoutKey(order, k), attempts) == Without(Listing(order, attempts), k)
  {
    if order != [] && order[0] != k {
      ListingWithout(order[1..], attempts, k);
      var r := WithoutKey(order, k);
      assert r[1..] == WithoutKey(order[1..], k);
    }
  }

  /** Changes to the map elsewhere do not show. */
  lemma {:induction false} ListingFrame(order: seq<Key>, attempts: map<Key, Client>, attempts': map<Key, Client>)
    requires Indexed(order, attempts)
    requires forall k :: k in order && k in attempts ==> k in attempts' && attempts'[k] == attempts[k]
    ensures Indexed(order, attempts') && Listing(order, attempts') == Listing(order, attempts)
  {
    if order != [] {
      assert order[0] in order && forall k :: k in order[1..] ==> k in order;
      ListingFrame(order[1..], attempts, attempts');
    }
  }

  lemma {:induction false} ListingInit(order: seq<Key>, attempts: map<Key, Client>)
    requires Indexed(order, attempts) && order != []
    ensures Indexed(order[..|order| - 1], attempts) && order[|order| - 1] in attempts
    ensures Listing(order[..|order| - 1], attempts) == Listing(order, attempts)[..|order| - 1]
    ensures Listing(order, attempts)[|order| - 1] == attempts[order[|order| - 1]]
    ensures attempts[order[|order| - 1]].key == order[|order| - 1]
  {
    if |order| > 1 {
      ListingInit(order[1..], attempts);
      assert order[..|order| - 1][1..] == order[1..][..|order| - 2];
    }
  }

  lemma {:induction false} FreshBack(t: Table, cutoff: int, latest: int, limit: nat)
    requires Listed(t, latest, limit) && t != []
    ensures t[|t| - 1].lastSeen > cutoff ==> Fresh(t, cutoff) == t
    ensures t[|t| - 1].lastSeen <= cutoff ==> Fresh(t, cutoff) == Fresh(t[..|t| - 1], cutoff)
  {
    if |t| > 1 {
      FreshBack(t[1..], cutoff, t[0].lastSeen, limit);
      FoundBy(t[1..], t[|t| - 1].key, t[0].lastSeen, limit);
      InitListed(t[1..], t[0].lastSeen, limit);
      assert t[..|t| - 1][1..] == t[1..][..|t| - 2];
    }
  }

  /** The limiter itself: a map of clients and the list of their keys. */
  class RateLimiter {
    var attempts: map<Key, Client>
    var order: seq<Key>
    const config: Config
    ghost var clock: int

    /** The map and the list hold the same clients, each once, most recent first. */
    ghost predicate Valid()
      reads this
    {
      && config.maxKeys > 0
      && Indexed(order, attempts) && (forall k :: k in attempts ==> k in order)
      && Consistent(Listing(order, attempts), config, clock)
    }

    ghost function View(): Table
      reads this
      requires Valid()
    {
      Listing(order, attempts)
    }

    constructor (limit: nat, window: nat, maxKeys: nat, ghost now: int)
      requires maxKeys > 0
      ensures Valid() && View() == [] && clock == now && config == Config(limit, window, maxKeys)
    {
      attempts, order := map[], [];
      config := Config(limit, window, maxKeys);
      clock := now;
    }

    method RemoveStale(cutoff: int)
      requires Valid()
      modifies `attempts, `order
      ensures Valid() && View() == Fresh(old(View()), cutoff)
    {
      ghost var left := Fresh(View(), cutoff);
      while order != []
        invariant Valid() && Fresh(View(), cutoff) == left
        decreases |order|
      {
        var back := order[|order| - 1];
        ghost var t := View();
        ListingInit(order, attempts);
        FreshBack(t, cutoff, clock, config.limit);
        if attempts[back].lastSeen > cutoff {
          return;
        }
        DropBack(order, attempts, config, clock);
        attempts, order := attempts - {back}, order[..|order| - 1];
      }
    }

    /** Takes `key`'s client out of the list, or makes room for a new one. */
    method TakeOutOrDrop(key: Key, now: int) returns (client: Client)
      requires Valid()
      modifies `attempts, `order
      ensures Valid() && View() == Room(old(View()), key, config.maxKeys) && key !in order
      ensures client == Touched(old(View()), key, now)
    {
      ListingFind(order, attempts, key);
      SameCount(order, attempts, clock, config.limit);
      RoomKeeps(View(), key, config, clock);
      client := Client(key, [], now, None);
      if key in attempts {
        client := attempts[key].(lastSeen := now);
        TakeOut(order, attempts, key, clock, config.limit);
        attempts, order := attempts - {key}, WithoutKey(order, key);
      } else if |attempts| >= config.maxKeys {
        ListingInit(order, attempts);
        DropBack(order, attempts, config, clock);
        attempts, order := attempts - {order[|order| - 1]}, order[..|order| - 1];
      }
    }

    /** Marks `key`'s client as the most recently active, creating it if new; a
        full table drops its least recently active client. */
    method TouchClient(key: Key, now: int)
      requires Valid() && now >= clock
      modifies this
      ensures Valid() && clock == now && View() == Touch(old(View()), key, now, config.maxKeys)
      ensures order != [] && order[0] == key
    {
      TouchKeeps(View(), key, config, clock, now);
      var client := TakeOutOrDrop(key, now);
      PutFront(order, attempts, client);
      attempts, order := attempts[key := client], [key] + order;
      clock := now;
    }

    /** Counts or refuses the attempt of the client at the front. */
    method DecideFirst(key: Key, now: int) returns (allowed: bool, firstRefusal: bool)
      requires Valid() && order != [] && order[0] == key && now == clock == attempts[key].lastSeen
      modifies `attempts
      ensures var a := Decide(old(View())[0], now, config);
              Valid() && View() == [a.client] + old(View())[1..] && allowed == a.allowed && firstRefusal == a.firstRefusal
    {
      var b;
      b, allowed, firstRefusal := DecideClient(attempts[key], now, config);
      DecideKeeps(attempts[key], now, config);
      ListingFirst(order, attempts, b);
      attempts := attempts[key := b];
    }

    /** `attempt`: counts the attempt and says whether it is allowed. */
    method CountAttempt(key: Key, now: int) returns (allowed: bool, firstRefusal: bool)
      requires Valid() && now >= clock
      modifies this
      ensures Valid() && clock == now && View() == Attempted(old(View()), key, now, config)
      ensures allowed == Attempt(old(View()), key, now, config).allowed
      ensures firstRefusal == Attempt(old(View()), key, now, config).firstRefusal
    {
      ghost var t := View();
      PrepareKeeps(t, key, now, config, clock);
      RemoveStale(now - config.window);
      TouchClient(key, now);
      assert View() == Prepare(t, key, now, config);
      allowed, firstRefusal := DecideFirst(key, now);
    }

    /** `Forget`: withdraws the client's most recent attempt. */
    method ForgetLast(key: Key)
      requires Valid()
      modifies `attempts, `order
      ensures Valid() && View() == Forget(old(View()), key)
    {
      ForgetKeeps(View(), key, config, clock);
      ListingFind(order, attempts, key);
      if key !in attempts {
        return;
      }
      var b := attempts[key];
      if |b.times| == 1 {
        TakeOut(order, attempts, key, clock, config.limit);
        attempts, order := attempts - {key}, WithoutKey(order, key);
      } else if |b.times| > 1 {
        b := b.(times := b.times[..|b.times| - 1]);
        ListingReplace(order, attempts, b, clock, config.limit);
        attempts := attempts[key := b];
      }
    }

    method Cleanup(now: int)
      requires Valid() && now >= clock
      modifies this
      ensures Valid() && clock == now && View() == Fresh(old(View()), now - config.window)
    {
      RemoveStale(now - config.window);
      ListedLater(View(), clock, now, config.limit);
      clock := now;
    }
  }

  /** `expire`: the loop that finds the first attempt still in the window. */
  method ExpireTimes(times: seq<int>, cutoff: int) returns (r: seq<int>)
    ensures r == Expire(times, cutoff)
  {
    var n := 0;
    while n < |times| && times[n] <= cutoff
      invariant 0 <= n <= |times| && Expire(times[n..], cutoff) == Expire(times, cutoff)
    {
      n := n + 1;
    }
    r := times[n..];
  }

  /** Expires the client's attempts, then counts this one or refuses it. */
  method DecideClient(b: Client, now: int, c: Config) returns (b': Client, allowed: bool, firstRefusal: bool)
    ensures Answer(b', allowed, firstRefusal) == Decide(b, now, c)
  {
    var cutoff := now - c.window;
    var times := ExpireTimes(b.times, cutoff);
    if |times| >= c.limit {
      firstRefusal := b.refusedAt.None? || b.refusedAt.value <= cutoff;
      allowed := false;
      b' := b.(times := times, refusedAt := if firstRefusal then Some(now) else b.refusedAt);
    } else {
      allowed, firstRefusal := true, false;
      b' := b.(times := times + [now]);
    }
  }

  lemma {:induction false} SameCount(order: seq<Key>, attempts: map<Key, Client>, latest: int, limit: nat)
    requires Indexed(order, attempts) && Listed(Listing(order, attempts), latest, limit)
    requires forall k :: k in attempts ==> k in order
    ensures |attempts| == |order|
  {
    if order == [] {
      assert attempts == map[];
    } else {
      var k, rest := order[0], order[1..];
      ListingFind(rest, attempts, k);
      ListingFrame(rest, attempts, attempts - {k});
      assert attempts.Keys == (attempts - {k}).Keys + {k};
      SameCount(rest, attempts - {k}, Listing(order, attempts)[0].lastSeen, limit);
    }
  }

  /** Taking a client out of the list, and out of the map too. */
  lemma TakeOut(order: seq<Key>, attempts: map<Key, Client>, k: Key, latest: int, limit: nat)
    requires Indexed(order, attempts) && Listed(Listing(order, attempts), latest, limit)
    requires forall x :: x in attempts ==> x in order
    ensures var rest := WithoutKey(order, k);
            && k !in rest && (forall x :: x in attempts && x != k ==> x in rest)
            && Indexed(rest, attempts) && Listing(rest, attempts) == Without(Listing(order, attempts), k)
            && Indexed(rest, attempts - {k}) && Listing(rest, attempts - {k}) == Without(Listing(order, attempts), k)
  {
    ListingWithout(order, attempts, k);
    WithoutListed(Listing(order, attempts), k, latest, limit);
    forall x ensures x in WithoutKey(order, k) <==> x in order && x != k {
      ListingFind(order, attempts, x);
      ListingFind(WithoutKey(order, k), attempts, x);
    }
    ListingFrame(WithoutKey(order, k), attempts, attempts - {k});
  }

  lemma PutFront(order: seq<Key>, attempts: map<Key, Client>, b: Client)
    requires Indexed(order, attempts) && b.key !in order
    ensures var order', attempts' := [b.key] + order, attempts[b.key := b];
            Indexed(order', attempts') && Listing(order', attempts') == [b] + Listing(order, attempts)
  {
    ListingFrame(order, attempts, attempts[b.key := b]);
    assert ([b.key] + order)[1..] == order;
  }

  lemma ListingFirst(order: seq<Key>, attempts: map<Key, Client>, b: Client)
    requires order != [] && order[0] == b.key && Indexed(order, attempts)
    requires Find(Listing(order, attempts)[1..], b.key).None?
    ensures Indexed(order, attempts[b.key := b])
    ensures Listing(order, attempts[b.key := b]) == [b] + Listing(order, attempts)[1..]
  {
    ListingFind(order[1..], attempts, b.key);
    ListingFrame(order[1..], attempts, attempts[b.key := b]);
  }

  lemma {:induction false} ListingReplace(order: seq<Key>, attempts: map<Key, Client>, b: Client, latest: int, limit: nat)
    requires Indexed(order, attempts) && Listed(Listing(order, attempts), latest, limit)
    ensures Indexed(order, attempts[b.key := b])
    ensures Listing(order, attempts[b.key := b]) == Replace(Listing(order, attempts), b)
  {
    if order != [] {
      if order[0] == b.key {
        ListingFirst(order, attempts, b);
      } else {
        ListingReplace(order[1..], attempts, b, Listing(order, attempts)[0].lastSeen, limit);
      }
    }
  }

  /** Dropping the client at the back from both. */
  lemma DropBack(order: seq<Key>, attempts: map<Key, Client>, c: Config, clock: int)
    requires order != [] && Indexed(order, attempts) && Consistent(Listing(order, attempts), c, clock)
    requires forall k :: k in attempts ==> k in order
    ensures var init, rest := order[..|order| - 1], attempts - {order[|order| - 1]};
            && Indexed(init, rest) && Listing(init, rest) == Listing(order, attempts)[..|order| - 1]
            && Consistent(Listing(init, rest), c, clock)
            && forall k :: k in rest ==> k in init
  {
    var init, back := order[..|order| - 1], order[|order| - 1];
    ListingInit(order, attempts);
    InitListed(Listing(order, attempts), clock, c.limit);
    ListingFind(init, attempts, back);
    assert order == init + [back];
    ListingFrame(init, attempts, attempts - {back});
  }
}
