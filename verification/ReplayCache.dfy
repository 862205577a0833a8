/** The replay cache (backend/agentauth/verify.go). */
module ReplayCache {
  // The agents' request verifier: a pruned, capped table of nonces against every
  // nonce ever accepted. Times are nanoseconds.

  const SECOND: int := 1_000_000_000
  const MAX_SKEW: int := 120 * SECOND
  const PRUNE_SIZE: nat := 1024
  const MAX_SEEN: nat := 65536

  datatype Nonce = Nonce(id: nat)

  /** A request as the checks before the nonce see it: what its header parses
      to, whether a known key signed it, and whether it names a local address. */
  datatype Request =
    | Unsigned
    | Malformed
    | Signed(ts: int, nonce: Nonce, signedByKnownKey: bool, local: bool)

  datatype Verdict = Accepted | ErrUnsigned | ErrMalformed | ErrStale | ErrBadSignature | ErrWrongHost | ErrReplayed

  /** When each nonce stops being acceptable, and the size that triggers the
      next prune. */
  datatype Cache = Cache(seen: map<Nonce, int>, pruneAt: nat)

  function Min(a: nat, b: nat): nat { if a < b then a else b }
  function Max(a: nat, b: nat): nat { if a < b then b else a }

  function Live(seen: map<Nonce, int>, now: int): map<Nonce, int> {
    map n | n in seen && seen[n] >= now :: seen[n]
  }

  function Pruned(c: Cache, now: int): Cache {
    if |c.seen| >= c.pruneAt then
      var live := Live(c.seen, now);
      Cache(live, Min(MAX_SEEN, Max(PRUNE_SIZE, 2 * |live|)))
    else c
  }

  function Remember(c: Cache, n: Nonce, expiry: int, now: int): (Cache, bool) {
    if n in c.seen then (c, false)
    else
      var p := Pruned(c, now);
      if |p.seen| >= MAX_SEEN then (p, false) else (p.(seen := p.seen[n := expiry]), true)
  }

  function Expiry(ts: int): int { ts * SECOND + MAX_SKEW }

  /** The request's timestamp is within the clock skew. */
  predicate Timely(ts: int, now: int) {
    -MAX_SKEW <= now - ts * SECOND <= MAX_SKEW
  }

  function Verify(c: Cache, r: Request, now: int): (Cache, Verdict) {
    match r
    case Unsigned => (c, ErrUnsigned)
    case Malformed => (c, ErrMalformed)
    case Signed(ts, nonce, signed, local) =>
      if !Timely(ts, now) then (c, ErrStale)
      else if !signed then (c, ErrBadSignature)
      else if !local then (c, ErrWrongHost)
      else
        var (c', isNew) := Remember(c, nonce, Expiry(ts), now);
        (c', if isNew then Accepted else ErrReplayed)
  }

  // ------------------------------------------------------- over every run

  datatype Event = Event(request: Request, at: int)

  /** What an accepted request is known by: its signed timestamp and nonce. */
  datatype Mark = Mark(ts: int, nonce: Nonce)

  /** The cache, and the marks of every request ever accepted. */
  datatype State = State(cache: Cache, accepted: set<Mark>, clock: int)

  function Step(s: State, e: Event): State {
    var (c, v) := Verify(s.cache, e.request, e.at);
    State(c, if v == Accepted then s.accepted + {Mark(e.request.ts, e.request.nonce)} else s.accepted, e.at)
  }

  ghost predicate Bounded(c: Cache) {
    |c.seen| <= MAX_SEEN && PRUNE_SIZE <= c.pruneAt <= MAX_SEEN
  }

  /** Every accepted nonce is remembered while it is acceptable. */
  ghost predicate Remembers(seen: map<Nonce, int>, accepted: set<Mark>, clock: int) {
    forall a :: a in accepted && Expiry(a.ts) >= clock ==> a.nonce in seen && seen[a.nonce] == Expiry(a.ts)
  }

  /** Every remembered nonce was accepted. */
  ghost predicate OnlyAccepted(seen: map<Nonce, int>, accepted: set<Mark>) {
    forall n :: n in seen ==> WasAccepted(n, seen[n], accepted)
  }

  ghost predicate WasAccepted(n: Nonce, expiry: int, accepted: set<Mark>) {
    exists ts :: Mark(ts, n) in accepted && Expiry(ts) == expiry
  }

  ghost predicate Inv(s: State) {
    && Bounded(s.cache)
    && Remembers(s.cache.seen, s.accepted, s.clock)
    && OnlyAccepted(s.cache.seen, s.accepted)
  }

  lemma LiveIsPart(seen: map<Nonce, int>, now: int)
    ensures |Live(seen, now)| <= |seen|
  {
    SubsetSize(Live(seen, now).Keys, seen.Keys);
  }

  lemma {:induction false} SubsetSize(a: set<Nonce>, b: set<Nonce>)
    requires a <= b
    ensures |a| <= |b|
  {
    if a != {} {
      var x :| x in a;
      SubsetSize(a - {x}, b - {x});
    }
  }

  lemma PrunedBounded(c: Cache, now: int)
    requires Bounded(c)
    ensures Bounded(Pruned(c, now))
    ensures forall n :: n in Pruned(c, now).seen ==> n in c.seen && Pruned(c, now).seen[n] == c.seen[n]
    ensures forall n :: n in c.seen && c.seen[n] >= now ==> n in Pruned(c, now).seen
    ensures |Pruned(c, now).seen| >= MAX_SEEN ==> forall n :: n in Pruned(c, now).seen ==> c.seen[n] >= now
  {
    LiveIsPart(c.seen, now);
  }

  lemma PruneKeeps(s: State, now: int)
    requires Inv(s) && now >= s.clock
    ensures Inv(State(Pruned(s.cache, now), s.accepted, now))
  {
    PrunedBounded(s.cache, now);
  }

  lemma AcceptKeeps(seen: map<Nonce, int>, accepted: set<Mark>, clock: int, ts: int, n: Nonce)
    requires Remembers(seen, accepted, clock) && OnlyAccepted(seen, accepted) && n !in seen
    ensures Remembers(seen[n := Expiry(ts)], accepted + {Mark(ts, n)}, clock)
    ensures OnlyAccepted(seen[n := Expiry(ts)], accepted + {Mark(ts, n)})
  {
    var seen', accepted' := seen[n := Expiry(ts)], accepted + {Mark(ts, n)};
    forall x | x in seen' ensures WasAccepted(x, seen'[x], accepted') {
      if x == n {
        assert Mark(ts, n) in accepted';
      } else {
        assert WasAccepted(x, seen[x], accepted);
        var t :| Mark(t, x) in accepted && Expiry(t) == seen[x];
        assert Mark(t, x) in accepted';
      }
    }
  }

  lemma StepKeeps(s: State, e: Event)
    requires Inv(s) && e.at >= s.clock
    ensures Inv(Step(s, e))
  {
    PruneKeeps(s, e.at);
    if Verify(s.cache, e.request, e.at).1 == Accepted {
      PrunedBounded(s.cache, e.at);
      AcceptKeeps(Pruned(s.cache, e.at).seen, s.accepted, e.at, e.request.ts, e.request.nonce);
    }
  }

  predicate InOrder(events: seq<Event>, start: int) {
    events == [] || (InOrder(events[..|events| - 1], start) && events[|events| - 1].at >= Clock(events[..|events| - 1], start))
  }

  function Clock(events: seq<Event>, start: int): int {
    if events == [] then start else events[|events| - 1].at
  }

  /** A verifier fed any requests at non-decreasing times, from an empty cache. */
  ghost function Run(events: seq<Event>, start: int): (s: State)
    requires InOrder(events, start)
    ensures Inv(s) && s.clock == Clock(events, start)
  {
    if events == [] then State(Cache(map[], PRUNE_SIZE), {}, start)
    else
      StepKeeps(Run(events[..|events| - 1], start), events[|events| - 1]);
      Step(Run(events[..|events| - 1], start), events[|events| - 1])
  }

  /** No request is accepted twice, whatever was pruned in between; not even its
      nonce is, under another timestamp, while the first is still acceptable. */
  lemma NeverAcceptedTwice(events: seq<Event>, start: int, r: Request, now: int)
    requires InOrder(events, start) && now >= Clock(events, start)
    requires Verify(Run(events, start).cache, r, now).1 == Accepted
    ensures Mark(r.ts, r.nonce) !in Run(events, start).accepted
    ensures forall ts :: Mark(ts, r.nonce) in Run(events, start).accepted ==> Expiry(ts) < now
  {
    var s := Run(events, start);
    forall ts | Mark(ts, r.nonce) in s.accepted ensures Expiry(ts) < now {
      PrunedBounded(s.cache, now);
    }
  }

  /** The nonces ever accepted that are still acceptable. */
  ghost function StillAcceptable(accepted: set<Mark>, now: int): set<Nonce> {
    set a | a in accepted && Expiry(a.ts) >= now :: a.nonce
  }

  /** When a well-signed, timely, local request is refused: its nonce was
      accepted before, or so many remembered nonces are still acceptable that
      none could be forgotten. A nonce still acceptable is always refused. */
  lemma RefusedAsReplayed(events: seq<Event>, start: int, r: Request, now: int)
    requires InOrder(events, start) && now >= Clock(events, start)
    requires r.Signed? && r.signedByKnownKey && r.local && Timely(r.ts, now)
    ensures var s := Run(events, start); var v := Verify(s.cache, r, now).1;
            && (v == Accepted || v == ErrReplayed)
            && (v == ErrReplayed ==> (exists ts :: Mark(ts, r.nonce) in s.accepted) || |StillAcceptable(s.accepted, now)| >= MAX_SEEN)
            && (r.nonce in StillAcceptable(s.accepted, now) ==> v == ErrReplayed)
  {
    var s := Run(events, start);
    PrunedBounded(s.cache, now);
    var p := Pruned(s.cache, now);
    if r.nonce in s.cache.seen {
      assert WasAccepted(r.nonce, s.cache.seen[r.nonce], s.accepted);
    } else if |p.seen| >= MAX_SEEN {
      forall n | n in p.seen ensures n in StillAcceptable(s.accepted, now) {
        assert WasAccepted(n, s.cache.seen[n], s.accepted);
        var ts :| Mark(ts, n) in s.accepted && Expiry(ts) == s.cache.seen[n];
        assert Mark(ts, n).nonce in StillAcceptable(s.accepted, now);
      }
      SubsetSize(p.seen.Keys, StillAcceptable(s.accepted, now));
    }
  }

  // ------------------------------------------------ which verdict, exactly

  /** No more than 120 seconds off, either way. */
  predicate Recent(ts: int, now: int) {
    now - ts * 1_000_000_000 <= 120_000_000_000 && ts * 1_000_000_000 - now <= 120_000_000_000
  }

  /** A good request up to its nonce: recent, signed by a known key, and for this
      agent. */
  predicate Good(r: Request, now: int) {
    r.Signed? && Recent(r.ts, now) && r.signedByKnownKey && r.local
  }

  /** Every request that is not good gets the error of its first failing check,
      and leaves the cache alone; a good one gets none of these errors. */
  lemma FirstFailure(c: Cache, r: Request, now: int)
    ensures var (c', v) := Verify(c, r, now);
            && (v == ErrUnsigned <==> r.Unsigned?)
            && (v == ErrMalformed <==> r.Malformed?)
            && (v == ErrStale <==> r.Signed? && !Recent(r.ts, now))
            && (v == ErrBadSignature <==> r.Signed? && Recent(r.ts, now) && !r.signedByKnownKey)
            && (v == ErrWrongHost <==> r.Signed? && Recent(r.ts, now) && r.signedByKnownKey && !r.local)
            && (v == Accepted || v == ErrReplayed <==> Good(r, now))
            && (!Good(r, now) ==> c' == c)
  {
  }

  /** What is remembered and not expired is what was accepted and is acceptable. */
  lemma LiveIsAcceptable(s: State, now: int)
    requires Inv(s) && now >= s.clock
    ensures Live(s.cache.seen, now).Keys == StillAcceptable(s.accepted, now)
  {
    forall n | n in Live(s.cache.seen, now) ensures n in StillAcceptable(s.accepted, now) {
      assert WasAccepted(n, s.cache.seen[n], s.accepted);
      var ts :| Mark(ts, n) in s.accepted && Expiry(ts) == s.cache.seen[n];
      assert Mark(ts, n).nonce in StillAcceptable(s.accepted, now);
    }
  }

  /** There is room unless all 65,536 nonces are still acceptable: a table with
      expired ones is pruned before it is full. */
  lemma RoomExactly(s: State, now: int)
    requires Inv(s) && now >= s.clock
    ensures |Pruned(s.cache, now).seen| < MAX_SEEN <==> |StillAcceptable(s.accepted, now)| < 65536
  {
    LiveIsAcceptable(s, now);
    LiveIsPart(s.cache.seen, now);
    assert |Live(s.cache.seen, now).Keys| == |Live(s.cache.seen, now)|;
  }

  /** Over every run a request is accepted if and only if it is good, its nonce is
      not remembered, and fewer than 65,536 accepted nonces are still acceptable.
      Every nonce still acceptable is remembered, and only nonces once accepted. */
  lemma AcceptedExactly(events: seq<Event>, start: int, r: Request, now: int)
    requires InOrder(events, start) && now >= Clock(events, start)
    ensures var s := Run(events, start);
            && (Verify(s.cache, r, now).1 == Accepted
                <==> Good(r, now) && r.nonce !in s.cache.seen && |StillAcceptable(s.accepted, now)| < 65536)
            && StillAcceptable(s.accepted, now) <= s.cache.seen.Keys
            && (forall n :: n in s.cache.seen ==> exists ts :: Mark(ts, n) in s.accepted)
  {
    var s := Run(events, start);
    FirstFailure(s.cache, r, now);
    RoomExactly(s, now);
    LiveIsAcceptable(s, now);
    forall n | n in s.cache.seen ensures exists ts :: Mark(ts, n) in s.accepted {
      assert WasAccepted(n, s.cache.seen[n], s.accepted);
    }
  }

  predicate GoodAt(events: seq<Event>, i: nat, m: Mark) {
    i < |events| && Good(events[i].request, events[i].at) && m == Mark(events[i].request.ts, events[i].request.nonce)
  }

  /** Whatever was accepted in a run came with a good request: one signed by a
      known key, recent when it came, and for this agent. */
  lemma {:induction false} AcceptedWereGood(events: seq<Event>, start: int, m: Mark)
    requires InOrder(events, start) && m in Run(events, start).accepted
    ensures exists i: nat :: GoodAt(events, i, m)
  {
    var init, e := events[..|events| - 1], events[|events| - 1];
    if m in Run(init, start).accepted {
      AcceptedWereGood(init, start, m);
      var i: nat :| GoodAt(init, i, m);
      assert events[i] == init[i];
      assert GoodAt(events, i, m);
    } else {
      FirstFailure(Run(init, start).cache, e.request, e.at);
      assert GoodAt(events, |init|, m);
    }
  }

  // ------------------------------------------------------- the verifier

  class Verifier {
    var seen: map<Nonce, int>
    var pruneAt: nat

    function View(): Cache
      reads this
    {
      Cache(seen, pruneAt)
    }

    constructor ()
      ensures View() == Cache(map[], PRUNE_SIZE)
    {
      seen, pruneAt := map[], PRUNE_SIZE;
    }

    method VerifyRequest(r: Request, now: int) returns (v: Verdict)
      modifies this
      ensures (View(), v) == Verify(old(View()), r, now)
      ensures v == Accepted ==> Good(r, now) && r.nonce !in old(seen) && r.nonce in seen
      ensures !Good(r, now) ==> v != Accepted && v != ErrReplayed && View() == old(View())
    {
      FirstFailure(View(), r, now);
      match r {
        case Unsigned => return ErrUnsigned;
        case Malformed => return ErrMalformed;
        case Signed(ts, nonce, signed, local) =>
          var skew := now - ts * SECOND;
          if skew > MAX_SKEW || skew < -MAX_SKEW {
            return ErrStale;
          }
          if !signed {
            return ErrBadSignature;
          }
          if !local {
            return ErrWrongHost;
          }
          var isNew := RememberNonce(nonce, ts * SECOND + MAX_SKEW, now);
          return if isNew then Accepted else ErrReplayed;
      }
    }

    method RememberNonce(nonce: Nonce, expiry: int, now: int) returns (isNew: bool)
      modifies this
      ensures (View(), isNew) == Remember(old(View()), nonce, expiry, now)
    {
      if nonce in seen {
        return false;
      }
      if |seen| >= pruneAt {
        seen := Prune(seen, now);
        pruneAt := Min(MAX_SEEN, Max(PRUNE_SIZE, 2 * |seen|));
      }
      if |seen| >= MAX_SEEN {
        return false;
      }
      seen := seen[nonce := expiry];
      return true;
    }
  }

  /** The loop that deletes expired nonces, in whatever order the map gives. */
  method Prune(seen: map<Nonce, int>, now: int) returns (live: map<Nonce, int>)
    ensures live == Live(seen, now)
  {
    live := seen;
    var todo := seen.Keys;
    while todo != {}
      invariant todo <= seen.Keys
      invariant forall n :: n in live <==> n in seen && (n in todo || seen[n] >= now)
      invariant forall n :: n in live ==> live[n] == seen[n]
      decreases |todo|
    {
      var n :| n in todo;
      if now > seen[n] {
        live := live - {n};
      }
      todo := todo - {n};
    }
  }
}
