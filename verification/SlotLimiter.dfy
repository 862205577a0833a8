/** Concurrent slots (backend/api/limits.go). */
module SlotLimiter {
  // Handlers take several limiters one after another, interleaved in any way.
  // Each acquire and each release is one step under its limiter's lock.

  datatype Client = Client(address: nat)

  /** A bound of 0 or less means none. */
  const MAX_INT: int := 0x7fff_ffff_ffff_ffff

  datatype Limiter = Limiter(total: nat, perClient: map<Client, nat>, maxTotal: int, maxPerClient: int)

  function NewLimiter(maxTotal: int, maxPerClient: int): Limiter {
    Limiter(0, map[], if maxTotal <= 0 then MAX_INT else maxTotal, if maxPerClient <= 0 then MAX_INT else maxPerClient)
  }

  /** Slots a client holds; a missing entry counts as none. */
  function Held(l: Limiter, c: Client): nat {
    if c in l.perClient then l.perClient[c] else 0
  }

  predicate Full(l: Limiter, c: Client) {
    l.total >= l.maxTotal || Held(l, c) >= l.maxPerClient
  }

  function Take(l: Limiter, c: Client): Limiter {
    l.(total := l.total + 1, perClient := l.perClient[c := Held(l, c) + 1])
  }

  /** `release`; a total of 0 never occurs (see `Counts`). */
  function Release(l: Limiter, c: Client): Limiter {
    l.(total := if l.total > 0 then l.total - 1 else 0,
       perClient := if Held(l, c) <= 1 then l.perClient - {c} else l.perClient[c := Held(l, c) - 1])
  }

  /** Where a request is: at the `i`-th limiter it wants, being served, or giving
      back those at positions `k` to `n`. */
  datatype Phase = Acquiring(i: nat) | Serving | Returning(k: nat, n: nat)

  /** A request; `took` records the limiters it was given a slot of. */
  datatype Handler = Handler(client: Client, wants: seq<nat>, phase: Phase, took: seq<nat>)

  predicate Finished(h: Handler) {
    h.phase.Returning? && h.phase.k == h.phase.n
  }

  datatype System = System(limiters: seq<Limiter>, handlers: seq<Handler>)

  datatype Event = Arrive(client: Client, limiters: seq<nat>) | Advance(handler: nat)

  predicate AllBelow(s: seq<nat>, n: nat) {
    forall i :: 0 <= i < |s| ==> s[i] < n
  }

  /** The loops stay within the list, and what they go over to give slots back is
      what was taken. */
  predicate Tracked(h: Handler) {
    match h.phase
    case Acquiring(i) => i <= |h.wants| && h.took == h.wants[..i]
    case Serving => h.took == h.wants
    case Returning(k, n) => k <= n <= |h.wants| && h.took == h.wants[..n]
  }

  ghost predicate HandlersExist(s: System) {
    forall i :: 0 <= i < |s.handlers| ==> AllBelow(s.handlers[i].wants, |s.limiters|) && Tracked(s.handlers[i])
  }

  /** The next step of one handler: take the next limiter, or turn back and give
      back those before it; serve once all are taken, then give back all. */
  function Advanced(s: System, i: nat): System
    requires i < |s.handlers| && HandlersExist(s)
  {
    var h := s.handlers[i];
    match h.phase
    case Acquiring(next) =>
      if next == |h.wants| then s.(handlers := s.handlers[i := h.(phase := Serving)])
      else
        var j := h.wants[next];
        if Full(s.limiters[j], h.client) then s.(handlers := s.handlers[i := h.(phase := Returning(0, next))])
        else System(s.limiters[j := Take(s.limiters[j], h.client)],
                    s.handlers[i := h.(phase := Acquiring(next + 1), took := h.took + [j])])
    case Serving => s.(handlers := s.handlers[i := h.(phase := Returning(0, |h.wants|))])
    case Returning(k, n) =>
      if k == n then s
      else
        var j := h.wants[k];
        System(s.limiters[j := Release(s.limiters[j], h.client)], s.handlers[i := h.(phase := Returning(k + 1, n))])
  }

  /** The slots taken and not given back yet. */
  function Holds(h: Handler): seq<nat> {
    if h.phase.Returning? && h.phase.k <= |h.took| then h.took[h.phase.k..] else h.took
  }

  // ------------------------------------------------------------- counting

  /** How often `j` occurs in `s`. */
  function Occurs(s: seq<nat>, j: nat): nat {
    if s == [] then 0 else (if s[0] == j then 1 else 0) + Occurs(s[1..], j)
  }

  function Slots(h: Handler, j: nat, c: Client): nat {
    if h.client == c then Occurs(Holds(h), j) else 0
  }

  /** Slots of limiter `j` that a client's handlers hold. */
  function ClientSlots(hs: seq<Handler>, j: nat, c: Client): nat {
    if hs == [] then 0 else Slots(hs[0], j, c) + ClientSlots(hs[1..], j, c)
  }

  /** Slots of limiter `j` that all handlers hold. */
  function AllSlots(hs: seq<Handler>, j: nat): nat {
    if hs == [] then 0 else Occurs(Holds(hs[0]), j) + AllSlots(hs[1..], j)
  }

  ghost function Sum(m: map<Client, nat>): nat {
    if m == map[] then 0 else
      var c :| c in m;
      m[c] + Sum(m - {c})
  }

  /** A limiter's counters say what the handlers hold, within both bounds. */
  ghost predicate Counts(l: Limiter, hs: seq<Handler>, j: nat) {
    && l.total == AllSlots(hs, j) && l.total <= l.maxTotal && l.total == Sum(l.perClient)
    && forall c :: CountsClient(l, hs, j, c)
  }

  /** One client's count; clients that hold nothing have no entry. */
  ghost predicate CountsClient(l: Limiter, hs: seq<Handler>, j: nat, c: Client) {
    && Held(l, c) == ClientSlots(hs, j, c) && Held(l, c) <= l.maxPerClient
    && (c in l.perClient ==> l.perClient[c] > 0)
  }

  ghost predicate Inv(s: System) {
    && HandlersExist(s)
    && forall j :: 0 <= j < |s.limiters| ==> Counts(s.limiters[j], s.handlers, j)
  }

  lemma {:induction false} SumWithout(m: map<Client, nat>, c: Client)
    requires c in m
    ensures Sum(m) == m[c] + Sum(m - {c})
  {
    var x :| x in m && Sum(m) == m[x] + Sum(m - {x});
    if x != c {
      SumWithout(m - {x}, c);
      SumWithout(m - {c}, x);
      assert m - {x} - {c} == m - {c} - {x};
    }
  }

  lemma SumUpdate(m: map<Client, nat>, c: Client, n: nat)
    ensures Sum(m[c := n]) == Sum(m - {c}) + n
  {
    SumWithout(m[c := n], c);
    assert m[c := n] - {c} == m - {c};
  }

  lemma SumOf(m: map<Client, nat>, c: Client)
    ensures Sum(m) == Sum(m - {c}) + if c in m then m[c] else 0
  {
    if c in m {
      SumWithout(m, c);
    } else {
      assert m - {c} == m;
    }
  }

  lemma {:induction false} OccursMore(s: seq<nat>, j: nat, k: nat)
    ensures Occurs(s + [j], k) == Occurs(s, k) + if j == k then 1 else 0
  {
    if s == [] {
      assert (s + [j])[1..] == [];
    } else {
      OccursMore(s[1..], j, k);
      assert (s + [j])[1..] == s[1..] + [j];
    }
  }

  lemma {:induction false} AllSlotsChange(hs: seq<Handler>, i: nat, h: Handler, j: nat)
    requires i < |hs|
    ensures AllSlots(hs[i := h], j) + Occurs(Holds(hs[i]), j) == AllSlots(hs, j) + Occurs(Holds(h), j)
  {
    var first, rest := hs[0], hs[1..];
    if i > 0 {
      AllSlotsChange(rest, i - 1, h, j);
      assert hs[i := h][0] == first && hs[i := h][1..] == rest[i - 1 := h];
    } else {
      assert hs[i := h][0] == h && hs[i := h][1..] == rest;
    }
  }

  lemma {:induction false} ClientSlotsChange(hs: seq<Handler>, i: nat, h: Handler, j: nat, c: Client)
    requires i < |hs| && h.client == hs[i].client
    ensures ClientSlots(hs[i := h], j, c) + Slots(hs[i], j, c) == ClientSlots(hs, j, c) + Slots(h, j, c)
    ensures ClientSlots(hs, j, c) >= Slots(hs[i], j, c)
  {
    var first, rest := hs[0], hs[1..];
    if i > 0 {
      ClientSlotsChange(rest, i - 1, h, j, c);
      assert hs[i := h][0] == first && hs[i := h][1..] == rest[i - 1 := h];
    } else {
      assert hs[i := h][0] == h && hs[i := h][1..] == rest;
    }
  }

  /** A limiter whose slots no step changes keeps its counts. */
  lemma CountsUnchanged(l: Limiter, hs: seq<Handler>, i: nat, h: Handler, j: nat)
    requires i < |hs| && h.client == hs[i].client && Occurs(Holds(h), j) == Occurs(Holds(hs[i]), j) && Counts(l, hs, j)
    ensures Counts(l, hs[i := h], j)
  {
    AllSlotsChange(hs, i, h, j);
    var hs' := hs[i := h];
    forall c ensures CountsClient(l, hs', j, c) {
      ClientSlotsChange(hs, i, h, j, c);
      assert CountsClient(l, hs, j, c);
    }
  }

  lemma SumAfterTake(l: Limiter, c: Client)
    requires l.total == Sum(l.perClient)
    ensures Take(l, c).total == Sum(Take(l, c).perClient)
  {
    SumUpdate(l.perClient, c, Held(l, c) + 1);
    SumOf(l.perClient, c);
  }

  lemma CountsAfterTake(l: Limiter, hs: seq<Handler>, i: nat, h: Handler, j: nat)
    requires i < |hs| && h.client == hs[i].client && Occurs(Holds(h), j) == Occurs(Holds(hs[i]), j) + 1
    requires Counts(l, hs, j) && !Full(l, h.client)
    ensures Counts(Take(l, h.client), hs[i := h], j)
  {
    AllSlotsChange(hs, i, h, j);
    SumAfterTake(l, h.client);
    var l', hs' := Take(l, h.client), hs[i := h];
    forall c ensures CountsClient(l', hs', j, c) {
      ClientSlotsChange(hs, i, h, j, c);
      assert CountsClient(l, hs, j, c);
    }
  }

  lemma SumAfterRelease(l: Limiter, c: Client)
    requires l.total == Sum(l.perClient) && c in l.perClient && l.perClient[c] > 0
    ensures Release(l, c).total == Sum(Release(l, c).perClient) && Release(l, c).total == l.total - 1
  {
    SumOf(l.perClient, c);
    if Held(l, c) > 1 {
      SumUpdate(l.perClient, c, Held(l, c) - 1);
    }
  }

  lemma CountsAfterRelease(l: Limiter, hs: seq<Handler>, i: nat, h: Handler, j: nat)
    requires i < |hs| && h.client == hs[i].client && Occurs(Holds(h), j) + 1 == Occurs(Holds(hs[i]), j)
    requires Counts(l, hs, j)
    ensures Counts(Release(l, h.client), hs[i := h], j)
  {
    AllSlotsChange(hs, i, h, j);
    ClientSlotsChange(hs, i, h, j, h.client);
    assert CountsClient(l, hs, j, h.client);
    SumAfterRelease(l, h.client);
    var l', hs' := Release(l, h.client), hs[i := h];
    forall c ensures CountsClient(l', hs', j, c) {
      ClientSlotsChange(hs, i, h, j, c);
      assert CountsClient(l, hs, j, c);
    }
  }

  lemma ExistAfter(s: System, i: nat, h: Handler, limiters: seq<Limiter>)
    requires HandlersExist(s) && i < |s.handlers| && |limiters| == |s.limiters|
    requires h.wants == s.handlers[i].wants && Tracked(h)
    ensures HandlersExist(System(limiters, s.handlers[i := h]))
  {
    assert AllBelow(s.handlers[i].wants, |s.limiters|);
  }

  /** A step that takes or gives back one slot of limiter `j`. */
  lemma SlotStep(s: System, i: nat, h: Handler, j: nat, l: Limiter)
    requires Inv(s) && i < |s.handlers| && j < |s.limiters| && h.client == s.handlers[i].client
    requires h.wants == s.handlers[i].wants && Tracked(h)
    requires forall k :: k != j ==> Occurs(Holds(h), k) == Occurs(Holds(s.handlers[i]), k)
    requires Counts(l, s.handlers[i := h], j)
    ensures Inv(System(s.limiters[j := l], s.handlers[i := h]))
  {
    ExistAfter(s, i, h, s.limiters[j := l]);
    forall k | 0 <= k < |s.limiters| && k != j ensures Counts(s.limiters[k], s.handlers[i := h], k) {
      CountsUnchanged(s.limiters[k], s.handlers, i, h, k);
    }
  }

  /** A step that only moves a handler on. */
  lemma PhaseStep(s: System, i: nat, h: Handler)
    requires Inv(s) && i < |s.handlers| && h.client == s.handlers[i].client && Holds(h) == Holds(s.handlers[i])
    requires h.wants == s.handlers[i].wants && Tracked(h)
    ensures Inv(s.(handlers := s.handlers[i := h]))
  {
    ExistAfter(s, i, h, s.limiters);
    forall k | 0 <= k < |s.limiters| ensures Counts(s.limiters[k], s.handlers[i := h], k) {
      CountsUnchanged(s.limiters[k], s.handlers, i, h, k);
    }
  }

  lemma TakeStep(s: System, i: nat, next: nat)
    requires Inv(s) && i < |s.handlers| && s.handlers[i].phase == Acquiring(next) && next < |s.handlers[i].wants|
    requires AllBelow(s.handlers[i].wants, |s.limiters|) && Tracked(s.handlers[i])
    requires !Full(s.limiters[s.handlers[i].wants[next]], s.handlers[i].client)
    ensures Inv(Advanced(s, i))
  {
    var h := s.handlers[i];
    var j := h.wants[next];
    var h' := h.(phase := Acquiring(next + 1), took := h.took + [j]);
    forall k ensures Occurs(Holds(h'), k) == Occurs(Holds(h), k) + if j == k then 1 else 0 {
      OccursMore(h.took, j, k);
    }
    assert h'.took == h.wants[..next + 1];
    CountsAfterTake(s.limiters[j], s.handlers, i, h', j);
    SlotStep(s, i, h', j, Take(s.limiters[j], h.client));
  }

  lemma ReleaseStep(s: System, i: nat, k: nat, n: nat)
    requires Inv(s) && i < |s.handlers| && s.handlers[i].phase == Returning(k, n) && k != n
    requires AllBelow(s.handlers[i].wants, |s.limiters|) && Tracked(s.handlers[i])
    ensures Inv(Advanced(s, i))
  {
    var h := s.handlers[i];
    var j := h.wants[k];
    var h' := h.(phase := Returning(k + 1, n));
    assert Holds(h)[0] == j && Holds(h)[1..] == Holds(h');
    CountsAfterRelease(s.limiters[j], s.handlers, i, h', j);
    SlotStep(s, i, h', j, Release(s.limiters[j], h.client));
  }

  lemma AdvanceKeeps(s: System, i: nat)
    requires Inv(s) && i < |s.handlers|
    ensures Inv(Advanced(s, i))
  {
    var h := s.handlers[i];
    assert AllBelow(h.wants, |s.limiters|) && Tracked(h);
    match h.phase {
      case Acquiring(next) =>
        if next == |h.wants| {
          PhaseStep(s, i, h.(phase := Serving));
        } else if Full(s.limiters[h.wants[next]], h.client) {
          PhaseStep(s, i, h.(phase := Returning(0, next)));
        } else {
          TakeStep(s, i, next);
        }
      case Serving =>
        PhaseStep(s, i, h.(phase := Returning(0, |h.wants|)));
      case Returning(k, n) =>
        if k != n {
          ReleaseStep(s, i, k, n);
        }
    }
  }

  lemma NewKeeps(bounds: seq<(int, int)>)
    ensures Inv(System(NewLimiters(bounds), []))
  {
    var s := System(NewLimiters(bounds), []);
    forall j | 0 <= j < |bounds| ensures Counts(s.limiters[j], [], j) {
      assert forall c :: CountsClient(s.limiters[j], [], j, c);
    }
  }

  lemma ArriveKeeps(s: System, client: Client, wants: seq<nat>)
    requires Inv(s) && AllBelow(wants, |s.limiters|)
    ensures Inv(Arrived(s, client, wants))
  {
    var h := Handler(client, wants, Acquiring(0), []);
    var hs := [h] + s.handlers;
    assert hs[1..] == s.handlers;
    forall j | 0 <= j < |s.limiters| ensures Counts(s.limiters[j], hs, j) {
      forall c ensures CountsClient(s.limiters[j], hs, j, c) {
        assert CountsClient(s.limiters[j], s.handlers, j, c);
      }
    }
  }

  // --------------------------------------------------- every interleaving

  /** New requests name limiters that exist, and only handlers that exist move. */
  ghost predicate Possible(events: seq<Event>, limiters: seq<(int, int)>) {
    events == [] ||
    var init := events[..|events| - 1];
    && Possible(init, limiters)
    && match events[|events| - 1]
       case Arrive(_, wants) => AllBelow(wants, |limiters|)
       case Advance(i) => i < Arrivals(init)
  }

  function Arrivals(events: seq<Event>): nat {
    if events == [] then 0 else Arrivals(events[..|events| - 1]) + if events[|events| - 1].Arrive? then 1 else 0
  }

  function NewLimiters(bounds: seq<(int, int)>): (l: seq<Limiter>)
    ensures |l| == |bounds|
    ensures forall j :: 0 <= j < |bounds| ==> l[j] == NewLimiter(bounds[j].0, bounds[j].1)
  {
    if bounds == [] then []
    else NewLimiters(bounds[..|bounds| - 1]) + [NewLimiter(bounds[|bounds| - 1].0, bounds[|bounds| - 1].1)]
  }

  /** The limiter keeps the bounds it was created with. */
  predicate Configured(l: Limiter, bounds: (int, int)) {
    var unused := NewLimiter(bounds.0, bounds.1);
    l.maxTotal == unused.maxTotal && l.maxPerClient == unused.maxPerClient
  }

  /** Every limiter counts what is held, within the bounds it was created with. */
  ghost predicate InOrder(s: System, bounds: seq<(int, int)>) {
    Inv(s) && |s.limiters| == |bounds| && forall j :: 0 <= j < |bounds| ==> Configured(s.limiters[j], bounds[j])
  }

  function Arrived(s: System, client: Client, wants: seq<nat>): System {
    s.(handlers := [Handler(client, wants, Acquiring(0), [])] + s.handlers)
  }

  lemma ArrivedInOrder(s: System, client: Client, wants: seq<nat>, bounds: seq<(int, int)>)
    requires InOrder(s, bounds) && AllBelow(wants, |bounds|)
    ensures InOrder(Arrived(s, client, wants), bounds) && |Arrived(s, client, wants).handlers| == |s.handlers| + 1
  {
    ArriveKeeps(s, client, wants);
  }

  /** A step changes no bounds, and how many there are of nothing. */
  lemma BoundsStay(s: System, i: nat)
    requires i < |s.handlers| && HandlersExist(s)
    ensures |Advanced(s, i).limiters| == |s.limiters| && |Advanced(s, i).handlers| == |s.handlers|
    ensures forall j :: 0 <= j < |s.limiters| ==>
              Advanced(s, i).limiters[j].maxTotal == s.limiters[j].maxTotal
              && Advanced(s, i).limiters[j].maxPerClient == s.limiters[j].maxPerClient
  {
  }

  lemma AdvancedInOrder(s: System, i: nat, bounds: seq<(int, int)>)
    requires InOrder(s, bounds) && i < |s.handlers|
    ensures InOrder(Advanced(s, i), bounds) && |Advanced(s, i).handlers| == |s.handlers|
  {
    AdvanceKeeps(s, i);
    BoundsStay(s, i);
    SameBounds(s.limiters, Advanced(s, i).limiters, bounds);
  }

  lemma SameBounds(l: seq<Limiter>, l': seq<Limiter>, bounds: seq<(int, int)>)
    requires |l| == |l'| == |bounds| && forall j :: 0 <= j < |bounds| ==> Configured(l[j], bounds[j])
    requires forall j :: 0 <= j < |l| ==> l'[j].maxTotal == l[j].maxTotal && l'[j].maxPerClient == l[j].maxPerClient
    ensures forall j :: 0 <= j < |bounds| ==> Configured(l'[j], bounds[j])
  {
    forall j | 0 <= j < |bounds| ensures Configured(l'[j], bounds[j]) {
      assert Configured(l[j], bounds[j]);
    }
  }

  /** Any interleaving of any number of handlers, over limiters with any bounds:
      at every point each limiter's counters say exactly what is held. */
  ghost function Run(events: seq<Event>, bounds: seq<(int, int)>): (s: System)
    requires Possible(events, bounds)
    ensures InOrder(s, bounds) && |s.handlers| == Arrivals(events)
  {
    if events == [] then
      NewKeeps(bounds);
      System(NewLimiters(bounds), [])
    else
      var s := Run(events[..|events| - 1], bounds);
      match events[|events| - 1]
      case Arrive(client, wants) =>
        ArrivedInOrder(s, client, wants, bounds);
        Arrived(s, client, wants)
      case Advance(i) =>
        AdvancedInOrder(s, i, bounds);
        Advanced(s, i)
  }

  /** A refusal is never wrong: some bound is reached by slots handlers hold. */
  lemma RefusedOnlyWhenFull(events: seq<Event>, bounds: seq<(int, int)>, j: nat, c: Client)
    requires Possible(events, bounds) && j < |bounds|
    ensures var s := Run(events, bounds);
            Full(s.limiters[j], c) <==> AllSlots(s.handlers, j) == s.limiters[j].maxTotal
                                        || ClientSlots(s.handlers, j, c) == s.limiters[j].maxPerClient
  {
    var s := Run(events, bounds);
    assert Counts(s.limiters[j], s.handlers, j) && CountsClient(s.limiters[j], s.handlers, j, c);
  }

  /** The slots a request gives back, the slice of its list before the limiter that
      refused it or all of it, are those it took. */
  lemma GivesBackWhatItTook(events: seq<Event>, bounds: seq<(int, int)>, i: nat)
    requires Possible(events, bounds) && i < Arrivals(events)
    ensures var h := Run(events, bounds).handlers[i];
            h.phase.Returning? ==> 0 <= h.phase.n <= |h.wants| && h.wants[..h.phase.n] == h.took
  {
    assert Tracked(Run(events, bounds).handlers[i]);
  }

  /** A bound is reached: one above 0, or the largest integer for none. */
  predicate Reached(held: nat, bound: int) {
    held == if bound > 0 then bound else 0x7fff_ffff_ffff_ffff
  }

  /** The same in terms of the bounds the limiter was made with: a slot is refused
      exactly when all handlers together hold as many as the first bound allows, or
      the client's as many as the second. */
  lemma RefusedAtBounds(events: seq<Event>, bounds: seq<(int, int)>, j: nat, c: Client)
    requires Possible(events, bounds) && j < |bounds|
    ensures var s := Run(events, bounds);
            Full(s.limiters[j], c) <==> Reached(AllSlots(s.handlers, j), bounds[j].0)
                                        || Reached(ClientSlots(s.handlers, j, c), bounds[j].1)
  {
    RefusedOnlyWhenFull(events, bounds, j, c);
    assert Configured(Run(events, bounds).limiters[j], bounds[j]);
  }

  predicate AllFinished(hs: seq<Handler>) {
    hs == [] || (Finished(hs[0]) && AllFinished(hs[1..]))
  }

  lemma {:induction false} FinishedHoldNothing(hs: seq<Handler>, j: nat, c: Client)
    requires AllFinished(hs) && forall i :: 0 <= i < |hs| ==> Tracked(hs[i])
    ensures AllSlots(hs, j) == 0 && ClientSlots(hs, j, c) == 0
  {
    if hs != [] {
      assert Holds(hs[0]) == [];
      FinishedHoldNothing(hs[1..], j, c);
    }
  }

  /** Once every handler is done, served or turned back half-way, every limiter
      is as it was when new. */
  lemma AllReturned(events: seq<Event>, bounds: seq<(int, int)>, j: nat)
    requires Possible(events, bounds) && j < |bounds| && AllFinished(Run(events, bounds).handlers)
    ensures Run(events, bounds).limiters[j] == NewLimiter(bounds[j].0, bounds[j].1)
  {
    var s := Run(events, bounds);
    var l := s.limiters[j];
    assert Counts(l, s.handlers, j);
    forall c ensures c !in l.perClient {
      FinishedHoldNothing(s.handlers, j, c);
      assert CountsClient(l, s.handlers, j, c);
    }
    FinishedHoldNothing(s.handlers, j, Client(0));
    assert l.perClient == map[];
  }

  // ------------------------------------------------------------ the limiter

  class SlotLimiter {
    var total: nat
    var perClient: map<Client, nat>
    const maxTotal: int
    const maxPerClient: int

    function View(): Limiter
      reads this
    {
      Limiter(total, perClient, maxTotal, maxPerClient)
    }

    constructor (maxTotal: int, maxPerClient: int)
      ensures View() == NewLimiter(maxTotal, maxPerClient)
    {
      this.maxTotal := if maxTotal <= 0 then MAX_INT else maxTotal;
      this.maxPerClient := if maxPerClient <= 0 then MAX_INT else maxPerClient;
      total, perClient := 0, map[];
    }

    method Acquire(c: Client) returns (ok: bool)
      modifies this
      ensures ok == !Full(old(View()), c) && View() == if ok then Take(old(View()), c) else old(View())
    {
      if total >= maxTotal {
        return false;
      }
      var held := if c in perClient then perClient[c] else 0;
      if held >= maxPerClient {
        return false;
      }
      total := total + 1;
      perClient := perClient[c := held + 1];
      return true;
    }

    method ReleaseSlot(c: Client)
      requires total > 0
      modifies this
      ensures View() == Release(old(View()), c)
    {
      total := total - 1;
      if c !in perClient || perClient[c] <= 1 {
        perClient := perClient - {c};
      } else {
        perClient := perClient[c := perClient[c] - 1];
      }
    }
  }
}
