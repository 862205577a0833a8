/** Trusted agents (backend/collector/agent_pool.go). */
module AgentPool {
  // Which agents a server trusts to speak for their node.

  import opened Common

  datatype Node = Node(id: nat)
  datatype IP = IP(n: nat)

  /** A host:port address; its host may not be an IP. */
  datatype Addr = Addr(ip: Option<IP>, text: nat)

  /** The answer of an agent's /info that names a node. */
  datatype Info = Info(node: Node, hostname: nat)

  datatype Endpoint = Endpoint(addr: Addr, hostname: nat)

  /** Which nodes run a task holding an address. */
  type Listing = map<IP, set<Node>>

  predicate Confirms(listing: Listing, addr: Addr, node: Node) {
    addr.ip.Some? && addr.ip.value in listing && node in listing[addr.ip.value]
  }

  /** What one refresh saw. `Unresolved` is a lookup that failed without saying
      that the name does not exist; `Seen` has an answer per address, and the
      task list if it could be read. */
  datatype Outcome = Unresolved | Seen(answers: seq<(Addr, Option<Info>)>, listing: Option<Listing>)

  /** Whether the refresh confirms that the agent at an address is on the node
      it names. */
  predicate Accepts(lister: bool, previous: map<Addr, Node>, listing: Option<Listing>, addr: Addr, node: Node) {
    !lister || (match listing
                case Some(l) => Confirms(l, addr, node)
                case None => addr in previous && previous[addr] == node)
  }

  /** `verifyNodes`. */
  function Verified(lister: bool, previous: map<Addr, Node>, answers: seq<(Addr, Option<Info>)>, listing: Option<Listing>): map<Addr, Node> {
    if answers == [] then map[]
    else
      var v, (addr, info) := Verified(lister, previous, answers[..|answers| - 1], listing), Last(answers);
      if info.Some? && Accepts(lister, previous, listing, addr, info.value.node) then v[addr := info.value.node] else v
  }

  /** The agents the refresh ends with: of each node its first confirmed one. */
  function Agents(verified: map<Addr, Node>, answers: seq<(Addr, Option<Info>)>): map<Node, Endpoint> {
    if answers == [] then map[]
    else
      var m, (addr, info) := Agents(verified, answers[..|answers| - 1]), Last(answers);
      if info.Some? && addr in verified && verified[addr] == info.value.node && info.value.node !in m then
        m[info.value.node := Endpoint(addr, info.value.hostname)]
      else m
  }

  datatype State = State(agents: map<Node, Endpoint>, verified: map<Addr, Node>)

  function Step(lister: bool, s: State, o: Outcome): State {
    match o
    case Unresolved => s
    case Seen(answers, listing) =>
      var v := Verified(lister, s.verified, answers, listing);
      State(Agents(v, answers), v)
  }

  function Run(lister: bool, os: seq<Outcome>): State {
    if os == [] then State(map[], map[]) else Step(lister, Run(lister, os[..|os| - 1]), Last(os))
  }

  class AgentPool {
    const lister: bool
    var agents: map<Node, Endpoint>
    var verified: map<Addr, Node>

    constructor (lister: bool)
      ensures this.lister == lister && State(agents, verified) == Run(lister, [])
    {
      this.lister := lister;
      agents, verified := map[], map[];
    }

    method VerifyNodes(answers: seq<(Addr, Option<Info>)>, listing: Option<Listing>) returns (v: map<Addr, Node>)
      ensures v == Verified(lister, verified, answers, listing)
    {
      v := map[];
      for i := 0 to |answers|
        invariant v == Verified(lister, verified, answers[..i], listing)
      {
        assert answers[..i + 1][..i] == answers[..i];
        var (addr, info) := answers[i];
        if info.None? {
          continue;
        }
        var node := info.value.node;
        if !lister {
          v := v[addr := node];
        } else if listing.None? {
          if addr in verified && verified[addr] == node {
            v := v[addr := node];
          }
        } else if Confirms(listing.value, addr, node) {
          v := v[addr := node];
        }
      }
      assert answers[..|answers|] == answers;
    }

    method Refresh(o: Outcome)
      modifies this
      ensures State(agents, verified) == Step(lister, old(State(agents, verified)), o)
    {
      if o.Unresolved? {
        return;
      }
      var answers := o.answers;
      var v := VerifyNodes(answers, o.listing);
      var found: map<Node, Endpoint> := map[];
      for i := 0 to |answers|
        invariant found == Agents(v, answers[..i])
        invariant agents == old(agents) && verified == old(verified)
      {
        assert answers[..i + 1][..i] == answers[..i];
        var (addr, info) := answers[i];
        if info.None? || addr !in v || v[addr] != info.value.node {
          continue;
        }
        if info.value.node in found {
          continue;
        }
        found := found[info.value.node := Endpoint(addr, info.value.hostname)];
      }
      assert answers[..|answers|] == answers;
      agents, verified := found, v;
    }
  }

  // ------------------------------------------------------------------- trust

  /** An agent at the address answered and named the node. */
  ghost predicate Claims(answers: seq<(Addr, Option<Info>)>, addr: Addr, node: Node) {
    exists i :: 0 <= i < |answers| && answers[i].0 == addr && answers[i].1.Some? && answers[i].1.value.node == node
  }

  /** The refresh could read the task list, which confirmed what the agent said. */
  ghost predicate ConfirmedBy(o: Outcome, addr: Addr, node: Node) {
    o.Seen? && Claims(o.answers, addr, node) && o.listing.Some? && Confirms(o.listing.value, addr, node)
  }

  /** Nothing in the refresh goes against the pair: the lookup failed, or the agent
      said so again, and the task list confirms it or could not be read. */
  ghost predicate Stands(o: Outcome, addr: Addr, node: Node) {
    o.Seen? ==> Claims(o.answers, addr, node) && (o.listing.Some? ==> Confirms(o.listing.value, addr, node))
  }

  ghost predicate TrustedSince(os: seq<Outcome>, i: nat, addr: Addr, node: Node) {
    i < |os| && ConfirmedBy(os[i], addr, node) && forall j :: i < j < |os| ==> Stands(os[j], addr, node)
  }

  /** The history confirms the pair: some refresh did, and nothing since then goes
      against it. */
  ghost predicate Trusted(os: seq<Outcome>, addr: Addr, node: Node) {
    exists i :: TrustedSince(os, i, addr, node)
  }

  lemma TrustedMore(os: seq<Outcome>, o: Outcome, addr: Addr, node: Node)
    ensures Trusted(os + [o], addr, node) <==> ConfirmedBy(o, addr, node) || (Trusted(os, addr, node) && Stands(o, addr, node))
  {
    var all := os + [o];
    assert all[|os|] == o && forall i :: 0 <= i < |os| ==> all[i] == os[i];
    if ConfirmedBy(o, addr, node) {
      assert TrustedSince(all, |os|, addr, node);
    } else if Trusted(os, addr, node) && Stands(o, addr, node) {
      var i :| TrustedSince(os, i, addr, node);
      assert TrustedSince(all, i, addr, node);
    }
    if Trusted(all, addr, node) && !ConfirmedBy(o, addr, node) {
      var i :| TrustedSince(all, i, addr, node);
      assert TrustedSince(os, i, addr, node);
    }
  }

  predicate Distinct(answers: seq<(Addr, Option<Info>)>) {
    answers == [] || (Distinct(answers[..|answers| - 1])
                      && forall a :: a in answers[..|answers| - 1] ==> a.0 != Last(answers).0)
  }

  /** Every lookup gave distinct addresses. */
  predicate DistinctAddresses(os: seq<Outcome>) {
    os == [] || (DistinctAddresses(os[..|os| - 1]) && (Last(os).Seen? ==> Distinct(Last(os).answers)))
  }

  lemma {:induction false} VerifiedIsClaimed(lister: bool, previous: map<Addr, Node>, answers: seq<(Addr, Option<Info>)>,
                                             listing: Option<Listing>, addr: Addr, node: Node)
    ensures var v := Verified(lister, previous, answers, listing);
            addr in v && v[addr] == node ==> Claims(answers, addr, node) && Accepts(lister, previous, listing, addr, node)
    ensures Distinct(answers) && Claims(answers, addr, node) && Accepts(lister, previous, listing, addr, node) ==>
              var v := Verified(lister, previous, answers, listing); addr in v && v[addr] == node
  {
    if answers != [] {
      var init, a := answers[..|answers| - 1], Last(answers);
      VerifiedIsClaimed(lister, previous, init, listing, addr, node);
      ClaimsMore(init, a, addr, node);
      assert answers == init + [a];
    }
  }

  lemma ClaimsMore(init: seq<(Addr, Option<Info>)>, a: (Addr, Option<Info>), addr: Addr, node: Node)
    ensures Claims(init + [a], addr, node) <==>
            Claims(init, addr, node) || (a.0 == addr && a.1.Some? && a.1.value.node == node)
    ensures Claims(init, addr, node) ==> exists b :: b in init && b.0 == addr
  {
    var all := init + [a];
    assert all[|init|] == a;
    assert forall i :: 0 <= i < |init| ==> all[i] == init[i];
  }

  /** With a task lister, an address speaks for a node only if the history
      confirms it, and, unless a lookup repeated an address, whenever it does. */
  lemma {:induction false} TrustIsEarned(os: seq<Outcome>, addr: Addr, node: Node)
    ensures var v := Run(true, os).verified;
            (addr in v && v[addr] == node ==> Trusted(os, addr, node))
            && (DistinctAddresses(os) && Trusted(os, addr, node) ==> addr in v && v[addr] == node)
  {
    if os != [] {
      var before := os[..|os| - 1];
      TrustIsEarned(before, addr, node);
      TrustedMore(before, Last(os), addr, node);
      assert os == before + [Last(os)];
      match Last(os)
      case Unresolved =>
      case Seen(answers, listing) =>
        VerifiedIsClaimed(true, Run(true, before).verified, answers, listing, addr, node);
    }
  }

  /** A node that agents speak for: its address is confirmed for it. */
  lemma {:induction false} AgentsAreVerified(verified: map<Addr, Node>, answers: seq<(Addr, Option<Info>)>, node: Node)
    ensures var m := Agents(verified, answers);
            node in m ==> m[node].addr in verified && verified[m[node].addr] == node
    ensures node in Agents(verified, answers) <==>
            exists i :: 0 <= i < |answers| && answers[i].1.Some? && answers[i].1.value.node == node
                        && answers[i].0 in verified && verified[answers[i].0] == node
  {
    if answers != [] {
      var init, a := answers[..|answers| - 1], Last(answers);
      AgentsAreVerified(verified, init, node);
      assert forall i :: 0 <= i < |init| ==> answers[i] == init[i];
      assert answers[|init|] == a;
    }
  }

  /** The `i`-th answer is confirmed for the node. */
  predicate AnswersFor(verified: map<Addr, Node>, answers: seq<(Addr, Option<Info>)>, i: nat, node: Node) {
    i < |answers| && answers[i].1.Some? && answers[i].1.value.node == node
    && answers[i].0 in verified && verified[answers[i].0] == node
  }

  /** A node's agent is the first confirmed for it, at the address it answered on
      and with the hostname it gave. */
  lemma {:induction false} AgentIsFirst(verified: map<Addr, Node>, answers: seq<(Addr, Option<Info>)>, i: nat, node: Node)
    requires AnswersFor(verified, answers, i, node) && forall j: nat :: j < i ==> !AnswersFor(verified, answers, j, node)
    ensures node in Agents(verified, answers)
    ensures Agents(verified, answers)[node] == Endpoint(answers[i].0, answers[i].1.value.hostname)
  {
    var init := answers[..|answers| - 1];
    forall j: nat | j < |init| ensures AnswersFor(verified, init, j, node) <==> AnswersFor(verified, answers, j, node) {
      assert init[j] == answers[j];
    }
    AgentsAreVerified(verified, init, node);
    if i < |init| {
      AgentIsFirst(verified, init, i, node);
    } else if node in Agents(verified, init) {
      var k :| 0 <= k < |init| && init[k].1.Some? && init[k].1.value.node == node
               && init[k].0 in verified && verified[init[k].0] == node;
      assert AnswersFor(verified, init, k, node);
    }
  }

  /** In every run an agent in the pool answers at an address confirmed for its
      node, so no two nodes share an address; and every confirmed address
      brings its node an agent. */
  lemma {:induction false} PoolIsVerified(lister: bool, os: seq<Outcome>, addr: Addr, n: Node, n': Node)
    ensures var s := Run(lister, os);
            (n in s.agents ==> s.agents[n].addr in s.verified && s.verified[s.agents[n].addr] == n)
            && (n in s.agents && n' in s.agents && s.agents[n].addr == s.agents[n'].addr ==> n == n')
            && (addr in s.verified ==> s.verified[addr] in s.agents)
  {
    if os != [] {
      var before := os[..|os| - 1];
      PoolIsVerified(lister, before, addr, n, n');
      match Last(os)
      case Unresolved =>
      case Seen(answers, listing) =>
        var v := Verified(lister, Run(lister, before).verified, answers, listing);
        AgentsAreVerified(v, answers, n);
        AgentsAreVerified(v, answers, n');
        if addr in v {
          VerifiedIsClaimed(lister, Run(lister, before).verified, answers, listing, addr, v[addr]);
          AgentsAreVerified(v, answers, v[addr]);
        }
    }
  }

  /** Without a task lister the agents' last word stands. */
  lemma {:induction false} WithoutLister(os: seq<Outcome>, addr: Addr, node: Node)
    requires os != [] && Last(os).Seen? && Distinct(Last(os).answers)
    ensures var v := Run(false, os).verified;
            addr in v && v[addr] == node <==> Claims(Last(os).answers, addr, node)
  {
    VerifiedIsClaimed(false, Run(false, os[..|os| - 1]).verified, Last(os).answers, Last(os).listing, addr, node);
  }
}
