/** A round of stats (backend/collector/agent_stats.go). */
module AgentStats {
  // The answers of the agents of other nodes, merged in the order they arrive.

  import opened Common
  import opened Reordering

  /** A node ID, container ID, task ID, container name or hostname; 0 is the
      empty string. */
  datatype Text = Text(id: nat)

  const EMPTY := Text(0)

  /** A sample as an agent reports it. */
  datatype Reported = Reported(id: Text, name: Text, task: Text, stats: int)

  /** A sample stamped with the node its agent was found on. */
  datatype Sample = Sample(id: Text, name: Text, task: Text, stats: int, node: Text, hostname: Text)

  /** An agent's answer, if it gave a readable one. */
  datatype Answer = Answer(node: Text, hostname: Text, samples: Option<seq<Reported>>)

  // ----------------------------------------------------------------- claims

  datatype Claimed<K> = Claimed(key: K, value: Text)

  /** `claim`; `None` is the mark of a key claimed for several values. */
  function Claim<K>(claims: map<K, Option<Text>>, key: K, value: Text): map<K, Option<Text>> {
    if key in claims && claims[key] != Some(value) then claims[key := None] else claims[key := Some(value)]
  }

  /** The table a list of claims leaves. */
  function Table<K>(cs: seq<Claimed<K>>): map<K, Option<Text>> {
    if cs == [] then map[] else Claim(Table(cs[..|cs| - 1]), Last(cs).key, Last(cs).value)
  }

  lemma TableMore<K>(cs: seq<Claimed<K>>, key: K, value: Text)
    ensures Table(cs + [Claimed(key, value)]) == Claim(Table(cs), key, value)
  {
    assert (cs + [Claimed(key, value)])[..|cs|] == cs;
  }

  /** All claims on a key agree on a value. */
  ghost predicate Agreed<K>(cs: seq<Claimed<K>>, key: K, value: Text) {
    Claimed(key, value) in cs && forall v :: Claimed(key, v) in cs ==> v == value
  }

  /** A key is listed when it is claimed, and names a value exactly when all its
      claims agree on that value. */
  lemma {:induction false} TableIsAgreement<K>(cs: seq<Claimed<K>>, key: K, value: Text)
    ensures key in Table(cs) <==> exists v :: Claimed(key, v) in cs
    ensures key in Table(cs) && Table(cs)[key] == Some(value) <==> Agreed(cs, key, value)
  {
    if cs != [] {
      var init, c := cs[..|cs| - 1], Last(cs);
      assert cs == init + [c];
      TableIsAgreement(init, key, value);
      TableIsAgreement(init, key, c.value);
      if c.key == key {
        AgreedMore(init, c, value);
      } else {
        assert forall v :: Claimed(key, v) in cs <==> Claimed(key, v) in init;
      }
    }
  }

  lemma AgreedMore<K>(init: seq<Claimed<K>>, c: Claimed<K>, value: Text)
    ensures Agreed(init + [c], c.key, value)
            <==> c.value == value && ((forall v :: Claimed(c.key, v) !in init) || Agreed(init, c.key, value))
  {
    var cs := init + [c];
    assert forall v :: Claimed(c.key, v) in cs <==> v == c.value || Claimed(c.key, v) in init;
  }

  /** A table depends on which claims were made, not on their order. */
  lemma SameClaims<K(!new)>(a: seq<Claimed<K>>, b: seq<Claimed<K>>)
    requires forall c :: c in a <==> c in b
    ensures Table(a) == Table(b)
  {
    forall key
      ensures key in Table(a) <==> key in Table(b)
      ensures key in Table(a) && key in Table(b) ==> Table(a)[key] == Table(b)[key]
    {
      SameEntry(a, b, key);
    }
  }

  lemma SameEntry<K>(a: seq<Claimed<K>>, b: seq<Claimed<K>>, key: K)
    requires forall c :: c in a <==> c in b
    ensures key in Table(a) <==> key in Table(b)
    ensures key in Table(a) && key in Table(b) ==> Table(a)[key] == Table(b)[key]
  {
    if v :| Claimed(key, v) in a {
      TableIsAgreement(a, key, v);
      TableIsAgreement(b, key, v);
      SameValue(a, b, key);
      SameValue(b, a, key);
    } else {
      NoKey(a, key);
      NoKey(b, key);
    }
  }

  lemma SameValue<K>(a: seq<Claimed<K>>, b: seq<Claimed<K>>, key: K)
    requires (forall c :: c in a <==> c in b) && key in Table(a) && key in Table(b)
    ensures Table(a)[key].Some? ==> Table(b)[key] == Table(a)[key]
  {
    if Table(a)[key].Some? {
      TableIsAgreement(a, key, Table(a)[key].value);
      TableIsAgreement(b, key, Table(a)[key].value);
    }
  }

  lemma {:induction false} NoKey<K>(cs: seq<Claimed<K>>, key: K)
    requires forall c :: c in cs ==> c.key != key
    ensures key !in Table(cs)
  {
    if cs != [] {
      assert Last(cs) in cs;
      NoKey(cs[..|cs| - 1], key);
    }
  }

  // ------------------------------------------------------------ the samples

  datatype Reporter = Container(id: Text) | Task(id: Text)

  function Owners(s: Sample): seq<Claimed<Text>> {
    if s.task == EMPTY then [Claimed(s.id, s.node)] else []
  }

  function Names(s: Sample): seq<Claimed<Text>> {
    if s.task == EMPTY then [Claimed(s.name, s.node)] else []
  }

  function Tasks(s: Sample): seq<Claimed<Text>> {
    if s.task == EMPTY then [] else [Claimed(s.id, s.task), Claimed(s.name, s.task), Claimed(s.task, s.task)]
  }

  function Reporters(s: Sample): seq<Claimed<Reporter>> {
    [Claimed(Container(s.id), s.node)] + if s.task == EMPTY then [] else [Claimed(Task(s.task), s.node)]
  }

  /** What `f` claims for all samples, in order. */
  function Claims<K>(all: seq<Sample>, f: Sample -> seq<Claimed<K>>): seq<Claimed<K>> {
    if all == [] then [] else Claims(all[..|all| - 1], f) + f(Last(all))
  }

  lemma {:induction false} ClaimsMembers<K>(all: seq<Sample>, f: Sample -> seq<Claimed<K>>, c: Claimed<K>)
    ensures c in Claims(all, f) <==> exists s :: s in all && c in f(s)
  {
    if all != [] {
      ClaimsMembers(all[..|all| - 1], f, c);
      assert all == all[..|all| - 1] + [Last(all)];
    }
  }

  /** `reportedByOthers`. */
  predicate ReportedByOthers(reporters: map<Reporter, Option<Text>>, s: Sample) {
    (Container(s.id) in reporters ==> reporters[Container(s.id)] == None)
    || (s.task != EMPTY && (Task(s.task) in reporters ==> reporters[Task(s.task)] == None))
  }

  function Survivors(all: seq<Sample>, reporters: map<Reporter, Option<Text>>): seq<Sample> {
    if all == [] then []
    else if ReportedByOthers(reporters, Last(all)) then Survivors(all[..|all| - 1], reporters)
    else Survivors(all[..|all| - 1], reporters) + [Last(all)]
  }

  /** The samples an answer contributes, stamped with the agent's node. */
  function Stamped(a: Answer, n: nat): (r: seq<Sample>)
    requires a.samples.Some? && n <= |a.samples.value|
  {
    if n == 0 then []
    else
      var s := a.samples.value[n - 1];
      if s.id == EMPTY || s.name == EMPTY then Stamped(a, n - 1)
      else Stamped(a, n - 1) + [Sample(s.id, s.name, s.task, s.stats, a.node, a.hostname)]
  }

  function FromAnswer(a: Answer): seq<Sample> {
    if a.samples.None? then [] else Stamped(a, |a.samples.value|)
  }

  function Collected(answers: seq<Answer>): seq<Sample> {
    if answers == [] then [] else Collected(answers[..|answers| - 1]) + FromAnswer(Last(answers))
  }

  /** The tables and samples of a round. */
  datatype Round = Round(owners: map<Text, Option<Text>>, names: map<Text, Option<Text>>, tasks: map<Text, Option<Text>>,
                         reporters: map<Reporter, Option<Text>>)

  function Tables(all: seq<Sample>): Round {
    Round(Table(Claims(all, Owners)), Table(Claims(all, Names)), Table(Claims(all, Tasks)), Table(Claims(all, Reporters)))
  }

  // ---------------------------------------------------------------- a round

  /** What one sample adds to the tables. */
  function WithSample(t: Round, s: Sample): Round {
    if s.task == EMPTY then
      t.(reporters := Claim(t.reporters, Container(s.id), s.node),
         owners := Claim(t.owners, s.id, s.node), names := Claim(t.names, s.name, s.node))
    else
      t.(reporters := Claim(Claim(t.reporters, Container(s.id), s.node), Task(s.task), s.node),
         tasks := Claim(Claim(Claim(t.tasks, s.id, s.task), s.name, s.task), s.task, s.task))
  }

  lemma ClaimsMore<K>(all: seq<Sample>, s: Sample, f: Sample -> seq<Claimed<K>>)
    ensures Claims(all + [s], f) == Claims(all, f) + f(s)
  {
    assert (all + [s])[..|all|] == all;
  }

  lemma TablesMore(all: seq<Sample>, s: Sample)
    ensures Tables(all + [s]) == WithSample(Tables(all), s)
  {
    ClaimsMore(all, s, Owners);
    ClaimsMore(all, s, Names);
    ClaimsMore(all, s, Tasks);
    ClaimsMore(all, s, Reporters);
    var o, n, t, r := Claims(all, Owners), Claims(all, Names), Claims(all, Tasks), Claims(all, Reporters);
    var c := Claimed(Container(s.id), s.node);
    TableMore(r, c.key, s.node);
    if s.task == EMPTY {
      TableMore(o, s.id, s.node);
      TableMore(n, s.name, s.node);
      assert t + [] == t && r + Reporters(s) == r + [c];
    } else {
      assert o + [] == o && n + [] == n;
      TableMore(r + [c], Task(s.task), s.node);
      assert r + Reporters(s) == r + [c] + [Claimed(Task(s.task), s.node)];
      TableOfThree(t, s);
    }
  }

  lemma TableOfThree(t: seq<Claimed<Text>>, s: Sample)
    requires s.task != EMPTY
    ensures Table(t + Tasks(s)) == Claim(Claim(Claim(Table(t), s.id, s.task), s.name, s.task), s.task, s.task)
  {
    var a, b, c := Claimed(s.id, s.task), Claimed(s.name, s.task), Claimed(s.task, s.task);
    TableMore(t, s.id, s.task);
    TableMore(t + [a], s.name, s.task);
    TableMore(t + [a] + [b], s.task, s.task);
    assert t + Tasks(s) == t + [a] + [b] + [c];
  }

  lemma StampedMore(before: seq<Sample>, a: Answer, i: nat, s: Sample)
    requires a.samples.Some? && i < |a.samples.value|
    requires var r := a.samples.value[i];
             r.id != EMPTY && r.name != EMPTY && s == Sample(r.id, r.name, r.task, r.stats, a.node, a.hostname)
    ensures before + Stamped(a, i) + [s] == before + Stamped(a, i + 1)
  {
  }

  /** The claims of one sample: a standalone container's owner and name, or a
      swarm task's. */
  method ClaimSample(t: Round, s: Sample) returns (t': Round)
    ensures t' == WithSample(t, s)
  {
    var reporters := Claim(t.reporters, Container(s.id), s.node);
    var owners, names, tasks := t.owners, t.names, t.tasks;
    if s.task != EMPTY {
      reporters := Claim(reporters, Task(s.task), s.node);
      tasks := Claim(tasks, s.id, s.task);
      tasks := Claim(tasks, s.name, s.task);
      tasks := Claim(tasks, s.task, s.task);
    } else {
      owners := Claim(owners, s.id, s.node);
      names := Claim(names, s.name, s.node);
    }
    t' := Round(owners, names, tasks, reporters);
  }

  /** The part of a round under the mutex: one agent's answer. */
  method MergeAnswer(before: seq<Sample>, t: Round, a: Answer) returns (samples: seq<Sample>, t': Round)
    requires t == Tables(before) && a.samples.Some?
    ensures samples == before + FromAnswer(a) && t' == Tables(samples)
  {
    samples, t' := before, t;
    var reported := a.samples.value;
    for i := 0 to |reported|
      invariant samples == before + Stamped(a, i) && t' == Tables(samples)
    {
      var r := reported[i];
      if r.id == EMPTY || r.name == EMPTY {
        continue;
      }
      var s := Sample(r.id, r.name, r.task, r.stats, a.node, a.hostname);
      TablesMore(samples, s);
      StampedMore(before, a, i, s);
      samples := samples + [s];
      t' := ClaimSample(t', s);
    }
  }

  function Reporting(answers: seq<Answer>): multiset<Text> {
    Union(answers, (a: Answer) => if a.samples.Some? then multiset{a.hostname} else multiset{})
  }

  /** The answers in the order they happen to arrive. */
  method MergeAnswers(answers: seq<Answer>) returns (samples: seq<Sample>, t: Round, reporting: multiset<Text>)
    ensures samples == Collected(answers) && t == Tables(samples) && reporting == Reporting(answers)
  {
    samples, t, reporting := [], Round(map[], map[], map[], map[]), multiset{};
    for i := 0 to |answers|
      invariant samples == Collected(answers[..i]) && t == Tables(samples) && reporting == Reporting(answers[..i])
    {
      var a := answers[i];
      assert answers[..i + 1][..i] == answers[..i];
      if a.samples.None? {
        continue;
      }
      reporting := reporting + multiset{a.hostname};
      samples, t := MergeAnswer(samples, t, a);
    }
    assert answers[..|answers|] == answers;
  }

  /** The tables of the pool that a round replaces. The sorted list of
      reporting hosts is kept as a multiset. */
  class StatsTables {
    var owners: map<Text, Option<Text>>
    var names: map<Text, Option<Text>>
    var tasks: map<Text, Option<Text>>
    var placements: map<Text, Text>
    var reporting: multiset<Text>

    constructor ()
      ensures owners == names == tasks == map[] && placements == map[] && reporting == multiset{}
    {
      owners, names, tasks, placements, reporting := map[], map[], map[], map[], multiset{};
    }

    method Samples(answers: seq<Answer>) returns (samples: seq<Sample>)
      modifies this
      ensures var all := Collected(answers);
              var t := Tables(all);
              samples == Survivors(all, t.reporters)
              && owners == t.owners && names == t.names && tasks == t.tasks
              && placements == (map k | k in old(placements) && k in t.tasks :: old(placements)[k])
              && reporting == Reporting(answers)
    {
      if |answers| == 0 {
        owners, names, tasks, placements, reporting := map[], map[], map[], map[], multiset{};
        return [];
      }
      var all, t, hosts := MergeAnswers(answers);
      samples := Survivors(all, t.reporters);
      owners, names, tasks := t.owners, t.names, t.tasks;
      placements := map k | k in placements && k in tasks :: placements[k];
      reporting := hosts;
    }
  }

  // --------------------------------------------------------- what a round is

  /** No other node reported the sample's container or task. */
  ghost predicate OnlyNode(all: seq<Sample>, s: Sample) {
    forall r :: r in all ==> (r.id == s.id || (s.task != EMPTY && r.task == s.task)) ==> r.node == s.node
  }

  lemma {:induction false} SurvivorsMembers(all: seq<Sample>, reporters: map<Reporter, Option<Text>>, s: Sample)
    ensures s in Survivors(all, reporters) <==> s in all && !ReportedByOthers(reporters, s)
  {
    if all != [] {
      SurvivorsMembers(all[..|all| - 1], reporters, s);
      assert all == all[..|all| - 1] + [Last(all)];
    }
  }

  lemma ReporterOf(all: seq<Sample>, key: Reporter, node: Text)
    ensures Claimed(key, node) in Claims(all, Reporters) <==>
            exists s :: s in all && s.node == node && (key == Container(s.id) || (s.task != EMPTY && key == Task(s.task)))
  {
    ClaimsMembers(all, Reporters, Claimed(key, node));
    forall s
      ensures Claimed(key, node) in Reporters(s) <==>
              s.node == node && (key == Container(s.id) || (s.task != EMPTY && key == Task(s.task)))
    {
      var container, task := Claimed(Container(s.id), s.node), Claimed(Task(s.task), s.node);
      assert Claimed(key, node) in Reporters(s) <==>
             (Claimed(key, node) == container || (s.task != EMPTY && Claimed(key, node) == task));
    }
  }

  lemma ContainerAgreed(all: seq<Sample>, s: Sample)
    requires s in all
    ensures Agreed(Claims(all, Reporters), Container(s.id), s.node) <==> forall r :: r in all && r.id == s.id ==> r.node == s.node
  {
    var cs, key := Claims(all, Reporters), Container(s.id);
    forall r | r in all && r.id == s.id
      ensures Claimed(key, r.node) in cs
    {
      ReporterOf(all, key, r.node);
    }
    forall v | Claimed(key, v) in cs
      ensures exists r :: r in all && r.id == s.id && r.node == v
    {
      ReporterOf(all, key, v);
    }
  }

  lemma TaskAgreed(all: seq<Sample>, s: Sample)
    requires s in all && s.task != EMPTY
    ensures Agreed(Claims(all, Reporters), Task(s.task), s.node) <==> forall r :: r in all && r.task == s.task ==> r.node == s.node
  {
    var cs, key := Claims(all, Reporters), Task(s.task);
    forall r | r in all && r.task == s.task
      ensures Claimed(key, r.node) in cs
    {
      ReporterOf(all, key, r.node);
    }
    forall v | Claimed(key, v) in cs
      ensures exists r :: r in all && r.task == s.task && r.node == v
    {
      ReporterOf(all, key, v);
    }
  }

  lemma AgreedIsListed(cs: seq<Claimed<Reporter>>, key: Reporter, node: Text)
    requires Claimed(key, node) in cs
    ensures key in Table(cs) && (Table(cs)[key] != None <==> Agreed(cs, key, node))
  {
    TableIsAgreement(cs, key, node);
    if Table(cs)[key].Some? {
      TableIsAgreement(cs, key, Table(cs)[key].value);
    }
  }

  /** A sample survives exactly when its container and its task are reported
      by its own node only. */
  lemma SurvivesExactly(all: seq<Sample>, s: Sample)
    ensures s in Survivors(all, Tables(all).reporters) <==> s in all && OnlyNode(all, s)
  {
    var cs := Claims(all, Reporters);
    SurvivorsMembers(all, Table(cs), s);
    if s in all {
      ReporterOf(all, Container(s.id), s.node);
      AgreedIsListed(cs, Container(s.id), s.node);
      ContainerAgreed(all, s);
      if s.task != EMPTY {
        ReporterOf(all, Task(s.task), s.node);
        AgreedIsListed(cs, Task(s.task), s.node);
        TaskAgreed(all, s);
      }
    }
  }

  /** The container is sampled as a standalone one, on that node only. */
  ghost predicate OwnedBy(all: seq<Sample>, id: Text, node: Text) {
    (exists s :: s in all && s.task == EMPTY && s.id == id)
    && forall s :: s in all && s.task == EMPTY && s.id == id ==> s.node == node
  }

  /** A standalone container has an owner exactly when the samples of it as a
      standalone container all name that node. */
  lemma OwnerIsAgreed(all: seq<Sample>, id: Text, node: Text)
    ensures id in Tables(all).owners && Tables(all).owners[id] == Some(node) <==> OwnedBy(all, id, node)
  {
    var cs := Claims(all, Owners);
    TableIsAgreement(cs, id, node);
    forall s | s in all && s.task == EMPTY && s.id == id
      ensures Claimed(id, s.node) in cs
    {
      ClaimsMembers(all, Owners, Claimed(id, s.node));
      assert Claimed(id, s.node) in Owners(s);
    }
    forall v | Claimed(id, v) in cs
      ensures exists s :: s in all && s.task == EMPTY && s.id == id && s.node == v
    {
      ClaimsMembers(all, Owners, Claimed(id, v));
    }
  }

  /** Some standalone container has the name, and all of that name are on the node. */
  ghost predicate NameOn(all: seq<Sample>, name: Text, node: Text) {
    (exists s :: s in all && s.task == EMPTY && s.name == name)
    && forall s :: s in all && s.task == EMPTY && s.name == name ==> s.node == node
  }

  /** A name leads to a node exactly when the standalone containers of that name
      are all on that node. */
  lemma NameIsAgreed(all: seq<Sample>, name: Text, node: Text)
    ensures name in Tables(all).names && Tables(all).names[name] == Some(node) <==> NameOn(all, name, node)
  {
    var cs := Claims(all, Names);
    TableIsAgreement(cs, name, node);
    forall s | s in all && s.task == EMPTY && s.name == name
      ensures Claimed(name, s.node) in cs
    {
      ClaimsMembers(all, Names, Claimed(name, s.node));
      assert Claimed(name, s.node) in Names(s);
    }
    forall v | Claimed(name, v) in cs
      ensures exists s :: s in all && s.task == EMPTY && s.name == name && s.node == v
    {
      ClaimsMembers(all, Names, Claimed(name, v));
    }
  }

  /** The key stands for the swarm sample: it is its container's ID or name, or its
      task's ID. */
  predicate StandsFor(key: Text, s: Sample) {
    s.task != EMPTY && (key == s.id || key == s.name || key == s.task)
  }

  ghost predicate TaskOf(all: seq<Sample>, key: Text, task: Text) {
    (exists s :: s in all && StandsFor(key, s)) && forall s :: s in all && StandsFor(key, s) ==> s.task == task
  }

  lemma TaskClaimed(all: seq<Sample>, key: Text, task: Text)
    ensures Claimed(key, task) in Claims(all, Tasks) <==> exists s :: s in all && StandsFor(key, s) && s.task == task
  {
    ClaimsMembers(all, Tasks, Claimed(key, task));
    forall s ensures Claimed(key, task) in Tasks(s) <==> StandsFor(key, s) && s.task == task {
      var a, b, c := Claimed(s.id, s.task), Claimed(s.name, s.task), Claimed(s.task, s.task);
      assert s.task != EMPTY ==> (Claimed(key, task) in Tasks(s) <==> Claimed(key, task) in [a, b, c]);
    }
  }

  /** A key leads to a task exactly when all swarm samples it stands for run that
      task; it is listed, and with it any placement, exactly when it stands for
      some swarm sample. */
  lemma TaskIsAgreed(all: seq<Sample>, key: Text, task: Text)
    ensures key in Tables(all).tasks && Tables(all).tasks[key] == Some(task) <==> TaskOf(all, key, task)
    ensures key in Tables(all).tasks <==> exists s :: s in all && StandsFor(key, s)
  {
    var cs := Claims(all, Tasks);
    TableIsAgreement(cs, key, task);
    forall s | s in all && StandsFor(key, s) ensures Claimed(key, s.task) in cs {
      TaskClaimed(all, key, s.task);
    }
    forall v | Claimed(key, v) in cs ensures exists s :: s in all && StandsFor(key, s) && s.task == v {
      TaskClaimed(all, key, v);
    }
  }

  /** The sample is what an agent reported, with the node and the host the agent
      was found on. */
  ghost predicate ReportedBy(s: Sample, a: Answer, r: Reported) {
    && a.samples.Some? && r in a.samples.value && r.id != EMPTY && r.name != EMPTY
    && s.id == r.id && s.name == r.name && s.task == r.task && s.stats == r.stats
    && s.node == a.node && s.hostname == a.hostname
  }

  lemma {:induction false} StampedMembers(a: Answer, n: nat, s: Sample)
    requires a.samples.Some? && n <= |a.samples.value|
    ensures s in Stamped(a, n) <==> exists i :: 0 <= i < n && ReportedBy(s, a, a.samples.value[i])
  {
    if n > 0 {
      StampedMembers(a, n - 1, s);
      var r := a.samples.value[n - 1];
      assert r in a.samples.value;
    }
  }

  lemma FromAnswerMembers(a: Answer, s: Sample)
    ensures s in FromAnswer(a) <==> exists r :: ReportedBy(s, a, r)
  {
    if a.samples.Some? {
      StampedMembers(a, |a.samples.value|, s);
      if r :| ReportedBy(s, a, r) {
        var i :| 0 <= i < |a.samples.value| && a.samples.value[i] == r;
        assert ReportedBy(s, a, a.samples.value[i]);
      }
    }
  }

  /** A round has exactly the samples with an ID and a name that the agents that
      answered reported. */
  lemma {:induction false} CollectedExactly(answers: seq<Answer>, s: Sample)
    ensures s in Collected(answers) <==> exists a, r :: a in answers && ReportedBy(s, a, r)
  {
    if answers != [] {
      var init, last := answers[..|answers| - 1], Last(answers);
      assert answers == init + [last];
      CollectedExactly(init, s);
      FromAnswerMembers(last, s);
    }
  }

  /** The hosts listed are those of the agents that answered. */
  lemma {:induction false} ReportingExactly(answers: seq<Answer>, host: Text)
    ensures host in Reporting(answers) <==> exists a :: a in answers && a.samples.Some? && a.hostname == host
  {
    if answers != [] {
      var init, last := answers[..|answers| - 1], Last(answers);
      assert answers == init + [last];
      ReportingExactly(init, host);
      assert Reporting(answers) == Reporting(init) + if last.samples.Some? then multiset{last.hostname} else multiset{};
    }
  }

  // -------------------------------------------------------- any arrival order

  lemma {:induction false} CollectedUnion(answers: seq<Answer>, f: Answer -> multiset<Sample>)
    requires forall a :: f(a) == multiset(FromAnswer(a))
    ensures multiset(Collected(answers)) == Union(answers, f)
  {
    if answers != [] {
      CollectedUnion(answers[..|answers| - 1], f);
    }
  }

  lemma {:induction false} SurvivorsUnion(all: seq<Sample>, reporters: map<Reporter, Option<Text>>, f: Sample -> multiset<Sample>)
    requires forall s :: f(s) == if ReportedByOthers(reporters, s) then multiset{} else multiset{s}
    ensures multiset(Survivors(all, reporters)) == Union(all, f)
  {
    if all != [] {
      SurvivorsUnion(all[..|all| - 1], reporters, f);
    }
  }

  lemma SameTable<K(!new)>(a: seq<Sample>, b: seq<Sample>, f: Sample -> seq<Claimed<K>>)
    requires forall s :: s in a <==> s in b
    ensures Table(Claims(a, f)) == Table(Claims(b, f))
  {
    forall c
      ensures c in Claims(a, f) <==> c in Claims(b, f)
    {
      ClaimsMembers(a, f, c);
      ClaimsMembers(b, f, c);
    }
    SameClaims(Claims(a, f), Claims(b, f));
  }

  /** Whatever order the answers arrive in, the tables and the reporting hosts
      are the same, and so are the surviving samples up to their order. */
  lemma AnyOrder(a: seq<Answer>, b: seq<Answer>)
    requires multiset(a) == multiset(b)
    ensures Tables(Collected(a)) == Tables(Collected(b))
    ensures Reporting(a) == Reporting(b)
    ensures multiset(Survivors(Collected(a), Tables(Collected(a)).reporters))
            == multiset(Survivors(Collected(b), Tables(Collected(b)).reporters))
  {
    var x, y := Collected(a), Collected(b);
    var f := (w: Answer) => multiset(FromAnswer(w));
    CollectedUnion(a, f);
    CollectedUnion(b, f);
    UnionOfReordered(a, b, f);
    assert forall s :: s in x <==> s in multiset(x);
    assert forall s :: s in y <==> s in multiset(y);
    SameTable(x, y, Owners);
    SameTable(x, y, Names);
    SameTable(x, y, Tasks);
    SameTable(x, y, Reporters);
    UnionOfReordered(a, b, (w: Answer) => if w.samples.Some? then multiset{w.hostname} else multiset{});
    var reporters := Tables(x).reporters;
    var g := (s: Sample) => if ReportedByOthers(reporters, s) then multiset{} else multiset{s};
    SurvivorsUnion(x, reporters, g);
    SurvivorsUnion(y, reporters, g);
    UnionOfReordered(x, y, g);
  }
}
