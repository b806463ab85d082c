/**
 * The game field of Field.py: the agents and obstacles of one generation,
 * obstacle entry by pairs of clicks, the simulation loop that updates every
 * agent until all are dead or time is up, the fitness of each agent, the
 * selection of the fittest, and the breeding of the next generation.
 */
module Fields {
  import opened Common
  import opened Nets
  import opened Sensing
  import opened Agents

  // ---------------------------------------------------------------------------
  // Obstacles from clicks

  /** Python's min(a, b): the first argument unless the second is smaller. */
  function Min(a: real, b: real): real {
    if b < a then b else a
  }

  /** Python's max(a, b): the first argument unless the second is larger. */
  function Max(a: real, b: real): real {
    if b > a then b else a
  }

  /** The obstacle two clicks describe: the smaller coordinates form the first corner, the larger the second. */
  function Normalized(p1: Point, p2: Point): Collidable {
    Collidable(Point(Min(p1.x, p2.x), Min(p1.y, p2.y)), Point(Max(p1.x, p2.x), Max(p1.y, p2.y)))
  }

  /** v lies strictly between a and b, in either order. */
  predicate Between(v: real, a: real, b: real) {
    a < v < b || b < v < a
  }

  /**
   * Whichever two opposite corners are clicked, and in whichever order, the
   * obstacle has its corners ordered and holds exactly the points strictly
   * between the clicks on both axes.
   */
  lemma NormalizedInside(p1: Point, p2: Point, x: real, y: real)
    ensures var c := Normalized(p1, p2); c.p1.x <= c.p2.x && c.p1.y <= c.p2.y
    ensures Inside(x, y, Normalized(p1, p2)) <==> Between(x, p1.x, p2.x) && Between(y, p1.y, p2.y)
  {
  }

  /** The n obstacles read from the clicks, two clicks each, in order. */
  function Rectangles(clicks: seq<Point>, n: nat): (rs: seq<Collidable>)
    requires 2 * n <= |clicks|
    ensures |rs| == n
  {
    if n == 0 then [] else [Normalized(clicks[0], clicks[1])] + Rectangles(clicks[2..], n - 1)
  }

  /** Obstacle i is made of clicks 2i and 2i + 1. */
  lemma {:induction false} RectanglesAt(clicks: seq<Point>, n: nat, i: nat)
    requires 2 * n <= |clicks| && i < n
    ensures Rectangles(clicks, n)[i] == Normalized(clicks[2 * i], clicks[2 * i + 1])
    decreases n
  {
    if i > 0 {
      RectanglesAt(clicks[2..], n - 1, i - 1);
      assert clicks[2..][2 * (i - 1)] == clicks[2 * i];
      assert clicks[2..][2 * (i - 1) + 1] == clicks[2 * i + 1];
    }
  }

  // ---------------------------------------------------------------------------
  // Fitness and selection

  /** An agent paired with its fitness. */
  type Scored = (Agent, real)

  /** The penalty a dead agent's fitness carries: 1000 * True in the source. */
  const DeathPenalty: real := 1000.0

  /** An agent's fitness (lower is better): its distance to the goal, plus the death penalty. */
  function Fitness(k: Kinematics, goal: Point, m: Maths): real {
    Distance(k.position, goal, m) + (if k.dead then DeathPenalty else 0.0)
  }

  /**
   * A living agent closer than 1000 to the goal always ranks before a dead
   * one, and the penalty is exactly what separates a dead agent from a
   * living one at the same place.
   */
  lemma FitnessRanksDeadLast(a: Kinematics, b: Kinematics, goal: Point, m: Maths)
    requires SqrtNonNegative(m) && a.dead && !b.dead
    ensures Distance(b.position, goal, m) < DeathPenalty ==> Fitness(b, goal, m) < Fitness(a, goal, m)
    ensures a.position == b.position ==> Fitness(a, goal, m) == Fitness(b, goal, m) + DeathPenalty
  {
    DistanceNonNegative(a.position, goal, m);
  }

  /** Scores ordered by fitness, ascending. */
  ghost predicate SortedByFitness(s: seq<Scored>) {
    forall i, j :: 0 <= i < j < |s| ==> s[i].1 <= s[j].1
  }

  /** The scores of s whose fitness is v, in their order in s. */
  function WithFitness(s: seq<Scored>, v: real): seq<Scored> {
    if s == [] then [] else (if s[0].1 == v then [s[0]] else []) + WithFitness(s[1..], v)
  }

  /** x placed in s after every score that is not larger than its own. */
  function Insert(x: Scored, s: seq<Scored>): seq<Scored> {
    if s == [] then [x]
    else if x.1 < s[0].1 then [x] + s
    else [s[0]] + Insert(x, s[1..])
  }

  /**
   * list.sort with the fitness as key: a stable sort, here written as an
   * insertion sort that keeps equal keys in their original order.
   */
  function SortByFitness(s: seq<Scored>): seq<Scored>
    decreases |s|
  {
    if s == [] then [] else Insert(s[|s| - 1], SortByFitness(s[..|s| - 1]))
  }

  /** Inserting x keeps every score and adds x once. */
  lemma {:induction false} InsertPermutes(x: Scored, s: seq<Scored>)
    ensures multiset(Insert(x, s)) == multiset(s) + multiset{x}
    ensures |Insert(x, s)| == |s| + 1
    decreases |s|
  {
    if s != [] && x.1 >= s[0].1 {
      InsertPermutes(x, s[1..]);
      assert s == [s[0]] + s[1..];
    }
  }

  /** A bound below every score of s and below x stays below every score after inserting x. */
  lemma {:induction false} InsertBounded(x: Scored, s: seq<Scored>, b: real)
    requires forall k :: 0 <= k < |s| ==> b <= s[k].1
    requires b <= x.1
    ensures forall k :: 0 <= k < |Insert(x, s)| ==> b <= Insert(x, s)[k].1
    decreases |s|
  {
    if s != [] && x.1 >= s[0].1 {
      InsertBounded(x, s[1..], b);
    }
  }

  /** Inserting into a sorted list keeps it sorted. */
  lemma {:induction false} InsertSorted(x: Scored, s: seq<Scored>)
    requires SortedByFitness(s)
    ensures SortedByFitness(Insert(x, s))
    decreases |s|
  {
    if s != [] && x.1 >= s[0].1 {
      InsertSorted(x, s[1..]);
      InsertBounded(x, s[1..], s[0].1);
    }
  }

  /** Scores all larger than v contribute nothing with fitness v. */
  lemma {:induction false} WithFitnessNone(s: seq<Scored>, v: real)
    requires forall k :: 0 <= k < |s| ==> v < s[k].1
    ensures WithFitness(s, v) == []
    decreases |s|
  {
    if s != [] {
      WithFitnessNone(s[1..], v);
    }
  }

  lemma {:induction false} WithFitnessAppend(a: seq<Scored>, b: seq<Scored>, v: real)
    ensures WithFitness(a + b, v) == WithFitness(a, v) + WithFitness(b, v)
    decreases |a|
  {
    if a == [] {
      assert a + b == b;
    } else {
      WithFitnessAppend(a[1..], b, v);
      var h := if a[0].1 == v then [a[0]] else [];
      assert (a + b)[0] == a[0];
      assert (a + b)[1..] == a[1..] + b;
      assert WithFitness(a + b, v) == h + WithFitness(a[1..] + b, v);
      assert h + (WithFitness(a[1..], v) + WithFitness(b, v)) == (h + WithFitness(a[1..], v)) + WithFitness(b, v);
    }
  }

  /** Inserting into a sorted list puts x after every score with the same fitness. */
  lemma {:induction false} InsertStable(x: Scored, s: seq<Scored>, v: real)
    requires SortedByFitness(s)
    ensures WithFitness(Insert(x, s), v) == WithFitness(s, v) + (if x.1 == v then [x] else [])
    decreases |s|
  {
    if s == [] {
    } else if x.1 < s[0].1 {
      if x.1 == v {
        WithFitnessNone(s, v);
      }
      WithFitnessAppend([x], s, v);
    } else {
      InsertStable(x, s[1..], v);
      WithFitnessAppend([s[0]], Insert(x, s[1..]), v);
      WithFitnessAppend([s[0]], s[1..], v);
      assert [s[0]] + s[1..] == s;
    }
  }

  /**
   * The sort orders the scores by fitness, keeps every score exactly once,
   * and keeps scores of equal fitness in their original order.
   */
  lemma {:induction false} SortByFitnessCorrect(s: seq<Scored>)
    ensures SortedByFitness(SortByFitness(s))
    ensures multiset(SortByFitness(s)) == multiset(s)
    ensures |SortByFitness(s)| == |s|
    ensures forall v :: WithFitness(SortByFitness(s), v) == WithFitness(s, v)
    decreases |s|
  {
    if s != [] {
      var init, last := s[..|s| - 1], s[|s| - 1];
      SortByFitnessCorrect(init);
      InsertSorted(last, SortByFitness(init));
      InsertPermutes(last, SortByFitness(init));
      assert s == init + [last];
      forall v
        ensures WithFitness(SortByFitness(s), v) == WithFitness(s, v)
      {
        InsertStable(last, SortByFitness(init), v);
        WithFitnessAppend(init, [last], v);
      }
    }
  }

  // ---------------------------------------------------------------------------
  // Breeding

  /** Candidate t of breed's list sits in round t / (m + 1) at place t % (m + 1), counted without division. */
  function Slot(t: nat, m: nat): (s: (nat, nat))
    ensures s.1 <= m
    decreases t
  {
    if t <= m then (0, t) else var s := Slot(t - (m + 1), m); (s.0 + 1, s.1)
  }

  /**
   * The parents of candidate t among m selected agents: round p pairs agent
   * p with each agent q in turn, and its last candidate pairs p with itself.
   */
  function Parents(t: nat, m: nat): (pq: (nat, nat)) {
    var s := Slot(t, m);
    (s.0, if s.1 < m then s.1 else s.0)
  }

  /** The index of the first candidate of round p: p rounds of m + 1 candidates each. */
  function Start(p: nat, m: nat): nat {
    if p == 0 then 0 else Start(p - 1, m) + m + 1
  }

  /** p rounds of m + 1 candidates: p * m + p of them. */
  lemma {:induction false} StartProduct(p: nat, m: nat)
    ensures Start(p, m) == p * m + p
  {
    if p > 0 {
      StartProduct(p - 1, m);
      assert p * m == (p - 1) * m + m;
    }
  }

  /** Later rounds start later. */
  lemma {:induction false} StartGrows(p: nat, k: nat, m: nat)
    requires p <= k
    ensures Start(p, m) <= Start(k, m)
    decreases k
  {
    if p < k {
      StartGrows(p, k - 1, m);
    }
  }

  /** Round p, place r is candidate Start(p, m) + r. */
  lemma {:induction false} SlotOf(p: nat, r: nat, m: nat)
    requires r <= m
    ensures Slot(Start(p, m) + r, m) == (p, r)
    decreases p
  {
    if p > 0 {
      SlotOf(p - 1, r, m);
    }
  }

  /** Candidate Start(p, m) + q is the child of p and q for q < m, and of p with itself for q == m. */
  lemma ParentsOf(p: nat, q: nat, m: nat)
    requires q <= m
    ensures Parents(Start(p, m) + q, m) == (p, if q < m then q else p)
  {
    SlotOf(p, q, m);
  }

  /** A candidate before round k lies in an earlier round. */
  lemma {:induction false} SlotRound(t: nat, m: nat, k: nat)
    requires t < Start(k, m)
    ensures Slot(t, m).0 < k
    decreases t
  {
    if t > m {
      SlotRound(t - (m + 1), m, k - 1);
    }
  }

  /** The candidates of the m rounds number m * m + m, and each has both parents among the m agents. */
  lemma CandidatesInRange(t: nat, m: nat)
    requires t < m * m + m
    ensures Parents(t, m).0 < m && Parents(t, m).1 < m
  {
    StartProduct(m, m);
    SlotRound(t, m, m);
  }

  /** The state every child of breed starts in. */
  const Newborn: Kinematics := Kinematics(Point(50.0, 50.0), 0.01, 0.01, 0.01, 0.01, false)

  /** A child shares its network's shape with its first parent, so it can be fed and read like it. */
  lemma MergedFed(W1: Weights, W2: Weights, count: int, draw: nat -> Mutation)
    requires Covers(W1, W2) && Dense(W1) && Fed(W1)
    ensures Fed(MergedWeights(W1, W2, count, draw))
  {
    ShapeFed(MergedWeights(W1, W2, count, draw), Crossed(W1, W2, count), W1);
  }

  /** A weight table shaped like one shaped like a fed table is fed too. */
  lemma ShapeFed(V: Weights, U: Weights, W: Weights)
    requires SameShape(V, U) && SameShape(U, W) && Fed(W)
    ensures Fed(V)
  {
    assert |V[0]| == |U[0]| == |W[0]|;
    assert |V[|V| - 1]| == |U[|U| - 1]| == |W[|W| - 1]|;
  }

  /** What breed reads of a selected agent: its network's weights and layer sizes. */
  datatype Genome = Genome(W: Weights, definition: seq<int>)

  ghost function Genomes(agents: seq<Scored>): (gs: seq<Genome>)
    reads set k | 0 <= k < |agents| :: agents[k].0.ai.net
    ensures |gs| == |agents|
    ensures forall k :: 0 <= k < |agents| ==> gs[k] == Genome(agents[k].0.ai.net.W, agents[k].0.ai.net.definition)
  {
    seq(|agents|, k requires 0 <= k < |agents| reads if 0 <= k < |agents| then {agents[k].0.ai.net} else {} =>
      Genome(agents[k].0.ai.net.W, agents[k].0.ai.net.definition))
  }

  /** Any two of the genomes can be merged, the first one's shape giving the child's. */
  ghost predicate Mergeable(gs: seq<Genome>) {
    && (forall p :: 0 <= p < |gs| ==> Dense(gs[p].W))
    && (forall p, q {:trigger Covers(gs[p].W, gs[q].W)} :: 0 <= p < |gs| && 0 <= q < |gs| ==> Covers(gs[p].W, gs[q].W))
  }

  /** The selected agents are well-formed and any two of their networks can be merged. */
  ghost predicate Breedable(agents: seq<Scored>)
    reads set k | 0 <= k < |agents| :: agents[k].0
    reads set k | 0 <= k < |agents| :: agents[k].0.ai
    reads set k | 0 <= k < |agents| :: agents[k].0.ai.net
    reads set k, n | 0 <= k < |agents| && n in agents[k].0.ai.net.Repr :: n
  {
    ParentsValid(agents) && Mergeable(Genomes(agents))
  }

  /**
   * One child of breed: a newborn agent driven by the merge of its parents'
   * networks, whose genomes are g1 and g2.
   */
  method Offspring(parent1: Agent, parent2: Agent, ghost g1: Genome, ghost g2: Genome,
                   uniform: (nat, nat, nat) -> real, draw: nat -> Mutation)
    returns (child: Agent)
    requires parent1.Valid() && parent2.Valid()
    requires parent1.ai.net.W == g1.W && parent1.ai.net.definition == g1.definition && parent2.ai.net.W == g2.W
    requires Covers(g1.W, g2.W) && Dense(g1.W)
    ensures fresh(child) && fresh(child.ai) && fresh(child.ai.net) && fresh(child.ai.net.Repr)
    ensures child.Valid() && child.State() == Newborn
    ensures child.ai.net.W == MergedWeights(g1.W, g2.W, Product(g1.definition), draw)
  {
    var net := Merge(parent1.ai.net, parent2.ai.net, 0.3, uniform, draw);
    MergedFed(g1.W, g2.W, Product(g1.definition), draw);
    child := new Agent(Point(50.0, 50.0), 0.01, 0.01, 0.01, 0.01, net);
  }

  /**
   * The network of candidate t of breed over the genomes gs: the merge of
   * its two parents' networks, the first parent's layer sizes giving the
   * split point, with the mutations drawn from draws(t).
   */
  ghost function Blend(gs: seq<Genome>, t: nat, draws: nat -> nat -> Mutation): Weights
    requires Mergeable(gs) && t < |gs| * |gs| + |gs|
  {
    CandidatesInRange(t, |gs|);
    var pq := Parents(t, |gs|);
    MergedWeights(gs[pq.0].W, gs[pq.1].W, Product(gs[pq.0].definition), draws(t))
  }

  /** Ws lists the networks of breed's first |Ws| candidates, in order. */
  ghost predicate Bred(Ws: seq<Weights>, gs: seq<Genome>, draws: nat -> nat -> Mutation) {
    && Mergeable(gs) && |Ws| <= |gs| * |gs| + |gs|
    && forall t {:trigger Blend(gs, t, draws)} :: 0 <= t < |Ws| ==> Ws[t] == Blend(gs, t, draws)
  }

  /** The networks of all m * m + m candidates. */
  lemma Brood(gs: seq<Genome>, draws: nat -> nat -> Mutation) returns (Ws: seq<Weights>)
    requires Mergeable(gs)
    ensures |Ws| == |gs| * |gs| + |gs| && Bred(Ws, gs, draws)
  {
    Ws := seq(|gs| * |gs| + |gs|, t requires 0 <= t < |gs| * |gs| + |gs| => Blend(gs, t, draws));
  }

  /**
   * child is a well-formed newborn agent whose network has the weights of
   * candidate first + i.
   */
  ghost predicate ChildOf(child: Agent, Ws: seq<Weights>, first: nat, i: nat)
    reads child, child.ai, child.ai.net, child.ai.net.Repr
  {
    && first + i < |Ws|
    && child.Valid() && child.State() == Newborn
    && child.ai.net.W == Ws[first + i]
  }

  /**
   * Children nothing has touched since they were made remain the same
   * candidates. The children, the candidate networks and the index of the
   * first child come as one triple.
   */
  twostate lemma ChildrenKept(batch: (seq<Agent>, seq<Weights>, nat))
    requires forall i :: 0 <= i < |batch.0| ==> old(ChildOf(batch.0[i], batch.1, batch.2, i))
    requires forall i :: 0 <= i < |batch.0| ==>
      && old(allocated(batch.0[i])) && unchanged(batch.0[i], batch.0[i].ai, batch.0[i].ai.net)
      && unchanged(old(batch.0[i].ai.net.Repr))
    ensures forall i {:trigger ChildOf(batch.0[i], batch.1, batch.2, i)} :: 0 <= i < |batch.0| ==> ChildOf(batch.0[i], batch.1, batch.2, i)
  {
  }

  /** Every selected agent is well-formed. */
  ghost predicate ParentsValid(agents: seq<Scored>)
    reads set k | 0 <= k < |agents| :: agents[k].0
    reads set k | 0 <= k < |agents| :: agents[k].0.ai
    reads set k | 0 <= k < |agents| :: agents[k].0.ai.net
    reads set k, n | 0 <= k < |agents| && n in agents[k].0.ai.net.Repr :: n
  {
    forall p {:trigger agents[p].0.Valid()} :: 0 <= p < |agents| ==> agents[p].0.Valid()
  }

  /** The objects the selected agents are made of: the agents, their controllers, networks and neurons. */
  ghost function Stock(agents: seq<Scored>): set<object>
    reads set k | 0 <= k < |agents| :: agents[k].0
    reads set k | 0 <= k < |agents| :: agents[k].0.ai
    reads set k | 0 <= k < |agents| :: agents[k].0.ai.net
  {
    (set k | 0 <= k < |agents| :: agents[k].0 as object)
    + (set k | 0 <= k < |agents| :: agents[k].0.ai as object)
    + (set k | 0 <= k < |agents| :: agents[k].0.ai.net as object)
    + (set k, n | 0 <= k < |agents| && n in agents[k].0.ai.net.Repr :: n as object)
  }

  /** Agent a, its controller, its network and the network's neurons all lie in F. */
  ghost predicate Within(a: Agent, F: set<object>)
    reads F
  {
    a in F && a.ai in F && a.ai.net in F && a.ai.net.Repr <= F
  }

  /**
   * The selected agents are made of objects in F, are well-formed and have
   * the genomes gs.
   */
  ghost predicate Parental(agents: seq<Scored>, gs: seq<Genome>, F: set<object>)
    reads F
  {
    && |agents| == |gs|
    && (forall k :: 0 <= k < |agents| ==> Within(agents[k].0, F))
    && (forall k {:trigger agents[k].0.Valid()} :: 0 <= k < |agents| ==> Within(agents[k].0, F) && agents[k].0.Valid())
    && (forall k :: 0 <= k < |agents| ==> agents[k].0.ai.net.W == gs[k].W && agents[k].0.ai.net.definition == gs[k].definition)
  }

  /** The selected agents, well-formed and with the genomes gs, are made of the objects in Stock. */
  lemma StockParental(agents: seq<Scored>, gs: seq<Genome>)
    requires ParentsValid(agents) && gs == Genomes(agents)
    ensures Parental(agents, gs, Stock(agents))
  {
    var F := Stock(agents);
    forall k | 0 <= k < |agents|
      ensures Within(agents[k].0, F)
    {
      assert agents[k].0.ai.net.Repr <= F;
    }
  }

  /**
   * Selected agents none of whose objects has changed remain well-formed,
   * with the same genomes. The agents, their genomes and their objects come
   * as one triple.
   */
  twostate lemma ParentsKept(selection: (seq<Scored>, seq<Genome>, set<object>))
    requires old(Parental(selection.0, selection.1, selection.2)) && unchanged(selection.2)
    ensures Parental(selection.0, selection.1, selection.2)
  {
  }

  /** Candidate first + i counted from first is candidate first + i counted from 0. */
  lemma ChildShift(child: Agent, Ws: seq<Weights>, first: nat, i: nat)
    requires ChildOf(child, Ws, first, i)
    ensures ChildOf(child, Ws, 0, first + i)
  {
  }

  /** Appending candidate first + |made| to candidates first, first + 1, ... continues the run. */
  lemma ChildrenAppend(made: seq<Agent>, child: Agent, Ws: seq<Weights>, first: nat)
    requires forall i {:trigger ChildOf(made[i], Ws, first, i)} :: 0 <= i < |made| ==> ChildOf(made[i], Ws, first, i)
    requires ChildOf(child, Ws, first, |made|)
    ensures forall i {:trigger ChildOf((made + [child])[i], Ws, first, i)} :: 0 <= i < |made| + 1 ==> ChildOf((made + [child])[i], Ws, first, i)
  {
    var more := made + [child];
    forall i | 0 <= i < |more|
      ensures ChildOf(more[i], Ws, first, i)
    {
      if i < |made| {
        assert more[i] == made[i];
      } else {
        assert more[i] == child;
      }
    }
  }

  /** Candidates 0 to |sofar| - 1 followed by candidates |sofar|, |sofar| + 1, ... are candidates 0, 1, ... */
  lemma ChildrenConcat(sofar: seq<Agent>, made: seq<Agent>, Ws: seq<Weights>)
    requires forall t {:trigger ChildOf(sofar[t], Ws, 0, t)} :: 0 <= t < |sofar| ==> ChildOf(sofar[t], Ws, 0, t)
    requires forall i {:trigger ChildOf(made[i], Ws, |sofar|, i)} :: 0 <= i < |made| ==> ChildOf(made[i], Ws, |sofar|, i)
    ensures forall t {:trigger ChildOf((sofar + made)[t], Ws, 0, t)} :: 0 <= t < |sofar| + |made| ==> ChildOf((sofar + made)[t], Ws, 0, t)
  {
    var all := sofar + made;
    forall t | 0 <= t < |all|
      ensures ChildOf(all[t], Ws, 0, t)
    {
      if t < |sofar| {
        assert all[t] == sofar[t];
      } else {
        assert all[t] == made[t - |sofar|];
        ChildShift(made[t - |sofar|], Ws, |sofar|, t - |sofar|);
      }
    }
  }

  /**
   * child is candidate t of breed over the genomes gs: a well-formed newborn
   * agent whose network is the merge of the parents of candidate t.
   */
  ghost predicate Candidate(child: Agent, gs: seq<Genome>, draws: nat -> nat -> Mutation, t: nat)
    reads child, child.ai, child.ai.net, child.ai.net.Repr
  {
    && Mergeable(gs) && t < |gs| * |gs| + |gs|
    && child.Valid() && child.State() == Newborn
    && child.ai.net.W == Blend(gs, t, draws)
  }

  /** A prefix of the children made for the listed networks are breed's first candidates. */
  lemma Candidates(all: seq<Agent>, result: seq<Agent>, Ws: seq<Weights>, gs: seq<Genome>, draws: nat -> nat -> Mutation)
    requires Bred(Ws, gs, draws) && result <= all && |all| <= |Ws|
    requires forall t {:trigger ChildOf(all[t], Ws, 0, t)} :: 0 <= t < |all| ==> ChildOf(all[t], Ws, 0, t)
    ensures forall t :: 0 <= t < |result| ==> Candidate(result[t], gs, draws, t)
  {
    forall t | 0 <= t < |result|
      ensures Candidate(result[t], gs, draws, t)
    {
      assert result[t] == all[t];
      assert ChildOf(all[t], Ws, 0, t);
      assert Ws[t] == Blend(gs, t, draws);
    }
  }

  /** No two agents of the list are the same agent or drive the same network. */
  predicate Distinct(agents: seq<Agent>) {
    forall s, t :: 0 <= s < t < |agents| ==> agents[s] != agents[t] && agents[s].ai.net != agents[t].ai.net
  }

  /** a is none of the agents in others and drives none of their networks. */
  predicate Apart(a: Agent, others: seq<Agent>) {
    forall j :: 0 <= j < |others| ==> others[j] != a && others[j].ai.net != a.ai.net
  }

  /**
   * child, its controller, its network and the network's neurons have all
   * been allocated since the old state.
   */
  twostate predicate Made(new child: Agent)
    reads child.ai.net
  {
    fresh(child) && fresh(child.ai) && fresh(child.ai.net) && fresh(child.ai.net.Repr)
  }

  /** A new agent with a new network is none of the agents allocated before it, and drives none of their networks. */
  twostate lemma NewApart(new child: Agent, others: seq<Agent>)
    requires fresh(child) && fresh(child.ai.net)
    ensures Apart(child, others)
  {
  }

  lemma DistinctAppend(agents: seq<Agent>, a: Agent)
    requires Distinct(agents) && Apart(a, agents)
    ensures Distinct(agents + [a])
  {
  }

  /** Two lists of agents, each without repeats, sharing no agent and no network, join into one without repeats. */
  lemma DistinctConcat(a: seq<Agent>, b: seq<Agent>)
    requires Distinct(a) && Distinct(b)
    requires forall j :: 0 <= j < |b| ==> Apart(b[j], a)
    ensures Distinct(a + b)
  {
  }

  /** Any two selected agents meet what Offspring needs of a pair of parents. */
  lemma ParentPair(agents: seq<Scored>, gs: seq<Genome>, F: set<object>, p: nat, q: nat)
    requires Parental(agents, gs, F) && Mergeable(gs) && p < |agents| && q < |agents|
    ensures agents[p].0.Valid() && agents[q].0.Valid()
    ensures agents[p].0.ai.net.W == gs[p].W && agents[p].0.ai.net.definition == gs[p].definition
    ensures agents[q].0.ai.net.W == gs[q].W
    ensures Covers(gs[p].W, gs[q].W) && Dense(gs[p].W)
  {
    assert Within(agents[p].0, F) && Within(agents[q].0, F);
  }

  /**
   * One step of breed's loops: the child of p and q, candidate first + |made|.
   * The child, its controller, network and neurons are new, so it shares
   * neither itself nor its network with the children in sofar and made.
   */
  method BreedStep(agents: seq<Scored>, ghost gs: seq<Genome>, ghost F: set<object>, ghost Ws: seq<Weights>,
                   p: nat, q: nat, first: nat, ghost sofar: seq<Agent>, made: seq<Agent>,
                   uniform: (nat, nat, nat) -> real, draws: nat -> nat -> Mutation)
    returns (child: Agent)
    requires Parental(agents, gs, F) && Mergeable(gs) && p < |agents| && q < |agents|
    requires Bred(Ws, gs, draws) && first + |made| < |Ws| && Parents(first + |made|, |gs|) == (p, q)
    ensures Parental(agents, gs, F)
    ensures Made(child) && Apart(child, sofar) && Apart(child, made)
    ensures ChildOf(child, Ws, first, |made|)
  {
    assert Ws[first + |made|] == Blend(gs, first + |made|, draws);
    ParentPair(agents, gs, F, p, q);
    label before:
    child := Offspring(agents[p].0, agents[q].0, gs[p], gs[q], uniform, draws(first + |made|));
    ParentsKept@before((agents, gs, F));
    NewApart@before(child, sofar);
    NewApart@before(child, made);
  }

  /**
   * One pass of breed's outer loop: the children of agent p with every
   * selected agent in order, then the child of p with itself; they are
   * candidates first, first + 1, and so on, all new, and none of them is
   * among the earlier children or shares a network with one.
   */
  method BreedRound(agents: seq<Scored>, ghost gs: seq<Genome>, ghost F: set<object>, ghost Ws: seq<Weights>,
                    p: nat, first: nat, ghost earlier: seq<Agent>,
                    uniform: (nat, nat, nat) -> real, draws: nat -> nat -> Mutation)
    returns (made: seq<Agent>)
    requires Parental(agents, gs, F) && Mergeable(gs) && |gs| == |agents|
    requires p < |agents| && first == Start(p, |agents|)
    requires Bred(Ws, gs, draws) && first + |agents| < |Ws|
    ensures Parental(agents, gs, F)
    ensures |made| == |agents| + 1 && Distinct(made)
    ensures forall i :: 0 <= i < |made| ==> Made(made[i]) && Apart(made[i], earlier)
    ensures forall i {:trigger ChildOf(made[i], Ws, first, i)} :: 0 <= i < |made| ==> ChildOf(made[i], Ws, first, i)
  {
    var m := |agents|;
    made := [];
    var q := 0;
    while q <= m
      invariant 0 <= q <= m + 1 && |made| == q && Distinct(made)
      invariant forall i :: 0 <= i < |made| ==> Made(made[i]) && Apart(made[i], earlier)
      invariant Parental(agents, gs, F)
      invariant forall i {:trigger ChildOf(made[i], Ws, first, i)} :: 0 <= i < |made| ==> ChildOf(made[i], Ws, first, i)
    {
      ParentsOf(p, q, m);
      label before:
      var child := BreedStep(agents, gs, F, Ws, p, if q < m then q else p, first, earlier, made, uniform, draws);
      ChildrenKept@before((made, Ws, first));
      DistinctAppend(made, child);
      ChildrenAppend(made, child, Ws, first);
      made := made + [child];
      q := q + 1;
    }
  }

  /**
   * One pass of breed's outer loop: the m + 1 new children of parent p
   * appended to those of the parents before it, each still the candidate of
   * its slot.
   */
  method BreedBatch(agents: seq<Scored>, ghost gs: seq<Genome>, ghost F: set<object>, ghost Ws: seq<Weights>,
                    p: nat, sofar: seq<Agent>, uniform: (nat, nat, nat) -> real, draws: nat -> nat -> Mutation)
    returns (more: seq<Agent>)
    requires Parental(agents, gs, F) && Mergeable(gs) && |gs| == |agents|
    requires p < |agents| && |sofar| == Start(p, |agents|) && Distinct(sofar)
    requires Bred(Ws, gs, draws) && |Ws| == |agents| * |agents| + |agents|
    requires forall t {:trigger ChildOf(sofar[t], Ws, 0, t)} :: 0 <= t < |sofar| ==> ChildOf(sofar[t], Ws, 0, t)
    ensures Parental(agents, gs, F)
    ensures |more| == Start(p + 1, |agents|) && Distinct(more)
    ensures forall t :: 0 <= t < |more| ==> if t < |sofar| then more[t] == sofar[t] else Made(more[t])
    ensures forall t {:trigger ChildOf(more[t], Ws, 0, t)} :: 0 <= t < |more| ==> ChildOf(more[t], Ws, 0, t)
  {
    var m := |agents|;
    StartGrows(p + 1, m, m);
    StartProduct(m, m);
    label before:
    var made := BreedRound(agents, gs, F, Ws, p, |sofar|, sofar, uniform, draws);
    ChildrenKept@before((sofar, Ws, 0));
    DistinctConcat(sofar, made);
    ChildrenConcat(sofar, made, Ws);
    more := sofar + made;
  }

  /**
   * breed: for each selected agent p in order, one child of p with every
   * selected agent q in order (p itself included), then one more child of p
   * with itself; the list is cut to max_amount. Child t is a new agent with
   * a new network: a newborn whose network is candidate t of the brood, the
   * merge of its parents with mutations drawn from draws(t).
   */
  method Breed(agents: seq<Scored>, maxAmount: int, uniform: (nat, nat, nat) -> real,
               draws: nat -> nat -> Mutation)
    returns (result: seq<Agent>)
    requires Breedable(agents)
    ensures |result| == SliceLength(|agents| * |agents| + |agents|, maxAmount)
    ensures forall t :: 0 <= t < |result| ==> Candidate(result[t], Genomes(agents), draws, t)
    ensures forall t :: 0 <= t < |result| ==> Made(result[t])
    ensures Distinct(result)
  {
    var m := |agents|;
    ghost var gs := Genomes(agents);
    ghost var F := Stock(agents);
    StockParental(agents, gs);
    ghost var Ws := Brood(gs, draws);
    StartProduct(m, m);
    result := [];
    var p := 0;
    while p < m
      invariant 0 <= p <= m && |result| == Start(p, m) && Distinct(result)
      invariant forall t :: 0 <= t < |result| ==> Made(result[t])
      invariant Parental(agents, gs, F)
      invariant forall t {:trigger ChildOf(result[t], Ws, 0, t)} :: 0 <= t < |result| ==> ChildOf(result[t], Ws, 0, t)
    {
      result := BreedBatch(agents, gs, F, Ws, p, result, uniform, draws);
      p := p + 1;
    }
    assert Genomes(agents) == gs;
    var all := result;
    result := SliceTo(result, maxAmount);
    Candidates(all, result, Ws, gs, draws);
  }

  // ---------------------------------------------------------------------------
  // The simulation as a function of the agents' states

  /** What update and the raycasts read besides the agent itself. */
  datatype Scene = Scene(obstacles: seq<Collidable>, goal: Point, width: real, height: real, maths: Maths)

  /** Every network has the shape update needs. */
  predicate Ready(ws: seq<Weights>) {
    forall j :: 0 <= j < |ws| ==> Fits(ws[j]) && Fed(ws[j])
  }

  /**
   * One agent's turn in start_simulation's inner loop: its state afterwards
   * and whether update raised. A dead agent is left alone; a living one with
   * speed_x == 0 raises before anything changes; any other is updated, and
   * raises if drawing the updated agent divides by zero. The raycasts taken
   * after a quiet update change nothing and cannot raise, since drawing
   * has already checked speed_x.
   */
  function Visit(k: Kinematics, W: Weights, s: Scene): (Kinematics, bool)
    requires Fits(W) && Fed(W) && ExpNonNegative(s.maths)
  {
    if k.dead then (k, false)
    else if k.speedX == 0.0 then (k, true)
    else
      var u := Updated(k, W, s.obstacles, s.goal, s.width, s.height, s.maths);
      (u, !Drawable(u))
  }

  /** What update promises about one agent is exactly one turn of the pass. */
  lemma VisitMatches(k: Kinematics, W: Weights, s: Scene, k': Kinematics, raised: bool)
    requires Fits(W) && Fed(W) && ExpNonNegative(s.maths)
    requires k.dead ==> !raised && k' == k
    requires !k.dead && k.speedX == 0.0 ==> raised && k' == k
    requires !k.dead && k.speedX != 0.0 ==>
      && k' == Updated(k, W, s.obstacles, s.goal, s.width, s.height, s.maths)
      && (raised <==> !Drawable(k'))
    ensures (k', raised) == Visit(k, W, s)
  {
  }

  /**
   * One pass of the inner loop over the agents in order: the states
   * afterwards and whether it raised. A raise ends the pass at the agent
   * that raised; the agents after it keep their states.
   */
  function Pass(ks: seq<Kinematics>, ws: seq<Weights>, s: Scene): (r: (seq<Kinematics>, bool))
    requires |ws| == |ks| && Ready(ws) && ExpNonNegative(s.maths)
    ensures |r.0| == |ks|
    decreases |ks|
  {
    if ks == [] then ([], false)
    else
      var v := Visit(ks[0], ws[0], s);
      if v.1 then ([v.0] + ks[1..], true)
      else
        var rest := Pass(ks[1..], ws[1..], s);
        ([v.0] + rest.0, rest.1)
  }

  /** The pass over the agents from index i on begins with the turn of agent i. */
  lemma PassFrom(ks: seq<Kinematics>, ws: seq<Weights>, s: Scene, i: nat)
    requires |ws| == |ks| && Ready(ws) && ExpNonNegative(s.maths) && i < |ks|
    ensures var v := Visit(ks[i], ws[i], s);
      Pass(ks[i..], ws[i..], s) == if v.1 then ([v.0] + ks[i + 1..], true)
        else ([v.0] + Pass(ks[i + 1..], ws[i + 1..], s).0, Pass(ks[i + 1..], ws[i + 1..], s).1)
  {
    assert ks[i..][1..] == ks[i + 1..] && ws[i..][1..] == ws[i + 1..];
  }

  /**
   * The turn of agent i that raises ends a pass: from states before, whose
   * agents from i on have not had their turn, to the states after it.
   */
  lemma PassEnds(before: seq<Kinematics>, after: seq<Kinematics>, ks: seq<Kinematics>, ws: seq<Weights>,
                 s: Scene, i: nat)
    requires |ws| == |ks| && Ready(ws) && ExpNonNegative(s.maths) && i < |ks| == |before|
    requires before[i..] == ks[i..] && Visit(ks[i], ws[i], s).1
    requires after == before[i := Visit(ks[i], ws[i], s).0]
    ensures before[..i] + Pass(ks[i..], ws[i..], s).0 == after && Pass(ks[i..], ws[i..], s).1
  {
    PassFrom(ks, ws, s, i);
    var v := Visit(ks[i], ws[i], s);
    UpdateSplit(before, i, v.0);
    assert before[i + 1..] == ks[i + 1..];
  }

  /** Replacing element i of s splices x in between the parts before and after it. */
  lemma UpdateSplit<T>(s: seq<T>, i: nat, x: T)
    requires i < |s|
    ensures s[i := x] == s[..i] + ([x] + s[i + 1..])
  {
  }

  /**
   * A quiet turn of agent i moves a pass on: from states before, whose
   * agents from i on have not had their turn, to states after, where
   * agent i has had it.
   */
  lemma PassGoesOn(before: seq<Kinematics>, after: seq<Kinematics>, ks: seq<Kinematics>, ws: seq<Weights>,
                   s: Scene, i: nat)
    requires |ws| == |ks| && Ready(ws) && ExpNonNegative(s.maths) && i < |ks| == |before|
    requires before[i..] == ks[i..] && !Visit(ks[i], ws[i], s).1
    requires after == before[i := Visit(ks[i], ws[i], s).0]
    ensures after[i + 1..] == ks[i + 1..]
    ensures before[..i] + Pass(ks[i..], ws[i..], s).0 == after[..i + 1] + Pass(ks[i + 1..], ws[i + 1..], s).0
    ensures Pass(ks[i..], ws[i..], s).1 == Pass(ks[i + 1..], ws[i + 1..], s).1
  {
    PassFrom(ks, ws, s, i);
    var v := Visit(ks[i], ws[i], s);
    var rest := Pass(ks[i + 1..], ws[i + 1..], s).0;
    assert after[..i + 1] == before[..i] + [v.0];
    assert after[i + 1..] == before[i + 1..] == ks[i + 1..];
    assert before[..i] + ([v.0] + rest) == before[..i] + [v.0] + rest;
  }

  /** A pass leaves dead agents exactly as they were. */
  lemma {:induction false} PassKeepsDead(ks: seq<Kinematics>, ws: seq<Weights>, s: Scene)
    requires |ws| == |ks| && Ready(ws) && ExpNonNegative(s.maths)
    ensures forall j :: 0 <= j < |ks| && ks[j].dead ==> Pass(ks, ws, s).0[j] == ks[j]
    decreases |ks|
  {
    if ks != [] && !Visit(ks[0], ws[0], s).1 {
      PassKeepsDead(ks[1..], ws[1..], s);
      assert forall j :: 0 < j < |ks| ==> Pass(ks, ws, s).0[j] == Pass(ks[1..], ws[1..], s).0[j - 1];
    }
  }

  /**
   * A pass that does not raise has updated every agent that was alive:
   * each had speed_x != 0, and afterwards has non-zero speed_x and
   * acceleration_x, the two values drawing divides by.
   */
  lemma {:induction false} PassQuiet(ks: seq<Kinematics>, ws: seq<Weights>, s: Scene)
    requires |ws| == |ks| && Ready(ws) && ExpNonNegative(s.maths)
    requires !Pass(ks, ws, s).1
    ensures forall j :: 0 <= j < |ks| && !ks[j].dead ==>
      && ks[j].speedX != 0.0
      && Pass(ks, ws, s).0[j] == Updated(ks[j], ws[j], s.obstacles, s.goal, s.width, s.height, s.maths)
      && Pass(ks, ws, s).0[j].speedX != 0.0 && Pass(ks, ws, s).0[j].accelerationX != 0.0
    decreases |ks|
  {
    if ks != [] {
      var rest := Pass(ks[1..], ws[1..], s);
      PassQuiet(ks[1..], ws[1..], s);
      assert forall j :: 0 < j < |ks| ==> Pass(ks, ws, s).0[j] == rest.0[j - 1] && ks[j] == ks[1..][j - 1];
    }
  }

  /**
   * A pass that raises stopped at the first agent n whose turn raises: the
   * agents before it and agent n itself have had their turns, and the
   * agents after it are untouched.
   */
  lemma {:induction false} PassRaised(ks: seq<Kinematics>, ws: seq<Weights>, s: Scene) returns (n: nat)
    requires |ws| == |ks| && Ready(ws) && ExpNonNegative(s.maths)
    requires Pass(ks, ws, s).1
    ensures n < |ks| && Visit(ks[n], ws[n], s).1
    ensures forall j :: 0 <= j < n ==> !Visit(ks[j], ws[j], s).1
    ensures forall j :: 0 <= j <= n ==> Pass(ks, ws, s).0[j] == Visit(ks[j], ws[j], s).0
    ensures forall j :: n < j < |ks| ==> Pass(ks, ws, s).0[j] == ks[j]
    decreases |ks|
  {
    if Visit(ks[0], ws[0], s).1 {
      n := 0;
      assert forall j :: 0 < j < |ks| ==> Pass(ks, ws, s).0[j] == ks[1..][j - 1];
    } else {
      var rest := Pass(ks[1..], ws[1..], s);
      var k := PassRaised(ks[1..], ws[1..], s);
      n := k + 1;
      assert forall j :: 0 < j < |ks| ==> Pass(ks, ws, s).0[j] == rest.0[j - 1] && ks[j] == ks[1..][j - 1] && ws[j] == ws[1..][j - 1];
    }
  }

  /** The number of dead agents among the states. */
  function DeadCount(ks: seq<Kinematics>): (n: nat)
    ensures n <= |ks|
  {
    if ks == [] then 0
    else DeadCount(ks[..|ks| - 1]) + (if ks[|ks| - 1].dead then 1 else 0)
  }

  /** The count reaches the number of agents exactly when every agent is dead. */
  lemma {:induction false} DeadCountAll(ks: seq<Kinematics>)
    ensures DeadCount(ks) == |ks| <==> forall i :: 0 <= i < |ks| ==> ks[i].dead
    decreases |ks|
  {
    if ks != [] {
      var init := ks[..|ks| - 1];
      DeadCountAll(init);
      assert forall i :: 0 <= i < |init| ==> init[i] == ks[i];
    }
  }

  /** If every agent dead in ks is dead in ks', the count cannot drop. */
  lemma {:induction false} DeadCountGrows(ks: seq<Kinematics>, ks': seq<Kinematics>)
    requires |ks| == |ks'|
    requires forall i :: 0 <= i < |ks| && ks[i].dead ==> ks'[i].dead
    ensures DeadCount(ks) <= DeadCount(ks')
    decreases |ks|
  {
    if ks != [] {
      DeadCountGrows(ks[..|ks| - 1], ks'[..|ks| - 1]);
    }
  }

  /**
   * start_simulation from states ks with counted agents found dead and
   * `done` of the `sweeps` passes the clock allows behind it: while the
   * count is below the number of agents and passes remain, one pass, then
   * a fresh count. The final states, the number of passes completed in
   * all, and whether a pass raised.
   */
  function Run(ks: seq<Kinematics>, ws: seq<Weights>, s: Scene, counted: nat, sweeps: nat, done: nat)
    : (r: (seq<Kinematics>, nat, bool))
    requires |ws| == |ks| && Ready(ws) && ExpNonNegative(s.maths) && done <= sweeps
    ensures |r.0| == |ks|
    decreases sweeps - done
  {
    if counted >= |ks| || done == sweeps then (ks, done, false)
    else
      var p := Pass(ks, ws, s);
      if p.1 then (p.0, done, true)
      else Run(p.0, ws, s, DeadCount(p.0), sweeps, done + 1)
  }

  /** A quiet pass moves the simulation on by one pass, with a fresh count. */
  lemma RunNext(ks: seq<Kinematics>, ws: seq<Weights>, s: Scene, counted: nat, sweeps: nat, done: nat, next: nat)
    requires |ws| == |ks| && Ready(ws) && ExpNonNegative(s.maths)
    requires counted < |ks| && done < sweeps && next == done + 1 && !Pass(ks, ws, s).1
    ensures var p := Pass(ks, ws, s).0;
      |p| == |ks| && Run(ks, ws, s, counted, sweeps, done) == Run(p, ws, s, DeadCount(p), sweeps, next)
  {
    assert next == done + 1;
  }

  /** A pass that raises ends the simulation with the passes completed before it. */
  lemma RunRaised(ks: seq<Kinematics>, ws: seq<Weights>, s: Scene, counted: nat, sweeps: nat, done: nat)
    requires |ws| == |ks| && Ready(ws) && ExpNonNegative(s.maths)
    requires counted < |ks| && done < sweeps && Pass(ks, ws, s).1
    ensures Run(ks, ws, s, counted, sweeps, done) == (Pass(ks, ws, s).0, done, true)
  {
  }

  /** Once every agent is counted dead or no time is left, the simulation is over. */
  lemma RunStop(ks: seq<Kinematics>, ws: seq<Weights>, s: Scene, counted: nat, sweeps: nat, done: nat)
    requires |ws| == |ks| && Ready(ws) && ExpNonNegative(s.maths) && done <= sweeps
    requires |ks| <= counted || done == sweeps
    ensures Run(ks, ws, s, counted, sweeps, done) == (ks, done, false)
  {
  }

  /**
   * The loop of start_simulation runs at most `sweeps` passes in all and,
   * unless a pass raised, stops only once every agent is dead or the
   * passes run out. The count it starts from is zero or the true count.
   */
  lemma {:induction false} RunEnds(ks: seq<Kinematics>, ws: seq<Weights>, s: Scene, counted: nat, sweeps: nat, done: nat)
    requires |ws| == |ks| && Ready(ws) && ExpNonNegative(s.maths) && done <= sweeps
    requires counted == 0 || counted == DeadCount(ks)
    ensures done <= Run(ks, ws, s, counted, sweeps, done).1 <= sweeps
    ensures !Run(ks, ws, s, counted, sweeps, done).2 ==>
      Run(ks, ws, s, counted, sweeps, done).1 == sweeps
      || forall j :: 0 <= j < |ks| ==> Run(ks, ws, s, counted, sweeps, done).0[j].dead
    decreases sweeps - done
  {
    if counted >= |ks| {
      DeadCountAll(ks);
    } else if done < sweeps {
      var p := Pass(ks, ws, s);
      if !p.1 {
        RunEnds(p.0, ws, s, DeadCount(p.0), sweeps, done + 1);
      }
    }
  }

  /** Dead agents stay exactly as they were for the whole simulation, and no agent comes back to life. */
  lemma {:induction false} RunKeepsDead(ks: seq<Kinematics>, ws: seq<Weights>, s: Scene, counted: nat, sweeps: nat, done: nat)
    requires |ws| == |ks| && Ready(ws) && ExpNonNegative(s.maths) && done <= sweeps
    ensures forall j :: 0 <= j < |ks| && ks[j].dead ==> Run(ks, ws, s, counted, sweeps, done).0[j] == ks[j]
    ensures DeadCount(ks) <= DeadCount(Run(ks, ws, s, counted, sweeps, done).0)
    decreases sweeps - done
  {
    var r := Run(ks, ws, s, counted, sweeps, done);
    if counted < |ks| && done < sweeps {
      var p := Pass(ks, ws, s);
      PassKeepsDead(ks, ws, s);
      if !p.1 {
        RunKeepsDead(p.0, ws, s, DeadCount(p.0), sweeps, done + 1);
      }
    }
    DeadCountGrows(ks, r.0);
  }

  // ---------------------------------------------------------------------------
  // The field

  /**
   * One agent's turn in start_simulation's inner loop: update, then, for
   * an agent still alive, the raycasts, whose result is dropped.
   */
  method TakeTurn(agent: Agent, s: Scene) returns (raised: bool)
    requires agent.Valid() && ExpNonNegative(s.maths)
    modifies agent, agent.ai.net.Repr`input
    ensures agent.Valid()
    ensures old(agent.dead) ==> !raised && agent.State() == old(agent.State())
    ensures !old(agent.dead) && old(agent.speedX) == 0.0 ==> raised && agent.State() == old(agent.State())
    ensures !old(agent.dead) && old(agent.speedX) != 0.0 ==>
      && agent.State() == Updated(old(agent.State()), agent.ai.net.W, s.obstacles, s.goal, s.width, s.height, s.maths)
      && (raised <==> !Drawable(agent.State()))
  {
    raised := agent.Update(s.obstacles, s.goal, s.width, s.height, s.maths);
    if !raised && !agent.dead {
      var _ := agent.CalculateRaycasts(s.obstacles, s.maths);
    }
  }

  /**
   * The frame of Field.Valid and Field.Genes: a field whose agent list,
   * controllers, networks and neuron weights and connections are untouched
   * stays well-formed and keeps its weights.
   */
  twostate lemma FieldKept(f: Field)
    requires old(f.Valid()) && unchanged(f)
    requires forall j :: 0 <= j < |f.agents| ==> unchanged(f.agents[j].ai, f.agents[j].ai.net)
    requires forall n | n in f.Neurons :: unchanged(n`weights, n`connected)
    ensures f.Valid() && f.Genes() == old(f.Genes())
  {
  }

  class Field {
    var agents: seq<Agent>
    var collidables: seq<Collidable>
    const goal: Point
    /** The window's size, which bounds where agents may move. */
    const width: real
    const height: real
    /** Every neuron of every agent's network. */
    ghost var Neurons: set<Neuron>

    /** The agents are distinct and well-formed, and their neurons are all accounted for. */
    ghost predicate Valid()
      reads this, set a | a in agents :: a.ai, set a | a in agents :: a.ai.net
      reads Neurons`weights, Neurons`connected
    {
      && (forall i, j :: 0 <= i < j < |agents| ==> agents[i] != agents[j])
      && (forall i :: 0 <= i < |agents| ==> agents[i].ai.net.Repr <= Neurons)
      && (forall i {:trigger agents[i].Valid()} :: 0 <= i < |agents| ==> agents[i].Valid())
    }

    /** An empty field of the given size with the goal at goal. */
    constructor (width: real, height: real, goal: Point)
      ensures agents == [] && collidables == [] && Neurons == {}
      ensures this.width == width && this.height == height && this.goal == goal
      ensures Valid()
    {
      agents := [];
      collidables := [];
      this.goal := goal;
      this.width := width;
      this.height := height;
      Neurons := {};
    }

    /** add_agent: appends the agent; a new, well-formed agent keeps the field well-formed. */
    method AddAgent(agent: Agent)
      modifies `agents, `Neurons
      ensures agents == old(agents) + [agent]
      ensures Neurons == old(Neurons) + agent.ai.net.Repr
      ensures old(Valid()) && agent.Valid() && agent !in old(agents) ==> Valid()
    {
      agents := agents + [agent];
      Neurons := Neurons + agent.ai.net.Repr;
    }

    /** add_collidable: appends the obstacle with corners p1 and p2. */
    method AddCollidable(p1: Point, p2: Point)
      modifies `collidables
      ensures collidables == old(collidables) + [Collidable(p1, p2)]
    {
      collidables := collidables + [Collidable(p1, p2)];
    }

    /**
     * record_collidables: n times, reads two clicks and adds the obstacle
     * they span, corners ordered. The clicks are the mouse's answers, in
     * order; n <= 0 reads nothing.
     */
    method RecordCollidables(clicks: seq<Point>, n: int)
      requires 2 * n <= |clicks|
      modifies `collidables
      ensures collidables == old(collidables) + Rectangles(clicks, if n < 0 then 0 else n)
    {
      var left := n;
      var rest := clicks;
      while left > 0
        invariant 2 * left <= |rest|
        invariant collidables + Rectangles(rest, if left < 0 then 0 else left)
                  == old(collidables) + Rectangles(clicks, if n < 0 then 0 else n)
        decreases left
      {
        var p1 := rest[0];
        var p2 := rest[1];
        rest := rest[2..];
        var topLeft := Point(Min(p1.x, p2.x), Min(p1.y, p2.y));
        var bottomRight := Point(Max(p1.x, p2.x), Max(p1.y, p2.y));
        AddCollidable(topLeft, bottomRight);
        left := left - 1;
      }
    }

    /** The agents' states, in order. */
    function States(): (ks: seq<Kinematics>)
      reads this, set j | 0 <= j < |agents| :: agents[j]
      ensures |ks| == |agents|
    {
      seq(|agents|, j requires 0 <= j < |agents| reads this, if 0 <= j < |agents| then {agents[j]} else {} =>
        agents[j].State())
    }

    /** The weights of the agents' networks, in order. */
    ghost function Genes(): (ws: seq<Weights>)
      reads this, set j | 0 <= j < |agents| :: agents[j].ai.net
      ensures |ws| == |agents|
    {
      seq(|agents|, j requires 0 <= j < |agents| reads this, if 0 <= j < |agents| then {agents[j].ai.net} else {} =>
        agents[j].ai.net.W)
    }

    /** Every network of a well-formed field has the shape update needs. */
    lemma GenesReady()
      requires Valid()
      ensures Ready(Genes())
    {
      forall j | 0 <= j < |agents|
        ensures Fits(Genes()[j]) && Fed(Genes()[j])
      {
        assert agents[j].Valid();
      }
    }

    /** What update reads of the field, with m for the transcendental functions. */
    function SceneOf(m: Maths): Scene
      reads this
    {
      Scene(collidables, goal, width, height, m)
    }

    /** The counting loop of start_simulation: how many agents are dead. */
    method CountDead() returns (deadCount: nat)
      ensures deadCount == DeadCount(States())
    {
      ghost var ks := States();
      deadCount := 0;
      var i := 0;
      while i < |agents|
        invariant 0 <= i <= |agents| && deadCount == DeadCount(ks[..i])
      {
        assert ks[..i + 1][..i] == ks[..i];
        if agents[i].dead {
          deadCount := deadCount + 1;
        }
        i := i + 1;
      }
      assert ks[..i] == ks;
    }

    /** The turn of the agent at index i in one pass of start_simulation. */
    method VisitAgent(i: nat, m: Maths) returns (raised: bool)
      requires Valid() && i < |agents| && ExpNonNegative(m)
      modifies agents[i], Neurons`input
      ensures Valid() && Genes() == old(Genes()) && Ready(Genes())
      ensures (agents[i].State(), raised) == Visit(old(agents[i].State()), Genes()[i], SceneOf(m))
      ensures States() == old(States())[i := agents[i].State()]
    {
      GenesReady();
      label start:
      var agent := agents[i];
      assert agent.Valid() && agent.ai.net.Repr <= Neurons && agent.ai.net.W == Genes()[i];
      ghost var k := agent.State();
      raised := TakeTurn(agent, SceneOf(m));
      VisitMatches(k, agent.ai.net.W, SceneOf(m), agent.State(), raised);
      FieldKept@start(this);
      forall j | 0 <= j < |agents| && j != i
        ensures agents[j].State() == old(agents[j].State())
      {
        assert agents[j] != agents[i];
      }
      assert States() == old(States())[i := agent.State()];
    }

    /**
     * The turn of agent i within a pass that started from states ks and
     * ends in goal: afterwards either the pass has raised and goal is
     * reached, or the same holds one agent further on.
     */
    method PassStep(i: nat, m: Maths, ghost ks: seq<Kinematics>, ghost ws: seq<Weights>, ghost sc: Scene,
                    ghost goal: (seq<Kinematics>, bool))
      returns (raised: bool)
      requires Valid() && i < |agents| == |ks| && ExpNonNegative(m) && sc == SceneOf(m)
      requires Genes() == ws && Ready(ws)
      requires States()[i..] == ks[i..]
      requires goal.0 == States()[..i] + Pass(ks[i..], ws[i..], sc).0 && goal.1 == Pass(ks[i..], ws[i..], sc).1
      modifies agents[i], Neurons`input
      ensures Valid() && Genes() == ws
      ensures raised ==> goal.0 == States() && goal.1
      ensures !raised ==> States()[i + 1..] == ks[i + 1..]
      ensures !raised ==> goal.0 == States()[..i + 1] + Pass(ks[i + 1..], ws[i + 1..], sc).0
      ensures !raised ==> goal.1 == Pass(ks[i + 1..], ws[i + 1..], sc).1
    {
      ghost var before := States();
      assert agents[i].State() == before[i] == ks[i];
      raised := VisitAgent(i, m);
      if raised {
        PassEnds(before, States(), ks, ws, sc, i);
      } else {
        PassGoesOn(before, States(), ks, ws, sc, i);
      }
    }

    /**
     * One pass of start_simulation over the agents, in order: each is
     * updated, and a living one then aims its rays again (the result is
     * dropped). A raise stops the pass.
     */
    method Sweep(m: Maths, ghost ks: seq<Kinematics>, ghost ws: seq<Weights>, ghost sc: Scene) returns (raised: bool)
      requires Valid() && ExpNonNegative(m) && sc == SceneOf(m)
      requires States() == ks && Genes() == ws && Ready(ws)
      modifies agents, Neurons`input
      ensures Valid() && Genes() == ws
      ensures (States(), raised) == Pass(ks, ws, sc)
    {
      ghost var goal := Pass(ks, ws, sc);
      assert ks[0..] == ks && ws[0..] == ws && States()[..0] == [];
      var i := 0;
      while i < |agents|
        invariant 0 <= i <= |agents| == |ks| && sc == SceneOf(m)
        invariant Valid() && Genes() == ws && Ready(ws)
        invariant States()[i..] == ks[i..]
        invariant goal.0 == States()[..i] + Pass(ks[i..], ws[i..], sc).0 && goal.1 == Pass(ks[i..], ws[i..], sc).1
      {
        raised := PassStep(i, m, ks, ws, sc, goal);
        if raised {
          assert goal == (States(), true);
          return;
        }
        i := i + 1;
      }
      assert States()[..i] == States() && ks[i..] == [] && ws[i..] == [];
      assert Pass(ks[i..], ws[i..], sc) == ([], false);
      raised := false;
      assert goal.0 == States()[..i] + [] == States();
      assert goal == (States(), false);
    }

    /**
     * The count that follows a pass of start_simulation, which took the
     * states from ks to after: with counted agents found dead before it
     * and `done` of the `sweeps` passes allowed completed, the simulation
     * still ends in outcome, and swept is the number of passes completed
     * afterwards.
     */
    method Tally(counted: nat, sweeps: nat, done: nat, raised: bool, ghost ks: seq<Kinematics>,
                 ghost ws: seq<Weights>, ghost sc: Scene, ghost outcome: (seq<Kinematics>, nat, bool))
      returns (deadCount: nat, swept: nat)
      requires |ws| == |ks| && Ready(ws) && ExpNonNegative(sc.maths)
      requires counted < |ks| && done < sweeps
      requires Run(ks, ws, sc, counted, sweeps, done) == outcome
      requires (States(), raised) == Pass(ks, ws, sc)
      ensures raised ==> swept == done && outcome == (States(), swept, true)
      ensures !raised ==> swept == done + 1 && deadCount == DeadCount(States())
      ensures !raised ==> Run(States(), ws, sc, deadCount, sweeps, swept) == outcome
    {
      if raised {
        RunRaised(ks, ws, sc, counted, sweeps, done);
        deadCount, swept := counted, done;
        return;
      }
      swept := done + 1;
      RunNext(ks, ws, sc, counted, sweeps, done, swept);
      deadCount := CountDead();
    }

    /**
     * One round of start_simulation's loop: a pass, then a fresh count,
     * as Tally states it.
     */
    method Round(m: Maths, counted: nat, sweeps: nat, done: nat, ghost ks: seq<Kinematics>,
                 ghost ws: seq<Weights>, ghost sc: Scene, ghost outcome: (seq<Kinematics>, nat, bool))
      returns (deadCount: nat, raised: bool, swept: nat, ghost after: seq<Kinematics>)
      requires Valid() && ExpNonNegative(m) && Genes() == ws && Ready(ws) && sc == SceneOf(m)
      requires States() == ks && counted < |ks| && done < sweeps
      requires Run(ks, ws, sc, counted, sweeps, done) == outcome
      modifies agents, Neurons`input
      ensures Valid() && Genes() == ws && States() == after
      ensures raised ==> swept == done && outcome == (after, swept, true)
      ensures !raised ==> swept == done + 1 && deadCount == DeadCount(after)
      ensures !raised ==> Run(after, ws, sc, deadCount, sweeps, swept) == outcome
    {
      raised := Sweep(m, ks, ws, sc);
      after := States();
      deadCount, swept := Tally(counted, sweeps, done, raised, ks, ws, sc, outcome);
    }

    /**
     * start_simulation: passes over the agents while some agent is not
     * counted dead and time remains, recounting the dead after every pass.
     * The clock is a cap on the number of passes.
     */
    method StartSimulation(sweeps: nat, m: Maths) returns (deadCount: nat, swept: nat, raised: bool)
      requires Valid() && ExpNonNegative(m)
      modifies agents, Neurons`input
      ensures Valid() && Genes() == old(Genes()) && Ready(Genes())
      ensures (States(), swept, raised) == Run(old(States()), Genes(), SceneOf(m), 0, sweeps, 0)
      ensures !raised && 0 < swept ==> deadCount == DeadCount(States())
    {
      GenesReady();
      ghost var ws := Genes();
      ghost var sc := SceneOf(m);
      ghost var ks := States();
      ghost var outcome := Run(ks, ws, sc, 0, sweeps, 0);
      deadCount := 0;
      swept := 0;
      raised := false;
      while deadCount < |agents| && swept < sweeps
        invariant Valid() && Genes() == ws && Ready(ws) && sc == SceneOf(m)
        invariant States() == ks && |ks| == |agents| && swept <= sweeps
        invariant 0 < swept ==> deadCount == DeadCount(ks)
        invariant Run(ks, ws, sc, deadCount, sweeps, swept) == outcome
        decreases sweeps - swept
      {
        deadCount, raised, swept, ks := Round(m, deadCount, sweeps, swept, ks, ws, sc, outcome);
        if raised {
          return;
        }
      }
      RunStop(ks, ws, sc, deadCount, sweeps, swept);
    }

    /** get_fitness_vector: each agent paired with its fitness, in order. */
    method GetFitnessVector(m: Maths) returns (fitness: seq<Scored>)
      ensures |fitness| == |agents|
      ensures forall i :: 0 <= i < |agents| ==> fitness[i] == (agents[i], Fitness(agents[i].State(), goal, m))
    {
      fitness := [];
      var i := 0;
      while i < |agents|
        invariant 0 <= i <= |agents| && |fitness| == i
        invariant forall j :: 0 <= j < i ==> fitness[j] == (agents[j], Fitness(agents[j].State(), goal, m))
      {
        var agent := agents[i];
        fitness := fitness + [(agent, Distance(agent.position, goal, m) + (if agent.dead then 1000.0 else 0.0))];
        i := i + 1;
      }
    }

    /**
     * get_best_agents: the fitness vector sorted by fitness, ascending and
     * stably, cut to amount. Every pick scores no worse than any agent left out.
     */
    method GetBestAgents(amount: int, m: Maths) returns (best: seq<Scored>)
      ensures exists fitness: seq<Scored> ::
        && |fitness| == |agents|
        && (forall i :: 0 <= i < |agents| ==> fitness[i] == (agents[i], Fitness(agents[i].State(), goal, m)))
        && best == SliceTo(SortByFitness(fitness), amount)
      ensures SortedByFitness(best) && |best| == SliceLength(|agents|, amount)
    {
      var fitness := GetFitnessVector(m);
      var sorted := SortByFitness(fitness);
      SortByFitnessCorrect(fitness);
      best := SliceTo(sorted, amount);
    }
  }
}
