/**
 * The feed-forward network of NeuralNetwork.py: neurons that hold an
 * accumulator and outgoing weighted connections, a layered fully connected
 * network with forward evaluation, and the genetic merge of two networks.
 *
 * The weights of a network are mirrored by a ghost value `W` (layer, neuron,
 * weight slot), against which `Activate` and `Merge` are specified through
 * the functions `Forward` and `MergedWeights`.
 */
module Nets {
  import opened Common

  type Weights = seq<seq<seq<real>>>

  /** `range(0, d)` has max(d, 0) elements, so a layer defined with d <= 0 is empty. */
  function LayerSize(d: int): nat {
    if 0 < d then d else 0
  }

  /** The sizes of the layers the constructor builds from the first n entries of a definition. */
  function Shape(definition: seq<int>, n: nat): (sizes: seq<nat>)
    requires n <= |definition|
    ensures |sizes| == n
  {
    seq(n, i requires 0 <= i < n => LayerSize(definition[i]))
  }

  /** The number of weights a neuron of layer i holds: one per neuron of the next layer, or one scaling weight in the final layer. */
  function FanOut(W: Weights, i: nat): nat
    requires i < |W|
  {
    if i + 1 < |W| then |W[i + 1]| else 1
  }

  /** W is the weight table of a fully connected network with at least one layer. */
  predicate Fits(W: Weights) {
    && 0 < |W|
    && forall i, j :: 0 <= i < |W| && 0 <= j < |W[i]| ==> |W[i][j]| == FanOut(W, i)
  }

  /** Every weight lies in [-bound, bound]. */
  ghost predicate Bounded(W: Weights, bound: real) {
    forall i, j, k :: 0 <= i < |W| && 0 <= j < |W[i]| && 0 <= k < |W[i][j]| ==> -bound <= W[i][j][k] <= bound
  }

  // ---------------------------------------------------------------------------
  // Construction

  /** The first k weights the constructor draws for neuron j of layer i. */
  function Draws(uniform: (nat, nat, nat) -> real, i: nat, j: nat, k: nat): (ws: seq<real>)
    ensures |ws| == k
  {
    seq(k, t requires 0 <= t < k => uniform(i, j, t))
  }

  /**
   * The weights of a freshly built network with the given layer sizes: the
   * draw for slot (i, j, k) is uniform(i, j, k).
   */
  function InitialWeights(sizes: seq<nat>, uniform: (nat, nat, nat) -> real): (W: Weights)
    ensures |W| == |sizes|
    ensures forall i :: 0 <= i < |sizes| ==> |W[i]| == sizes[i]
  {
    seq(|sizes|, i requires 0 <= i < |sizes| => seq(sizes[i], j requires 0 <= j < sizes[i] => InitialDraws(sizes, uniform, i, j)))
  }

  /** The weights neuron j of layer i starts with: one draw per neuron of the next layer, or one scaling weight. */
  function InitialDraws(sizes: seq<nat>, uniform: (nat, nat, nat) -> real, i: nat, j: nat): (ws: seq<real>)
    requires i < |sizes|
    ensures |ws| == if i + 1 < |sizes| then sizes[i + 1] else 1
  {
    if i + 1 < |sizes| then Draws(uniform, i, j, sizes[i + 1]) else [uniform(i, j, 0)]
  }

  /** The source's random.uniform(lo, hi) stays within [lo, hi]. */
  ghost predicate UniformIn(uniform: (nat, nat, nat) -> real, lo: real, hi: real) {
    forall i, j, k :: lo <= uniform(i, j, k) <= hi
  }

  /** A freshly built network is fully connected: every neuron has one weight per successor (or one scaling weight). */
  lemma InitialWeightsFit(sizes: seq<nat>, uniform: (nat, nat, nat) -> real)
    requires 0 < |sizes|
    ensures Fits(InitialWeights(sizes, uniform))
  {
    var W := InitialWeights(sizes, uniform);
    forall i, j | 0 <= i < |W| && 0 <= j < |W[i]|
      ensures |W[i][j]| == FanOut(W, i)
    {
      assert W[i][j] == InitialDraws(sizes, uniform, i, j);
    }
  }

  /** Every initial weight lies in [-1, 1], as random.uniform(-1, 1) does. */
  lemma InitialWeightsBounded(sizes: seq<nat>, uniform: (nat, nat, nat) -> real)
    requires UniformIn(uniform, -1.0, 1.0)
    ensures Bounded(InitialWeights(sizes, uniform), 1.0)
  {
    var W := InitialWeights(sizes, uniform);
    forall i, j, k | 0 <= i < |W| && 0 <= j < |W[i]| && 0 <= k < |W[i][j]|
      ensures -1.0 <= W[i][j][k] <= 1.0
    {
      assert W[i][j] == InitialDraws(sizes, uniform, i, j);
      assert W[i][j][k] == uniform(i, j, k);
    }
  }

  /** What a neuron holding x passes along a connection of weight w. */
  function Signal(w: real, x: real): real {
    w * x
  }

  // ---------------------------------------------------------------------------
  // Forward evaluation, as a function of the weights and the inputs

  /** The sum, for j < n, of Wi[j][k] * v[j], accumulated in the order feed_forward adds it. */
  function Dot(Wi: seq<seq<real>>, v: seq<real>, k: nat, n: nat): real
    requires n <= |Wi| && n <= |v|
    requires forall j :: 0 <= j < n ==> k < |Wi[j]|
  {
    if n == 0 then 0.0 else Dot(Wi, v, k, n - 1) + Signal(Wi[n - 1][k], v[n - 1])
  }

  /** The settled accumulators of layer i for inputs x. */
  function LayerValues(W: Weights, x: seq<real>, i: nat): (v: seq<real>)
    requires Fits(W) && i < |W| && |W[0]| <= |x|
    ensures |v| == |W[i]|
    decreases i
  {
    if i == 0 then x[..|W[0]|]
    else
      var prev := LayerValues(W, x, i - 1);
      seq(|W[i]|, k requires 0 <= k < |W[i]| => Dot(W[i - 1], prev, k, |W[i - 1]|))
  }

  /** Layer i+1 settles to the weighted sums of layer i. */
  lemma LayerValuesNext(W: Weights, x: seq<real>, i: nat)
    requires Fits(W) && i + 1 < |W| && |W[0]| <= |x|
    ensures forall k :: 0 <= k < |W[i + 1]| ==>
      LayerValues(W, x, i + 1)[k] == Dot(W[i], LayerValues(W, x, i), k, |W[i]|)
  {
  }

  /** Each settled accumulator times its neuron's first (scaling) weight. */
  function Scaled(v: seq<real>, ws: seq<seq<real>>): (out: seq<real>)
    requires |v| == |ws| && forall b :: 0 <= b < |ws| ==> 0 < |ws[b]|
    ensures |out| == |v|
  {
    seq(|v|, b requires 0 <= b < |v| => v[b] * ws[b][0])
  }

  /** The network's outputs: each final accumulator times its neuron's scaling weight. */
  function Forward(W: Weights, x: seq<real>): (out: seq<real>)
    requires Fits(W) && |W[0]| <= |x|
    ensures |out| == |W[|W| - 1]|
  {
    Scaled(LayerValues(W, x, |W| - 1), W[|W| - 1])
  }

  // ---------------------------------------------------------------------------
  // The genetic merge, as a function of the parents' weights

  /** The product of all entries of a layer definition (1 for the empty one). */
  function Product(definition: seq<int>): int {
    if definition == [] then 1 else Product(definition[..|definition| - 1]) * definition[|definition| - 1]
  }

  /** A and B have the same layers, neurons and weight slots. */
  predicate SameShape(A: Weights, B: Weights) {
    && |A| == |B|
    && (forall i :: 0 <= i < |A| ==> |A[i]| == |B[i]|)
    && (forall i, j :: 0 <= i < |A| && 0 <= j < |A[i]| ==> |A[i][j]| == |B[i][j]|)
  }

  /** The number of weight slots of the first j neurons of a layer. */
  function NeuronSlots(L: seq<seq<real>>, j: nat): nat
    requires j <= |L|
  {
    if j == 0 then 0 else NeuronSlots(L, j - 1) + |L[j - 1]|
  }

  /** The number of weight slots of the first i layers. */
  function LayerSlots(W: Weights, i: nat): nat
    requires i <= |W|
  {
    if i == 0 then 0 else LayerSlots(W, i - 1) + NeuronSlots(W[i - 1], |W[i - 1]|)
  }

  /**
   * The value merge's counter c holds when it reaches slot 0 of neuron j of
   * layer i: the number of slots before it, layers, neurons and slots taken in order.
   */
  function SlotsBefore(W: Weights, i: nat, j: nat): nat
    requires i < |W| && j <= |W[i]|
  {
    LayerSlots(W, i) + NeuronSlots(W[i], j)
  }

  /** W2 has every slot W1 has (and possibly more): merge can read W2 wherever it reads W1. */
  predicate Covers(W1: Weights, W2: Weights) {
    && |W1| <= |W2|
    && (forall i :: 0 <= i < |W1| ==> |W1[i]| <= |W2[i]|)
    && (forall i, j :: 0 <= i < |W1| && 0 <= j < |W1[i]| ==> |W1[i][j]| <= |W2[i][j]|)
  }

  /**
   * The copy phase of merge for one neuron whose first slot is counted c:
   * slot k, counted c + k, comes from the first parent when c + k > count / 2
   * and from the second otherwise.
   */
  function CrossedSlots(w1: seq<real>, w2: seq<real>, count: int, c: nat): (ws: seq<real>)
    requires |w1| <= |w2|
    ensures |ws| == |w1|
  {
    seq(|w1|, k requires 0 <= k < |w1| => if 2 * (c + k) > count then w1[k] else w2[k])
  }

  /** The weights of neuron j of layer i after the copy phase of merge. */
  function CrossedNeuron(W1: Weights, W2: Weights, count: int, i: nat, j: nat): (ws: seq<real>)
    requires Covers(W1, W2) && i < |W1| && j < |W1[i]|
    ensures |ws| == |W1[i][j]|
  {
    CrossedSlots(W1[i][j], W2[i][j], count, SlotsBefore(W1, i, j))
  }

  /** The copy phase of merge over the whole network, the counter running through layers, neurons and slots in order. */
  function Crossed(W1: Weights, W2: Weights, count: int): (M: Weights)
    requires Covers(W1, W2)
    ensures SameShape(M, W1)
  {
    seq(|W1|, i requires 0 <= i < |W1| =>
      seq(|W1[i]|, j requires 0 <= j < |W1[i]| => CrossedNeuron(W1, W2, count, i, j)))
  }

  /** Counting a layer's neurons one more adds that neuron's slots; the count never exceeds the whole layer's. */
  lemma {:induction false} NeuronSlotsGrow(L: seq<seq<real>>, j: nat)
    requires j < |L|
    ensures NeuronSlots(L, j) + |L[j]| <= NeuronSlots(L, |L|)
    decreases |L| - j
  {
    if j + 1 < |L| {
      NeuronSlotsGrow(L, j + 1);
    }
  }

  /** Counting one more layer adds that layer's slots; the count never exceeds the network's. */
  lemma {:induction false} LayerSlotsGrow(W: Weights, i: nat)
    requires i < |W|
    ensures LayerSlots(W, i) + NeuronSlots(W[i], |W[i]|) <= LayerSlots(W, |W|)
    decreases |W| - i
  {
    if i + 1 < |W| {
      LayerSlotsGrow(W, i + 1);
    }
  }

  /** Every slot's counter value is below the network's number of slots. */
  lemma SlotBelowTotal(W: Weights, i: nat, j: nat, k: nat)
    requires i < |W| && j < |W[i]| && k < |W[i][j]|
    ensures SlotsBefore(W, i, j) + k < LayerSlots(W, |W|)
  {
    NeuronSlotsGrow(W[i], j);
    LayerSlotsGrow(W, i);
  }

  /**
   * When count / 2 is at least the last counter value, no slot passes the
   * test c > count / 2 and the copy phase takes every weight from the
   * second parent.
   */
  lemma CrossedAllSecond(W1: Weights, W2: Weights, count: int)
    requires Covers(W1, W2)
    requires 2 * LayerSlots(W1, |W1|) <= count + 2
    ensures forall i, j, k :: 0 <= i < |W1| && 0 <= j < |W1[i]| && 0 <= k < |W1[i][j]| ==>
      Crossed(W1, W2, count)[i][j][k] == W2[i][j][k]
    ensures SameShape(W1, W2) ==> Crossed(W1, W2, count) == W2
  {
    var C := Crossed(W1, W2, count);
    forall i, j, k | 0 <= i < |C| && 0 <= j < |C[i]| && 0 <= k < |C[i][j]|
      ensures C[i][j][k] == W2[i][j][k]
    {
      SlotBelowTotal(W1, i, j, k);
    }
    if SameShape(W1, W2) {
      forall i | 0 <= i < |C|
        ensures C[i] == W2[i]
      {
        forall j | 0 <= j < |C[i]|
          ensures C[i][j] == W2[i][j]
        {
        }
      }
    }
  }

  /** When count is negative every counter value passes the test and the copy phase takes every weight from the first parent. */
  lemma CrossedAllFirst(W1: Weights, W2: Weights, count: int)
    requires Covers(W1, W2)
    requires count < 0
    ensures Crossed(W1, W2, count) == W1
  {
    var C := Crossed(W1, W2, count);
    forall i | 0 <= i < |C|
      ensures C[i] == W1[i]
    {
      forall j | 0 <= j < |C[i]|
        ensures C[i][j] == W1[i][j]
      {
      }
    }
  }

  /** A layer whose neurons all hold m slots has j * m slots in its first j neurons. */
  lemma {:induction false} NeuronSlotsUniform(L: seq<seq<real>>, j: nat, m: nat)
    requires j <= |L|
    requires forall b :: 0 <= b < |L| ==> |L[b]| == m
    ensures NeuronSlots(L, j) == j * m
  {
    if j > 0 {
      NeuronSlotsUniform(L, j - 1, m);
    }
  }

  /**
   * For the definition [5, 4, 4, 4, 2] with all five layers built, count is
   * 640 but there are only 62 slots, so merge copies every weight from the
   * second parent.
   */
  lemma DefaultMergeTakesSecond(W1: Weights, W2: Weights)
    requires Fits(W1) && Covers(W1, W2)
    requires |W1| == 5 && forall i :: 0 <= i < 5 ==> |W1[i]| == [5, 4, 4, 4, 2][i]
    ensures Product([5, 4, 4, 4, 2]) == 640
    ensures LayerSlots(W1, 5) == 62
    ensures forall i, j, k :: 0 <= i < |W1| && 0 <= j < |W1[i]| && 0 <= k < |W1[i][j]| ==>
      Crossed(W1, W2, Product([5, 4, 4, 4, 2]))[i][j][k] == W2[i][j][k]
  {
    var sizes := [5, 4, 4, 4, 2];
    forall i | 0 <= i < 4
      ensures NeuronSlots(W1[i], |W1[i]|) == sizes[i] * sizes[i + 1]
    {
      NeuronSlotsUniform(W1[i], |W1[i]|, sizes[i + 1]);
    }
    assert LayerSlots(W1, 1) == 20;
    assert LayerSlots(W1, 2) == 36;
    assert LayerSlots(W1, 3) == 52;
    assert LayerSlots(W1, 4) == 60;
    assert FanOut(W1, 4) == 1;
    NeuronSlotsUniform(W1[4], 2, 1);
    assert LayerSlots(W1, 5) == 62;
    assert [5, 4][..1] == [5] && [5][..0] == [];
    assert [5, 4, 4][..2] == [5, 4];
    assert [5, 4, 4, 4][..3] == [5, 4, 4];
    assert sizes[..4] == [5, 4, 4, 4];
    assert Product([5, 4]) == 20;
    assert Product([5, 4, 4]) == 80;
    assert Product([5, 4, 4, 4]) == 320;
    CrossedAllSecond(W1, W2, 640);
  }

  /** One draw of merge's mutation loop: three raw randint draws and a random.uniform(-2, 2) factor. */
  datatype Mutation = Mutation(layer: nat, neuron: nat, slot: nat, factor: real)

  /** Every layer and every neuron holds at least one element, so every randint range is non-empty. */
  predicate Dense(W: Weights) {
    && 0 < |W|
    && (forall i :: 0 <= i < |W| ==> 0 < |W[i]|)
    && (forall i, j :: 0 <= i < |W| && 0 <= j < |W[i]| ==> 0 < |W[i][j]|)
  }

  /**
   * randint(0, n - 1) for a raw draw r: r taken into [0, n). Every value of
   * the range is the pick of some draw (itself).
   */
  function Pick(r: nat, n: nat): (p: nat)
    requires 0 < n
    ensures p < n && (r < n ==> p == r)
    decreases r
  {
    if r < n then r else Pick(r - n, n)
  }

  /** The slot a mutation lands on: each draw taken within the range randint is given. */
  function Target(W: Weights, m: Mutation): (t: (nat, nat, nat))
    requires Dense(W)
    ensures t.0 < |W| && t.1 < |W[t.0]| && t.2 < |W[t.0][t.1]|
  {
    var i := Pick(m.layer, |W|);
    var j := Pick(m.neuron, |W[i]|);
    (i, j, Pick(m.slot, |W[i][j]|))
  }

  /** A weight after a mutation has scaled it by the mutation's factor. */
  function Mutated(w: real, m: Mutation): real {
    w * m.factor
  }

  /** The weights after one mutation: the target slot is multiplied by the factor. */
  function Mutate(W: Weights, m: Mutation): (M: Weights)
    requires Dense(W)
    ensures SameShape(M, W) && Dense(M)
  {
    var t := Target(W, m);
    W[t.0 := W[t.0][t.1 := W[t.0][t.1][t.2 := Mutated(W[t.0][t.1][t.2], m)]]]
  }

  /** The weights after the mutations ms, applied in order. */
  function MutateAll(W: Weights, ms: seq<Mutation>): (M: Weights)
    requires Dense(W)
    ensures SameShape(M, W) && Dense(M)
    decreases |ms|
  {
    if ms == [] then W else MutateAll(Mutate(W, ms[0]), ms[1..])
  }

  /** The three mutation draws of one merge. */
  function Draws3(draw: nat -> Mutation): (ms: seq<Mutation>)
    ensures |ms| == 3
  {
    seq(3, t requires 0 <= t < 3 => draw(t))
  }

  /** The weights merge gives the child of W1 and W2: the copy phase, then three mutations. */
  function MergedWeights(W1: Weights, W2: Weights, count: int, draw: nat -> Mutation): (M: Weights)
    requires Covers(W1, W2) && Dense(W1)
  {
    MutateAll(Crossed(W1, W2, count), Draws3(draw))
  }

  /** Mutate, spelled out for a known target. */
  lemma MutateIs(W: Weights, m: Mutation, i: nat, j: nat, k: nat)
    requires Dense(W) && Target(W, m) == (i, j, k)
    ensures Mutate(W, m) == W[i := W[i][j := W[i][j][k := Mutated(W[i][j][k], m)]]]
  {
  }

  /** Applying the first t + 1 mutations is applying the first t, then mutation t. */
  lemma {:induction false} MutateAllSnoc(W: Weights, ms: seq<Mutation>, t: nat)
    requires Dense(W) && t < |ms|
    ensures MutateAll(W, ms[..t + 1]) == Mutate(MutateAll(W, ms[..t]), ms[t])
    decreases t
  {
    if t > 0 {
      assert ms[..t + 1][0] == ms[..t][0] == ms[0];
      assert ms[..t + 1][1..] == ms[1..][..t];
      assert ms[..t][1..] == ms[1..][..t - 1];
      MutateAllSnoc(Mutate(W, ms[0]), ms[1..], t - 1);
    } else {
      assert ms[..1][1..] == [];
    }
  }

  /** Where a mutation lands depends only on the shape of the weights. */
  lemma TargetByShape(V: Weights, W: Weights, m: Mutation)
    requires Dense(V) && Dense(W) && SameShape(V, W)
    ensures Target(V, m) == Target(W, m)
  {
  }

  /**
   * One mutation multiplies the slot it lands on by its factor and leaves
   * every other slot as it was.
   */
  lemma MutateAt(W: Weights, m: Mutation, i: nat, j: nat, k: nat)
    requires Dense(W) && i < |W| && j < |W[i]| && k < |W[i][j]|
    ensures Mutate(W, m)[i][j][k] == if Target(W, m) == (i, j, k) then Mutated(W[i][j][k], m) else W[i][j][k]
  {
  }

  /** A slot none of the mutations ms lands on keeps its weight. */
  lemma {:induction false} MutateAllElsewhere(W: Weights, ms: seq<Mutation>, i: nat, j: nat, k: nat)
    requires Dense(W) && i < |W| && j < |W[i]| && k < |W[i][j]|
    requires forall u :: 0 <= u < |ms| ==> Target(W, ms[u]) != (i, j, k)
    ensures MutateAll(W, ms)[i][j][k] == W[i][j][k]
    decreases |ms|
  {
    if ms != [] {
      var V := Mutate(W, ms[0]);
      MutateAt(W, ms[0], i, j, k);
      forall u | 0 <= u < |ms[1..]|
        ensures Target(V, ms[1..][u]) != (i, j, k)
      {
        TargetByShape(V, W, ms[u + 1]);
      }
      MutateAllElsewhere(V, ms[1..], i, j, k);
    }
  }

  /** A mutation whose factor lies in [-2, 2] at most doubles the bound on the weights. */
  lemma MutateBounded(W: Weights, m: Mutation, bound: real)
    requires Dense(W) && Bounded(W, bound) && -2.0 <= m.factor <= 2.0
    ensures Bounded(Mutate(W, m), 2.0 * bound)
  {
    var M := Mutate(W, m);
    forall i, j, k | 0 <= i < |M| && 0 <= j < |M[i]| && 0 <= k < |M[i][j]|
      ensures -2.0 * bound <= M[i][j][k] <= 2.0 * bound
    {
      MutateAt(W, m, i, j, k);
      assert Abs(W[i][j][k]) <= bound;
      if Target(W, m) == (i, j, k) {
        AbsProduct(W[i][j][k], bound, m.factor, 2.0);
      }
    }
  }

  /** Mutations whose factors lie in [-2, 2] at most double the bound each. */
  lemma {:induction false} MutateAllBounded(W: Weights, ms: seq<Mutation>, bound: real)
    requires Dense(W) && Bounded(W, bound)
    requires forall u :: 0 <= u < |ms| ==> -2.0 <= ms[u].factor <= 2.0
    ensures Bounded(MutateAll(W, ms), Doubled(bound, |ms|))
    decreases |ms|
  {
    if ms != [] {
      MutateBounded(W, ms[0], bound);
      assert forall u :: 0 <= u < |ms[1..]| ==> ms[1..][u] == ms[u + 1];
      MutateAllBounded(Mutate(W, ms[0]), ms[1..], 2.0 * bound);
    }
  }

  /** bound * 2^n. */
  function Doubled(bound: real, n: nat): real
    decreases n
  {
    if n == 0 then bound else Doubled(2.0 * bound, n - 1)
  }

  /** |a * b| <= A * B when |a| <= A and |b| <= B. */
  lemma AbsProduct(a: real, A: real, b: real, B: real)
    requires Abs(a) <= A && Abs(b) <= B
    ensures Abs(a * b) <= A * B
  {
    assert Abs(a * b) == Abs(a) * Abs(b);
    assert Abs(a) * Abs(b) <= A * Abs(b) <= A * B;
  }

  /**
   * A merge of two parents whose weights lie in [-1, 1], with mutation
   * factors drawn from [-2, 2], gives weights in [-8, 8].
   */
  lemma MergedWeightsBounded(W1: Weights, W2: Weights, count: int, draw: nat -> Mutation)
    requires Covers(W1, W2) && Dense(W1) && Bounded(W1, 1.0) && Bounded(W2, 1.0)
    requires forall t :: 0 <= t < 3 ==> -2.0 <= draw(t).factor <= 2.0
    ensures Bounded(MergedWeights(W1, W2, count, draw), 8.0)
  {
    var C := Crossed(W1, W2, count);
    assert Bounded(C, 1.0);
    MutateAllBounded(C, Draws3(draw), 1.0);
    assert Doubled(1.0, 3) == 8.0;
  }

  /**
   * Merge mutates at most three slots: a slot none of the three draws lands
   * on keeps the weight the copy phase gave it.
   */
  lemma MergedWeightsElsewhere(W1: Weights, W2: Weights, count: int, draw: nat -> Mutation, i: nat, j: nat, k: nat)
    requires Covers(W1, W2) && Dense(W1)
    requires i < |W1| && j < |W1[i]| && k < |W1[i][j]|
    requires forall t :: 0 <= t < 3 ==> Target(W1, draw(t)) != (i, j, k)
    ensures MergedWeights(W1, W2, count, draw)[i][j][k] == Crossed(W1, W2, count)[i][j][k]
  {
    MutationsMissing(Crossed(W1, W2, count), W1, Draws3(draw), i, j, k);
  }

  /** Mutations that miss a slot of W miss it in any V of the same shape, and leave it unchanged there. */
  lemma MutationsMissing(V: Weights, W: Weights, ms: seq<Mutation>, i: nat, j: nat, k: nat)
    requires Dense(W) && SameShape(V, W)
    requires i < |W| && j < |W[i]| && k < |W[i][j]|
    requires forall u :: 0 <= u < |ms| ==> Target(W, ms[u]) != (i, j, k)
    ensures Dense(V) && MutateAll(V, ms)[i][j][k] == V[i][j][k]
  {
    forall u | 0 <= u < |ms|
      ensures Target(V, ms[u]) != (i, j, k)
    {
      TargetByShape(V, W, ms[u]);
    }
    MutateAllElsewhere(V, ms, i, j, k);
  }

  // ---------------------------------------------------------------------------
  // The objects

  class Neuron {
    var input: real
    var weights: seq<real>
    var connected: seq<Neuron>

    constructor ()
      ensures input == 0.0 && weights == [] && connected == []
    {
      input := 0.0;
      weights := [];
      connected := [];
    }

    /** Resets the accumulator. */
    method Flush()
      modifies `input
      ensures input == 0.0
    {
      input := 0.0;
    }

    /**
     * Adds weights[c] * input to the accumulator of the c-th connected
     * neuron; nothing else changes.
     */
    method FeedForward()
      requires |connected| <= |weights|
      requires this !in connected
      requires forall c, d :: 0 <= c < d < |connected| ==> connected[c] != connected[d]
      modifies connected`input
      ensures forall c :: 0 <= c < |connected| ==>
        connected[c].input == old(connected[c].input) + Signal(weights[c], input)
    {
      var targets, ws, x := connected, weights, input;
      var c := 0;
      while c < |targets|
        invariant 0 <= c <= |targets| && x == input
        invariant forall d :: 0 <= d < |targets| ==>
          targets[d].input == old(targets[d].input) + (if d < c then Signal(ws[d], x) else 0.0)
      {
        targets[c].input := targets[c].input + ws[c] * x;
        c := c + 1;
      }
    }
  }

  class NeuralNetwork {
    var layers: seq<seq<Neuron>>
    var definition: seq<int>
    /** The weights of every neuron, by layer and position. */
    ghost var W: Weights
    /** Where each neuron sits; it makes the neurons pairwise distinct. */
    ghost var Pos: map<Neuron, (nat, nat)>
    ghost var Repr: set<Neuron>

    ghost predicate Valid()
      reads this, Repr`weights, Repr`connected
    {
      && 1 <= |layers| <= |definition|
      && |W| == |layers|
      && Repr == Pos.Keys
      && (forall i :: 0 <= i < |layers| ==> |layers[i]| == LayerSize(definition[i]) && |W[i]| == |layers[i]|)
      && Placed(layers, Pos)
      && (forall i, j :: 0 <= i < |layers| && 0 <= j < |layers[i]| ==>
            && layers[i][j].weights == W[i][j]
            && layers[i][j].connected == Successors(i))
      && Fits(W)
    }

    /**
     * Builds layerCount layers sized by definition, connects every neuron of
     * a non-final layer to every neuron of the next layer with one drawn
     * weight per connection, and gives every final-layer neuron one drawn
     * scaling weight.
     */
    constructor (layerCount: nat, definition: seq<int>, uniform: (nat, nat, nat) -> real)
      requires 1 <= layerCount <= |definition|
      ensures Valid() && fresh(Repr)
      ensures this.definition == definition && |layers| == layerCount
      ensures W == InitialWeights(Shape(definition, layerCount), uniform)
    {
      var ls: seq<seq<Neuron>>;
      ghost var pos: map<Neuron, (nat, nat)>;
      ghost var sizes := Shape(definition, layerCount);
      ls, pos := Build(layerCount, definition, uniform);
      layers := ls;
      this.definition := definition;
      W := InitialWeights(sizes, uniform);
      Pos := pos;
      Repr := pos.Keys;
      InitialWeightsFit(sizes, uniform);
    }

    /**
     * Flushes every neuron, loads inputs[c] into the c-th neuron of the first
     * layer, lets every layer in turn feed the next, and returns each final
     * neuron's accumulator times its scaling weight. Only accumulators change.
     */
    method Activate(inputs: seq<real>) returns (outputs: seq<real>)
      requires Valid()
      requires |layers[0]| <= |inputs|
      modifies Repr`input
      ensures outputs == Forward(W, inputs)
    {
      FlushAll();
      LoadInputs(inputs);
      Propagate(inputs);
      var last := |layers| - 1;
      outputs := Outputs(layers[last], LayerValues(W, inputs, last), W[last]);
    }

    /** The feeding loop of activate: from flushed accumulators and loaded inputs, every layer settles in turn. */
    method Propagate(inputs: seq<real>)
      requires Valid() && |layers[0]| <= |inputs|
      requires forall b :: 0 <= b < |layers[0]| ==> layers[0][b].input == inputs[b]
      requires forall a, b :: 0 < a < |layers| && 0 <= b < |layers[a]| ==> layers[a][b].input == 0.0
      modifies Repr`input
      ensures forall a, b :: a == |layers| - 1 && 0 <= b < |layers[a]| ==>
        layers[a][b].input == LayerValues(W, inputs, a)[b]
    {
      var last := |layers| - 1;
      for i := 0 to |layers|
        invariant i < |layers| ==> forall b :: 0 <= b < |layers[i]| ==> layers[i][b].input == LayerValues(W, inputs, i)[b]
        invariant i == |layers| ==> forall b :: 0 <= b < |layers[last]| ==> layers[last][b].input == LayerValues(W, inputs, last)[b]
        invariant forall a, b :: i < a < |layers| && 0 <= b < |layers[a]| ==> layers[a][b].input == 0.0
      {
        SettleNext(i, inputs);
      }
    }

    /**
     * One pass of activate's feeding loop, seen from the whole network: when
     * layer i holds its settled accumulators and every later layer is
     * flushed, feeding layer i settles layer i+1 and leaves every other
     * layer as it was.
     */
    method SettleNext(i: nat, inputs: seq<real>)
      requires Valid() && i < |layers| && |layers[0]| <= |inputs|
      requires forall b :: 0 <= b < |layers[i]| ==> layers[i][b].input == LayerValues(W, inputs, i)[b]
      requires forall a, b :: i < a < |layers| && 0 <= b < |layers[a]| ==> layers[a][b].input == 0.0
      modifies Successors(i)`input
      ensures forall a, b :: a == i + 1 < |layers| && 0 <= b < |layers[a]| ==>
        layers[a][b].input == LayerValues(W, inputs, a)[b]
      ensures forall a, b :: 0 <= a < |layers| && a != i + 1 && 0 <= b < |layers[a]| ==>
        layers[a][b].input == old(layers[a][b].input)
    {
      FeedLayer(i, LayerValues(W, inputs, i));
      if i + 1 < |layers| {
        LayerValuesNext(W, inputs, i);
      }
    }

    /** The flush loop of activate: every accumulator becomes 0. */
    method FlushAll()
      requires Valid()
      modifies Repr`input
      ensures forall a, b :: 0 <= a < |layers| && 0 <= b < |layers[a]| ==> layers[a][b].input == 0.0
    {
      for i := 0 to |layers|
        invariant forall a, b :: 0 <= a < i && 0 <= b < |layers[a]| ==> layers[a][b].input == 0.0
      {
        for j := 0 to |layers[i]|
          invariant forall a, b :: 0 <= a < i && 0 <= b < |layers[a]| ==> layers[a][b].input == 0.0
          invariant forall b :: 0 <= b < j ==> layers[i][b].input == 0.0
        {
          layers[i][j].Flush();
        }
      }
    }

    /** The loading loop of activate: neuron c of the first layer receives inputs[c]. */
    method LoadInputs(inputs: seq<real>)
      requires Valid()
      requires |layers[0]| <= |inputs|
      modifies layers[0]`input
      ensures forall b :: 0 <= b < |layers[0]| ==> layers[0][b].input == inputs[b]
    {
      for c := 0 to |layers[0]|
        invariant forall b :: 0 <= b < c ==> layers[0][b].input == inputs[b]
      {
        layers[0][c].input := inputs[c];
      }
    }

    /** Neuron j of layer i. */
    function NeuronAt(i: nat, j: nat): Neuron
      reads this
      requires i < |layers| && j < |layers[i]|
    {
      layers[i][j]
    }

    /** Overwrites slot k of neuron j of layer i with value; nothing else changes. */
    method SetWeight(i: nat, j: nat, k: nat, value: real)
      requires Valid() && i < |layers| && j < |layers[i]| && k < |W[i][j]|
      modifies this`W, NeuronAt(i, j)`weights
      ensures Valid()
      ensures layers == old(layers) && definition == old(definition) && Repr == old(Repr)
      ensures W == old(W)[i := old(W)[i][j := old(W)[i][j][k := value]]]
    {
      var n := layers[i][j];
      n.weights := n.weights[k := value];
      W := W[i := W[i][j := W[i][j][k := value]]];
    }

    /** The neurons that neuron j of layer i feeds: the whole next layer, or none. */
    function Successors(i: nat): seq<Neuron>
      requires i < |layers|
      reads this
    {
      if i + 1 < |layers| then layers[i + 1] else []
    }

    /**
     * One pass of activate's feeding loop: every neuron of layer i, whose
     * accumulators hold v, feeds forward, so neuron k of layer i+1 gains the
     * weighted sum of v.
     */
    method FeedLayer(i: nat, ghost v: seq<real>)
      requires Valid() && i < |layers|
      requires |v| == |layers[i]| && forall b :: 0 <= b < |v| ==> layers[i][b].input == v[b]
      modifies Successors(i)`input
      ensures i + 1 < |layers| ==> forall k :: 0 <= k < |layers[i + 1]| ==>
        layers[i + 1][k].input == old(layers[i + 1][k].input) + Dot(W[i], v, k, |v|)
      ensures forall a, b :: 0 <= a < |layers| && a != i + 1 && 0 <= b < |layers[a]| ==>
        layers[a][b].input == old(layers[a][b].input)
    {
      FeedReady(this, i);
      FeedAll(layers[i], Successors(i), v, W[i]);
    }
  }

  /**
   * What FeedLayer needs from a valid network: layer i's neurons point at
   * their successors, which are distinct and belong to no other layer.
   */
  lemma FeedReady(net: NeuralNetwork, i: nat)
    requires net.Valid() && i < |net.layers|
    ensures forall b :: 0 <= b < |net.layers[i]| ==>
      && net.layers[i][b].connected == net.Successors(i) && net.layers[i][b].weights == net.W[i][b]
      && |net.Successors(i)| <= |net.W[i][b]|
    ensures forall b :: 0 <= b < |net.layers[i]| ==> net.layers[i][b] !in net.Successors(i)
    ensures forall c, d :: 0 <= c < d < |net.Successors(i)| ==> net.Successors(i)[c] != net.Successors(i)[d]
    ensures forall a, b :: 0 <= a < |net.layers| && a != i + 1 && 0 <= b < |net.layers[a]| ==>
      net.layers[a][b] !in net.Successors(i)
  {
    if i + 1 < |net.layers| {
      PlacedApart(net.layers, net.Pos, i + 1);
    }
  }

  /**
   * The result list of activate: each final neuron's accumulator, which holds
   * v[b], times its first weight, ws[b][0].
   */
  method Outputs(last: seq<Neuron>, ghost v: seq<real>, ghost ws: seq<seq<real>>) returns (outputs: seq<real>)
    requires |v| == |ws| == |last|
    requires forall b :: 0 <= b < |last| ==> last[b].input == v[b] && last[b].weights == ws[b] && 0 < |ws[b]|
    ensures outputs == Scaled(v, ws)
  {
    outputs := [];
    for j := 0 to |last|
      invariant |outputs| == j
      invariant forall b :: 0 <= b < j ==> outputs[b] == v[b] * ws[b][0]
    {
      outputs := outputs + [last[j].input * last[j].weights[0]];
    }
    assert forall b :: 0 <= b < |last| ==> outputs[b] == Scaled(v, ws)[b];
  }

  /**
   * The inner feeding loop of activate: every neuron of `sources`, whose
   * accumulators hold v and whose weights are Wi, feeds `targets`.
   */
  method FeedAll(sources: seq<Neuron>, targets: seq<Neuron>, ghost v: seq<real>, ghost Wi: seq<seq<real>>)
    requires |v| == |sources| == |Wi|
    requires forall b :: 0 <= b < |sources| ==>
      && sources[b].connected == targets && sources[b].weights == Wi[b]
      && sources[b].input == v[b] && |targets| <= |Wi[b]|
    requires forall b :: 0 <= b < |sources| ==> sources[b] !in targets
    requires forall c, d :: 0 <= c < d < |targets| ==> targets[c] != targets[d]
    modifies targets`input
    ensures forall k :: 0 <= k < |targets| ==> targets[k].input == old(targets[k].input) + Dot(Wi, v, k, |v|)
  {
    for j := 0 to |sources|
      invariant forall b :: 0 <= b < |sources| ==> sources[b].input == v[b]
      invariant forall k :: 0 <= k < |targets| ==> targets[k].input == old(targets[k].input) + Dot(Wi, v, k, j)
    {
      label before:
      sources[j].FeedForward();
      forall k | 0 <= k < |targets|
        ensures targets[k].input == old(targets[k].input) + Dot(Wi, v, k, j + 1)
      {
        assert targets[k].input == old@before(targets[k].input) + Signal(Wi[j][k], v[j]);
        assert old@before(targets[k].input) == old(targets[k].input) + Dot(Wi, v, k, j);
      }
    }
  }

  /** The first loop of the constructor: layer i gets LayerSize(definition[i]) fresh neurons. */
  method NewLayers(layerCount: nat, definition: seq<int>) returns (ls: seq<seq<Neuron>>, ghost pos: map<Neuron, (nat, nat)>)
    requires layerCount <= |definition|
    ensures |ls| == layerCount
    ensures forall a :: 0 <= a < layerCount ==> |ls[a]| == LayerSize(definition[a])
    ensures forall a, b :: 0 <= a < layerCount && 0 <= b < |ls[a]| ==> ls[a][b] in pos && pos[ls[a][b]] == (a, b)
    ensures forall n :: n in pos ==> fresh(n) && n.weights == [] && n.connected == []
  {
    ls := [];
    pos := map[];
    for i := 0 to layerCount
      invariant |ls| == i
      invariant forall a :: 0 <= a < i ==> |ls[a]| == LayerSize(definition[a])
      invariant forall a, b :: 0 <= a < i && 0 <= b < |ls[a]| ==> ls[a][b] in pos && pos[ls[a][b]] == (a, b)
      invariant forall n :: n in pos ==> fresh(n) && n.weights == [] && n.connected == []
    {
      ls := ls + [[]];
      for c := 0 to LayerSize(definition[i])
        invariant |ls| == i + 1 && |ls[i]| == c
        invariant forall a :: 0 <= a < i ==> |ls[a]| == LayerSize(definition[a])
        invariant forall a, b :: 0 <= a <= i && 0 <= b < |ls[a]| ==> ls[a][b] in pos && pos[ls[a][b]] == (a, b)
        invariant forall n :: n in pos ==> fresh(n) && n.weights == [] && n.connected == []
      {
        var n := new Neuron();
        ls := ls[i := ls[i] + [n]];
        pos := pos[n := (i, c)];
      }
    }
  }

  /**
   * The three loops of the constructor: fresh neurons, layer by layer, each
   * connected to every neuron of the next layer, with the drawn weights.
   */
  method Build(layerCount: nat, definition: seq<int>, uniform: (nat, nat, nat) -> real)
    returns (ls: seq<seq<Neuron>>, ghost pos: map<Neuron, (nat, nat)>)
    requires 1 <= layerCount <= |definition|
    ensures |ls| == layerCount && Placed(ls, pos) && fresh(pos.Keys)
    ensures forall a :: 0 <= a < layerCount ==> |ls[a]| == LayerSize(definition[a])
    ensures forall a, b :: 0 <= a < layerCount && 0 <= b < |ls[a]| ==>
      && ls[a][b].weights == InitialWeights(Shape(definition, layerCount), uniform)[a][b]
      && ls[a][b].connected == (if a + 1 < layerCount then ls[a + 1] else [])
  {
    ls, pos := NewLayers(layerCount, definition);
    for i := 0 to layerCount - 1
      invariant forall a, b {:trigger ls[a][b]} :: 0 <= a < layerCount && 0 <= b < |ls[a]| ==>
        && ls[a][b].connected == (if a < i then ls[a + 1] else [])
        && ls[a][b].weights == (if a < i then Draws(uniform, a, b, |ls[a + 1]|) else [])
    {
      ConnectLayer(ls, pos, i, uniform);
    }
    AddScalingWeights(ls, pos, uniform);
    BuiltWeights(ls, definition, uniform);
  }

  /** The weights Build leaves in its neurons are the initial weights. */
  lemma BuiltWeights(ls: seq<seq<Neuron>>, definition: seq<int>, uniform: (nat, nat, nat) -> real)
    requires 1 <= |ls| <= |definition|
    requires forall a :: 0 <= a < |ls| ==> |ls[a]| == LayerSize(definition[a])
    requires forall a, b :: 0 <= a < |ls| && 0 <= b < |ls[a]| ==>
      ls[a][b].weights == (if a + 1 < |ls| then Draws(uniform, a, b, |ls[a + 1]|) else [uniform(a, b, 0)])
    ensures forall a, b :: 0 <= a < |ls| && 0 <= b < |ls[a]| ==>
      ls[a][b].weights == InitialWeights(Shape(definition, |ls|), uniform)[a][b]
  {
    var sizes := Shape(definition, |ls|);
    forall a, b | 0 <= a < |ls| && 0 <= b < |ls[a]|
      ensures ls[a][b].weights == InitialWeights(sizes, uniform)[a][b]
    {
      assert InitialWeights(sizes, uniform)[a][b] == InitialDraws(sizes, uniform, a, b);
    }
  }

  /** The neurons of ls sit where pos says, so no neuron occurs twice. */
  ghost predicate Placed(ls: seq<seq<Neuron>>, pos: map<Neuron, (nat, nat)>) {
    forall a, b :: 0 <= a < |ls| && 0 <= b < |ls[a]| ==> ls[a][b] in pos && pos[ls[a][b]] == (a, b)
  }

  /** Placed layers share no neuron, and no neuron occurs twice in layer i. */
  lemma PlacedApart(ls: seq<seq<Neuron>>, pos: map<Neuron, (nat, nat)>, i: nat)
    requires Placed(ls, pos) && i < |ls|
    ensures forall a, b :: 0 <= a < |ls| && a != i && 0 <= b < |ls[a]| ==> ls[a][b] !in ls[i]
    ensures forall b, b' :: 0 <= b < b' < |ls[i]| ==> ls[i][b] != ls[i][b']
  {
    forall a, b | 0 <= a < |ls| && a != i && 0 <= b < |ls[a]|
      ensures ls[a][b] !in ls[i]
    {
      forall b' | 0 <= b' < |ls[i]|
        ensures ls[i][b'] != ls[a][b]
      {
        assert pos[ls[i][b']] == (i, b') != pos[ls[a][b]];
      }
    }
  }

  /**
   * The second loop of the constructor for source layer i: each of its
   * neurons gains, in order, a connection to every neuron of layer i+1 and
   * one drawn weight per connection, appended to what it already holds.
   */
  method ConnectLayer(ls: seq<seq<Neuron>>, ghost pos: map<Neuron, (nat, nat)>, i: nat, uniform: (nat, nat, nat) -> real)
    requires i + 1 < |ls| && Placed(ls, pos)
    modifies ls[i]
    ensures forall b :: 0 <= b < |ls[i]| ==>
      && ls[i][b].connected == old(ls[i][b].connected) + ls[i + 1]
      && ls[i][b].weights == old(ls[i][b].weights) + Draws(uniform, i, b, |ls[i + 1]|)
    ensures forall a, b :: 0 <= a < |ls| && a != i && 0 <= b < |ls[a]| ==>
      ls[a][b].connected == old(ls[a][b].connected) && ls[a][b].weights == old(ls[a][b].weights)
  {
    PlacedApart(ls, pos, i);
    for j := 0 to |ls[i]|
      invariant forall b :: 0 <= b < j ==>
        && ls[i][b].connected == old(ls[i][b].connected) + ls[i + 1]
        && ls[i][b].weights == old(ls[i][b].weights) + Draws(uniform, i, b, |ls[i + 1]|)
      invariant forall b :: j <= b < |ls[i]| ==>
        ls[i][b].connected == old(ls[i][b].connected) && ls[i][b].weights == old(ls[i][b].weights)
    {
      var source := ls[i][j];
      ghost var links, ws := source.connected, source.weights;
      for k := 0 to |ls[i + 1]|
        invariant source.connected == links + ls[i + 1][..k]
        invariant source.weights == ws + Draws(uniform, i, j, k)
        modifies source
      {
        source.connected := source.connected + [ls[i + 1][k]];
        source.weights := source.weights + [uniform(i, j, k)];
      }
    }
  }

  /** The third loop of the constructor: every neuron of the final layer draws one scaling weight. */
  method AddScalingWeights(ls: seq<seq<Neuron>>, ghost pos: map<Neuron, (nat, nat)>, uniform: (nat, nat, nat) -> real)
    requires 0 < |ls| && Placed(ls, pos)
    modifies ls[|ls| - 1]
    ensures forall a, b :: 0 <= a < |ls| && 0 <= b < |ls[a]| ==>
      && ls[a][b].connected == old(ls[a][b].connected)
      && ls[a][b].weights == old(ls[a][b].weights) + (if a == |ls| - 1 then [uniform(a, b, 0)] else [])
  {
    var i := |ls| - 1;
    PlacedApart(ls, pos, i);
    for j := 0 to |ls[i]|
      invariant forall b :: 0 <= b < |ls[i]| ==> ls[i][b].connected == old(ls[i][b].connected)
      invariant forall b :: 0 <= b < j ==> ls[i][b].weights == old(ls[i][b].weights) + [uniform(i, b, 0)]
      invariant forall b :: j <= b < |ls[i]| ==> ls[i][b].weights == old(ls[i][b].weights)
    {
      ls[i][j].weights := ls[i][j].weights + [uniform(i, j, 0)];
    }
  }

  // ---------------------------------------------------------------------------
  // Merge

  /** The product of every entry of the definition, taken left to right from 1. */
  method DefinitionProduct(definition: seq<int>) returns (count: int)
    ensures count == Product(definition)
  {
    count := 1;
    var i := 0;
    while i < |definition|
      invariant 0 <= i <= |definition| && count == Product(definition[..i])
    {
      assert definition[..i + 1][..i] == definition[..i];
      count := count * definition[i];
      i := i + 1;
    }
    assert definition[..|definition|] == definition;
  }

  /** Two fitting weight tables with the same layer sizes have the same shape. */
  lemma FitsSameShape(V: Weights, W: Weights)
    requires Fits(V) && Fits(W) && |V| == |W|
    requires forall i :: 0 <= i < |V| ==> |V[i]| == |W[i]|
    ensures SameShape(V, W)
  {
  }

  /**
   * The copy phase for one neuron: slot k, counted c + k, is set from w1
   * when c + k > count / 2 and from w2 otherwise. Returns the counter after
   * the neuron's last slot.
   */
  method CopyNeuron(target: Neuron, w1: seq<real>, w2: seq<real>, count: int, c: nat) returns (next: nat)
    requires |target.weights| == |w1| <= |w2|
    modifies target`weights
    ensures target.weights == CrossedSlots(w1, w2, count, c)
    ensures next == c + |w1|
  {
    next := c;
    var k := 0;
    while k < |w1|
      invariant 0 <= k <= |w1| && next == c + k && |target.weights| == |w1|
      invariant forall m :: 0 <= m < k ==> target.weights[m] == CrossedSlots(w1, w2, count, c)[m]
    {
      if 2 * next > count {
        target.weights := target.weights[k := w1[k]];
      } else {
        target.weights := target.weights[k := w2[k]];
      }
      next := next + 1;
      k := k + 1;
    }
  }

  /**
   * The copy phase for one layer: every target neuron b gets its slots from
   * L1[b] and L2[b], its first slot counted c plus the slots of the neurons
   * before it. Returns the counter after the layer's last slot.
   */
  method CopyLayer(targets: seq<Neuron>, ghost pos: map<Neuron, (nat, nat)>, L1: seq<Neuron>, L2: seq<Neuron>,
                   ghost W1: Weights, ghost W2: Weights, i: nat, count: int, c: nat)
    returns (next: nat)
    requires Covers(W1, W2) && i < |W1| && c == LayerSlots(W1, i)
    requires |targets| == |L1| == |W1[i]| && |L2| == |W2[i]|
    requires forall b {:trigger targets[b]} :: 0 <= b < |targets| ==>
      targets[b] in pos && pos[targets[b]] == (i, b) && |targets[b].weights| == |W1[i][b]|
    requires forall b {:trigger L1[b]} :: 0 <= b < |L1| ==> L1[b].weights == W1[i][b] && L1[b] !in pos
    requires forall b {:trigger L2[b]} :: 0 <= b < |L2| ==> L2[b].weights == W2[i][b] && L2[b] !in pos
    modifies targets`weights
    ensures forall b :: 0 <= b < |targets| ==> targets[b].weights == CrossedNeuron(W1, W2, count, i, b)
    ensures next == LayerSlots(W1, i + 1)
  {
    next := c;
    var j := 0;
    while j < |targets|
      invariant 0 <= j <= |targets| && next == SlotsBefore(W1, i, j)
      invariant forall b {:trigger targets[b]} :: 0 <= b < j ==> targets[b].weights == CrossedNeuron(W1, W2, count, i, b)
      invariant forall b {:trigger targets[b]} :: j <= b < |targets| ==> |targets[b].weights| == |W1[i][b]|
      invariant forall b {:trigger L1[b]} :: 0 <= b < |L1| ==> L1[b].weights == W1[i][b]
      invariant forall b {:trigger L2[b]} :: 0 <= b < |L2| ==> L2[b].weights == W2[i][b]
    {
      var target := targets[j];
      label before:
      next := CopyNeuron(target, L1[j].weights, L2[j].weights, count, next);
      forall b | 0 <= b < |targets| && b != j
        ensures targets[b].weights == old@before(targets[b].weights)
      {
        assert pos[targets[b]] != pos[target];
      }
      forall b | 0 <= b < |L1|
        ensures L1[b].weights == W1[i][b]
      {
        assert L1[b] != target;
      }
      forall b | 0 <= b < |L2|
        ensures L2[b].weights == W2[i][b]
      {
        assert L2[b] != target;
      }
      j := j + 1;
    }
  }

  /**
   * The copy phase of merge: every weight of merged is taken from net1 or
   * net2 as the counter running through layers, neurons and slots decides.
   */
  method CopyWeights(merged: NeuralNetwork, net1: NeuralNetwork, net2: NeuralNetwork, count: int)
    requires merged.Valid() && net1.Valid() && net2.Valid()
    requires merged != net1 && merged != net2
    requires merged.Repr !! net1.Repr && merged.Repr !! net2.Repr
    requires Covers(net1.W, net2.W) && SameShape(merged.W, net1.W)
    modifies merged`W, merged.Repr`weights
    ensures merged.Valid()
    ensures merged.layers == old(merged.layers) && merged.definition == old(merged.definition)
    ensures merged.Repr == old(merged.Repr)
    ensures merged.W == Crossed(net1.W, net2.W, count)
  {
    NeuronsOutside(net1, merged.Pos);
    NeuronsOutside(net2, merged.Pos);
    MirroredLengths(merged);
    var ls := merged.layers;
    ghost var pos := merged.Pos;
    CopyAll(ls, pos, net1.layers, net2.layers, net1.W, net2.W, count);
    merged.W := Crossed(net1.W, net2.W, count);
    ShapeKeepsFit(merged.W, net1.W);
    assert merged.layers == ls && merged.Pos == pos;
    forall a, b | 0 <= a < |ls| && 0 <= b < |ls[a]|
      ensures ls[a][b].weights == merged.W[a][b]
    {
      assert ls[a][b].weights == CrossedNeuron(net1.W, net2.W, count, a, b);
    }
  }

  /** The neurons of a valid network lie outside any map disjoint from its Repr. */
  lemma NeuronsOutside(net: NeuralNetwork, pos: map<Neuron, (nat, nat)>)
    requires net.Valid() && net.Repr !! pos.Keys
    ensures forall a, b :: 0 <= a < |net.layers| && 0 <= b < |net.layers[a]| ==> net.layers[a][b] !in pos
  {
    forall a, b | 0 <= a < |net.layers| && 0 <= b < |net.layers[a]|
      ensures net.layers[a][b] !in pos
    {
      assert net.layers[a][b] in net.Repr;
    }
  }

  /** The neurons of a valid network hold as many weights as its mirror says. */
  lemma MirroredLengths(net: NeuralNetwork)
    requires net.Valid()
    ensures forall a, b :: 0 <= a < |net.layers| && 0 <= b < |net.layers[a]| ==> |net.layers[a][b].weights| == |net.W[a][b]|
  {
  }

  /**
   * The loops of merge's copy phase: layer by layer, every neuron of ts gets
   * the weights the counter selects from the matching neurons of ls1 and ls2.
   */
  method CopyAll(ts: seq<seq<Neuron>>, ghost pos: map<Neuron, (nat, nat)>, ls1: seq<seq<Neuron>>, ls2: seq<seq<Neuron>>,
                 ghost W1: Weights, ghost W2: Weights, count: int)
    requires Covers(W1, W2) && Placed(ts, pos)
    requires |ts| == |ls1| == |W1| && |ls2| == |W2|
    requires forall a :: 0 <= a < |ls1| ==> |ts[a]| == |ls1[a]| == |W1[a]|
    requires forall a :: 0 <= a < |ls2| ==> |ls2[a]| == |W2[a]|
    requires forall a, b {:trigger ts[a][b]} :: 0 <= a < |ts| && 0 <= b < |ts[a]| ==> |ts[a][b].weights| == |W1[a][b]|
    requires forall a, b {:trigger ls1[a][b]} :: 0 <= a < |ls1| && 0 <= b < |ls1[a]| ==> ls1[a][b].weights == W1[a][b] && ls1[a][b] !in pos
    requires forall a, b {:trigger ls2[a][b]} :: 0 <= a < |ls2| && 0 <= b < |ls2[a]| ==> ls2[a][b].weights == W2[a][b] && ls2[a][b] !in pos
    modifies pos.Keys`weights
    ensures forall a, b {:trigger ts[a][b]} :: 0 <= a < |ts| && 0 <= b < |ts[a]| ==> ts[a][b].weights == CrossedNeuron(W1, W2, count, a, b)
    ensures forall a, b {:trigger ts[a][b]} :: 0 <= a < |ts| && 0 <= b < |ts[a]| ==> ts[a][b].connected == old(ts[a][b].connected)
  {
    var c := 0;
    var i := 0;
    while i < |ts|
      invariant 0 <= i <= |ts| && c == LayerSlots(W1, i)
      invariant forall a, b {:trigger ts[a][b]} :: 0 <= a < i && 0 <= b < |ts[a]| ==> ts[a][b].weights == CrossedNeuron(W1, W2, count, a, b)
      invariant forall a, b {:trigger ts[a][b]} :: i <= a < |ts| && 0 <= b < |ts[a]| ==> |ts[a][b].weights| == |W1[a][b]|
    {
      var targets := ts[i];
      PlacedApart(ts, pos, i);
      label before:
      c := CopyLayer(targets, pos, ls1[i], ls2[i], W1, W2, i, count, c);
      forall a, b | 0 <= a < |ts| && a != i && 0 <= b < |ts[a]|
        ensures ts[a][b].weights == old@before(ts[a][b].weights)
      {
        assert ts[a][b] !in targets;
      }
      i := i + 1;
    }
  }

  /** Weights shaped like a fitting table fit as well. */
  lemma ShapeKeepsFit(V: Weights, W: Weights)
    requires Fits(W) && SameShape(V, W)
    ensures Fits(V)
  {
  }

  /**
   * The genetic merge of two networks: a new network shaped like net1 whose
   * weights are copied from net1 or net2 (see Crossed), after which three
   * randomly chosen slots are each multiplied by a factor drawn from [-2, 2].
   * The mutation rate is accepted and never read.
   */
  method Merge(net1: NeuralNetwork, net2: NeuralNetwork, mutationRate: real,
               uniform: (nat, nat, nat) -> real, draw: nat -> Mutation)
    returns (merged: NeuralNetwork)
    requires net1.Valid() && net2.Valid()
    requires Covers(net1.W, net2.W) && Dense(net1.W)
    ensures fresh(merged) && fresh(merged.Repr) && merged.Valid()
    ensures merged.definition == net1.definition && |merged.layers| == |net1.layers|
    ensures merged.W == MergedWeights(net1.W, net2.W, Product(net1.definition), draw)
  {
    merged := new NeuralNetwork(|net1.layers|, net1.definition, uniform);
    FitsSameShape(merged.W, net1.W);
    var count := DefinitionProduct(net1.definition);
    CopyWeights(merged, net1, net2, count);
    MutationPhase(merged, net1, draw);
    assert count == Product(net1.definition);
  }

  /**
   * The mutation phase of merge: three times, a layer, a neuron and a slot
   * are drawn within net1's sizes and that slot of merged is multiplied by a
   * factor drawn from [-2, 2].
   */
  method MutationPhase(merged: NeuralNetwork, net1: NeuralNetwork, draw: nat -> Mutation)
    requires merged.Valid() && net1.Valid() && merged != net1 && merged.Repr !! net1.Repr
    requires SameShape(merged.W, net1.W) && Dense(net1.W)
    modifies merged`W, merged.Repr`weights
    ensures merged.Valid()
    ensures merged.layers == old(merged.layers) && merged.definition == old(merged.definition)
    ensures merged.Repr == old(merged.Repr)
    ensures merged.W == MutateAll(old(merged.W), Draws3(draw))
  {
    ghost var W0 := merged.W;
    var t := 0;
    while t < 3
      invariant 0 <= t <= 3 && merged.Valid() && net1.Valid()
      invariant merged.layers == old(merged.layers) && merged.definition == old(merged.definition)
      invariant merged.Repr == old(merged.Repr)
      invariant SameShape(merged.W, net1.W) && Dense(W0)
      invariant merged.W == MutateAll(W0, Draws3(draw)[..t])
    {
      ghost var before := merged.W;
      MutateOnce(merged, net1, draw(t));
      MutationStep(W0, draw, t, before, merged.W);
      t := t + 1;
    }
    assert Draws3(draw)[..3] == Draws3(draw);
  }

  /** One pass of merge's mutation loop: draw a slot within net1's sizes and scale that slot of merged. */
  method MutateOnce(merged: NeuralNetwork, net1: NeuralNetwork, m: Mutation)
    requires merged.Valid() && net1.Valid() && merged != net1 && merged.Repr !! net1.Repr
    requires SameShape(merged.W, net1.W) && Dense(net1.W)
    modifies merged`W, merged.Repr`weights
    ensures merged.Valid()
    ensures merged.layers == old(merged.layers) && merged.definition == old(merged.definition)
    ensures merged.Repr == old(merged.Repr)
    ensures SameShape(merged.W, net1.W) && Dense(old(merged.W)) && merged.W == Mutate(old(merged.W), m)
  {
    var i := Pick(m.layer, |net1.layers|);
    var j := Pick(m.neuron, |net1.layers[i]|);
    var k := Pick(m.slot, |net1.layers[i][j].weights|);
    ghost var before := merged.W;
    assert (i, j, k) == Target(net1.W, m);
    TargetByShape(before, net1.W, m);
    var w := merged.layers[i][j].weights[k];
    merged.SetWeight(i, j, k, Mutated(w, m));
    MutateIs(before, m, i, j, k);
  }

  /** After pass t, the weights hold the first t + 1 of the three mutations. */
  lemma MutationStep(W0: Weights, draw: nat -> Mutation, t: nat, before: Weights, after: Weights)
    requires Dense(W0) && t < 3
    requires before == MutateAll(W0, Draws3(draw)[..t])
    requires after == Mutate(before, draw(t))
    ensures after == MutateAll(W0, Draws3(draw)[..t + 1])
  {
    MutateAllSnoc(W0, Draws3(draw), t);
  }
}
