# Genetic pathfinding, modelled in Dafny

Genetic-Pathfinding evolves a population of agents on a 700 x 700 field. Each
agent has a position, a speed and an acceleration. Each turn it casts three
rays in the direction of its speed, feeds the ray distances and its offset to
the goal through a small feed-forward neural network, adds the network's
squashed outputs to its acceleration, and takes one Euler step. An agent dies
when it leaves the window or lands strictly inside a rectangular obstacle.
After a generation, agents are ranked by distance to the goal, plus 1000 if
dead. The best ones are bred: every ordered pair of survivors, and then each
survivor with itself, gives one child whose network is a genetic merge of
its parents' networks.

The model follows the source module by module:

- `Common`: plane points, the numeric library the source calls (`Maths`,
  supplied by the caller), and Python's `s[0:stop]` slicing.
- `Nets` (NeuralNetwork.py): `Neuron` and `NeuralNetwork` as classes whose
  neurons hold their weights, connections and accumulators. A ghost weight
  table `W` mirrors the neurons, and `Activate` is proved equal to `Forward`,
  a function of `W` and the inputs. `Merge` builds a new network. It is proved
  to leave the weight table `MergedWeights`: the copy phase `Crossed`
  followed by three mutations `MutateAll`.
- `Sensing` (the module-level helpers of Agent.py): the collision test,
  Euclidean distance, and the ray march of `get_raycast_hit`. The march is a
  loop proved equal to the function `RayHit`, whose step count `Steps` is
  shown to exist.
- `Decisions` (AgentAI.py): `sigmoid` with its overflow fallback, the five
  network inputs, and the acceleration change a network decides.
- `Agents` (Agent.py, AgentAI.py): the agent's state as the value
  `Kinematics`, the functions `Moved`, `Sight` and `Updated`, and the
  classes `Agent` and `AgentAI`. Their methods are proved to change the
  state exactly as those functions say.
- `Fields` (Field.py): the class `Field` and the module function `breed`.
  - Obstacle normalisation and fitness.
  - Ranking, specified by a stable insertion sort.
  - The breeding order, as slots `Start(p) + q`.
  - `start_simulation`, proved equal to the function `Run`. `Run` runs
    passes (`Pass`, one turn per agent by `Visit`) until every agent is
    counted dead or the pass budget is used up.

Update can raise `ZeroDivisionError` in two places: in `calculate_raycasts`
when `speed_x` is zero, and in `draw` when the new acceleration or speed
along x is zero. The model keeps these raises as a `raised` result, which
ends a pass and the simulation, as the exception does.

Some of the code's behaviour is easy to misread; the model follows the code:

- Merge compares the slot counter against half the product of the layer
  sizes, not half the number of weight slots. With the layer sizes
  `[5, 4, 4, 4, 2]` that every agent uses, no slot passes the test, so every
  weight is copied from the second parent (`Nets.DefaultMergeTakesSecond`).
- Merge does not need identical topologies. It reads the second parent at
  the first parent's indices, so the second parent need only be at least as
  large (`Covers`).
- The ray march is bounded by a hard-coded open box (0, 700) x (0, 700). The
  window size passed in (`maxW`, `maxH`) is not read.
- `move` kills an agent only strictly outside [0, width] x [0, height]. A
  position on the border survives.
- A zero `speed_x` is not guarded. It raises.
- The network constructor accepts a definition longer than the layer count
  and uses its first entries. A size of zero or below gives an empty layer.
- `activate` needs at least as many inputs as first-layer neurons, not
  exactly as many.
- `get_best_agents` returns (agent, fitness) pairs, not agents.

## Model

| member | source | states |
|---|---|---|
| Common.SliceTo | Field.py:133 | `s[0:stop]` is a prefix of `s` whose length follows Python's rules: a stop past the end takes all, a negative stop counts from the end |
| Nets.Neuron.constructor | NeuralNetwork.py:7-13 | a new neuron has accumulator 0, no connections and no weights |
| Nets.Neuron.FeedForward | NeuralNetwork.py:15-23 | the c-th connected neuron's accumulator grows by weights[c] times this neuron's accumulator; only connected accumulators change |
| Nets.Neuron.Flush | NeuralNetwork.py:25-30 | the accumulator becomes 0 and nothing else changes |
| Nets.NeuralNetwork.constructor | NeuralNetwork.py:34-54 | a well-formed network with `layers` layers sized by the definition, fresh neurons, and weight table InitialWeights of the layer sizes |
| Nets.NewLayers | NeuralNetwork.py:42-45 | layer a gets max(definition[a], 0) fresh neurons with no weights and no connections |
| Nets.ConnectLayer | NeuralNetwork.py:47-51 | every neuron of layer i gains, appended to what it already holds, a connection to every neuron of layer i + 1, in order, with one drawn weight per connection; other layers are unchanged |
| Nets.AddScalingWeights | NeuralNetwork.py:53-54 | each final-layer neuron gains exactly one drawn weight at the end; connections are unchanged |
| Nets.Build | NeuralNetwork.py:40-54 | the built neurons are distinct, each layer connects to the next, and their weights are the initial weight table |
| Nets.BuiltWeights | NeuralNetwork.py:46-54 | the weights the construction loops leave are exactly InitialWeights |
| Nets.InitialWeights | NeuralNetwork.py:42-45 | one row per layer, with one weight list per neuron of that layer |
| Nets.InitialWeightsFit | NeuralNetwork.py:47-54 | a new network is fully connected: a neuron of a non-final layer has one weight per neuron of the next layer, a final neuron one scaling weight |
| Nets.InitialWeightsBounded | NeuralNetwork.py:51-54 | if every uniform draw lies in [-1, 1], so does every initial weight |
| Nets.Forward | NeuralNetwork.py:73 | activate gives one output per final-layer neuron |
| Nets.NeuralNetwork.FlushAll | NeuralNetwork.py:62-64 | every neuron's accumulator is 0 |
| Nets.NeuralNetwork.LoadInputs | NeuralNetwork.py:65-68 | the b-th first-layer neuron holds inputs[b]; nothing else changes |
| Nets.NeuralNetwork.FeedLayer | NeuralNetwork.py:70-72 | feeding layer i adds, to each neuron k of layer i + 1, the weighted sum of layer i's accumulators; other layers keep theirs |
| Nets.FeedAll | NeuralNetwork.py:71-72 | after every source neuron has fed, each target's accumulator has grown by the weighted sum of the sources' accumulators |
| Nets.NeuralNetwork.SettleNext | NeuralNetwork.py:70-72 | once layer i has settled, feeding it settles layer i + 1 to LayerValues and leaves the other layers alone |
| Nets.NeuralNetwork.Propagate | NeuralNetwork.py:70-72 | from flushed accumulators and loaded inputs, the final layer settles to LayerValues |
| Nets.Outputs | NeuralNetwork.py:73 | the outputs are each final accumulator times that neuron's first (scaling) weight |
| Nets.NeuralNetwork.Activate | NeuralNetwork.py:56-73 | activate returns Forward(W, inputs), the layer-by-layer weighted sums scaled at the end; only accumulators change |
| Nets.NeuralNetwork.SetWeight | NeuralNetwork.py:111 | writing one weight slot changes exactly that slot of the weight table and keeps the network well-formed |
| Nets.DefinitionProduct | NeuralNetwork.py:94-96 | count is the product of the layer definition |
| Nets.Crossed | NeuralNetwork.py:97-105 | the copied table has the first parent's shape |
| Nets.CopyNeuron | NeuralNetwork.py:100-105 | a neuron's weights are taken from net1 where the running counter exceeds count / 2 and from net2 otherwise; the counter advances by the number of weights |
| Nets.CopyLayer | NeuralNetwork.py:99-105 | every neuron of layer i receives its crossed weights; the counter reaches the number of slots up to the end of layer i |
| Nets.CopyAll | NeuralNetwork.py:98-105 | every neuron receives its crossed weights; connections are unchanged |
| Nets.CopyWeights | NeuralNetwork.py:97-105 | after the copy phase the merged network is well-formed with weight table Crossed(net1, net2, count) |
| Nets.CrossedAllSecond | NeuralNetwork.py:101-104 | when count / 2 reaches the last counter value, every copied weight comes from the second parent, and the copy equals it when shapes agree |
| Nets.CrossedAllFirst | NeuralNetwork.py:101-104 | when count is negative, every copied weight comes from the first parent |
| Nets.DefaultMergeTakesSecond | NeuralNetwork.py:94-105 | for layer sizes [5, 4, 4, 4, 2] the product is 640, there are 62 weight slots, and every copied weight comes from the second parent |
| Nets.Pick | NeuralNetwork.py:108-110 | a randint draw lies in its range, and every value of the range is drawn by itself |
| Nets.Target | NeuralNetwork.py:108-110 | a mutation lands on an existing (layer, neuron, weight) slot |
| Nets.Mutate | NeuralNetwork.py:111 | a mutation keeps the shape of the weight table |
| Nets.MutateAll | NeuralNetwork.py:107-111 | any number of mutations keep the shape of the weight table |
| Nets.MutateAt | NeuralNetwork.py:111 | a mutation multiplies its target slot by the drawn factor and leaves every other slot unchanged |
| Nets.MutateAllElsewhere | NeuralNetwork.py:107-111 | a slot none of the mutations lands on keeps its weight |
| Nets.MutateBounded | NeuralNetwork.py:111 | a factor in [-2, 2] at most doubles the bound on the weights |
| Nets.MutateAllBounded | NeuralNetwork.py:107-111 | n mutations with factors in [-2, 2] multiply the weight bound by at most 2^n |
| Nets.MergedWeightsBounded | NeuralNetwork.py:85-112 | parents with weights in [-1, 1] give a child whose weights lie in [-8, 8] |
| Nets.MergedWeightsElsewhere | NeuralNetwork.py:97-111 | merge changes at most three slots: any other slot keeps the weight the copy phase gave it |
| Nets.MutateOnce | NeuralNetwork.py:108-111 | one mutation step updates the merged network's weights by Mutate, keeping it well-formed |
| Nets.MutationPhase | NeuralNetwork.py:107-111 | the three mutation steps leave MutateAll of the copied table |
| Nets.Merge | NeuralNetwork.py:85-112 | a fresh well-formed network with net1's definition and layer count and weight table MergedWeights(net1, net2, product of the definition); the mutation rate is not read |
| Sensing.CheckCollisions | Agent.py:180-191 | true exactly when some obstacle holds the point strictly inside |
| Sensing.CheckCollisionsAppend | Agent.py:188-191 | one more obstacle adds exactly the points strictly inside it |
| Sensing.DistanceNonNegative | Agent.py:150-157 | a distance is never negative |
| Sensing.DistanceSquared | Agent.py:150-157 | with an exact square root, the distance squared is the sum of the squared differences, and distance is symmetric |
| Sensing.RayPointClosed | Agent.py:171-176 | after n steps the march is at origin + n * (direction, gradient * direction) |
| Sensing.Steps | Agent.py:172-176 | the march ends: after n steps it stops (in an obstacle or out of the open box), at no earlier step, and n is 0 exactly when it stops at the origin |
| Sensing.RayHitStops | Agent.py:172-177 | the hit is strictly inside an obstacle or outside the open box (0, 700) x (0, 700); an origin that stops is its own hit |
| Sensing.RayHitOnRay | Agent.py:171-177 | the hit lies on the ray, on the side of the origin the direction points to |
| Sensing.StepsUnique | Agent.py:172-176 | the first stopping step is unique |
| Sensing.GetRaycastHit | Agent.py:160-177 | the loop returns RayHit, the first stopping point of the march |
| Decisions.Sigmoid | AgentAI.py:34-38 | sigmoid keeps the length of its input |
| Decisions.SigmoidBounds | AgentAI.py:34-38 | every sigmoid output lies in (0, 1], and an overflow anywhere makes every output 1 |
| Decisions.SqrtOfSquare | AgentAI.py:24-25 | with an exact square root, sqrt(pow(d, 2)) is abs(d) |
| Decisions.Inputs | AgentAI.py:24-25 | the inputs are the ray distances and two more |
| Decisions.InputsAreGaps | AgentAI.py:24-25 | the two extra inputs are the absolute x and y gaps to the goal |
| Decisions.Adjustments | AgentAI.py:27-28 | one adjustment per network output |
| Decisions.AdjustmentsBounded | AgentAI.py:27-28 | every adjustment lies in (-0.5, 0.5] |
| Decisions.Decision | AgentAI.py:24-28 | act decides one change per final-layer neuron |
| Decisions.DecisionBounded | AgentAI.py:24-28 | whatever the network's weights, each acceleration change lies in (-0.5, 0.5] |
| Agents.MovedSurvival | Agent.py:133-147 | a dead agent stays dead; a living one survives a move exactly when it lands in the closed window; move leaves accelerations alone |
| Agents.MovedTwice | Agent.py:140-143 | two moves advance the position by 2v + 3a and the speed by 2a (symplectic Euler) |
| Agents.Agent.Move | Agent.py:133-147 | the agent's state becomes Moved of the old state; only position, speed and death change |
| Agents.Heading | Agent.py:121-128 | the march direction is +0.5 or -0.5 |
| Agents.ViewHits | Agent.py:112-128 | calculate_raycasts finds three hits |
| Agents.Sight | Agent.py:130-131 | calculate_raycasts returns three distances |
| Agents.SightAhead | Agent.py:121-128 | every hit stops the march, and every ray goes to the side that the sign of speed_x points to |
| Agents.SightNonNegative | Agent.py:130-131 | the three distances are never negative |
| Agents.DistanceToSelf | Agent.py:150-157 | with an exact square root, a point is at distance 0 from itself |
| Agents.SightBlind | Agent.py:121-131 | an agent standing where every march stops sees [0, 0, 0] |
| Agents.Agent.CalculateRaycasts | Agent.py:105-131 | returns Sight of the agent's state: distances to the left, direct and right hits, in that order |
| Agents.UpdatedOutcome | Agent.py:62-85 | after update the agent is dead exactly when it left the closed window or landed strictly inside an obstacle, and each acceleration changed by an amount in (-0.5, 0.5] |
| Agents.Agent.constructor | Agent.py:7-28 | a living agent with the given state and a fresh controller that points back to it and drives net |
| Agents.Agent.Update | Agent.py:62-85 | a dead agent is untouched; a living one with zero speed_x raises and is untouched; any other becomes Updated of its old state, and raises exactly when drawing it divides by zero |
| Agents.AgentAI.constructor | AgentAI.py:8-15 | the controller holds the given agent and network |
| Agents.AgentAI.Act | AgentAI.py:17-31 | the controlled agent's accelerations grow by Decision; only accelerations and accumulators change |
| Fields.NormalizedInside | Field.py:57-58 | a recorded rectangle has ordered corners, and holds a point strictly inside exactly when it lies strictly between the two clicks on both axes |
| Fields.Rectangles | Field.py:54-60 | n rectangles are recorded |
| Fields.RectanglesAt | Field.py:54-60 | rectangle i is made from clicks 2i and 2i + 1 |
| Fields.FitnessRanksDeadLast | Field.py:91-92 | a living agent closer than 1000 to the goal ranks before any dead agent, and a dead agent's fitness is exactly 1000 more than a living one's at the same place |
| Fields.InsertPermutes | Field.py:102 | inserting adds exactly one element |
| Fields.InsertSorted | Field.py:102 | inserting into a sorted list keeps it sorted |
| Fields.InsertStable | Field.py:102 | an inserted element goes after every element of equal fitness |
| Fields.SortByFitnessCorrect | Field.py:102 | the sort is ascending by fitness, a permutation, and stable: agents of equal fitness keep their order |
| Fields.StartProduct | Field.py:124-132 | survivor p's children start at p * m + p |
| Fields.ParentsOf | Field.py:124-132 | child q of survivor p has parents (p, q) for q < m, and its last child has parents (p, p) |
| Fields.CandidatesInRange | Field.py:124-132 | each of the m * m + m candidates has both parents among the m survivors |
| Fields.MergedFed | Field.py:128-132 | a child's network keeps the input and output sizes update needs |
| Fields.Offspring | Field.py:128-132 | a fresh, well-formed agent at (50, 50) with speeds and accelerations 0.01, alive, driving the merge of its parents' networks |
| Fields.BreedStep | Field.py:128-129 | the child made for parents (p, q) is the next candidate; the child, its controller, network and neurons are new, so it is none of the children made before and shares no network with them; the parents are unchanged |
| Fields.BreedRound | Field.py:125-132 | survivor p gets m + 1 new children, no two sharing an agent or a network, none shared with an earlier survivor's children: one with each survivor in order, then one with itself |
| Fields.BreedBatch | Field.py:124-132 | after survivor p, the children made so far are the first candidates, in order, no two sharing an agent or a network; earlier children are kept and the added ones are new |
| Fields.Breed | Field.py:116-133 | breed returns the first max_amount of the m * m + m candidates in generation order: child t is a newborn driving the merge of the parents of slot t; every child is a new agent with a new network, and no two children share an agent or a network |
| Fields.Field.constructor | Field.py:11-25 | an empty field with the given size and goal |
| Fields.Field.AddAgent | Field.py:27-33 | the agent is appended; a new, well-formed agent keeps the field well-formed |
| Fields.Field.AddCollidable | Field.py:35-46 | the obstacle (p1, p2) is appended |
| Fields.Field.RecordCollidables | Field.py:48-60 | max(n, 0) normalised rectangles, built from consecutive pairs of clicks, are appended |
| Fields.VisitMatches | Field.py:72-75 | what update promises about one agent is exactly that agent's turn in a pass |
| Fields.TakeTurn | Field.py:72-75 | one turn of the inner loop has update's outcome: a dead agent is untouched, a zero speed_x raises, any other agent becomes Updated; the raycast after it changes nothing |
| Fields.Field.VisitAgent | Field.py:73-75 | agent i takes its turn; no other agent and no network weight changes |
| Fields.PassKeepsDead | Field.py:72-75 | a pass leaves dead agents exactly as they were |
| Fields.PassQuiet | Field.py:72-75 | in a pass that does not raise, every living agent had nonzero speed_x and was updated once |
| Fields.PassRaised | Field.py:72-75 | a pass that raises stops at the first agent whose turn raises: agents before it were updated, agents after it are untouched |
| Fields.PassEnds | Field.py:72-75 | a turn that raises ends the pass with the states reached so far |
| Fields.PassGoesOn | Field.py:72-75 | a quiet turn moves the pass on to the next agent |
| Fields.Field.PassStep | Field.py:72-75 | one turn moves the field along its pass |
| Fields.Field.Sweep | Field.py:72-75 | the inner loop leaves the states and the raise that Pass gives |
| Fields.DeadCount | Field.py:77-80 | the dead count never exceeds the number of agents |
| Fields.DeadCountAll | Field.py:71 | the dead count equals the number of agents exactly when every agent is dead |
| Fields.DeadCountGrows | Field.py:77-80 | if no agent comes back to life, the dead count does not fall |
| Fields.Field.CountDead | Field.py:77-80 | the recount returns DeadCount of the agents' states |
| Fields.RunEnds | Field.py:71-80 | the simulation completes at most the allowed number of passes; unless a pass raised, it ends only with every agent dead or the passes used up |
| Fields.RunKeepsDead | Field.py:71-80 | dead agents keep their state for the whole simulation, and the dead count never falls |
| Fields.Field.Tally | Field.py:77-80 | after a pass: a raise ends the run; otherwise the fresh count is DeadCount and the rest of the run is unchanged |
| Fields.Field.Round | Field.py:71-80 | one pass and recount take the run one pass closer to its outcome |
| Fields.Field.StartSimulation | Field.py:62-80 | the agents end in the states Run gives from their starting states; networks are unchanged; after a quiet pass the returned count is the true dead count |
| Fields.Field.GetFitnessVector | Field.py:83-93 | one pair per agent, in order: the agent and its distance to the goal, plus 1000 if dead |
| Fields.Field.GetBestAgents | Field.py:95-104 | the first `amount` pairs of the stable ascending sort of the fitness vector (Python slice rules), sorted by fitness |

## Left out

- Drawing is not modelled: the window, `draw`, `undraw`, the vector and field-of-view lines, and the obstacle and goal shapes. Only the `ZeroDivisionError` that `draw` raises at Agent.py:40 and 50 is kept, as the predicate `Drawable`.
- `print` in `act`, `get_best_agents` and `NeuralNetwork.print` is not modelled; it has no effect on state.
- `Field.clear` is not modelled. It only undraws agents and binds a local `agents`, so it changes no field state.
- `Agent.get_neural_net` is not a member of its own; the model reads `ai.net` directly.
- The driver script at Field.py:143-155 is not modelled. Of its constants only the layer sizes `[5, 4, 4, 4, 2]` appear, in `Nets.DefaultMergeTakesSecond`; the 30 agents, the two obstacles, the time limit of 10, the 10 survivors and the 50 children appear nowhere in the model.
- Fields.Field.StartSimulation: the wall clock is replaced by a budget of `sweeps` passes. Field.py:71 reads the clock only at the head of the loop, so a pass once begun always finishes, and a run under a real clock is exactly the model's run with `sweeps` set to the number of passes it began. How long a pass takes is not modelled.
- Fields.Field.RecordCollidables: the mouse clicks come in as the sequence `clicks`, and it requires at least 2n of them.
- Random draws come from oracle parameters. `uniform(i, j, k)` is the draw for weight k of neuron j of layer i, and `draw` or `draws` give merge's mutations. A raw `randint` draw is reduced into its range by `Nets.Pick`. Uniformity and independence are not modelled.
- Floats are modelled as exact reals: no rounding, infinities or NaN. Only the `OverflowError` of `math.pow` in `sigmoid` is kept, as `Maths.overflows`.
- `math.sqrt`, `atan`, `tan` and `pow(e, y)` are parameters in `Maths`. Lemmas that need a property of them say so: `SqrtNonNegative`, `ExpNonNegative`, `IsSquareRoot`.
- Decisions.Sigmoid: the bare `except` at AgentAI.py:37 would catch any error; the model catches only the overflow of `math.pow`, the one error the computation can raise.
- Nets.Neuron.FeedForward: requires the connected neurons to be distinct and not to include the neuron itself. Every network the constructor builds meets this; a neuron connected twice to one target, or to itself, is not modelled.
- Nets.Neuron.FeedForward: requires at least as many weights as connections; otherwise the source raises `IndexError` at NeuralNetwork.py:22.
- Nets.NeuralNetwork.constructor: requires 1 <= layers <= len(definition). Otherwise the source raises `IndexError` at NeuralNetwork.py:44, or at line 53 when there are no layers.
- Nets.NeuralNetwork.Activate: requires at least as many inputs as first-layer neurons; otherwise the source raises `IndexError` at NeuralNetwork.py:67.
- Nets.Merge: requires both networks well-formed, net2 at least as large as net1 everywhere (`Covers`), and no empty layer or weight list in net1 (`Dense`). Without them the source may raise `IndexError` at NeuralNetwork.py:104 or `ValueError` from `randint` at lines 108-110. `Covers` is stronger than the source needs: net2 is read only at the slots copied from it, those whose counter is at most half the product of net1's layer sizes. Merging a `[3, 1]` network with a `[2, 1]` one, for instance, reads net2 only at neurons 0 and 1 of its first layer and does not raise, though `Covers` fails.
- Agents.Agent.CalculateRaycasts: requires a nonzero `speed_x`. The source raises `ZeroDivisionError` at Agent.py:112 there; `Agents.Agent.Update` models that raise.
- Agents.AgentAI.Act: requires the network to take at most five inputs and give at least two outputs (`Fed`). Otherwise the source raises `IndexError` at NeuralNetwork.py:67 or AgentAI.py:30-31.
- Agents.Agent.Update: requires a well-formed agent, which includes `Fed`. Otherwise the source raises the same `IndexError`s.
- Sensing.GetRaycastHit: requires the direction to be 0.5 or -0.5, the only values `calculate_raycasts` passes. Other directions, zero included, could march forever.
- Fields.Breed: requires well-formed parents whose networks can be merged pairwise (`Covers`, `Dense`). Otherwise the merge raises as above. The `if a1 == a2: pass` at Field.py:126-127 has no effect and has no counterpart in the model.
- Fields.Field.AddAgent: keeps the field well-formed only for a new, well-formed agent. The source also accepts an agent twice, which would make it move twice per pass.
- Fields.Field.GetBestAgents: the sort is specified by a stable insertion sort (`SortByFitness`). Python's sort is stable too, so the result is the same list, but the sorting algorithm itself is not modelled.
- The back reference from `AgentAI` to its agent is the field `handled`, set once by the agent's constructor. Agents are not shared between controllers.
