/** Placing a model on a cluster (internal/cluster/scheduler.go). Weights are reals. */
module Scheduler {
  import opened Prelude

  const LOCAL := "local"
  const DEFAULT_ORDER := ["exo", "mlx_jaccl", "llama_cpp_rpc", LOCAL]

  // Sizes in GB; safeModel is a cap on model memory, derived from the memory if not
  // positive.
  datatype Node = Node(id: string, memory: int, safeModel: int)

  datatype Model = Model(
    id: string, minMemory: int, contextTokens: int, preferred: seq<string>, forceDistribute: bool)

  // The coordinator is device 0. split holds the parsed values of tensor_split, none
  // for one that does not parse; no split is configured if it is empty.
  datatype Config = Config(
    coordinator: Node, workers: seq<Node>, reserve: int, mode: string, strict: bool,
    coordinatorBackends: set<string>, split: seq<Option<real>>)

  function Nodes(cfg: Config): (r: seq<Node>)
    ensures r != []
  {
    [cfg.coordinator] + cfg.workers
  }

  // What the check of a configuration asks of nodes and models: nodes are named apart,
  // models have a name, a size and a context. It asks nothing of a node's memory.
  ghost predicate PassesCheck(cfg: Config, models: seq<Model>) {
    && (forall i :: 0 <= i < |Nodes(cfg)| ==> Nodes(cfg)[i].id != "")
    && (forall i, j :: 0 <= i < j < |Nodes(cfg)| ==> Nodes(cfg)[i].id != Nodes(cfg)[j].id)
    && models != []
    && forall i :: 0 <= i < |models| ==> !Blank(models[i].id) && models[i].minMemory > 0 && models[i].contextTokens > 0
  }

  // ---------- shares ----------

  function Sum(v: seq<real>): real {
    if v == [] then 0.0 else Sum(v[..|v| - 1]) + v[|v| - 1]
  }

  lemma {:induction false} SumMeans(a: seq<real>, b: seq<real>)
    ensures Sum(a + b) == Sum(a) + Sum(b)
    ensures forall x :: Sum([x]) == x
  {
    if b == [] {
      assert a + b == a;
    } else {
      SumMeans(a, b[..|b| - 1]);
      assert (a + b)[..|a + b| - 1] == a + b[..|b| - 1];
    }
    forall x: real
      ensures Sum([x]) == x
    {
      assert [x][..0] == [];
    }
  }

  ghost predicate NonNegative(v: seq<real>) {
    forall i :: 0 <= i < |v| ==> v[i] >= 0.0
  }

  // v scaled to the sum of 1.
  function Normalized(v: seq<real>): (r: seq<real>)
    requires Sum(v) != 0.0
    ensures |r| == |v| && forall i :: 0 <= i < |v| ==> r[i] == v[i] / Sum(v)
  {
    seq(|v|, i requires 0 <= i < |v| => v[i] / Sum(v))
  }

  function Weights(split: seq<Option<real>>): (r: seq<real>)
    ensures |r| == |split|
    ensures forall i :: 0 <= i < |split| ==> r[i] == if split[i].Some? then split[i].value else 0.0
  {
    seq(|split|, i requires 0 <= i < |split| => if split[i].Some? then split[i].value else 0.0)
  }

  // One value for each node, none negative, not all zero.
  predicate UsesSplit(nodes: seq<Node>, split: seq<Option<real>>) {
    && split != [] && |split| == |nodes|
    && (forall i :: 0 <= i < |split| ==> split[i].Some? && split[i].value >= 0.0)
    && Sum(Weights(split)) > 0.0
  }

  function Memories(nodes: seq<Node>): (r: seq<real>)
    ensures |r| == |nodes| && forall i :: 0 <= i < |nodes| ==> r[i] == nodes[i].memory as real
  {
    seq(|nodes|, i requires 0 <= i < |nodes| => nodes[i].memory as real)
  }

  function Ones(n: nat): (r: seq<real>)
    ensures |r| == n && forall i :: 0 <= i < n ==> r[i] == 1.0
  {
    seq(n, i => 1.0)
  }

  lemma {:induction false} SumOnes(n: nat)
    ensures Sum(Ones(n)) == n as real
  {
    if n > 0 {
      SumOnes(n - 1);
      assert Ones(n)[..n - 1] == Ones(n - 1);
    }
  }

  // What the shares are in proportion to: the split, else the memories, else nothing.
  function Basis(nodes: seq<Node>, split: seq<Option<real>>): (r: seq<real>)
    requires nodes != []
    ensures |r| == |nodes| && Sum(r) > 0.0
  {
    if UsesSplit(nodes, split) then Weights(split)
    else if Sum(Memories(nodes)) > 0.0 then Memories(nodes)
    else
      SumOnes(|nodes|);
      Ones(|nodes|)
  }

  function Shares(nodes: seq<Node>, split: seq<Option<real>>): (r: seq<real>)
    requires nodes != []
    ensures |r| == |nodes|
  {
    Normalized(Basis(nodes, split))
  }

  lemma {:induction false} SumScaled(v: seq<real>, w: seq<real>, d: real)
    requires |w| == |v| && d != 0.0 && forall i :: 0 <= i < |v| ==> w[i] == v[i] / d
    ensures Sum(w) == Sum(v) / d
  {
    if v != [] {
      var n := |v| - 1;
      SumScaled(v[..n], w[..n], d);
      SumOfQuotients(Sum(v[..n]), v[n], d);
    }
  }

  lemma SumOfQuotients(a: real, b: real, d: real)
    requires d != 0.0
    ensures a / d + b / d == (a + b) / d
  {
  }

  lemma QuotientSign(a: real, d: real)
    requires d > 0.0
    ensures a >= 0.0 <==> a / d >= 0.0
  {
    assert a == (a / d) * d;
  }

  // In every branch the shares sum to 1.
  lemma SharesSumToOne(nodes: seq<Node>, split: seq<Option<real>>)
    requires nodes != []
    ensures Sum(Shares(nodes, split)) == 1.0
  {
    var basis := Basis(nodes, split);
    SumScaled(basis, Shares(nodes, split), Sum(basis));
    Itself(Sum(basis));
  }

  lemma Itself(d: real)
    requires d != 0.0
    ensures d / d == 1.0
  {
  }

  lemma ScaledProportion(a: real, b: real, d: real)
    requires d != 0.0
    ensures (a / d) * b == (b / d) * a
  {
    assert a / d * b == a * b / d;
  }

  lemma {:induction false} WeightsPositive(split: seq<Option<real>>)
    requires forall i :: 0 <= i < |split| ==> split[i].Some? && split[i].value >= 0.0
    ensures Sum(Weights(split)) >= 0.0
    ensures Sum(Weights(split)) > 0.0 <==> exists i :: 0 <= i < |split| && split[i] != Some(0.0)
  {
    if split != [] {
      var n := |split| - 1;
      WeightsPositive(split[..n]);
      assert Weights(split)[..n] == Weights(split[..n]);
      assert forall i :: 0 <= i < n ==> split[..n][i] == split[i];
      if split[n] == Some(0.0) && exists i :: 0 <= i < |split| && split[i] != Some(0.0) {
        var i :| 0 <= i < |split| && split[i] != Some(0.0);
        assert split[..n][i] != Some(0.0);
      }
    }
  }

  // A number for each of n nodes, none negative, not all zero.
  ghost predicate Usable(split: seq<Option<real>>, n: nat) {
    && |split| == n
    && (forall i :: 0 <= i < |split| ==> split[i].Some? && split[i].value >= 0.0)
    && exists i :: 0 <= i < |split| && split[i] != Some(0.0)
  }

  lemma UsableMeans(nodes: seq<Node>, split: seq<Option<real>>)
    requires nodes != []
    ensures UsesSplit(nodes, split) <==> Usable(split, |nodes|)
  {
    if |split| == |nodes| && forall i :: 0 <= i < |split| ==> split[i].Some? && split[i].value >= 0.0 {
      WeightsPositive(split);
    }
  }

  // Shares stand to each other as the numbers of a usable split. Without one they do as
  // the memories, if these add up to more than 0, and else they are all the same.
  lemma SharesInProportion(nodes: seq<Node>, split: seq<Option<real>>, i: nat, j: nat)
    requires i < |nodes| && j < |nodes|
    ensures var shares := Shares(nodes, split);
            && (Usable(split, |nodes|) ==> shares[i] * split[j].value == shares[j] * split[i].value)
            && (!Usable(split, |nodes|) && Sum(Memories(nodes)) > 0.0 ==>
                 shares[i] * nodes[j].memory as real == shares[j] * nodes[i].memory as real)
            && (!Usable(split, |nodes|) && Sum(Memories(nodes)) <= 0.0 ==> shares[i] == shares[j])
  {
    var basis := Basis(nodes, split);
    UsableMeans(nodes, split);
    ScaledProportion(basis[i], basis[j], Sum(basis));
  }

  // Shares are non-negative, unless they follow memories one of which is negative.
  lemma SharesNonNegative(nodes: seq<Node>, split: seq<Option<real>>)
    requires nodes != []
    ensures NonNegative(Shares(nodes, split)) <==>
            UsesSplit(nodes, split) || Sum(Memories(nodes)) <= 0.0 ||
            forall i :: 0 <= i < |nodes| ==> nodes[i].memory >= 0
  {
    var basis, shares := Basis(nodes, split), Shares(nodes, split);
    forall i | 0 <= i < |nodes|
      ensures shares[i] >= 0.0 <==> basis[i] >= 0.0
    {
      QuotientSign(basis[i], Sum(basis));
    }
  }

  // The configuration check lets a negative memory pass.
  lemma NegativeShare()
    ensures var cfg := Config(Node("a", 3, 0), [Node("b", -1, 0)], 0, "", false, {}, []);
            PassesCheck(cfg, [Model("m", 1, 1, [], false)]) && !NonNegative(Shares(Nodes(cfg), cfg.split))
  {
    var cfg := Config(Node("a", 3, 0), [Node("b", -1, 0)], 0, "", false, {}, []);
    var nodes := Nodes(cfg);
    assert "a"[0] != "b"[0];
    assert !IsUnicodeSpace("m"[0]);
    var m := Memories(nodes);
    assert m[..1] == [3.0] && [3.0][..0] == [];
    assert Sum(m) == 2.0;
    SharesNonNegative(nodes, []);
    assert nodes[1].memory < 0;
  }

  method NodeShares(cfg: Config) returns (shares: seq<real>)
    ensures shares == Shares(Nodes(cfg), cfg.split)
  {
    var nodes := Nodes(cfg);
    if cfg.split != [] {
      if |cfg.split| == |nodes| {
        var weights, sum, valid := SplitWeights(cfg.split);
        if valid && sum > 0.0 {
          shares := Divided(weights, sum);
          return;
        }
      }
    }
    var total := 0;
    for i := 0 to |nodes|
      invariant total as real == Sum(Memories(nodes)[..i])
    {
      assert Memories(nodes)[..i + 1][..i] == Memories(nodes)[..i];
      total := total + nodes[i].memory;
    }
    assert Memories(nodes)[..|nodes|] == Memories(nodes);
    if total > 0 {
      shares := Divided(Memories(nodes), total as real);
      return;
    }
    SumOnes(|nodes|);
    shares := Divided(Ones(|nodes|), |nodes| as real);
  }

  // Reads the split into an array, up to the first value that is no weight.
  method SplitWeights(split: seq<Option<real>>) returns (weights: seq<real>, sum: real, valid: bool)
    ensures valid <==> forall i :: 0 <= i < |split| ==> split[i].Some? && split[i].value >= 0.0
    ensures valid ==> weights == Weights(split) && sum == Sum(Weights(split))
  {
    var a := new real[|split|];
    sum, valid := 0.0, true;
    for i := 0 to |split|
      invariant valid && forall j :: 0 <= j < i ==> split[j].Some? && split[j].value >= 0.0 && a[j] == split[j].value
      invariant sum == Sum(Weights(split)[..i])
    {
      assert Weights(split)[..i + 1][..i] == Weights(split)[..i];
      if split[i].None? || split[i].value < 0.0 {
        return a[..], sum, false;
      }
      a[i] := split[i].value;
      sum := sum + a[i];
    }
    weights := a[..];
    assert Weights(split)[..|split|] == Weights(split);
  }

  method Divided(weights: seq<real>, sum: real) returns (shares: seq<real>)
    requires sum == Sum(weights) != 0.0
    ensures shares == Normalized(weights)
  {
    var a := new real[|weights|];
    for i := 0 to |weights|
      invariant forall j :: 0 <= j < i ==> a[j] == weights[j] / sum
    {
      a[i] := weights[i] / sum;
    }
    shares := a[..];
  }

  // ---------- the memory gate ----------

  // int() of a float truncates toward zero.
  function Truncated(x: real): int {
    if x >= 0.0 then x.Floor else -((-x).Floor)
  }

  // Go divides integers toward zero.
  function Half(n: int): int {
    if n >= 0 then n / 2 else -((-n) / 2)
  }

  function ComputeReserve(contextTokens: int): (r: int)
    ensures r >= 2
  {
    var context := if contextTokens <= 0 then 4096 else contextTokens;
    if context / 2048 < 2 then 2 else context / 2048
  }

  function SafeModel(n: Node): int {
    if n.safeModel > 0 then n.safeModel else Half(n.memory)
  }

  function CoordinatorSafe(cfg: Config): int {
    cfg.coordinator.memory - cfg.reserve
  }

  // The budget of device i.
  function Budget(cfg: Config, i: nat): int
    requires i < |Nodes(cfg)|
  {
    if i == 0 then CoordinatorSafe(cfg) else SafeModel(Nodes(cfg)[i])
  }

  function Exact(size: int, share: real): real {
    size as real * share
  }

  // A device's slice of a model of the given size, rounded.
  function Slice(size: int, share: real): int {
    Truncated(Exact(size, share) + 0.5)
  }

  // The device's slice of the weights and the reserve.
  function Projected(cfg: Config, model: Model, i: nat): int
    requires i < |Nodes(cfg)|
  {
    Slice(model.minMemory, Shares(Nodes(cfg), cfg.split)[i]) + ComputeReserve(model.contextTokens)
  }

  predicate WithinBudgets(cfg: Config, model: Model) {
    forall i :: 0 <= i < |Nodes(cfg)| ==> Projected(cfg, model, i) <= Budget(cfg, i)
  }

  method AllNodesWithinSafeBudget(cfg: Config, model: Model) returns (ok: bool)
    ensures ok == WithinBudgets(cfg, model)
    ensures ok <==> forall i :: 0 <= i < 1 + |cfg.workers| ==> Projected(cfg, model, i) <= Budget(cfg, i)
  {
    var nodes := Nodes(cfg);
    var shares := NodeShares(cfg);
    var reserve := ComputeReserve(model.contextTokens);
    for i := 0 to |nodes|
      invariant forall j :: 0 <= j < i ==> Projected(cfg, model, j) <= Budget(cfg, j)
    {
      var budget := SafeModel(nodes[i]);
      if i == 0 {
        budget := CoordinatorSafe(cfg);
      }
      assert budget == Budget(cfg, i);
      var projected := Slice(model.minMemory, shares[i]) + reserve;
      if projected > budget {
        return false;
      }
    }
    ok := true;
  }

  // Whole GB of a slice of x GB, half a GB on top of it, and of what the context needs.
  ghost predicate Holds(x: real, context: int, budget: int) {
    var reserve := if context >= 6144 then context / 2048 else 2;
    if x >= -0.5 then x + 0.5 < (budget - reserve + 1) as real else x + 0.5 <= (budget - reserve) as real
  }

  // A worker may use what is set for it, or else half its memory.
  ghost predicate WorkerHolds(w: Node, x: real, context: int) {
    if w.safeModel > 0 then Holds(x, context, w.safeModel)
    else Holds(x, context, if w.memory >= 0 then w.memory / 2 else (w.memory + 1) / 2)
  }

  lemma OwnBudget(cfg: Config, x: real, context: int, i: nat)
    requires i < |Nodes(cfg)|
    ensures Holds(x, context, Budget(cfg, i)) <==>
            if i == 0 then Holds(x, context, cfg.coordinator.memory - cfg.reserve)
            else WorkerHolds(cfg.workers[i - 1], x, context)
  {
  }

  // Node i holds its part of a model: the coordinator in its memory but for the reserve,
  // a worker in its own budget.
  ghost predicate NodeHolds(cfg: Config, x: real, context: int, i: nat)
    requires i <= |cfg.workers|
  {
    if i == 0 then Holds(x, context, cfg.coordinator.memory - cfg.reserve)
    else WorkerHolds(cfg.workers[i - 1], x, context)
  }

  // What the gate asks of node i is that it holds its share of the size.
  lemma FitsMeans(cfg: Config, model: Model, i: nat, x: real)
    requires i < |Nodes(cfg)| && x == model.minMemory as real * Shares(Nodes(cfg), cfg.split)[i]
    ensures Projected(cfg, model, i) <= Budget(cfg, i) <==> NodeHolds(cfg, x, model.contextTokens, i)
  {
    SliceHolds(x, Slice(model.minMemory, Shares(Nodes(cfg), cfg.split)[i]), model.contextTokens, Budget(cfg, i));
    OwnBudget(cfg, x, model.contextTokens, i);
  }

  lemma SliceHolds(x: real, slice: int, context: int, budget: int)
    requires slice == Truncated(x + 0.5)
    ensures slice + ComputeReserve(context) <= budget <==> Holds(x, context, budget)
  {
  }

  function BudgetSum(cfg: Config, n: nat): int
    requires n <= |Nodes(cfg)|
  {
    if n == 0 then 0 else BudgetSum(cfg, n - 1) + Budget(cfg, n - 1)
  }

  // Rounding a slice loses less than half.
  lemma RoundingLoss(size: int, share: real, reserve: int, budget: int)
    requires Slice(size, share) + reserve <= budget
    ensures Exact(size, share) < (budget - reserve) as real + 0.5
  {
  }

  // The exact slices of the first n devices, and the room these leave for weights.
  function Slices(size: int, shares: seq<real>, n: nat): real
    requires n <= |shares|
  {
    if n == 0 then 0.0 else Slices(size, shares, n - 1) + Exact(size, shares[n - 1])
  }

  function Rooms(cfg: Config, reserve: int, n: nat): real
    requires n <= |Nodes(cfg)|
  {
    if n == 0 then 0.0 else Rooms(cfg, reserve, n - 1) + ((Budget(cfg, n - 1) - reserve) as real + 0.5)
  }

  // Room is left for every one of the exact slices.
  ghost predicate Roomy(cfg: Config, size: int, shares: seq<real>, reserve: int)
    requires |shares| == |Nodes(cfg)|
  {
    forall i :: 0 <= i < |shares| ==> Exact(size, shares[i]) < (Budget(cfg, i) - reserve) as real + 0.5
  }

  lemma WithinIsRoomy(cfg: Config, model: Model)
    requires WithinBudgets(cfg, model)
    ensures Roomy(cfg, model.minMemory, Shares(Nodes(cfg), cfg.split), ComputeReserve(model.contextTokens))
  {
    var shares := Shares(Nodes(cfg), cfg.split);
    forall i | 0 <= i < |shares|
      ensures Exact(model.minMemory, shares[i]) < (Budget(cfg, i) - ComputeReserve(model.contextTokens)) as real + 0.5
    {
      assert Projected(cfg, model, i) <= Budget(cfg, i);
      RoundingLoss(model.minMemory, shares[i], ComputeReserve(model.contextTokens), Budget(cfg, i));
    }
  }

  lemma {:induction false} SlicesBelow(cfg: Config, size: int, shares: seq<real>, reserve: int, n: nat)
    requires n <= |shares| == |Nodes(cfg)| && Roomy(cfg, size, shares, reserve)
    ensures n == 0 || Slices(size, shares, n) < Rooms(cfg, reserve, n)
  {
    if n > 0 {
      SlicesBelow(cfg, size, shares, reserve, n - 1);
    }
  }

  lemma {:induction false} SlicesAdd(size: int, shares: seq<real>, n: nat)
    requires n <= |shares|
    ensures Slices(size, shares, n) == size as real * Sum(shares[..n])
  {
    if n > 0 {
      SlicesAdd(size, shares, n - 1);
      assert shares[..n][..n - 1] == shares[..n - 1];
      Distributes(size as real, Sum(shares[..n - 1]), shares[n - 1]);
    }
  }

  lemma {:induction false} RoomsAdd(cfg: Config, reserve: int, n: nat)
    requires n <= |Nodes(cfg)|
    ensures Rooms(cfg, reserve, n) == (BudgetSum(cfg, n) - n * reserve) as real + n as real / 2.0
  {
    if n > 0 {
      RoomsAdd(cfg, reserve, n - 1);
      assert n * reserve == (n - 1) * reserve + reserve;
    }
  }

  lemma Distributes(m: real, a: real, b: real)
    ensures m * (a + b) == m * a + m * b
  {
  }

  lemma {:induction false} BudgetsAdd(cfg: Config, n: nat)
    requires n <= |Nodes(cfg)|
    ensures BudgetSum(cfg, n) as real == Sum(seq(n, i requires 0 <= i < n => Budget(cfg, i) as real))
  {
    if n > 0 {
      BudgetsAdd(cfg, n - 1);
      var budgets := seq(n, i requires 0 <= i < n => Budget(cfg, i) as real);
      assert budgets[..n - 1] == seq(n - 1, i requires 0 <= i < n - 1 => Budget(cfg, i) as real);
    }
  }

  // Nothing gets lost in the split: a model the gate accepts for n nodes is smaller than
  // their budgets together, less the reserves, give or take half a GB for each.
  lemma GateConserves(cfg: Config, model: Model)
    requires WithinBudgets(cfg, model)
    ensures var n := |Nodes(cfg)|;
            model.minMemory as real <
            (BudgetSum(cfg, n) - n * ComputeReserve(model.contextTokens)) as real + n as real / 2.0
  {
    var n, shares := |Nodes(cfg)|, Shares(Nodes(cfg), cfg.split);
    WithinIsRoomy(cfg, model);
    SlicesBelow(cfg, model.minMemory, shares, ComputeReserve(model.contextTokens), n);
    SlicesAdd(model.minMemory, shares, n);
    RoomsAdd(cfg, ComputeReserve(model.contextTokens), n);
    assert shares[..n] == shares;
    SharesSumToOne(Nodes(cfg), cfg.split);
  }
}
