/** Picking and starting a backend for a model (internal/cluster/scheduler.go, manager.go).

    What the i-th candidate of the order would answer if it were asked is a parameter, so
    that any probe, start and health result may come at any point. */
module Placement {
  import opened Prelude
  import opened Scheduler

  // The node health seen when the candidate's turn comes (nothing for a node not probed
  // yet) and its answers; no answer to the probe is None.
  datatype Attempt = Attempt(health: map<string, bool>, probe: Option<bool>, starts: bool, healthy: bool)

  // ---------- the memory gate ----------

  predicate Counts(n: Node, health: map<string, bool>) {
    n.id !in health || health[n.id]
  }

  // The memory of the nodes not known to be unreachable.
  function Reachable(nodes: seq<Node>, health: map<string, bool>): int {
    if nodes == [] then 0
    else
      var last := nodes[|nodes| - 1];
      Reachable(nodes[..|nodes| - 1], health) + if Counts(last, health) then last.memory else 0
  }

  // Memory adds up, and a node known to be unreachable adds nothing.
  lemma {:induction false} ReachableMeans(a: seq<Node>, b: seq<Node>, health: map<string, bool>)
    ensures Reachable(a + b, health) == Reachable(a, health) + Reachable(b, health)
    ensures forall n: Node ::
              Reachable([n], health) == if n.id in health && health[n.id] == false then 0 else n.memory
  {
    if b == [] {
      assert a + b == a;
    } else {
      ReachableMeans(a, b[..|b| - 1], health);
      assert (a + b)[..|a + b| - 1] == a + b[..|b| - 1];
    }
    forall n: Node
      ensures Reachable([n], health) == if n.id in health && health[n.id] == false then 0 else n.memory
    {
      assert [n][..0] == [];
    }
  }

  predicate HostsAlone(cfg: Config, model: Model) {
    CoordinatorSafe(cfg) >= model.minMemory
  }

  predicate Admits(cfg: Config, name: string, model: Model, health: map<string, bool>) {
    && model.minMemory > 0
    && if name == LOCAL then HostsAlone(cfg, model)
       else
         && (model.forceDistribute || !HostsAlone(cfg, model))
         && Reachable(Nodes(cfg), health) >= model.minMemory
         && WithinBudgets(cfg, model)
  }

  method TotalMemory(nodes: seq<Node>, health: map<string, bool>) returns (total: int)
    ensures total == Reachable(nodes, health)
  {
    total := 0;
    for i := 0 to |nodes|
      invariant total == Reachable(nodes[..i], health)
    {
      assert nodes[..i + 1][..i] == nodes[..i];
      if nodes[i].id in health && !health[nodes[i].id] {
        continue;
      }
      total := total + nodes[i].memory;
    }
    assert nodes[..|nodes|] == nodes;
  }

  method MemoryFits(cfg: Config, name: string, model: Model, health: map<string, bool>) returns (fits: bool)
    ensures fits == Admits(cfg, name, model, health)
    ensures name == "local" ==> (fits <==> 0 < model.minMemory <= cfg.coordinator.memory - cfg.reserve)
    ensures name != "local" ==>
              (fits <==>
                && 0 < model.minMemory <= Reachable([cfg.coordinator] + cfg.workers, health)
                && (model.forceDistribute || cfg.coordinator.memory - cfg.reserve < model.minMemory)
                && WithinBudgets(cfg, model))
  {
    if model.minMemory <= 0 {
      return false;
    }
    if name == LOCAL {
      return HostsAlone(cfg, model);
    }
    if !model.forceDistribute && HostsAlone(cfg, model) {
      return false;
    }
    var total := TotalMemory(Nodes(cfg), health);
    if total < model.minMemory {
      return false;
    }
    fits := AllNodesWithinSafeBudget(cfg, model);
  }

  // ---------- the choice ----------

  function Order(cfg: Config, model: Model): seq<string> {
    if cfg.mode != "" && cfg.mode != "auto" then [cfg.mode]
    else if model.preferred != [] then model.preferred
    else DEFAULT_ORDER
  }

  // Which backends run, each with the id of the model it was started for.
  type Running = map<string, string>

  // A backend that runs is left alone.
  function Started(running: Running, name: string, id: string): Running {
    if name in running then running else running[name := id]
  }

  // A request, the backends there are and those running, and how the attempts would end.
  datatype Request = Request(
    cfg: Config, model: Model, known: set<string>, running: Running,
    attempts: nat -> Attempt, last: Attempt)
  {
    function Candidates(): seq<string> {
      Order(cfg, model)
    }

    // The i-th candidate gets as far as being started.
    predicate Tried(i: nat)
      requires i < |Candidates()|
    {
      var name := Candidates()[i];
      && name != LOCAL && (name in cfg.coordinatorBackends) && name in known
      && Admits(cfg, name, model, attempts(i).health)
      && attempts(i).probe != Some(false)
    }

    // What runs when the first n candidates have had their turn.
    function RunningAfter(n: nat): Running
      requires n <= |Candidates()|
    {
      if n == 0 then running
      else
        var before := RunningAfter(n - 1);
        if Tried(n - 1) && attempts(n - 1).starts then Started(before, Candidates()[n - 1], model.id) else before
    }

    predicate ComesUp(i: nat)
      requires i < |Candidates()|
    {
      && Tried(i)
      && (Candidates()[i] in RunningAfter(i) || attempts(i).starts)
      && attempts(i).healthy
    }

    ghost predicate NoneUp(n: nat)
      requires n <= |Candidates()|
    {
      forall i :: 0 <= i < n ==> !ComesUp(i)
    }

    predicate LocalComesUp() {
      && LOCAL in known
      && Admits(cfg, LOCAL, model, last.health)
      && last.probe == Some(true)
      && (LOCAL in RunningAfter(|Candidates()|) || last.starts)
    }

    // The first candidate to come up; else the local backend, unless that is forbidden.
    // Nothing after the choice is started.
    ghost predicate Chosen(choice: Choice, started: Running) {
      var n := |Candidates()|;
      match choice
      case Cluster(i) => i < n && ComesUp(i) && NoneUp(i) && started == RunningAfter(i + 1)
      case Local => !cfg.strict && NoneUp(n) && LocalComesUp() && started == Started(RunningAfter(n), LOCAL, model.id)
      case Failed => (cfg.strict || !LocalComesUp()) && NoneUp(n) && started == RunningAfter(n)
    }
  }

  datatype Choice = Cluster(at: nat) | Local | Failed

  class Manager {
    const backends: set<string>
    // The started flags, with the id given to each start.
    var started: Running

    constructor (backends: set<string>)
      ensures this.backends == backends && started == map[]
    {
      this.backends := backends;
      started := map[];
    }

    // Starts a backend for a model unless it runs already, whatever it runs for.
    method EnsureStarted(name: string, id: string, starts: bool) returns (ok: bool)
      modifies this
      ensures ok == (name in backends && (name in old(started) || starts))
      ensures started == if ok then Started(old(started), name, id) else old(started)
    {
      if name !in backends {
        return false;
      }
      if name in started {
        return true;
      }
      if !starts {
        return false;
      }
      started := started[name := id];
      ok := true;
    }

    method SelectBackend(cfg: Config, model: Model, attempts: nat -> Attempt, last: Attempt) returns (choice: Choice)
      modifies this
      ensures Request(cfg, model, backends, old(started), attempts, last).Chosen(choice, started)
    {
      ghost var request := Request(cfg, model, backends, started, attempts, last);
      var order := Order(cfg, model);
      for i := 0 to |order|
        invariant request.NoneUp(i) && started == request.RunningAfter(i)
      {
        var name := order[i];
        if name == LOCAL || name !in cfg.coordinatorBackends + {LOCAL} {
          continue;
        }
        var fits := MemoryFits(cfg, name, model, attempts(i).health);
        if !fits || name !in backends || attempts(i).probe == Some(false) {
          continue;
        }
        var ok := EnsureStarted(name, model.id, attempts(i).starts);
        if !ok {
          continue;
        }
        if attempts(i).healthy {
          return Cluster(i);
        }
      }
      if cfg.strict || LOCAL !in backends {
        return Failed;
      }
      var fits := MemoryFits(cfg, LOCAL, model, last.health);
      if !fits || last.probe != Some(true) {
        return Failed;
      }
      var ok := EnsureStarted(LOCAL, model.id, last.starts);
      choice := if ok then Local else Failed;
    }
  }

  // ---------- what a choice is ----------

  // The i-th candidate is enabled, admitted, there, and not reported missing.
  ghost predicate Offered(r: Request, i: nat)
    requires i < |r.Candidates()|
  {
    var name, health := r.Candidates()[i], r.attempts(i).health;
    && name != "local" && name in r.cfg.coordinatorBackends && name in r.known
    && 0 < r.model.minMemory <= Reachable(Nodes(r.cfg), health) && WithinBudgets(r.cfg, r.model)
    && (r.model.forceDistribute || r.cfg.coordinator.memory - r.cfg.reserve < r.model.minMemory)
    && r.attempts(i).probe != Some(false)
  }

  // It runs after the first n candidates, from before or as one of them started it.
  ghost predicate Runs(r: Request, name: string, n: nat)
    requires n <= |r.Candidates()|
  {
    || name in r.running
    || exists j :: 0 <= j < n && r.Candidates()[j] == name && Offered(r, j) && r.attempts(j).starts
  }

  ghost predicate Up(r: Request, i: nat)
    requires i < |r.Candidates()|
  {
    Offered(r, i) && Runs(r, r.Candidates()[i], i + 1) && r.attempts(i).healthy
  }

  ghost predicate LocalUp(r: Request) {
    && "local" in r.known && 0 < r.model.minMemory <= r.cfg.coordinator.memory - r.cfg.reserve
    && r.last.probe == Some(true) && ("local" in r.running || r.last.starts)
  }

  lemma {:induction false} RunningMeans(r: Request, name: string, n: nat)
    requires n <= |r.Candidates()|
    ensures name in r.RunningAfter(n) <==> Runs(r, name, n)
  {
    if n > 0 {
      RunningMeans(r, name, n - 1);
      assert r.Tried(n - 1) == Offered(r, n - 1);
    }
  }

  // The first candidate that comes up is chosen, else the local backend if that is allowed
  // and comes up; what runs then ran before or was offered, up to the choice, and started.
  lemma ChoiceMeans(r: Request, choice: Choice, started: Running)
    requires r.Chosen(choice, started)
    ensures forall i: nat :: choice == Cluster(i) <==>
              i < |r.Candidates()| && Up(r, i) && forall j :: 0 <= j < i ==> !Up(r, j)
    ensures choice.Local? <==> !r.cfg.strict && LocalUp(r) && forall i :: 0 <= i < |r.Candidates()| ==> !Up(r, i)
    ensures forall name :: name in started <==>
              || Runs(r, name, if choice.Cluster? then choice.at + 1 else |r.Candidates()|)
              || (choice.Local? && name == "local")
  {
    var n := if choice.Cluster? then choice.at + 1 else |r.Candidates()|;
    forall i | 0 <= i < |r.Candidates()|
      ensures r.ComesUp(i) == Up(r, i)
    {
      RunningMeans(r, r.Candidates()[i], i);
      assert r.Tried(i) == Offered(r, i);
    }
    LocalMeans(r);
    forall name
      ensures name in r.RunningAfter(n) <==> Runs(r, name, n)
    {
      RunningMeans(r, name, n);
    }
  }

  lemma LocalMeans(r: Request)
    ensures r.LocalComesUp() <==> LocalUp(r)
  {
    RunningMeans(r, LOCAL, |r.Candidates()|);
  }

  // The candidates: the pinned backend, else those the model prefers, else all there are.
  lemma CandidatesMean(r: Request)
    ensures r.cfg.mode !in {"", "auto"} ==> r.Candidates() == [r.cfg.mode]
    ensures r.cfg.mode in {"", "auto"} && r.model.preferred != [] ==> r.Candidates() == r.model.preferred
    ensures r.cfg.mode in {"", "auto"} && r.model.preferred == [] ==>
              r.Candidates() == ["exo", "mlx_jaccl", "llama_cpp_rpc", "local"]
  {
  }

  // ---------- what holds of every choice ----------

  ghost predicate Launched(request: Request, name: string) {
    || (name == LOCAL && Admits(request.cfg, LOCAL, request.model, request.last.health))
    || exists i: nat :: i < |request.Candidates()| && request.Candidates()[i] == name && request.Tried(i)
  }

  // Only what is tried gets started.
  lemma {:induction false} StartedIsTried(request: Request, n: nat, name: string)
    requires n <= |request.Candidates()| && name in request.RunningAfter(n) && name !in request.running
    ensures name != LOCAL && Launched(request, name)
  {
    if n > 0 && name in request.RunningAfter(n - 1) {
      StartedIsTried(request, n - 1, name);
    }
  }

  // Every backend that gets started passes the memory gate, chosen in the end or not;
  // the chosen one runs and passes it, and it is never the local one in strict mode.
  lemma OnlyAdmittedStart(request: Request, choice: Choice, started: Running)
    requires request.Chosen(choice, started)
    ensures forall name :: name in started && name !in request.running ==> Launched(request, name)
    ensures choice.Cluster? ==>
      var name := request.Candidates()[choice.at];
      name != LOCAL && name in started && Admits(request.cfg, name, request.model, request.attempts(choice.at).health)
    ensures choice.Local? ==> LOCAL in started && Admits(request.cfg, LOCAL, request.model, request.last.health)
    ensures request.cfg.strict ==> !choice.Local? && (LOCAL in started ==> LOCAL in request.running)
  {
    var n := if choice.Cluster? then choice.at + 1 else |request.Candidates()|;
    forall name | name in started && name !in request.running
      ensures Launched(request, name)
      ensures name == LOCAL ==> choice.Local?
    {
      if name in request.RunningAfter(n) {
        StartedIsTried(request, n, name);
      }
    }
  }

  // A model that the coordinator can host alone leaves it only if that is forced: no
  // other backend is chosen, nor even started.
  lemma OneNodeFirst(request: Request, choice: Choice, started: Running)
    requires request.Chosen(choice, started)
    requires HostsAlone(request.cfg, request.model) && !request.model.forceDistribute
    ensures !choice.Cluster? && started.Keys <= request.running.Keys + {LOCAL}
  {
    OnlyAdmittedStart(request, choice, started);
    forall name | name in started && name !in request.running
      ensures name == LOCAL
    {
      assert Launched(request, name);
    }
  }

  // A model put on the cluster is backed by reachable memory and by the budgets of all
  // the nodes together.
  lemma ClusterHoldsModel(request: Request, choice: Choice, started: Running)
    requires request.Chosen(choice, started) && choice.Cluster?
    ensures var cfg, model := request.cfg, request.model;
            var n := |Nodes(cfg)|;
            && 0 < model.minMemory <= Reachable(Nodes(cfg), request.attempts(choice.at).health)
            && (model.forceDistribute || CoordinatorSafe(cfg) < model.minMemory)
            && model.minMemory as real <
               (BudgetSum(cfg, n) - n * ComputeReserve(model.contextTokens)) as real + n as real / 2.0
  {
    GateConserves(request.cfg, request.model);
  }

  // ---------- which model a chosen backend serves ----------

  lemma {:induction false} RunsFor(request: Request, n: nat, name: string)
    requires n <= |request.Candidates()|
    ensures name in request.running ==> name in request.RunningAfter(n)
    ensures name in request.RunningAfter(n) ==>
              request.RunningAfter(n)[name] ==
              if name in request.running then request.running[name] else request.model.id
  {
    if n > 0 {
      RunsFor(request, n - 1, name);
    }
  }

  // The chosen backend was started for the requested model exactly if it did not run
  // before the request, or ran for that model.
  lemma ServesRequested(request: Request, choice: Choice, started: Running)
    requires request.Chosen(choice, started) && !choice.Failed?
    ensures var name := if choice.Local? then LOCAL else request.Candidates()[choice.at];
            && name in started
            && (started[name] == request.model.id <==>
                name in request.running ==> request.running[name] == request.model.id)
  {
    var n, name := |request.Candidates()|, LOCAL;
    if choice.Cluster? {
      n, name := choice.at + 1, request.Candidates()[choice.at];
    }
    RunsFor(request, n, name);
  }

  // Two models with nothing but the local backend to run them.
  function OnLocal(id: string, running: Running): Request {
    var never := Attempt(map[], Some(false), false, false);
    Request(Config(Node("c", 64, 0), [], 0, LOCAL, false, {}, []), Model(id, 8, 4096, [], false), {LOCAL}, running,
            _ => never, Attempt(map[], Some(true), true, true))
  }

  // The first starts the local backend; the second gets it too, as it was started.
  lemma OtherModelServed(first: Choice, started: Running, second: Choice, after: Running)
    requires OnLocal("a", map[]).Chosen(first, started) && OnLocal("b", started).Chosen(second, after)
    ensures second == Local && LOCAL in after && after[LOCAL] == "a"
  {
    var a, b := OnLocal("a", map[]), OnLocal("b", started);
    assert a.Candidates() == [LOCAL] && b.Candidates() == [LOCAL];
    assert a.RunningAfter(1) == map[] && b.RunningAfter(1) == started;
    assert a.NoneUp(1) && a.LocalComesUp() && b.NoneUp(1);
  }
}
