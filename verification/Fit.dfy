/** The fit gate: whether a model may be started on a host, in 64-bit arithmetic, and
    the unbounded formula it agrees with (internal/llm/llamacpp/fit.go). */
module Fit {
  const MAX64 := 0xFFFF_FFFF_FFFF_FFFF
  const GIB := 1024 * 1024 * 1024
  const FULL_OFFLOAD_LAYERS := 99

  type u64 = n: int | 0 <= n <= MAX64
  type i64 = n: int | -0x8000_0000_0000_0000 <= n < 0x8000_0000_0000_0000

  // ---------- checked arithmetic ----------

  function Add64(a: u64, b: u64): (r: (u64, bool))
    ensures r.1 <==> a + b > MAX64
    ensures r.0 == if r.1 then 0 else a + b
  {
    if MAX64 - a < b then (0, true) else (a + b, false)
  }

  lemma ProductBound(a: nat, b: nat, max: nat)
    requires a != 0
    ensures b > max / a <==> a * b > max
  {
    var q := max / a;
    assert max == a * q + max % a && max % a < a;
    if b > q {
      TimesMonotone(a, b, a, q + 1);
      assert a * (q + 1) == a * q + a;
    } else {
      TimesMonotone(a, q, a, b);
    }
  }

  function Mul64(a: u64, b: u64): (r: (u64, bool))
    ensures r.1 <==> a * b > MAX64
    ensures r.0 == if r.1 then 0 else a * b
  {
    if a != 0 then
      ProductBound(a, b, MAX64);
      if b > MAX64 / a then (0, true) else (a * b, false)
    else (0, false)
  }

  function SaturatingSub(a: u64, b: u64): (r: u64)
    ensures r == Max(0, a - b)
  {
    if b >= a then 0 else a - b
  }

  function Max(a: int, b: int): int {
    if a < b then b else a
  }

  function Min(a: int, b: int): int {
    if a < b then a else b
  }

  function Sum(values: seq<u64>): nat {
    if values == [] then 0 else Sum(values[..|values| - 1]) + values[|values| - 1]
  }

  lemma {:induction false} SumGrows(values: seq<u64>, i: nat)
    requires i <= |values|
    ensures Sum(values[..i]) <= Sum(values)
    decreases |values|
  {
    if i < |values| {
      SumGrows(values[..|values| - 1], i);
      assert values[..|values| - 1][..i] == values[..i];
    } else {
      assert values[..i] == values;
    }
  }

  // The sum, unless it overflows; the order of the terms does not matter.
  method Sum64(values: seq<u64>) returns (total: u64, overflow: bool)
    ensures overflow <==> Sum(values) > MAX64
    ensures total == if overflow then 0 else Sum(values)
  {
    total := 0;
    for i := 0 to |values|
      invariant total == Sum(values[..i])
    {
      assert values[..i + 1][..|values[..i + 1]| - 1] == values[..i];
      var added := Add64(total, values[i]);
      if added.1 {
        SumGrows(values, i + 1);
        return 0, true;
      }
      total := added.0;
    }
    assert values[..|values|] == values;
    overflow := false;
  }

  // ---------- the request ----------

  datatype KVCacheType = F16 | Q8_0 | Q4_0 | Unset

  function Sixteenths(t: KVCacheType): nat {
    match t
    case Q8_0 => 9
    case Q4_0 => 5
    case _ => 16
  }

  // base * sixteenths wraps around.
  function KVBytesPerToken(base: u64, t: KVCacheType): u64 {
    base * Sixteenths(t) % (MAX64 + 1) / 16
  }

  datatype Host = Host(os: string, arch: string, total: u64, available: u64, freeDisk: u64)

  datatype Request = Request(
    model: u64, mmproj: u64, download: u64, context: i64, parallel: i64,
    gpuLayers: i64, vram: u64, unified: bool, kvType: KVCacheType, reclaimable: u64)

  datatype Policy = Policy(kvPerToken: u64, minOS: u64, minHeadroom: u64, minScratch: u64, minDisk: u64)

  const DEFAULT := Policy(512 * 1024, 4 * GIB, GIB, GIB, 2 * GIB)

  function Effective(policy: Policy): Policy {
    if policy.kvPerToken == 0 then DEFAULT else policy
  }

  function ContextOf(req: Request): (r: i64)
    ensures r > 0
  {
    if req.context <= 0 then 4096 else req.context
  }

  function ParallelOf(req: Request): (r: i64)
    ensures r > 0
  {
    if req.parallel <= 0 then 1 else req.parallel
  }

  // ---------- the formula over unbounded integers ----------

  function Artifacts(req: Request): nat {
    req.model + req.mmproj
  }

  function Weights(req: Request): nat {
    Artifacts(req) + Artifacts(req) / 100 * 15
  }

  function Scratch(req: Request, policy: Policy): nat {
    Max(policy.minScratch, Artifacts(req) / 10)
  }

  function PerToken(req: Request, policy: Policy): nat {
    policy.kvPerToken * Sixteenths(req.kvType) / 16
  }

  function Times(a: nat, b: nat): nat {
    a * b
  }

  function KV(req: Request, policy: Policy): nat {
    Times(Times(ContextOf(req), ParallelOf(req)), PerToken(req, policy))
  }

  function Runtime(req: Request, policy: Policy): nat {
    Weights(req) + Scratch(req, policy) + KV(req, policy)
  }

  function OSReserve(host: Host, policy: Policy): nat {
    Max(policy.minOS, host.total / 8)
  }

  // What may be used: total less the reserve, and available less the headroom.
  function Budget(host: Host, req: Request, policy: Policy): int {
    Min(host.total - OSReserve(host, policy),
        host.available + req.reclaimable - Max(policy.minHeadroom, host.total / 32))
  }

  function VramBudget(req: Request): int {
    req.vram - Max(512 * 1024 * 1024, req.vram / 16)
  }

  predicate FullOffload(req: Request) {
    req.gpuLayers >= FULL_OFFLOAD_LAYERS && !req.unified
  }

  predicate KnownInputs(host: Host, req: Request) {
    req.model > 0 && host.os != "" && host.arch != "" && host.total > 0 && host.available > 0 && host.freeDisk > 0
  }

  predicate DiskFits(host: Host, req: Request, policy: Policy) {
    req.download > 0 ==> req.download + Max(policy.minDisk, Artifacts(req) / 20) <= host.freeDisk
  }

  predicate VramHolds(req: Request, kv: nat) {
    FullOffload(req) ==> req.vram > 0 && Weights(req) + kv <= Max(0, VramBudget(req))
  }

  predicate Accepts(host: Host, req: Request, policy: Policy) {
    && KnownInputs(host, req)
    && Runtime(req, policy) <= Budget(host, req, policy)
    && VramHolds(req, KV(req, policy))
    && DiskFits(host, req, policy)
  }

  // ---------- the decision in 64 bits ----------

  // The per-token size may have wrapped around.
  function GateKV(req: Request, policy: Policy): nat {
    Times(Times(ContextOf(req), ParallelOf(req)), KVBytesPerToken(policy.kvPerToken, req.kvType))
  }

  function GateRuntime(req: Request, policy: Policy): nat {
    Weights(req) + Scratch(req, policy) + GateKV(req, policy)
  }

  // The sum of available and reclaimable memory saturates, and so do the differences.
  function GateBudget(host: Host, req: Request, policy: Policy): nat {
    Max(0, Min(host.total - OSReserve(host, policy),
               Min(MAX64, host.available + req.reclaimable) - Max(policy.minHeadroom, host.total / 32)))
  }

  // What EstimateFit decides, for any policy.
  predicate Gate(host: Host, req: Request, policy: Policy) {
    && KnownInputs(host, req)
    && Times(ContextOf(req), ParallelOf(req)) <= MAX64
    && GateRuntime(req, policy) <= GateBudget(host, req, policy)
    && VramHolds(req, GateKV(req, policy))
    && DiskFits(host, req, policy)
  }

  // What a model needs, spelled out: artifacts and 15 percent, a tenth of them or the scratch
  // minimum, and context times parallel requests times the scaled size per token.
  lemma NeedMeans(req: Request, given: Policy)
    ensures var p := if given.kvPerToken != 0 then given
                     else Policy(524288, 4294967296, 1073741824, 1073741824, 2147483648);
            var sixteenths := if req.kvType == Q8_0 then 9 else if req.kvType == Q4_0 then 5 else 16;
            var context: int := if req.context > 0 then req.context else 4096;
            var parallel: int := if req.parallel > 0 then req.parallel else 1;
            var kv := context * parallel * (p.kvPerToken * sixteenths % 0x1_0000_0000_0000_0000 / 16);
            var files: int := req.model + req.mmproj;
            && Effective(given) == p && Times(ContextOf(req), ParallelOf(req)) == context * parallel
            && GateKV(req, p) == kv && Weights(req) == files + files / 100 * 15
            && GateRuntime(req, p) == files + files / 100 * 15 + Larger(p.minScratch, files / 10) + kv
  {
  }

  // What a host has for it: the smaller of total less an eighth and usable less a thirty-second.
  lemma BudgetMeans(host: Host, req: Request, p: Policy)
    ensures var usable: int :=
              if host.available + req.reclaimable > 0xFFFF_FFFF_FFFF_FFFF then 0xFFFF_FFFF_FFFF_FFFF
              else host.available + req.reclaimable;
            var ofTotal := host.total - Larger(p.minOS, host.total / 8);
            var ofUsable := usable - Larger(p.minHeadroom, host.total / 32);
            GateBudget(host, req, p) == Larger(0, if ofTotal < ofUsable then ofTotal else ofUsable)
  {
  }

  // The decision: what is needed against the budget, weights and KV against the video memory of
  // a full offload, the download and a twentieth of the artifacts against the free disk.
  lemma GateMeans(host: Host, req: Request, p: Policy)
    ensures var context: int := if req.context > 0 then req.context else 4096;
            var parallel: int := if req.parallel > 0 then req.parallel else 1;
            var files: int := req.model + req.mmproj;
            Gate(host, req, p) <==>
            && req.model > 0 && host.os != "" && host.arch != ""
            && host.total > 0 && host.available > 0 && host.freeDisk > 0
            && context * parallel <= 0xFFFF_FFFF_FFFF_FFFF && GateRuntime(req, p) <= GateBudget(host, req, p)
            && (req.gpuLayers >= 99 && !req.unified ==>
                  req.vram > 0 &&
                  files + files / 100 * 15 + GateKV(req, p) <= Larger(0, req.vram - Larger(536870912, req.vram / 16)))
            && (req.download > 0 ==> req.download + Larger(p.minDisk, files / 20) <= host.freeDisk)
  {
  }

  function Larger(a: int, b: int): int {
    if b <= a then a else b
  }

  // The per-token size neither wraps nor scales down to nothing.
  predicate SaneKV(policy: Policy) {
    4 <= policy.kvPerToken <= MAX64 / 16
  }

  // No more is kept free than is reserved for the system on the largest host.
  predicate SaneHeadroom(policy: Policy) {
    policy.minHeadroom <= Max(policy.minOS, MAX64 / 8)
  }

  predicate Sane(policy: Policy) {
    SaneKV(policy) && SaneHeadroom(policy)
  }

  lemma DefaultIsSane()
    ensures Sane(DEFAULT)
  {
  }

  // ---------- the gate ----------

  datatype Reason =
    | UnknownModel | UnknownHost | UnknownMemory | UnknownDisk
    | ArtifactOverflow | RuntimeOverflow | TooLittleMemory
    | NoVram | VramOverflow | TooLittleVram | DiskOverflow | TooLittleDisk

  datatype Report = Report(
    fits: bool, context: i64, parallel: i64, kv: u64, scratch: u64, runtime: u64, osReserve: u64, budget: u64,
    vramBudget: u64, gpuOffload: bool, requiredDisk: u64, reasons: seq<Reason>)

  ghost predicate NoOverflow(reasons: seq<Reason>) {
    forall k :: 0 <= k < |reasons| ==> reasons[k] != VramOverflow
  }

  method UnknownReasons(host: Host, req: Request) returns (reasons: seq<Reason>)
    ensures reasons == [] <==> KnownInputs(host, req)
    ensures reasons == Unknowns(host, req)
    ensures NoOverflow(reasons)
  {
    reasons := [];
    if req.model == 0 {
      reasons := reasons + [UnknownModel];
    }
    if host.os == "" || host.arch == "" {
      reasons := reasons + [UnknownHost];
    }
    if host.total == 0 || host.available == 0 {
      reasons := reasons + [UnknownMemory];
    }
    if host.freeDisk == 0 {
      reasons := reasons + [UnknownDisk];
    }
  }

  method EstimateKV(req: Request, policy: Policy) returns (kv: u64, overflow: bool)
    ensures overflow <==> Times(ContextOf(req), ParallelOf(req)) > MAX64 || GateKV(req, policy) > MAX64
    ensures !overflow ==> kv == GateKV(req, policy)
  {
    var perTokenKV := KVBytesPerToken(policy.kvPerToken, req.kvType);
    var tokens := Mul64(ContextOf(req), ParallelOf(req));
    assert tokens.1 <==> Times(ContextOf(req), ParallelOf(req)) > MAX64;
    kv, overflow := tokens.0, tokens.1;
    if !overflow {
      var product := Mul64(kv, perTokenKV);
      kv, overflow := product.0, product.1;
    }
  }

  // The runtime estimate: weights, their overhead, scratch and KV.
  method EstimateRuntime(artifacts: u64, req: Request, policy: Policy)
    returns (kv: u64, scratch: u64, runtime: u64, overflow: bool)
    requires artifacts == Artifacts(req)
    ensures scratch == Scratch(req, policy)
    ensures overflow <==> Times(ContextOf(req), ParallelOf(req)) > MAX64 || GateRuntime(req, policy) > MAX64
    ensures !overflow ==> kv == GateKV(req, policy) && runtime == GateRuntime(req, policy)
  {
    var weightOverhead := artifacts / 100 * 15;
    scratch := Max(policy.minScratch, artifacts / 10);
    var kvOverflow, runtimeOverflow;
    kv, kvOverflow := EstimateKV(req, policy);
    runtime, runtimeOverflow := Sum64([artifacts, weightOverhead, scratch, kv]);
    SumOfFour(artifacts, weightOverhead, scratch, kv);
    overflow := kvOverflow || runtimeOverflow;
  }

  lemma SumOfFour(a: u64, b: u64, c: u64, d: u64)
    ensures Sum([a, b, c, d]) == a + b + c + d
  {
    var four: seq<u64>, three: seq<u64>, two: seq<u64>, one: seq<u64> := [a, b, c, d], [a, b, c], [a, b], [a];
    assert four[..|four| - 1] == three && three[..|three| - 1] == two && two[..|two| - 1] == one &&
           one[..|one| - 1] == [];
    assert Sum(one) == a && Sum(two) == a + b && Sum(three) == a + b + c;
  }

  // What speaks against a model beside unknown inputs.
  function Shortages(host: Host, req: Request, p: Policy): seq<Reason> {
    if Artifacts(req) > MAX64 then [ArtifactOverflow]
    else if Times(ContextOf(req), ParallelOf(req)) > MAX64 || GateRuntime(req, p) > MAX64 then [RuntimeOverflow]
    else MemoryShortage(host, req, p) + VramShortage(req, GateKV(req, p)) + DiskShortage(host, req, p)
  }

  function MemoryShortage(host: Host, req: Request, p: Policy): seq<Reason> {
    if GateRuntime(req, p) > GateBudget(host, req, p) then [TooLittleMemory] else []
  }

  function VramShortage(req: Request, kv: nat): seq<Reason> {
    if req.gpuLayers < 99 || req.unified then []
    else if req.vram == 0 then [NoVram]
    else if Weights(req) + kv > Larger(0, req.vram - Larger(536870912, req.vram / 16)) then [TooLittleVram]
    else []
  }

  function DiskShortage(host: Host, req: Request, p: Policy): seq<Reason> {
    var required := req.download + Larger(p.minDisk, Artifacts(req) / 20);
    if req.download == 0 then []
    else if required > MAX64 then [DiskOverflow]
    else if required > host.freeDisk then [TooLittleDisk]
    else []
  }

  function Unknowns(host: Host, req: Request): seq<Reason> {
    (if req.model == 0 then [UnknownModel] else []) +
    (if host.os == "" || host.arch == "" then [UnknownHost] else []) +
    (if host.total == 0 || host.available == 0 then [UnknownMemory] else []) +
    (if host.freeDisk == 0 then [UnknownDisk] else [])
  }

  // Nothing speaks against a model exactly if the gate lets it through.
  lemma NoReasonMeans(host: Host, req: Request, p: Policy)
    ensures Unknowns(host, req) + Shortages(host, req, p) == [] <==> Gate(host, req, p)
    ensures NoOverflow(Unknowns(host, req) + Shortages(host, req, p))
  {
    assert Unknowns(host, req) == [] <==> KnownInputs(host, req);
    assert VramShortage(req, GateKV(req, p)) == [] <==> VramHolds(req, GateKV(req, p));
    assert DiskShortage(host, req, p) == [] <==> DiskFits(host, req, p);
    assert GateBudget(host, req, p) <= MAX64;
  }

  method EstimateFit(host: Host, req: Request, given: Policy) returns (r: Report)
    ensures r.fits <==> r.reasons == []
    ensures r.fits <==> Gate(host, req, Effective(given))
    ensures r.fits ==> r.runtime == GateRuntime(req, Effective(given)) && r.kv == GateKV(req, Effective(given))
    ensures r.fits ==>
              r.budget == GateBudget(host, req, Effective(given)) && r.osReserve == OSReserve(host, Effective(given))
    ensures NoOverflow(r.reasons)
    // Why a model is refused: every unknown input, and the first overflow or all that is short.
    ensures r.reasons == Unknowns(host, req) + Shortages(host, req, Effective(given))
    ensures r.context == (if req.context > 0 then req.context else 4096)
    ensures r.parallel == (if req.parallel > 0 then req.parallel else 1)
  {
    var policy := Effective(given);
    NoReasonMeans(host, req, policy);
    var reasons := UnknownReasons(host, req);
    r := Report(false, ContextOf(req), ParallelOf(req), 0, 0, 0, 0, 0, 0, false, 0, reasons);
    var added := Add64(req.model, req.mmproj);
    if added.1 {
      r := r.(reasons := reasons + [ArtifactOverflow]);
      return;
    }
    var artifacts := added.0;
    var kv, scratch, runtime, overflow := EstimateRuntime(artifacts, req, policy);
    r := r.(kv := kv, scratch := scratch);
    if overflow {
      r := r.(reasons := reasons + [RuntimeOverflow]);
      return;
    }
    var osReserve := Max(policy.minOS, host.total / 8);
    var budget := AvailableBudget(host, req, policy);
    r := r.(runtime := runtime, osReserve := osReserve, budget := budget);
    var memoryReasons := if runtime > budget then [TooLittleMemory] else [];
    var vramBudget, offload, vramReasons := CheckVram(req, artifacts, kv);
    var requiredDisk, diskReasons := CheckDisk(host, req, policy, artifacts);
    reasons := reasons + (memoryReasons + vramReasons + diskReasons);
    r := r.(vramBudget := vramBudget, gpuOffload := offload, requiredDisk := requiredDisk, fits := reasons == [],
            reasons := reasons);
  }

  // The smaller of the two budgets.
  method AvailableBudget(host: Host, req: Request, policy: Policy) returns (budget: u64)
    ensures budget == GateBudget(host, req, policy)
  {
    var totalBudget := SaturatingSub(host.total, Max(policy.minOS, host.total / 8));
    var currentHeadroom := Max(policy.minHeadroom, host.total / 32);
    var effective := Add64(host.available, req.reclaimable);
    var effectiveAvailable := if effective.1 then MAX64 else effective.0;
    budget := Min(totalBudget, SaturatingSub(effectiveAvailable, currentHeadroom));
  }

  // Admission to a discrete GPU; the requirement cannot overflow once the runtime
  // estimate did not.
  method CheckVram(req: Request, artifacts: u64, kv: u64) returns (vramBudget: u64, offload: bool, reasons: seq<Reason>)
    requires artifacts == Artifacts(req) && Weights(req) + kv <= MAX64
    ensures NoOverflow(reasons)
    ensures reasons == [] <==> VramHolds(req, kv)
    ensures reasons == VramShortage(req, kv)
    ensures offload <==> !req.unified && (req.gpuLayers >= 99 || (req.gpuLayers > 0 && req.vram > 0))
    ensures vramBudget ==
            if !req.unified && req.gpuLayers > 0 && req.vram > 0
              then Larger(0, req.vram - Larger(536870912, req.vram / 16)) else 0
  {
    vramBudget, offload, reasons := 0, false, [];
    if FullOffload(req) && req.vram == 0 {
      offload := true;
      reasons := reasons + [NoVram];
    }
    if req.gpuLayers > 0 && req.vram > 0 && !req.unified {
      vramBudget := SaturatingSub(req.vram, Max(512 * GIB / 1024, req.vram / 16));
      offload := true;
      if req.gpuLayers >= FULL_OFFLOAD_LAYERS {
        var weights := Add64(artifacts, artifacts / 100 * 15);
        var need := Add64(weights.0, kv);
        if weights.1 || need.1 {
          reasons := reasons + [VramOverflow];
        } else if need.0 > vramBudget {
          reasons := reasons + [TooLittleVram];
        }
      }
    }
  }

  method CheckDisk(host: Host, req: Request, policy: Policy, artifacts: u64)
    returns (requiredDisk: u64, reasons: seq<Reason>)
    requires artifacts == Artifacts(req)
    ensures NoOverflow(reasons)
    ensures reasons == [] <==> DiskFits(host, req, policy)
    ensures var required := req.download + Larger(policy.minDisk, Artifacts(req) / 20);
            && reasons == DiskShortage(host, req, policy)
            && requiredDisk == if req.download == 0 || required > MAX64 then 0 else required
  {
    requiredDisk, reasons := 0, [];
    if req.download > 0 {
      var required := Add64(req.download, Max(policy.minDisk, artifacts / 20));
      if required.1 {
        reasons := reasons + [DiskOverflow];
      } else {
        requiredDisk := required.0;
        if requiredDisk > host.freeDisk {
          reasons := reasons + [TooLittleDisk];
        }
      }
    }
  }

  // ---------- when the decision is the formula's ----------

  lemma PerTokenExact(req: Request, policy: Policy)
    requires SaneKV(policy)
    ensures KVBytesPerToken(policy.kvPerToken, req.kvType) == PerToken(req, policy) >= 1
  {
  }

  lemma LargeProduct(a: nat, b: nat)
    requires b >= 1
    ensures Times(a, b) >= a
  {
  }

  // With a sane policy the gate decides as the formula does.
  lemma GateIsFormula(host: Host, req: Request, policy: Policy)
    requires Sane(policy)
    ensures Gate(host, req, policy) <==> Accepts(host, req, policy)
    ensures GateRuntime(req, policy) == Runtime(req, policy)
  {
    PerTokenExact(req, policy);
    LargeProduct(Times(ContextOf(req), ParallelOf(req)), PerToken(req, policy));
    assert GateKV(req, policy) == KV(req, policy);
    BudgetAgrees(host, req, policy);
  }

  lemma BudgetAgrees(host: Host, req: Request, policy: Policy)
    requires SaneHeadroom(policy)
    ensures GateBudget(host, req, policy) == Max(0, Budget(host, req, policy))
  {
  }

  // A host with all the memory there can be, and a request for a model and its context.
  function Large(available: u64): Host {
    Host("linux", "amd64", MAX64, available, 1)
  }

  function Asking(model: u64, context: i64, parallel: i64, kvType: KVCacheType, reclaimable: u64): Request {
    Request(model, 0, 0, context, parallel, 0, 0, false, kvType, reclaimable)
  }

  // The budget is the formula's on every host exactly with a sane headroom.
  lemma BudgetExact(policy: Policy)
    ensures SaneHeadroom(policy) <==>
            forall host, req :: GateBudget(host, req, policy) == Max(0, Budget(host, req, policy))
  {
    if SaneHeadroom(policy) {
      forall host, req
        ensures GateBudget(host, req, policy) == Max(0, Budget(host, req, policy))
      {
        BudgetAgrees(host, req, policy);
      }
    } else {
      var host, req := Large(MAX64), Asking(1, 1, 1, F16, MAX64);
      assert GateBudget(host, req, policy) != Max(0, Budget(host, req, policy));
    }
  }

  // The gate's KV estimate is the formula's, or both are too large.
  predicate ExactKV(req: Request, policy: Policy) {
    && (Times(ContextOf(req), ParallelOf(req)) > MAX64 || GateKV(req, policy) > MAX64 <==> KV(req, policy) > MAX64)
    && (KV(req, policy) <= MAX64 ==> GateKV(req, policy) == KV(req, policy))
  }

  // It is exact for every request exactly with a sane per-token size.
  lemma KVExact(policy: Policy)
    ensures SaneKV(policy) <==> forall req :: ExactKV(req, policy)
  {
    if SaneKV(policy) {
      forall req
        ensures ExactKV(req, policy)
      {
        PerTokenExact(req, policy);
        LargeProduct(Times(ContextOf(req), ParallelOf(req)), PerToken(req, policy));
      }
    } else if policy.kvPerToken < 4 {
      assert !ExactKV(Asking(1, 0x4000_0000_0000_0000, 4, Q4_0, 0), policy);
    } else {
      assert !ExactKV(Asking(1, 1, 1, F16, 0), policy);
    }
  }

  // ---------- the formula missed ----------

  ghost predicate Agrees(policy: Policy) {
    forall host, req :: Gate(host, req, policy) <==> Accepts(host, req, policy)
  }

  const EIB := 0x1000_0000_0000_0000

  // The most that can be left of the memory of a host.
  function Room(policy: Policy): int {
    MAX64 - Max(policy.minOS, MAX64 / 8)
  }

  // The same of what the gate admits.
  function GateRoom(policy: Policy): int {
    Min(Room(policy), MAX64 - policy.minHeadroom)
  }

  // The runtime of a model for one token.
  function OneToken(model: nat, policy: Policy): nat {
    model + model / 100 * 15 + Max(policy.minScratch, model / 10)
  }

  lemma OneTokenRuntime(model: u64, kvType: KVCacheType, reclaimable: u64, policy: Policy)
    ensures var req := Asking(model, 1, 1, kvType, reclaimable);
            && GateKV(req, policy) == KVBytesPerToken(policy.kvPerToken, kvType)
            && KV(req, policy) == PerToken(req, policy)
            && GateRuntime(req, policy) == OneToken(model, policy) + KVBytesPerToken(policy.kvPerToken, kvType)
            && Runtime(req, policy) == OneToken(model, policy) + PerToken(req, policy)
  {
  }

  // A per-token size of nothing: any number of tokens costs nothing, but too many are refused.
  lemma TokensForNothing(policy: Policy)
    requires policy.kvPerToken < 4 && policy.minScratch + 1 <= Room(policy)
    ensures !Agrees(policy)
  {
    var host, req := Large(MAX64), Asking(1, 0x4000_0000_0000_0000, 4, Q4_0, MAX64);
    assert PerToken(req, policy) == 0 && KV(req, policy) == 0;
    assert Accepts(host, req, policy) && !Gate(host, req, policy);
  }

  // A per-token size that wraps: the gate takes what the formula refuses.
  lemma Wraps(policy: Policy, kvType: KVCacheType)
    requires policy.kvPerToken * Sixteenths(kvType) > MAX64
    requires OneToken(1, policy) + KVBytesPerToken(policy.kvPerToken, kvType) <= GateRoom(policy)
    ensures !Agrees(policy)
  {
    var least := OneToken(1, policy) + KVBytesPerToken(policy.kvPerToken, kvType);
    var host, req := Large(least + Max(policy.minHeadroom, MAX64 / 32)), Asking(1, 1, 1, kvType, 0);
    OneTokenRuntime(1, kvType, 0, policy);
    assert PerToken(req, policy) > KVBytesPerToken(policy.kvPerToken, kvType);
    assert Gate(host, req, policy) && !Accepts(host, req, policy);
  }

  // A runtime between the two rooms: the formula takes what the gate refuses.
  lemma Between(policy: Policy, model: u64, kvType: KVCacheType)
    requires model > 0
    requires OneToken(model, policy) + KVBytesPerToken(policy.kvPerToken, kvType) > GateRoom(policy)
    requires OneToken(model, policy) + policy.kvPerToken * Sixteenths(kvType) / 16 <= Room(policy)
    ensures !Agrees(policy)
  {
    var host, req := Large(MAX64), Asking(model, 1, 1, kvType, MAX64);
    OneTokenRuntime(model, kvType, MAX64, policy);
    assert Accepts(host, req, policy) && !Gate(host, req, policy);
  }

  // Runtimes of larger and larger models leave gaps of at most 17.
  lemma {:induction false} Climb(model: nat, top: nat, policy: Policy) returns (reached: nat)
    requires 0 < model && OneToken(model, policy) <= top
    ensures reached > 0 && top - 17 < OneToken(reached, policy) <= top
    decreases top - model
  {
    assert OneToken(model + 1, policy) <= OneToken(model, policy) + 17;
    if OneToken(model + 1, policy) <= top {
      reached := Climb(model + 1, top, policy);
    } else {
      reached := model;
    }
  }

  // Scratch and reserve leave room for six EiB, and the headroom is sane or no near miss.
  predicate Roomy(policy: Policy) {
    && policy.minScratch + 6 * EIB <= Room(policy)
    && (SaneHeadroom(policy) || MAX64 - policy.minHeadroom <= Room(policy) - 17)
  }

  // For such a policy the gate decides as the formula does on every host and request
  // exactly if the policy is sane.
  lemma AgreesIffSane(policy: Policy)
    requires Roomy(policy)
    ensures Agrees(policy) <==> Sane(policy)
  {
    if Sane(policy) {
      forall host, req
        ensures Gate(host, req, policy) <==> Accepts(host, req, policy)
      {
        GateIsFormula(host, req, policy);
      }
    } else if policy.kvPerToken < 4 {
      TokensForNothing(policy);
    } else if policy.kvPerToken <= MAX64 / 16 {
      var perToken := policy.kvPerToken * 5 / 16;
      var model := Climb(1, Room(policy) - perToken, policy);
      Between(policy, model, Q4_0);
    } else {
      WrapsSomehow(policy);
    }
  }

  lemma WrapsSomehow(policy: Policy)
    requires policy.minScratch + 6 * EIB <= Room(policy) && policy.kvPerToken > MAX64 / 16
    ensures !Agrees(policy)
  {
    var wrapped := KVBytesPerToken(policy.kvPerToken, Q4_0);
    if OneToken(1, policy) + KVBytesPerToken(policy.kvPerToken, F16) <= GateRoom(policy) {
      Wraps(policy, F16);
    } else if policy.kvPerToken * 5 <= MAX64 {
      Between(policy, EIB, Q4_0);
    } else if OneToken(1, policy) + wrapped <= GateRoom(policy) {
      Wraps(policy, Q4_0);
    } else {
      Between(policy, 1, Q4_0);
    }
  }

  // A policy that leaves no room for a model of one byte: nothing is accepted either way.
  lemma NothingFits(policy: Policy)
    requires policy.minScratch >= Room(policy)
    ensures Agrees(policy)
  {
    forall host, req
      ensures !Gate(host, req, policy) && !Accepts(host, req, policy)
    {
      assert host.total - OSReserve(host, policy) <= Room(policy);
      assert KnownInputs(host, req) ==> Weights(req) + Scratch(req, policy) > policy.minScratch;
    }
  }

  // The default policy with one number changed, for each part of Sane, with a host and a
  // request for which gate and formula decide apart.
  lemma SaneIsNeeded()
    ensures var host, free := Host("linux", "amd64", 64 * GIB, 48 * GIB, GIB), DEFAULT.(kvPerToken := 1);
            var req := Asking(4 * GIB, 0x4000_0000_0000_0000, 4, Q4_0, 0);
            Accepts(host, req, free) && !Gate(host, req, free)
    ensures var host, wraps := Host("linux", "amd64", 64 * GIB, 48 * GIB, GIB), DEFAULT.(kvPerToken := EIB);
            var req := Asking(4 * GIB, 4096, 1, F16, 0);
            Gate(host, req, wraps) && !Accepts(host, req, wraps)
    ensures var host, saturates := Large(MAX64), DEFAULT.(minHeadroom := 4 * EIB);
            var req := Asking(10 * EIB, 4096, 1, F16, MAX64);
            Accepts(host, req, saturates) && !Gate(host, req, saturates)
  {
  }

  // ---------- what an accepted model may count on ----------

  // Whatever the caller claims it can reclaim, the model and the system's reserve
  // together stay within the memory of the host.
  lemma NeverBeyondMemory(host: Host, req: Request, policy: Policy)
    requires Accepts(host, req, policy)
    ensures Runtime(req, policy) + OSReserve(host, policy) <= host.total
  {
  }

  // A request that asks for no more, on a host that offers no less.
  ghost predicate Easier(host: Host, req: Request, host': Host, req': Request) {
    && 0 < req'.model <= req.model && req'.mmproj <= req.mmproj && req'.download <= req.download
    && ContextOf(req') <= ContextOf(req) && ParallelOf(req') <= ParallelOf(req)
    && req'.gpuLayers == req.gpuLayers && req'.unified == req.unified && req'.kvType == req.kvType
    && req'.vram >= req.vram && req'.reclaimable >= req.reclaimable
    && host' == host.(available := host'.available, freeDisk := host'.freeDisk)
    && host'.available >= host.available && host'.freeDisk >= host.freeDisk
  }

  lemma TimesMonotone(a: nat, b: nat, a': nat, b': nat)
    requires a' <= a && b' <= b
    ensures Times(a', b') <= Times(a, b)
  {
    assert a' * b' <= a * b' <= a * b;
  }

  lemma KVMonotone(req: Request, req': Request, policy: Policy)
    requires ContextOf(req') <= ContextOf(req) && ParallelOf(req') <= ParallelOf(req) && req'.kvType == req.kvType
    ensures KV(req', policy) <= KV(req, policy)
  {
    TimesMonotone(ContextOf(req), ParallelOf(req), ContextOf(req'), ParallelOf(req'));
    TimesMonotone(Times(ContextOf(req), ParallelOf(req)), PerToken(req, policy),
                  Times(ContextOf(req'), ParallelOf(req')), PerToken(req', policy));
  }

  lemma WeightsMonotone(req: Request, req': Request)
    requires Artifacts(req') <= Artifacts(req)
    ensures Weights(req') <= Weights(req)
  {
  }

  lemma RuntimeMonotone(host: Host, req: Request, host': Host, req': Request, policy: Policy)
    requires Easier(host, req, host', req')
    ensures Weights(req') <= Weights(req) && KV(req', policy) <= KV(req, policy)
    ensures Runtime(req', policy) <= Runtime(req, policy) && Budget(host', req', policy) >= Budget(host, req, policy)
  {
    KVMonotone(req, req', policy);
    WeightsMonotone(req, req');
  }

  lemma VramMonotone(req: Request, req': Request, kv: nat, kv': nat)
    requires req'.vram >= req.vram && FullOffload(req') == FullOffload(req)
    requires Weights(req') <= Weights(req) && kv' <= kv && VramHolds(req, kv)
    ensures VramHolds(req', kv')
  {
  }

  lemma DiskMonotone(host: Host, req: Request, host': Host, req': Request, policy: Policy)
    requires Artifacts(req') <= Artifacts(req) && req'.download <= req.download && host'.freeDisk >= host.freeDisk
    requires DiskFits(host, req, policy)
    ensures DiskFits(host', req', policy)
  {
  }

  lemma AcceptanceIsKept(host: Host, req: Request, host': Host, req': Request, policy: Policy)
    requires Accepts(host, req, policy) && Easier(host, req, host', req')
    ensures Accepts(host', req', policy)
  {
    RuntimeMonotone(host, req, host', req', policy);
    VramMonotone(req, req', KV(req, policy), KV(req', policy));
    DiskMonotone(host, req, host', req', policy);
  }
}
