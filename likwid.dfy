/**
 * The likwid memory-bandwidth checks
 * (cscs-checks/microbenchmarks/cpu/likwid/likwid.py): the per-partition
 * tables of `MemBandwidthTest`, the `config` parameter and reference table of
 * `CPUBandwidth`, and the hooks that turn them into the test's reference and
 * the `likwid-bench` command line.
 *
 * `CPUBandwidth` as written cannot run its `set_` hook: its `config` holds the
 * six cache pairs as ONE list value, which fails to unpack at likwid.py:81,
 * and the other two values reach the bare name `refs` at likwid.py:83, which
 * raises `NameError`.  Both are modelled as written (`ConfigAsWritten`,
 * `SetInitAsWritten`) next to the evidently intended definitions
 * (`ConfigParam`, `RefProxy`) that the class uses.  The class carries no
 * `@rfm.simple_test` decorator (only `CPUBandwidthCrossSocket` does), so the
 * framework never instantiates it and both faults are latent.
 *
 * Reference values and tolerances are kept as opaque numbers; the bandwidth
 * the benchmark prints and its extraction are not part of this model.
 */
module Likwid {
  import opened Wrappers
  import opened Text

  // ---------------------------------------------------------------------
  // Names used as table keys

  /** A memory level of the benchmark. */
  datatype Level = L1 | L2 | L3 | Memory {
    function Name(): string {
      match this
      case L1 => "L1"
      case L2 => "L2"
      case L3 => "L3"
      case Memory => "memory"
    }
  }

  /** A likwid-bench kernel. */
  datatype Kernel = LoadAvx | StoreAvx | StoreMemAvx {
    function Name(): string {
      match this
      case LoadAvx => "load_avx"
      case StoreAvx => "store_avx"
      case StoreMemAvx => "store_mem_avx"
    }
  }

  /** The partition type the reference table is keyed by. */
  datatype PartType = Mc | Gpu {
    function Name(): string {
      match this
      case Mc => "mc"
      case Gpu => "gpu"
    }
  }

  // ---------------------------------------------------------------------
  // MemBandwidthTest's tables

  const NumTasksPerCore: int := 2

  /** `system_num_cpus`. */
  const SystemNumCpus: map<string, int> :=
    map["daint:mc" := 72, "daint:gpu" := 24, "dom:mc" := 72, "dom:gpu" := 24]

  /** `system_numa_domains`. */
  const SystemNumaDomains: map<string, seq<string>> :=
    map["daint:mc" := ["S0", "S1"], "daint:gpu" := ["S0"],
        "dom:mc" := ["S0", "S1"], "dom:gpu" := ["S0"]]

  const McCacheSizes: map<Level, string> :=
    map[L1 := "288kB", L2 := "2304kB", L3 := "23MB", Memory := "1800MB"]
  const GpuCacheSizes: map<Level, string> :=
    map[L1 := "192kB", L2 := "1536kB", L3 := "15MB", Memory := "1200MB"]

  /** `system_cache_sizes`. */
  const SystemCacheSizes: map<string, map<Level, string>> :=
    map["daint:mc" := McCacheSizes, "daint:gpu" := GpuCacheSizes,
        "dom:mc" := McCacheSizes, "dom:gpu" := GpuCacheSizes]

  // ---------------------------------------------------------------------
  // CPUBandwidth's parameter and reference table

  /** One value of the `config` parameter: a memory level and a likwid kernel. */
  datatype BenchConfig = BenchConfig(level: Level, kernel: Kernel)

  const CacheLevels: seq<Level> := [L1, L2, L3]
  const CacheKernels: seq<Kernel> := [LoadAvx, StoreAvx]

  /** Every cache level with every cache kernel, level outer and kernel inner, as the comprehension runs. */
  function CachePairs(): seq<BenchConfig> {
    seq(6, i requires 0 <= i < 6 => BenchConfig(CacheLevels[i / 2], CacheKernels[i % 2]))
  }

  /**
   * `config` as evidently intended: the cache pairs spread into the list,
   * then the two main-memory runs.
   */
  function ConfigParam(): seq<BenchConfig> {
    CachePairs() + [BenchConfig(Memory, LoadAvx), BenchConfig(Memory, StoreMemAvx)]
  }

  /** One value of a `parameter` list as likwid.py:56-59 builds it: a list of pairs, or one pair. */
  datatype ConfigValue = Pairs(pairs: seq<BenchConfig>) | Pair(pair: BenchConfig)

  /**
   * `config` as written: the comprehension is the first element of the
   * outer list, not spread into it, so the parameter has three values.
   */
  function ConfigAsWritten(): seq<ConfigValue> {
    [Pairs(CachePairs()), Pair(BenchConfig(Memory, LoadAvx)), Pair(BenchConfig(Memory, StoreMemAvx))]
  }

  /** The values a list of parameter values gives once every nested list is spread (`*`) into it. */
  function Spread(vals: seq<ConfigValue>): (r: seq<BenchConfig>)
    ensures forall i :: 0 <= i < |vals| && vals[i].Pair? ==> vals[i].pair in r
    ensures forall i, j :: 0 <= i < |vals| && vals[i].Pairs? && 0 <= j < |vals[i].pairs| ==> vals[i].pairs[j] in r
  {
    if vals == [] then []
    else (match vals[0] case Pairs(ps) => ps case Pair(p) => [p]) + Spread(vals[1..])
  }

  /** `CPUBandwidth.valid_systems`. */
  const BandwidthSystems: seq<string> := ["daint:mc", "daint:gpu", "dom:gpu", "dom:mc"]

  const McRefs: map<Kernel, map<Level, int>> :=
    map[LoadAvx := map[L1 := 5100000, L2 := 2000000, L3 := 900000, Memory := 130000],
        StoreAvx := map[L1 := 2800000, L2 := 900000, L3 := 480000],
        StoreMemAvx := map[Memory := 85000]]
  const GpuRefs: map<Kernel, map<Level, int>> :=
    map[LoadAvx := map[L1 := 2100000, L2 := 850000, L3 := 360000, Memory := 65000],
        StoreAvx := map[L1 := 1200000, L2 := 340000, L3 := 210000],
        StoreMemAvx := map[Memory := 42500]]

  /** `CPUBandwidth.refs`: partition type, then kernel, then level, to MB/s. */
  const Refs: map<PartType, map<Kernel, map<Level, int>>> := map[Mc := McRefs, Gpu := GpuRefs]

  /** The entry of `Refs` for a partition type, kernel and level, if there is one. */
  function RefLookup(t: PartType, kernel: Kernel, level: Level): Option<int> {
    if t in Refs && kernel in Refs[t] && level in Refs[t][kernel]
    then Some(Refs[t][kernel][level])
    else None
  }

  /**
   * `ref_proxy` (likwid.py:83-84) with the lookup going to the class's
   * `refs` table: every partition type's reference for the kernel and level,
   * or `None` where the comprehension would raise `KeyError`.
   */
  function RefProxy(kernel: Kernel, level: Level): (r: Option<map<PartType, int>>)
    ensures r.Some? <==> forall t :: t in Refs ==> RefLookup(t, kernel, level).Some?
    ensures r.Some? ==>
              r.value.Keys == Refs.Keys &&
              forall t :: t in r.value ==> RefLookup(t, kernel, level) == Some(r.value[t])
  {
    if forall t :: t in Refs ==> RefLookup(t, kernel, level).Some?
    then Some(map t | t in Refs :: RefLookup(t, kernel, level).value)
    else None
  }

  /** A performance reference `(value, lower, upper, unit)`; `None` means no upper bound. */
  datatype BandwidthRef = BandwidthRef(value: int, lower: real, upper: Option<real>, unit: string)

  /** The partition type a partition's full name ends in (`:mc` or `:gpu`). */
  function PartitionType(fullname: string): Option<PartType> {
    if |fullname| >= 3 && fullname[|fullname| - 3..] == ":mc" then Some(Mc)
    else if |fullname| >= 4 && fullname[|fullname| - 4..] == ":gpu" then Some(Gpu)
    else None
  }

  /** The `reference` dictionary `set_` assigns, given the proxied values. */
  function BandwidthReference(proxy: map<PartType, int>): map<string, map<string, BandwidthRef>>
    requires Gpu in proxy && Mc in proxy
  {
    map["daint:gpu" := map["bandwidth" := BandwidthRef(proxy[Gpu], -0.1, None, "MB/s")],
        "daint:mc" := map["bandwidth" := BandwidthRef(proxy[Mc], -0.1, None, "MB/s")],
        "dom:gpu" := map["bandwidth" := BandwidthRef(proxy[Gpu], -0.1, None, "MB/s")],
        "dom:mc" := map["bandwidth" := BandwidthRef(proxy[Mc], -0.1, None, "MB/s")]]
  }

  /** `descr` as `set_` formats it. */
  function Description(level: Level, kernel: Kernel): string {
    "CPU <- " + level.Name() + " " + kernel.Name() + " benchmark"
  }

  // ---------------------------------------------------------------------
  // Command-line construction

  /**
   * Threads per NUMA domain: `num_cpus // (len(domains) * num_tasks_per_core)`.
   * With a positive divisor Python's floor division and Dafny's `/` agree.
   * The result is the largest thread count that fits every domain's share.
   */
  function ThreadsPerDomain(numCpus: int, numDomains: nat, tasksPerCore: int): (n: int)
    requires numDomains * tasksPerCore > 0
    ensures n * (numDomains * tasksPerCore) <= numCpus < (n + 1) * (numDomains * tasksPerCore)
  {
    numCpus / (numDomains * tasksPerCore)
  }

  /** One `-w domain:data_size:nthreads:chunk_size:stride` option of `CPUBandwidth`. */
  function WorkgroupOpt(dom: string, dataSize: string, nthreads: int): string {
    "-w " + dom + ":" + dataSize + ":" + IntText(nthreads) + ":1:2"
  }

  /** Reads a `-w` option back into its domain, data size and thread count. */
  function ParseWorkgroupOpt(opt: string): Option<(string, string, int)> {
    var r0 :- DropPrefix("-w ", opt);
    var p1 :- SplitAt(':', r0);
    var p2 :- SplitAt(':', p1.1);
    var p3 :- ScanInt(p2.1);
    var r4 :- DropPrefix(":1:2", p3.1);
    if r4 == [] then Some((p1.0, p2.0, p3.0)) else None
  }

  /** A workgroup option names its domain, data size and thread count recoverably. */
  lemma WorkgroupOptRoundTrip(dom: string, dataSize: string, nthreads: int)
    requires ':' !in dom && ':' !in dataSize
    ensures ParseWorkgroupOpt(WorkgroupOpt(dom, dataSize, nthreads)) == Some((dom, dataSize, nthreads))
  {
    var tail := IntText(nthreads) + ":1:2";
    assert WorkgroupOpt(dom, dataSize, nthreads) == "-w " + (dom + [':'] + (dataSize + [':'] + tail));
    DropPrefixOf("-w ", dom + [':'] + (dataSize + [':'] + tail));
    SplitAtOf(':', dom, dataSize + [':'] + tail);
    SplitAtOf(':', dataSize, tail);
    ScanIntText(nthreads, ":1:2");
    DropPrefixOf(":1:2", []);
    assert ":1:2" + [] == ":1:2";
  }

  /** `executable_opts` of `CPUBandwidth`: the kernel, then one workgroup per domain, in table order. */
  function ExecOpts(kernel: Kernel, dataSize: string, nthreads: int, domains: seq<string>): (opts: seq<string>)
    ensures |opts| == 1 + |domains| && opts[0] == "-t " + kernel.Name()
  {
    ["-t " + kernel.Name()]
    + seq(|domains|, i requires 0 <= i < |domains| => WorkgroupOpt(domains[i], dataSize, nthreads))
  }

  /**
   * After the kernel option, the i-th option of `ExecOpts` reads back as the
   * i-th domain with the data size and thread count.
   */
  lemma ExecOptsReadBack(kernel: Kernel, dataSize: string, nthreads: int, domains: seq<string>, i: nat)
    requires i < |domains| && ':' !in domains[i] && ':' !in dataSize
    ensures ParseWorkgroupOpt(ExecOpts(kernel, dataSize, nthreads, domains)[i + 1])
            == Some((domains[i], dataSize, nthreads))
  {
    WorkgroupOptRoundTrip(domains[i], dataSize, nthreads);
  }

  /** `reversed(s)`. */
  function Reversed<T>(s: seq<T>): (r: seq<T>)
    ensures |r| == |s|
  {
    if s == [] then [] else Reversed(s[1..]) + [s[0]]
  }

  lemma {:induction false} ReversedAt<T>(s: seq<T>, k: nat)
    requires k < |s|
    ensures Reversed(s)[k] == s[|s| - 1 - k]
  {
    if k < |s| - 1 {
      ReversedAt(s[1..], k);
    }
  }

  /** `zip(a, b)`: pairs up to the shorter length. */
  function Zip<A, B>(a: seq<A>, b: seq<B>): (r: seq<(A, B)>)
    ensures |r| == if |a| < |b| then |a| else |b|
  {
    if a == [] || b == [] then [] else [(a[0], b[0])] + Zip(a[1..], b[1..])
  }

  lemma {:induction false} ZipAt<A, B>(a: seq<A>, b: seq<B>, k: nat)
    requires k < |a| && k < |b|
    ensures Zip(a, b)[k] == (a[k], b[k])
  {
    if k > 0 {
      ZipAt(a[1..], b[1..], k - 1);
    }
  }

  /** The (CPU domain, memory domain) pairs of the cross-socket run. */
  function CrossPairs(domains: seq<string>): seq<(string, string)> {
    var firstTwo := domains[..if |domains| < 2 then |domains| else 2];
    Zip(firstTwo, Reversed(firstTwo))
  }

  /**
   * The cross-socket pairing: at most two entries; the i-th runs on domain i
   * and reads the memory of the domain at the mirrored position.
   */
  lemma CrossPairsShape(domains: seq<string>)
    ensures |CrossPairs(domains)| == if |domains| < 2 then |domains| else 2
    ensures forall i :: 0 <= i < |CrossPairs(domains)| ==>
              CrossPairs(domains)[i] == (domains[i], domains[|CrossPairs(domains)| - 1 - i])
  {
    var m := if |domains| < 2 then |domains| else 2;
    var firstTwo := domains[..m];
    forall i | 0 <= i < m
      ensures CrossPairs(domains)[i] == (domains[i], domains[m - 1 - i])
    {
      ZipAt(firstTwo, Reversed(firstTwo), i);
      ReversedAt(firstTwo, i);
    }
  }

  /** One `-w cpu_domain:100MB:nthreads:1:2-0:mem_domain` option of the cross-socket run. */
  function CrossSocketOpt(cpuDom: string, memDom: string, nthreads: int): string {
    "-w " + cpuDom + ":100MB:" + IntText(nthreads) + ":1:2-0:" + memDom
  }

  /** `executable_opts` of `CPUBandwidthCrossSocket`. */
  function CrossSocketExecOpts(kernel: Kernel, nthreads: int, domains: seq<string>): (opts: seq<string>)
    ensures |opts| == 1 + |CrossPairs(domains)| && opts[0] == "-t " + kernel.Name()
    ensures forall i :: 0 <= i < |CrossPairs(domains)| ==>
              opts[i + 1] == CrossSocketOpt(domains[i], domains[|CrossPairs(domains)| - 1 - i], nthreads)
  {
    CrossPairsShape(domains);
    var pairs := CrossPairs(domains);
    ["-t " + kernel.Name()]
    + seq(|pairs|, i requires 0 <= i < |pairs| => CrossSocketOpt(pairs[i].0, pairs[i].1, nthreads))
  }

  // ---------------------------------------------------------------------
  // Lookups of `set_exec_opts`, defined on every partition the tests run on

  /** `system_cache_sizes[partname][mem_level]`. */
  function DataSize(partname: string, level: Level): string
    requires partname in BandwidthSystems
  {
    TablesCoverPartitions();
    SystemCacheSizes[partname][level]
  }

  /** `system_num_cpus[partname]`. */
  function NumCpus(partname: string): int
    requires partname in BandwidthSystems
  {
    TablesCoverPartitions();
    SystemNumCpus[partname]
  }

  /** `system_numa_domains[partname]`. */
  function NumaDomains(partname: string): (domains: seq<string>)
    requires partname in BandwidthSystems
    ensures |domains| > 0
  {
    TablesCoverPartitions();
    SystemNumaDomains[partname]
  }

  /** `num_cpu_domain` on a partition. */
  function PartitionThreads(partname: string): int
    requires partname in BandwidthSystems
  {
    ThreadsPerDomain(NumCpus(partname), |NumaDomains(partname)|, NumTasksPerCore)
  }

  // ---------------------------------------------------------------------
  // The tests and their hooks

  /** Python name lookup from a method body: its locals, then module globals, then builtins. */
  predicate Resolves(name: string, locals: set<string>, globals: set<string>, builtins: set<string>) {
    name in locals || name in globals || name in builtins
  }

  /**
   * The names likwid.py binds at module level (its imports and classes; the
   * interpreter's dunder names are left out).  Only the absence of `refs`
   * matters here.
   */
  const ModuleGlobals: set<string> := {"rfm", "sn", "MemBandwidthTest", "CPUBandwidth", "CPUBandwidthCrossSocket"}

  /**
   * A sample of Python's builtin names, the ones likwid.py uses.  Not a
   * complete list: only the absence of `refs` among the builtins matters.
   */
  const Builtins: set<string> := {"dict", "len", "list", "print", "range", "reversed", "zip"}

  datatype PyError = NameError(name: string) | KeyError | ValueError | TypeError

  /**
   * `ref_proxy` as likwid.py:83 writes it: the bare name `refs` is looked up
   * from inside `set_`, whose only local is `self`; the class body's names
   * are not in scope there.
   */
  function RefProxyAsWritten(kernel: Kernel, level: Level): Result<map<PartType, int>, PyError> {
    if !Resolves("refs", {"self"}, ModuleGlobals, Builtins) then Err(NameError("refs"))
    else match RefProxy(kernel, level)
      case Some(m) => Ok(m)
      case None => Err(KeyError)
  }

  /**
   * As written, `ref_proxy` raises `NameError` for every (level, kernel)
   * pair, although the class's own table has a reference for each pair of
   * the intended `config`.
   */
  lemma RefProxyAsWrittenFails(c: BenchConfig)
    requires c in ConfigParam()
    ensures RefProxyAsWritten(c.kernel, c.level) == Err(NameError("refs"))
    ensures RefProxy(c.kernel, c.level).Some?
  {
    assert "refs" !in ModuleGlobals && "refs" !in Builtins;
    ConfigRefsDefined(c);
  }

  /**
   * `set_` up to `ref_proxy` as written, on one `config` value: the
   * unpacking at likwid.py:81 raises `ValueError` unless the value has two
   * elements; a two-element list of pairs would be unpacked into two lists,
   * which cannot index `refs`.
   */
  function SetInitAsWritten(v: ConfigValue): Result<map<PartType, int>, PyError> {
    match v
    case Pairs(ps) =>
      if |ps| != 2 then Err(ValueError)
      else if !Resolves("refs", {"self"}, ModuleGlobals, Builtins) then Err(NameError("refs"))
      else Err(TypeError)
    case Pair(p) => RefProxyAsWritten(p.kernel, p.level)
  }

  /**
   * As written, `set_` fails on all three values of `config`: the six-pair
   * list does not unpack into level and kernel, and the two memory pairs
   * reach the unbound `refs`.
   */
  lemma SetInitAsWrittenFails()
    ensures |ConfigAsWritten()| == 3
    ensures SetInitAsWritten(ConfigAsWritten()[0]) == Err(ValueError)
    ensures SetInitAsWritten(ConfigAsWritten()[1]) == Err(NameError("refs"))
    ensures SetInitAsWritten(ConfigAsWritten()[2]) == Err(NameError("refs"))
  {
    assert |ConfigAsWritten()[0].pairs| == 6;
    RefProxyAsWrittenFails(ConfigAsWritten()[1].pair);
    RefProxyAsWrittenFails(ConfigAsWritten()[2].pair);
  }

  /**
   * The intended `config` is the as-written parameter with its nested list
   * spread: the six cache pairs followed by the two memory pairs.
   */
  lemma ConfigParamSpreads()
    ensures ConfigParam() == Spread(ConfigAsWritten())
    ensures ConfigParam() == ConfigAsWritten()[0].pairs + [ConfigAsWritten()[1].pair, ConfigAsWritten()[2].pair]
  {
    var w := ConfigAsWritten();
    assert w[1..][1..][1..] == [];
    assert Spread(w[1..][1..]) == [w[2].pair];
    assert Spread(w[1..]) == [w[1].pair, w[2].pair];
  }

  class CPUBandwidth {
    const config: BenchConfig
    var memLevel: Level
    var kernelName: Kernel
    var descr: string
    var reference: map<string, map<string, BandwidthRef>>
    var dataSize: string
    var numCpusPerTask: int
    var executableOpts: seq<string>

    /** A test instance for one value of `config`, before its hooks run. */
    constructor (config: BenchConfig)
      requires config in ConfigParam()
      ensures this.config == config && Valid()
      ensures reference == map[] && executableOpts == []
    {
      this.config := config;
      memLevel, kernelName, descr := L1, LoadAvx, "";
      reference := map[];
      dataSize, numCpusPerTask, executableOpts := "", 0, [];
    }

    ghost predicate Valid()
      reads this
    {
      config in ConfigParam()
    }

    /** `set_` (after init), with the reference taken from the class's `refs`. */
    method SetInit()
      requires Valid()
      modifies this
      ensures Valid()
      ensures memLevel == config.level && kernelName == config.kernel
      ensures descr == Description(config.level, config.kernel)
      ensures RefProxy(config.kernel, config.level).Some?
      ensures reference == BandwidthReference(RefProxy(config.kernel, config.level).value)
      ensures dataSize == old(dataSize) && numCpusPerTask == old(numCpusPerTask)
      ensures executableOpts == old(executableOpts)
    {
      memLevel, kernelName := config.level, config.kernel;
      descr := Description(memLevel, kernelName);
      ConfigRefsDefined(config);
      var proxy := RefProxy(kernelName, memLevel).value;
      reference := BandwidthReference(proxy);
    }

    /** `set_exec_opts` (before run) on partition `partname`, after `set_`. */
    method SetExecOpts(partname: string)
      requires Valid() && partname in BandwidthSystems
      requires memLevel == config.level && kernelName == config.kernel
      modifies this
      ensures Valid()
      ensures dataSize == DataSize(partname, config.level)
      ensures numCpusPerTask == NumCpus(partname)
      ensures executableOpts ==
                ExecOpts(config.kernel, dataSize, PartitionThreads(partname), NumaDomains(partname))
      ensures memLevel == old(memLevel) && kernelName == old(kernelName)
      ensures descr == old(descr) && reference == old(reference)
    {
      dataSize := DataSize(partname, memLevel);
      numCpusPerTask := NumCpus(partname);
      var numaDomains := NumaDomains(partname);
      var numCpuDomain := ThreadsPerDomain(numCpusPerTask, |numaDomains|, NumTasksPerCore);
      executableOpts := ExecOpts(kernelName, dataSize, numCpuDomain, numaDomains);
    }
  }

  /** `CPUBandwidthCrossSocket.valid_systems`. */
  const CrossSocketSystems: seq<string> := ["daint:mc", "dom:mc"]

  /** `CPUBandwidthCrossSocket.reference`. */
  const CrossSocketReference: map<string, map<string, BandwidthRef>> :=
    map["daint:mc" := map["bandwidth" := BandwidthRef(56000, -0.1, None, "MB/s")],
        "dom:mc" := map["bandwidth" := BandwidthRef(56000, -0.1, None, "MB/s")]]

  /** `CPUBandwidthCrossSocket.descr` (the two adjacent literals joined). */
  const CrossSocketDescr: string := "CPU S0 <- main memory S1 read CPU S1 <- main memory S0 read"

  class CPUBandwidthCrossSocket {
    const descr: string
    const kernelName: Kernel
    const reference: map<string, map<string, BandwidthRef>>
    var numCpusPerTask: int
    var executableOpts: seq<string>

    constructor ()
      ensures descr == CrossSocketDescr
      ensures kernelName == LoadAvx && reference == CrossSocketReference
      ensures executableOpts == []
    {
      descr := CrossSocketDescr;
      kernelName := LoadAvx;
      reference := CrossSocketReference;
      numCpusPerTask, executableOpts := 0, [];
    }

    /** `set_exec_opts` (before run) on partition `partname`. */
    method SetExecOpts(partname: string)
      requires partname in CrossSocketSystems
      modifies this
      ensures partname in BandwidthSystems
      ensures numCpusPerTask == NumCpus(partname)
      ensures executableOpts ==
                CrossSocketExecOpts(kernelName, PartitionThreads(partname), NumaDomains(partname))
    {
      TablesCoverPartitions();
      numCpusPerTask := NumCpus(partname);
      var numaDomains := NumaDomains(partname);
      var numCpuDomain := ThreadsPerDomain(numCpusPerTask, |numaDomains|, NumTasksPerCore);
      executableOpts := CrossSocketExecOpts(kernelName, numCpuDomain, numaDomains);
    }
  }

  // ---------------------------------------------------------------------
  // Properties of the tables

  /** `config` expands to exactly these eight (level, kernel) pairs, in this order. */
  lemma ConfigParamValues()
    ensures ConfigParam() ==
      [BenchConfig(L1, LoadAvx), BenchConfig(L1, StoreAvx),
       BenchConfig(L2, LoadAvx), BenchConfig(L2, StoreAvx),
       BenchConfig(L3, LoadAvx), BenchConfig(L3, StoreAvx),
       BenchConfig(Memory, LoadAvx), BenchConfig(Memory, StoreMemAvx)]
  {
  }

  /**
   * Every value of the intended `config` has a reference for both partition
   * types; it never produces (memory, store_avx), the one pair with none.
   */
  lemma ConfigRefsDefined(c: BenchConfig)
    requires c in ConfigParam()
    ensures c != BenchConfig(Memory, StoreAvx)
    ensures RefProxy(c.kernel, c.level).Some?
  {
    ConfigParamValues();
    RefProxyDefined(c.kernel, c.level);
  }

  /**
   * `refs` has main-memory references for every kernel but store_avx, and
   * cache-level references for every kernel but store_mem_avx.
   */
  lemma RefProxyDefined(kernel: Kernel, level: Level)
    ensures RefProxy(kernel, level).Some? <==> if level == Memory then kernel != StoreAvx else kernel != StoreMemAvx
  {
    match level
    case Memory =>
      if kernel == StoreAvx {
        assert RefLookup(Mc, kernel, level).None?;
      } else {
        assert RefLookup(Mc, kernel, level).Some? && RefLookup(Gpu, kernel, level).Some?;
      }
    case _ =>
      if kernel == StoreMemAvx {
        assert RefLookup(Mc, kernel, level).None?;
      } else {
        assert RefLookup(Mc, kernel, level).Some? && RefLookup(Gpu, kernel, level).Some?;
      }
  }

  /**
   * Each partition gets the reference of the partition type its name ends
   * in, with lower tolerance -0.1, no upper bound and unit MB/s.
   */
  lemma ReferencePerPartition(proxy: map<PartType, int>, part: string)
    requires Gpu in proxy && Mc in proxy && part in BandwidthSystems
    ensures PartitionType(part).Some?
    ensures BandwidthReference(proxy)[part]
            == map["bandwidth" := BandwidthRef(proxy[PartitionType(part).value], -0.1, None, "MB/s")]
  {
    if part == "daint:mc" || part == "dom:mc" {
      assert part[|part| - 3..] == ":mc";
      assert PartitionType(part) == Some(Mc);
    } else {
      assert part == "daint:gpu" || part == "dom:gpu";
      assert part[|part| - 3..] != ":mc" && part[|part| - 4..] == ":gpu";
      assert PartitionType(part) == Some(Gpu);
    }
  }

  /**
   * Every partition the tests run on has a CPU count, a non-empty list of
   * NUMA domains and a data size for every level, so the lookups of
   * `set_exec_opts` never fail and the thread division is defined.
   */
  lemma TablesCoverPartitions()
    ensures forall p :: p in BandwidthSystems ==>
              p in SystemNumCpus && p in SystemNumaDomains && p in SystemCacheSizes
              && |SystemNumaDomains[p]| > 0
              && forall l: Level :: l in SystemCacheSizes[p]
    ensures forall p :: p in CrossSocketSystems ==> p in BandwidthSystems
  {
    assert forall l: Level :: l in McCacheSizes && l in GpuCacheSizes by {
      forall l: Level ensures l in McCacheSizes && l in GpuCacheSizes {
        match l
        case L1 =>
        case L2 =>
        case L3 =>
        case Memory =>
      }
    }
  }

  /** No domain name or data size contains `:`, so every `-w` option reads back. */
  lemma TablesColonFree(partname: string, level: Level)
    requires partname in BandwidthSystems
    ensures ':' !in DataSize(partname, level)
    ensures forall d :: d in NumaDomains(partname) ==> ':' !in d
  {
  }

  /** On daint:mc each of the two domains gets 18 threads. */
  lemma DaintMcThreads()
    ensures PartitionThreads("daint:mc") == 18
  {
  }

  /**
   * On daint:mc the main-memory load run uses the table's 1800MB data size
   * (the comment at likwid.py:108 shows 100MB, the cross-socket run's size).
   */
  lemma DaintMcMemoryLoad()
    ensures ExecOpts(LoadAvx, DataSize("daint:mc", Memory), PartitionThreads("daint:mc"), NumaDomains("daint:mc"))
            == ["-t load_avx", "-w S0:1800MB:18:1:2", "-w S1:1800MB:18:1:2"]
  {
    DaintMcThreads();
    Decimal18();
    var opts := ExecOpts(LoadAvx, "1800MB", 18, ["S0", "S1"]);
    assert |opts| == 3 && opts[0] == "-t " + "load_avx" == "-t load_avx";
    assert opts[1] == WorkgroupOpt("S0", "1800MB", 18) == "-w S0:1800MB:18:1:2";
    assert opts[2] == WorkgroupOpt("S1", "1800MB", 18) == "-w S1:1800MB:18:1:2";
  }

  /** On daint:mc the cross-socket run has S0 read S1's memory and S1 read S0's. */
  lemma DaintMcCrossSocket()
    ensures CrossSocketExecOpts(LoadAvx, PartitionThreads("daint:mc"), NumaDomains("daint:mc"))
            == ["-t load_avx", "-w S0:100MB:18:1:2-0:S1", "-w S1:100MB:18:1:2-0:S0"]
  {
    var d := NumaDomains("daint:mc");
    assert d == ["S0", "S1"];
    CrossPairsShape(d);
    assert |CrossPairs(d)| == 2;
    assert d[0] == "S0" && d[1] == "S1";
    assert CrossPairs(d)[0] == ("S0", "S1");
    assert CrossPairs(d)[1] == ("S1", "S0");
    DaintMcThreads();
    var opts := CrossSocketExecOpts(LoadAvx, 18, d);
    assert |opts| == 3 && opts[0] == "-t " + "load_avx" == "-t load_avx";
    DaintMcCrossSocketOpts();
    assert opts[1] == CrossSocketOpt("S0", "S1", 18);
    assert opts[2] == CrossSocketOpt("S1", "S0", 18);
  }

  lemma DaintMcCrossSocketOpts()
    ensures CrossSocketOpt("S0", "S1", 18) == "-w S0:100MB:18:1:2-0:S1"
    ensures CrossSocketOpt("S1", "S0", 18) == "-w S1:100MB:18:1:2-0:S0"
  {
    Decimal18();
  }
}
