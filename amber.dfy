/**
 * The CSCS Amber NVE check (checks/apps/amber/amber_check.py): its
 * performance reference table and the hooks that scope the test to systems,
 * set GPUs and tasks, skip partitions without topology information and pick
 * the performance reference.
 *
 * What the framework supplies (the `variant` and `bench_name` of the base
 * test, the current partition's name and processor) are inputs.  Reference
 * values and tolerances are opaque numbers.
 */
module Amber {
  import opened Wrappers

  /** A performance reference `(value, lower, upper, unit)`; `None` means no upper bound. */
  datatype PerfRef = PerfRef(value: real, lower: real, upper: Option<real>, unit: string)

  /** What the test reads of the current partition's processor. */
  datatype Processor = Processor(hasInfo: bool, arch: string, numCores: int)

  /** The current partition: its full name (`system:partition`) and processor. */
  datatype Partition = Partition(fullname: string, processor: Processor)

  /** The `num_nodes` parameter. */
  const NumNodesParam: seq<int> := [1, 4, 6, 8, 16]

  /** The benchmark names every architecture entry of `allref` covers. */
  const BenchNames: set<string> :=
    {"Cellulose_production_NVE", "FactorIX_production_NVE", "JAC_production_NVE", "JAC_production_NVE_4fs"}

  /** One architecture's references for the four benchmarks, all in ns/day without upper bound. */
  function BenchRefs(cellulose: real, cellTol: real, factorIX: real, factorTol: real,
                     jac: real, jacTol: real, jac4fs: real, jac4fsTol: real): (refs: map<string, PerfRef>)
    ensures refs.Keys == BenchNames
    ensures forall b :: b in refs ==> refs[b].upper.None? && refs[b].unit == "ns/day"
  {
    map["Cellulose_production_NVE" := PerfRef(cellulose, cellTol, None, "ns/day"),
        "FactorIX_production_NVE" := PerfRef(factorIX, factorTol, None, "ns/day"),
        "JAC_production_NVE" := PerfRef(jac, jacTol, None, "ns/day"),
        "JAC_production_NVE_4fs" := PerfRef(jac4fs, jac4fsTol, None, "ns/day")]
  }

  /** `allref`: node count, then architecture, then benchmark. */
  function Allref(): map<int, map<string, map<string, PerfRef>>> {
    map[1 := map["p100" := BenchRefs(30.84, -0.10, 134.0, -0.05, 388.0, -0.05, 742.0, -0.05)],
        4 := map["zen2" := BenchRefs(3.691, -0.30, 7.0, -0.30, 30.0, -0.30, 45.0, -0.30)],
        6 := map["broadwell" := BenchRefs(5.848, -0.10, 34.0, -0.30, 90.0, -0.30, 150.0, -0.30)],
        8 := map["zen2" := BenchRefs(2.877, -0.30, 3.5, -0.30, 17.0, -0.30, 30.5, -0.30)],
        16 := map["broadwell" := BenchRefs(2.121, -0.10, 36.0, -0.30, 78.0, -0.30, 135.0, -0.30)]]
  }

  /** `allref[num_nodes][arch][bench_name]`, or `None` where it raises `KeyError`. */
  function PerfLookup(numNodes: int, arch: string, bench: string): Option<PerfRef> {
    var t := Allref();
    if numNodes in t && arch in t[numNodes] && bench in t[numNodes][arch]
    then Some(t[numNodes][arch][bench])
    else None
  }

  /** The one architecture `allref` has references for at a node count. */
  function ArchFor(numNodes: int): string {
    if numNodes == 1 then "p100"
    else if numNodes == 4 || numNodes == 8 then "zen2"
    else "broadwell"
  }

  /** The table local to `scope_systems`: variant, then node count, to systems. */
  const ValidSystemsTable: map<string, map<int, seq<string>>> :=
    map["cuda" := map[1 := []],
        "mpi" := map[4 := ["eiger:mc", "pilatus:mc"], 8 := ["eiger:mc", "pilatus:mc"]]]

  /** `valid_systems[variant][num_nodes]`, or `[]` where it raises `KeyError`. */
  function ScopedSystems(variant: string, numNodes: int): seq<string> {
    if variant in ValidSystemsTable && numNodes in ValidSystemsTable[variant]
    then ValidSystemsTable[variant][numNodes]
    else []
  }

  /** `num_tasks_per_node`: one task per node for CUDA, one per core otherwise. */
  function TasksPerNode(variant: string, numCores: int): int {
    if variant == "cuda" then 1 else numCores
  }

  /** The message `skip_if_no_topo` skips with (the partition name in quotes, as `!r` shows it). */
  function SkipMessage(pname: string): string {
    "no topology information found for partition '" + pname + "'"
  }

  class AmberCheck {
    const variant: string
    const numNodes: int
    const benchName: string
    var validSystems: seq<string>
    var numGpusPerNode: int
    var numTasksPerNode: int
    var numTasks: int
    var reference: map<string, map<string, PerfRef>>
    var skipReason: Option<string>

    /** A test instance as the base class leaves it, before the hooks of this class run. */
    constructor (variant: string, numNodes: int, benchName: string,
                 numGpusPerNode: int, reference: map<string, map<string, PerfRef>>)
      requires numNodes in NumNodesParam
      ensures this.variant == variant && this.numNodes == numNodes && this.benchName == benchName
      ensures this.numGpusPerNode == numGpusPerNode && this.reference == reference
      ensures skipReason == None
    {
      this.variant, this.numNodes, this.benchName := variant, numNodes, benchName;
      this.numGpusPerNode, this.reference := numGpusPerNode, reference;
      validSystems, numTasksPerNode, numTasks := [], 0, 0;
      skipReason := None;
    }

    /** `scope_systems` (after init): the table entry, or no system at all. */
    method ScopeSystems()
      modifies this`validSystems
      ensures validSystems == ScopedSystems(variant, numNodes)
      ensures validSystems != [] <==> variant == "mpi" && (numNodes == 4 || numNodes == 8)
    {
      var table := ValidSystemsTable;
      if variant in table && numNodes in table[variant] {
        validSystems := table[variant][numNodes];
      } else {
        validSystems := [];
      }
      ScopedSystemsCases(variant, numNodes);
    }

    /** `set_num_gpus_per_node` (after init). */
    method SetNumGpusPerNode()
      modifies this`numGpusPerNode
      ensures numGpusPerNode == if variant == "cuda" then 1 else old(numGpusPerNode)
    {
      if variant == "cuda" {
        numGpusPerNode := 1;
      }
    }

    /** `skip_if_no_topo` (after setup): skip when the processor has no topology information. */
    method SkipIfNoTopo(part: Partition)
      modifies this`skipReason
      ensures skipReason == if part.processor.hasInfo then old(skipReason) else Some(SkipMessage(part.fullname))
    {
      var proc := part.processor;
      var pname := part.fullname;
      if !proc.hasInfo {
        skipReason := Some(SkipMessage(pname));
      }
    }

    /** `set_num_tasks` (after setup). */
    method SetNumTasks(part: Partition)
      modifies this`numTasksPerNode, this`numTasks
      ensures numTasksPerNode == TasksPerNode(variant, part.processor.numCores)
      ensures numTasks == numNodes * numTasksPerNode
    {
      if variant == "cuda" {
        numTasksPerNode := 1;
      } else {
        var proc := part.processor;
        numTasksPerNode := proc.numCores;
      }
      numTasks := numNodes * numTasksPerNode;
    }

    /**
     * `set_perf_reference` (before performance): replace the reference when
     * all three lookups succeed; a `KeyError` is suppressed and leaves it.
     */
    method SetPerfReference(part: Partition)
      modifies this`reference
      ensures PerfLookup(numNodes, part.processor.arch, benchName).Some? ==>
                reference == map[part.fullname := map["perf" := PerfLookup(numNodes, part.processor.arch, benchName).value]]
      ensures PerfLookup(numNodes, part.processor.arch, benchName).None? ==> reference == old(reference)
    {
      var proc := part.processor;
      var pname := part.fullname;
      var arch := proc.arch;
      var t := Allref();
      if numNodes in t && arch in t[numNodes] && benchName in t[numNodes][arch] {
        reference := map[pname := map["perf" := t[numNodes][arch][benchName]]];
      }
    }
  }

  // ---------------------------------------------------------------------
  // Properties of the tables and lookups

  /**
   * `cuda` never yields a system; `mpi` yields eiger:mc and pilatus:mc for
   * 4 and 8 nodes and nothing otherwise; every other variant yields nothing.
   */
  lemma ScopedSystemsCases(variant: string, numNodes: int)
    ensures ScopedSystems(variant, numNodes)
            == if variant == "mpi" && (numNodes == 4 || numNodes == 8) then ["eiger:mc", "pilatus:mc"] else []
  {
    if variant == "mpi" {
      assert ValidSystemsTable["mpi"].Keys == {4, 8};
    } else if variant == "cuda" {
      assert ValidSystemsTable["cuda"][1] == [];
    }
  }

  /**
   * The node counts of `allref` are exactly the `num_nodes` parameter values,
   * each has one architecture, and every architecture entry covers the same
   * four benchmarks.
   */
  lemma AllrefShape()
    ensures Allref().Keys == set n | n in NumNodesParam
    ensures forall n :: n in Allref() ==> Allref()[n].Keys == {ArchFor(n)}
    ensures forall n, a :: n in Allref() && a in Allref()[n] ==> Allref()[n][a].Keys == BenchNames
  {
    var t := Allref();
    forall n | n in t
      ensures t[n].Keys == {ArchFor(n)}
    {
      assert n == 1 || n == 4 || n == 6 || n == 8 || n == 16;
    }
  }

  /**
   * The reference lookup succeeds exactly for a `num_nodes` value, the
   * architecture `allref` lists for it and one of the four benchmarks.
   */
  lemma PerfLookupDefined(numNodes: int, arch: string, bench: string)
    ensures PerfLookup(numNodes, arch, bench).Some?
            <==> numNodes in NumNodesParam && arch == ArchFor(numNodes) && bench in BenchNames
  {
    AllrefShape();
  }

  /** The node counts `mpi` runs on have zen2 references for every benchmark. */
  lemma ScopedRunsHaveReferences(numNodes: int, bench: string)
    requires ScopedSystems("mpi", numNodes) != [] && bench in BenchNames
    ensures PerfLookup(numNodes, "zen2", bench).Some?
  {
    ScopedSystemsCases("mpi", numNodes);
    PerfLookupDefined(numNodes, "zen2", bench);
  }
}
