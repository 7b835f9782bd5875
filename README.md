# CSCS ReFrame checks: a verified Dafny model of their logic

The CSCS ReFrame test repository is mostly declarations. A few parts of it
have behaviour of their own, and this project models those parts and proves
their properties:

- **Site configuration** (`config/cscs.py`). The systems directory is chosen
  from `UENV`, and symbolic links are dropped from the globbed system files.
  `common.py` is put first. The `site_configuration` fragments are then
  folded into one table, with each key's lists concatenated in file order
  (module `SiteConfig`).
- **likwid bandwidth checks** (`likwid.py`). This covers the per-partition
  tables, the `config` parameter, the reference table and the hooks that set
  the reference and the `likwid-bench` command line (`-t` and `-w` options),
  including the cross-socket variant (module `Likwid`).
- **Amber check** (`amber_check.py`). This covers the performance reference
  table and the hooks that scope systems, set GPUs and tasks, skip partitions
  without topology information and choose the reference (module `Amber`).
- **CI notifier** (`slack_notify.py`). `main` takes one report path, reads
  the session summary, composes the message from the summary and the
  environment, and POSTs it to the webhook (module `SlackNotify`).

`Text` models Python's rendering of an `int` and adds a scanner that reads
the rendering back. With it the model can state that numbers written into
option strings and messages can be recovered from them. `Wrappers` holds
`Option` and `Result`.

Hooks that assign attributes of a test become methods of a class with those
fields (`Likwid.CPUBandwidth`, `Likwid.CPUBandwidthCrossSocket`,
`Amber.AmberCheck`). Each method states the new value of every field it
sets. The merge loop of the site configuration is a method with loops and
invariants. `main` of the notifier is a method that returns an outcome: the
exit status, whether the file and the environment were read, the one POST
(if any) and the printed lines. Table lookups, the parameter expansion and
the string building are functions.

The comment at `likwid.py:108` shows `100MB` as the data size of the
`CPUBandwidth` run. The code takes the size from `system_cache_sizes`, and
the model follows the code (`Likwid.DaintMcMemoryLoad` shows `1800MB` for
the main-memory run on daint:mc).

## Model

| member | source | states |
|---|---|---|
| `SiteConfig.SystemsDir` | config/cscs.py:13-14 | the directory is `systems-uenv` exactly when `UENV` is set (even to an empty value), and `systems` otherwise |
| `SiteConfig.Join` | config/cscs.py:16-21 | the joined path ends in the name and starts with the directory; a separator is added only after a non-empty directory that does not end in `/` |
| `SiteConfig.JoinCases` | config/cscs.py:19-21 | an empty `dirname(__file__)` gives the bare `common.py`, `/` gives `/common.py`, and `config` gives `config/common.py` |
| `SiteConfig.ConfigFiles` | config/cscs.py:19-23 | `common.py` is the first configuration file; the rest are the non-link globbed files, in glob order |
| `SiteConfig.NonLinksMember` | config/cscs.py:22-23 | a path is kept exactly when the glob reported it and it is not a symbolic link |
| `SiteConfig.NonLinksCount` | config/cscs.py:16-23 | each path is kept as many times as the glob reported it as a non-link, so a path globbed once is included at most once |
| `SiteConfig.MergeFragments` | config/cscs.py:29-33 | the `setdefault`/extend loop produces the merged table (key union, per-key concatenation in fragment order), whatever order a fragment's keys are visited in |
| `SiteConfig.MergedKeys` | config/cscs.py:29-33 | a key is in the merged table exactly when some fragment has it |
| `SiteConfig.MergedLength` | config/cscs.py:29-33 | a key's merged list is as long as that key's lists put together |
| `SiteConfig.AbsentKeyUnchanged` | config/cscs.py:32-33 | a fragment without a key leaves that key's accumulated list and its presence unchanged |
| `SiteConfig.AppendedAtEnd` | config/cscs.py:30-33 | a later fragment's list for a key is appended after everything gathered before it |
| `SiteConfig.FirstFragmentFirst` | config/cscs.py:19-33 | the first fragment's list for a key precedes every later fragment's entries |
| `SiteConfig.MergedEmpty` | config/cscs.py:29 | merging no fragment gives the empty table |
| `SiteConfig.SiteConfiguration` | config/cscs.py:13-33 | the whole module gives the chosen files, their merged fragments, and every `common.py` list as a prefix of its key's merged list |
| `Likwid.ConfigParamValues` | cscs-checks/microbenchmarks/cpu/likwid/likwid.py:56-59 | the intended `config`, with the comprehension spread, is exactly the eight (level, kernel) pairs L1/L2/L3 × load_avx/store_avx (level outer), then (memory, load_avx) and (memory, store_mem_avx) |
| `Likwid.ConfigParamSpreads` | cscs-checks/microbenchmarks/cpu/likwid/likwid.py:56-59 | the intended `config` is the as-written three-value parameter with its first value, the six-pair list, spread in front of the two memory pairs |
| `Likwid.SetInitAsWrittenFails` | cscs-checks/microbenchmarks/cpu/likwid/likwid.py:56-84 | as written, `config` has three values; `set_` raises `ValueError` at the unpacking on the first (six pairs into two names) and `NameError` for `refs` on the other two |
| `Likwid.RefProxy` | cscs-checks/microbenchmarks/cpu/likwid/likwid.py:83-84 | the proxy is defined exactly when every partition type has a reference for the kernel and level; it has one entry per partition type, taken from `refs` |
| `Likwid.RefProxyDefined` | cscs-checks/microbenchmarks/cpu/likwid/likwid.py:64-84 | `refs` has a reference on both partition types exactly for main memory with load_avx or store_mem_avx, and for a cache level with load_avx or store_avx |
| `Likwid.ConfigRefsDefined` | cscs-checks/microbenchmarks/cpu/likwid/likwid.py:56-84 | every pair of the intended `config` has a reference for both `mc` and `gpu`, and none of them is (memory, store_avx) |
| `Likwid.ReferencePerPartition` | cscs-checks/microbenchmarks/cpu/likwid/likwid.py:85-98 | each of the four partitions gets the bandwidth reference of the type its name ends in, with tolerance -0.1, no upper bound and unit MB/s |
| `Likwid.TablesCoverPartitions` | cscs-checks/microbenchmarks/cpu/likwid/likwid.py:18-60 | every valid partition has a CPU count, a non-empty NUMA-domain list and a data size for every level; the cross-socket partitions are among them |
| `Likwid.TablesColonFree` | cscs-checks/microbenchmarks/cpu/likwid/likwid.py:24-40 | no domain name or data size contains `:`, so the `-w` fields are unambiguous |
| `Likwid.ThreadsPerDomain` | cscs-checks/microbenchmarks/cpu/likwid/likwid.py:106-107 | the threads per domain are the largest count whose product with domains × tasks per core fits in the CPU count (floor division) |
| `Likwid.DaintMcThreads` | cscs-checks/microbenchmarks/cpu/likwid/likwid.py:106-108 | daint:mc gets 18 threads per domain |
| `Likwid.ExecOpts` | cscs-checks/microbenchmarks/cpu/likwid/likwid.py:111-113 | `executable_opts` has 1 + (number of domains) entries, and the first is `-t <kernel>` |
| `Likwid.ExecOptsReadBack` | cscs-checks/microbenchmarks/cpu/likwid/likwid.py:108-113 | entry i + 1 is the `-w` option for domain i in table order, and its domain, data size and thread count can be read back |
| `Likwid.WorkgroupOptRoundTrip` | cscs-checks/microbenchmarks/cpu/likwid/likwid.py:108-111 | a `-w domain:data_size:nthreads:1:2` option can be parsed back into its three fields |
| `Likwid.DaintMcMemoryLoad` | cscs-checks/microbenchmarks/cpu/likwid/likwid.py:103-113 | on daint:mc the memory load run's options are `-t load_avx`, `-w S0:1800MB:18:1:2`, `-w S1:1800MB:18:1:2` |
| `Likwid.CrossPairsShape` | cscs-checks/microbenchmarks/cpu/likwid/likwid.py:144-146 | the cross-socket run has min(2, number of domains) workgroups; the i-th runs on `domains[i]` and reads the memory of `reversed(domains)[i]` |
| `Likwid.CrossSocketExecOpts` | cscs-checks/microbenchmarks/cpu/likwid/likwid.py:144-148 | the cross-socket options are `-t <kernel>` followed by one `-w` entry per domain pair; entry i + 1 runs on `domains[i]`, reads the memory of the mirrored domain and uses the given thread count |
| `Likwid.DaintMcCrossSocket` | cscs-checks/microbenchmarks/cpu/likwid/likwid.py:137-148 | on daint:mc, S0 reads S1's memory and S1 reads S0's, with 18 threads and 100MB each |
| `Likwid.RefProxyAsWrittenFails` | cscs-checks/microbenchmarks/cpu/likwid/likwid.py:83-84 | as written, the bare `refs` raises `NameError` for every (level, kernel) pair, although the class table has a reference for each intended `config` pair |
| `Likwid.CPUBandwidth.SetInit` | cscs-checks/microbenchmarks/cpu/likwid/likwid.py:80-98 | `set_` unpacks `config` into level and kernel, formats `descr`, and sets the per-partition reference from the class's `refs` |
| `Likwid.CPUBandwidth.SetExecOpts` | cscs-checks/microbenchmarks/cpu/likwid/likwid.py:101-113 | `set_exec_opts` sets the data size, the CPUs per task and `executable_opts` from the partition's tables; the other fields are unchanged |
| `Likwid.CPUBandwidthCrossSocket.constructor` | cscs-checks/microbenchmarks/cpu/likwid/likwid.py:117-129 | the cross-socket test has its two-sentence `descr` and runs `load_avx` with a 56000 MB/s reference (tolerance -0.1) on daint:mc and dom:mc |
| `Likwid.CPUBandwidthCrossSocket.SetExecOpts` | cscs-checks/microbenchmarks/cpu/likwid/likwid.py:132-148 | `set_exec_opts` sets the CPUs per task and the cross-socket `executable_opts` |
| `Text.ScanIntText` | cscs-checks/microbenchmarks/cpu/likwid/likwid.py:111 | an integer rendered as Python's `str`/`:d` scans back to itself, and what followed it is left over |
| `Amber.BenchRefs` | checks/apps/amber/amber_check.py:23-63 | every architecture entry has exactly the four benchmark names, each in ns/day with no upper bound |
| `Amber.AllrefShape` | checks/apps/amber/amber_check.py:22-63 | the node counts of `allref` are exactly the `num_nodes` values {1, 4, 6, 8, 16}; each has one architecture with the same four benchmarks |
| `Amber.PerfLookupDefined` | checks/apps/amber/amber_check.py:104-114 | the three-level lookup succeeds exactly for a `num_nodes` value, its listed architecture and one of the four benchmarks |
| `Amber.ScopedSystemsCases` | checks/apps/amber/amber_check.py:66-78 | `cuda` never yields a system; `mpi` yields eiger:mc and pilatus:mc for 4 and 8 nodes only; a missing key yields `[]` |
| `Amber.ScopedRunsHaveReferences` | checks/apps/amber/amber_check.py:66-114 | every node count that `mpi` is scoped to has a zen2 reference for every benchmark |
| `Amber.AmberCheck.ScopeSystems` | checks/apps/amber/amber_check.py:67-78 | `valid_systems` becomes the table entry when both keys exist and `[]` otherwise; it is non-empty exactly for `mpi` with 4 or 8 nodes |
| `Amber.AmberCheck.SetNumGpusPerNode` | checks/apps/amber/amber_check.py:81-83 | `num_gpus_per_node` becomes 1 exactly for `cuda` and is otherwise unchanged |
| `Amber.AmberCheck.SkipIfNoTopo` | checks/apps/amber/amber_check.py:86-90 | the test is skipped, with the partition named in the message, exactly when the processor has no topology information |
| `Amber.AmberCheck.SetNumTasks` | checks/apps/amber/amber_check.py:93-101 | tasks per node are 1 for `cuda` and the core count otherwise; `num_tasks` is the node count times tasks per node |
| `Amber.AmberCheck.SetPerfReference` | checks/apps/amber/amber_check.py:104-114 | `reference` becomes `{pname: {'perf': allref[n][arch][bench]}}` when all three lookups succeed; otherwise it is unchanged |
| `SlackNotify.RunNotifier` | ci/scripts/slack_notify.py:7-66 | wrong argument count, unreadable report and missing or empty webhook each exit 1 without a POST (the first reads nothing, the second reads no environment); otherwise exactly one POST of the composed message is made and the exit is 0 whatever the answer |
| `SlackNotify.ComposeFields` | ci/scripts/slack_notify.py:22-51 | the report URL is the pipeline URL plus `/test_report`; the defaults are `Unknown System`, `Unknown Pipeline` and `#`; each count and the elapsed time present in the report are shown as given, missing counts as 0 and a missing elapsed time as `0`; the status is failure exactly when the report's `num_failures` or `num_aborted` is present and positive |
| `SlackNotify.MissingSessionDefaults` | ci/scripts/slack_notify.py:22-50 | a report without `session_info` gives all counts 0, success and elapsed `0` |
| `SlackNotify.StatusIgnoresCasesAndSkipped` | ci/scripts/slack_notify.py:36-39 | the status does not depend on the total or skipped counts |
| `SlackNotify.CountsRoundTrip` | ci/scripts/slack_notify.py:46-49 | all four counts can be read back from their rendered text |
| `SlackNotify.StatusLineRoundTrip` | ci/scripts/slack_notify.py:46-49 | the status glyph and all four counts can be read back from the status line |
| `SlackNotify.MessageCarriesStatus` | ci/scripts/slack_notify.py:41-51 | every message contains the complete status line right after its header lines |
| `SlackNotify.FailedRunExample` | ci/scripts/slack_notify.py:36-49 | a report with 10 cases, 2 failures, 0 aborted and 1 skipped on TestSys gives the failure glyph, and its counts read back from the status line |

## Findings

| source | as written | input that shows it | evidently intended | confidence | as-written member | corrected member |
|---|---|---|---|---|---|---|
| cscs-checks/microbenchmarks/cpu/likwid/likwid.py:56-59 | The comprehension is the first element of the list given to `parameter`, not spread into it, so `config` has three values: the list of six cache pairs, (memory, load_avx) and (memory, store_mem_avx). On the first, `self.mem_level, self.kernel_name = self.config` (line 81) raises `ValueError`. `CPUBandwidth` has no `@rfm.simple_test` (only line 116 has one), so the framework never instantiates it and the fault is latent. | the first `config` value, the six-pair list | the comprehension spread (`*[...]`), giving eight (level, kernel) pairs | not executed | `Likwid.SetInitAsWrittenFails` | `Likwid.ConfigParamSpreads` |
| cscs-checks/microbenchmarks/cpu/likwid/likwid.py:83 | `set_` reads the bare name `refs`. A method body cannot see class-body names, and the module has no global `refs`, so the hook raises `NameError` on every `config` value that gets past the unpacking at line 81 (the first value fails there already). Latent for the same reason: `CPUBandwidth` is never instantiated. | the `config` value (memory, load_avx) | look up the class table `self.refs` | not executed | `Likwid.RefProxyAsWrittenFails` | `Likwid.RefProxy` |

## Left out

- Likwid.CPUBandwidth.SetInit: requires one of the eight pairs of the intended `config` and models the intended lookup into the class's `refs` table. As written, the hook raises `ValueError` on the first `config` value and `NameError` on the other two (see Findings; `Likwid.SetInitAsWritten` models that path).
- Likwid.RefProxy: a missing key gives `None`; the model does not record which key Python's `KeyError` would name.
- Likwid.CPUBandwidth.SetExecOpts and Likwid.CPUBandwidthCrossSocket.SetExecOpts: require a partition from the test's `valid_systems`, because the framework runs the hook only there. The `KeyError` another partition would raise is not modelled.
- SiteConfig.MergeFragments: the merged table is a `map`, so the insertion order of a Python dict's keys is not modelled; the order of each key's list is.
- SiteConfig.Join: models `os.path.join` for a second part that does not start with `/` (an absolute second part would discard the directory); every name config/cscs.py joins is relative. The glob, `os.path.islink` and `import_module_from_file` are inputs (a function from pattern to entries, and one from path to fragment).
- Amber.SkipMessage: puts the partition name in single quotes. It does not model how `repr` escapes names that contain quotes or backslashes.
- Amber.AmberCheck.SkipIfNoTopo: records the skip reason. The framework's `skip` raises and stops the later hooks; hook scheduling is not modelled.
- The `amber_nve_check` base class is not part of this model. Its `variant`, `bench_name`, initial `num_gpus_per_node` and `reference` are constructor inputs, and the partition's name and processor are hook inputs.
- SlackNotify.RunNotifier: JSON decoding is the `load` input, and the model takes integer counts and a real elapsed time. These other values are not modelled:
  - A document that is not an object, or a `session_info` that is `null` or not an object, makes `.get` raise `AttributeError`.
  - A non-numeric `num_failures` or `num_aborted` (including `null`) makes the comparison at slack_notify.py:36 raise `TypeError`.
  - A non-numeric `time_elapsed` makes `round` raise `TypeError`.
  - A float in `num_failures` or `num_aborted` compares fine and is printed as a float.
  - `num_cases` and `num_skipped` are never compared: any value there is just printed (`null` prints `None`).
- SlackNotify.ElapsedText: `round(x, 2)` and float printing are the `showElapsed` input. A missing `time_elapsed` renders as the integer `0`.
- `requests.post` is the `post` input. The `Content-Type` header is not recorded; the request is its URL and the `text` of its JSON body.
- ReFrame machinery is not modelled: the sanity and performance functions (`likwid.py:44-52`, float bandwidth extraction), `parameter`/`variable`, hook scheduling, and the declarative attributes (modules, tags, maintainers, resources).
- Reference values and tolerances are exact numbers here; floating-point behaviour is not modelled.
- `cscs-checks/libraries/gridtools/gridtools_base.py`, `checks/containers/container_engine/cuda_mps.py` and `checks/prgenv/ulimit_check.py` are not part of this model. They are declarative tables and regex sanity patterns that the framework evaluates.
