/**
 * The CSCS site configuration (config/cscs.py): pick the systems directory
 * from `UENV`, list its `*.py` files without the symbolic links, put
 * `common.py` in front, load each file's `site_configuration` fragment and
 * fold the fragments into one table whose value for every key is the
 * concatenation, in file order, of that key's lists.
 *
 * Globbing, the symlink test and module loading are inputs: the glob is a
 * function from pattern to (path, is-a-link) entries, loading a function
 * from path to fragment.
 */
module SiteConfig {

  /** One file's `site_configuration`: a key such as `systems` mapped to a list of entries. */
  type Fragment<V> = map<string, seq<V>>

  /** What the glob reports for one path, with the outcome of `os.path.islink`. */
  datatype GlobEntry = GlobEntry(path: string, isLink: bool)

  // ---------------------------------------------------------------------
  // Specification of the merge

  /** A fragment's list for `key`, or the empty list when it has none. */
  function Entries<V>(f: Fragment<V>, key: string): seq<V> {
    if key in f then f[key] else []
  }

  /** The lists for `key` of all fragments, concatenated in fragment order. */
  function Gather<V>(frags: seq<Fragment<V>>, key: string): seq<V> {
    if frags == [] then [] else Entries(frags[0], key) + Gather(frags[1..], key)
  }

  /** Every key that some fragment has. */
  function AllKeys<V>(frags: seq<Fragment<V>>): set<string> {
    if frags == [] then {} else frags[0].Keys + AllKeys(frags[1..])
  }

  /** The merged table: the union of the keys, each with its gathered list. */
  function Merged<V>(frags: seq<Fragment<V>>): map<string, seq<V>> {
    map k | k in AllKeys(frags) :: Gather(frags, k)
  }

  /** Total length of the lists for `key` across the fragments. */
  function TotalLength<V>(frags: seq<Fragment<V>>, key: string): nat {
    if frags == [] then 0 else |Entries(frags[0], key)| + TotalLength(frags[1..], key)
  }

  lemma {:induction false} GatherSnoc<V>(frags: seq<Fragment<V>>, f: Fragment<V>, key: string)
    ensures Gather(frags + [f], key) == Gather(frags, key) + Entries(f, key)
  {
    if frags != [] {
      assert (frags + [f])[1..] == frags[1..] + [f];
      GatherSnoc(frags[1..], f, key);
    } else {
      assert [f][1..] == [];
    }
  }

  lemma {:induction false} AllKeysSnoc<V>(frags: seq<Fragment<V>>, f: Fragment<V>)
    ensures AllKeys(frags + [f]) == AllKeys(frags) + f.Keys
  {
    if frags != [] {
      assert (frags + [f])[1..] == frags[1..] + [f];
      AllKeysSnoc(frags[1..], f);
    } else {
      assert [f][1..] == [];
    }
  }

  lemma {:induction false} GatherOfMissingKey<V>(frags: seq<Fragment<V>>, key: string)
    requires key !in AllKeys(frags)
    ensures Gather(frags, key) == []
  {
    if frags != [] {
      GatherOfMissingKey(frags[1..], key);
    }
  }

  /** Extending every list of a merged table by one more fragment's lists merges that fragment too. */
  lemma MergeStep<V>(frags: seq<Fragment<V>>, c: Fragment<V>, site: map<string, seq<V>>)
    requires site.Keys == Merged(frags).Keys + c.Keys
    requires forall k :: k in site ==> site[k] == Entries(Merged(frags), k) + Entries(c, k)
    ensures site == Merged(frags + [c])
  {
    AllKeysSnoc(frags, c);
    forall k | k in site
      ensures site[k] == Gather(frags + [c], k)
    {
      GatherSnoc(frags, c, k);
      if k !in Merged(frags) {
        GatherOfMissingKey(frags, k);
      }
    }
  }

  // ---------------------------------------------------------------------
  // The merge loop

  /**
   * The loop at config/cscs.py:29-33: for each fragment, for each of its
   * keys, `setdefault(key, [])` and then extend that list in place.  The
   * order in which a fragment's keys are visited is left open; the result
   * does not depend on it.
   */
  method MergeFragments<V>(configs: seq<Fragment<V>>) returns (site: map<string, seq<V>>)
    ensures site == Merged(configs)
  {
    site := map[];
    for i := 0 to |configs|
      invariant site == Merged(configs[..i])
    {
      var c := configs[i];
      ghost var before := site;
      var pending := c.Keys;
      while pending != {}
        invariant pending <= c.Keys
        invariant site.Keys == before.Keys + (c.Keys - pending)
        invariant forall k :: k in site ==>
                    site[k] == Entries(before, k) + (if k in c && k !in pending then c[k] else [])
        decreases pending
      {
        var key :| key in pending;
        if key !in site {
          site := site[key := []];
        }
        site := site[key := site[key] + c[key]];
        pending := pending - {key};
      }
      assert configs[..i + 1] == configs[..i] + [c];
      MergeStep(configs[..i], c, site);
    }
    assert configs[..|configs|] == configs;
  }

  // ---------------------------------------------------------------------
  // Properties of the merged table

  /** Merging no fragment gives the empty table. */
  lemma MergedEmpty<V>()
    ensures Merged<V>([]) == map[]
  {
  }

  /** A key is in the merged table exactly when some fragment has it. */
  lemma {:induction false} MergedKeys<V>(frags: seq<Fragment<V>>, key: string)
    ensures key in Merged(frags) <==> exists i :: 0 <= i < |frags| && key in frags[i]
  {
    if frags != [] {
      MergedKeys(frags[1..], key);
      if key in Merged(frags[1..]) {
        var i :| 0 <= i < |frags[1..]| && key in frags[1..][i];
        assert key in frags[i + 1];
      }
      if exists i :: 0 <= i < |frags| && key in frags[i] {
        var i :| 0 <= i < |frags| && key in frags[i];
        if i > 0 {
          assert key in frags[1..][i - 1];
        }
      }
    }
  }

  /** The merged list for a key is as long as that key's lists put together. */
  lemma {:induction false} MergedLength<V>(frags: seq<Fragment<V>>, key: string)
    ensures |Gather(frags, key)| == TotalLength(frags, key)
  {
    if frags != [] {
      MergedLength(frags[1..], key);
    }
  }

  /**
   * `setdefault` never overwrites: a fragment without `key` leaves the list
   * gathered so far for `key` as it was.
   */
  lemma AbsentKeyUnchanged<V>(frags: seq<Fragment<V>>, f: Fragment<V>, key: string)
    requires key !in f
    ensures Gather(frags + [f], key) == Gather(frags, key)
    ensures key in Merged(frags + [f]) <==> key in Merged(frags)
  {
    GatherSnoc(frags, f, key);
    AllKeysSnoc(frags, f);
  }

  /** An appended fragment's list for a key goes to the end of that key's merged list. */
  lemma AppendedAtEnd<V>(frags: seq<Fragment<V>>, f: Fragment<V>, key: string)
    requires key in f
    ensures key in Merged(frags + [f])
    ensures Merged(frags + [f])[key] == Gather(frags, key) + f[key]
  {
    GatherSnoc(frags, f, key);
    AllKeysSnoc(frags, f);
  }

  /** The first fragment's list for a key comes before every later fragment's. */
  lemma FirstFragmentFirst<V>(first: Fragment<V>, rest: seq<Fragment<V>>, key: string)
    requires key in Merged([first] + rest)
    ensures Merged([first] + rest)[key] == Entries(first, key) + Gather(rest, key)
  {
    assert ([first] + rest)[1..] == rest;
  }

  // ---------------------------------------------------------------------
  // Choosing and filtering the files

  /** `systems-uenv` when `UENV` is set (to anything, even the empty string), else `systems`. */
  function SystemsDir(env: map<string, string>): (dir: string)
    ensures dir == "systems-uenv" <==> "UENV" in env
    ensures dir == "systems" <==> "UENV" !in env
  {
    if "UENV" in env then "systems-uenv" else "systems"
  }

  /**
   * `os.path.join(dir, name)` on POSIX for a `name` that does not start with
   * `/` (as every name joined in config/cscs.py): an empty `dir` adds nothing,
   * a `dir` ending in `/` gets no second separator.
   */
  function Join(dir: string, name: string): (p: string)
    ensures |p| >= |name| && p[|p| - |name|..] == name
    ensures dir <= p
    ensures dir != [] && dir[|dir| - 1] != '/' ==> p == dir + "/" + name
    ensures |p| == |dir| + |name| + (if dir != [] && dir[|dir| - 1] != '/' then 1 else 0)
  {
    if dir == [] || dir[|dir| - 1] == '/' then dir + name else dir + "/" + name
  }

  /** The directory of `__file__` being empty or `/`-terminated adds no separator. */
  lemma JoinCases()
    ensures Join("", "common.py") == "common.py"
    ensures Join("/", "common.py") == "/common.py"
    ensures Join("config", "common.py") == "config/common.py"
  {
    assert "" + "common.py" == "common.py";
    assert "/" + "common.py" == "/common.py";
    assert "config" + "/" + "common.py" == "config/common.py";
  }

  // The glob pattern: the systems directory under `confDir`, then `*.py`.
  function GlobPattern(confDir: string, env: map<string, string>): string {
    Join(Join(confDir, SystemsDir(env)), "*.py")
  }

  /** The globbed paths that are not symbolic links, in glob order. */
  function NonLinks(entries: seq<GlobEntry>): (paths: seq<string>)
    ensures |paths| <= |entries|
  {
    if entries == [] then []
    else (if entries[0].isLink then [] else [entries[0].path]) + NonLinks(entries[1..])
  }

  /** How many times `p` occurs in `s`. */
  function Occurrences(s: seq<string>, p: string): nat {
    if s == [] then 0 else (if s[0] == p then 1 else 0) + Occurrences(s[1..], p)
  }

  /** How many globbed entries have path `p` and are not links. */
  function NonLinkOccurrences(entries: seq<GlobEntry>, p: string): nat {
    if entries == [] then 0
    else (if entries[0].path == p && !entries[0].isLink then 1 else 0)
         + NonLinkOccurrences(entries[1..], p)
  }

  /**
   * A path is kept exactly as often as the glob reported it as a non-link:
   * links are dropped, everything else is kept once per globbed entry.
   */
  lemma {:induction false} NonLinksCount(entries: seq<GlobEntry>, p: string)
    ensures Occurrences(NonLinks(entries), p) == NonLinkOccurrences(entries, p)
  {
    if entries != [] {
      NonLinksCount(entries[1..], p);
      OccurrencesAppend(if entries[0].isLink then [] else [entries[0].path], NonLinks(entries[1..]), p);
    }
  }

  lemma {:induction false} OccurrencesAppend(a: seq<string>, b: seq<string>, p: string)
    ensures Occurrences(a + b, p) == Occurrences(a, p) + Occurrences(b, p)
  {
    if a != [] {
      assert (a + b)[1..] == a[1..] + b;
      OccurrencesAppend(a[1..], b, p);
    } else {
      assert a + b == b;
    }
  }

  /** A path is kept exactly when the glob reported it and it is not a link. */
  lemma {:induction false} NonLinksMember(entries: seq<GlobEntry>, p: string)
    ensures p in NonLinks(entries) <==> GlobEntry(p, false) in entries
  {
    if entries != [] {
      NonLinksMember(entries[1..], p);
      assert entries == [entries[0]] + entries[1..];
    }
  }

  /**
   * `config_files` as config/cscs.py:19-23 builds it: `common.py` first, then
   * the non-link system files.
   */
  function ConfigFiles(confDir: string, globbed: seq<GlobEntry>): (files: seq<string>)
    ensures |files| >= 1 && files[0] == Join(confDir, "common.py")
    ensures files[1..] == NonLinks(globbed)
  {
    [Join(confDir, "common.py")] + NonLinks(globbed)
  }

  /**
   * The whole of config/cscs.py: choose the directory, glob it, filter the
   * links, load each file's fragment and merge.  Returns `config_files` and
   * `site_configuration`.
   */
  method SiteConfiguration<V>(env: map<string, string>, confDir: string,
                              glob: string -> seq<GlobEntry>, load: string -> Fragment<V>)
    returns (files: seq<string>, site: map<string, seq<V>>)
    ensures files == ConfigFiles(confDir, glob(GlobPattern(confDir, env)))
    ensures site == Merged(seq(|files|, i requires 0 <= i < |files| => load(files[i])))
    ensures forall k :: k in load(Join(confDir, "common.py")) ==>
              k in site && load(Join(confDir, "common.py"))[k] <= site[k]
  {
    var systemConfFiles := glob(GlobPattern(confDir, env));
    files := [Join(confDir, "common.py")];
    files := files + NonLinks(systemConfFiles);
    var systemConfigs := seq(|files|, i requires 0 <= i < |files| => load(files[i]));
    site := MergeFragments(systemConfigs);
    forall k | k in load(Join(confDir, "common.py"))
      ensures k in site && load(Join(confDir, "common.py"))[k] <= site[k]
    {
      assert systemConfigs == [systemConfigs[0]] + systemConfigs[1..];
      assert k in AllKeys(systemConfigs);
      FirstFragmentFirst(systemConfigs[0], systemConfigs[1..], k);
    }
  }
}
