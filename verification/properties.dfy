/** What the aggregator promises about its output, proved of the model. */
module Properties {
  import opened Wrappers
  import opened Text
  import opened FileTree
  import opened Policy
  import opened Layout
  import opened Traversal

  /** `f` is an entry of the listing `es` found by descending through the
      directories named `ds`, none of them excluded. */
  ghost predicate Reaches(cfg: Config, es: seq<Entry>, ds: seq<string>, f: Entry)
    decreases es
  {
    exists i :: 0 <= i < |es| && ReachesVia(cfg, es[i], ds, f)
  }

  /** `f` is the entry `e` itself (when `ds` is empty), or is reached inside
      the non-excluded directory `e` named `ds[0]`. */
  ghost predicate ReachesVia(cfg: Config, e: Entry, ds: seq<string>, f: Entry)
    decreases e
  {
    if |ds| == 0 then e == f
    else e.Dir? && e.name == ds[0] && !FolderExcluded(cfg, ds[0]) && Reaches(cfg, e.children, ds[1..], f)
  }

  /** The tree entry a record was made from. */
  function SourceFile(r: Record): Entry
  {
    File(r.name, Some(r.size), Some(r.content))
  }

  /** What the walk of a directory at `dirs` guarantees of each record. */
  ghost predicate Sound(cfg: Config, es: seq<Entry>, dirs: seq<string>, r: Record)
  {
    && |dirs| <= |r.dirs|
    && r.dirs[..|dirs|] == dirs
    && Reaches(cfg, es, r.dirs[|dirs|..], SourceFile(r))
    && Classify(cfg, r.name, Some(r.size), Some(r.content)) == Include(r.content)
  }

  ghost predicate SoundVia(cfg: Config, e: Entry, dirs: seq<string>, r: Record)
  {
    && |dirs| <= |r.dirs|
    && r.dirs[..|dirs|] == dirs
    && ReachesVia(cfg, e, r.dirs[|dirs|..], SourceFile(r))
    && Classify(cfg, r.name, Some(r.size), Some(r.content)) == Include(r.content)
  }

  /** Every block comes from a real file of the tree, reached without
      passing through an excluded directory, that passes the pattern, size
      and read checks, and carries that file's content. */
  lemma {:induction false} CollectSound(cfg: Config, sep: char, es: seq<Entry>, dirs: seq<string>, rel: string)
    requires Collect(cfg, sep, es, dirs, rel).Success?
    ensures forall r :: r in Collect(cfg, sep, es, dirs, rel).value ==> Sound(cfg, es, dirs, r)
    decreases es
  {
    if |es| > 0 {
      var head := CollectEntry(cfg, sep, es[0], dirs, rel);
      var tail := Collect(cfg, sep, es[1..], dirs, rel);
      CollectEntrySound(cfg, sep, es[0], dirs, rel);
      CollectSound(cfg, sep, es[1..], dirs, rel);
      forall r | r in Collect(cfg, sep, es, dirs, rel).value
        ensures Sound(cfg, es, dirs, r)
      {
        var ds := r.dirs[|dirs|..];
        if r in head.value {
          assert ReachesVia(cfg, es[0], ds, SourceFile(r));
        } else {
          assert r in tail.value;
          var i :| 0 <= i < |es[1..]| && ReachesVia(cfg, es[1..][i], ds, SourceFile(r));
          assert ReachesVia(cfg, es[i + 1], ds, SourceFile(r));
        }
      }
    }
  }

  lemma {:induction false} CollectEntrySound(cfg: Config, sep: char, e: Entry, dirs: seq<string>, rel: string)
    requires CollectEntry(cfg, sep, e, dirs, rel).Success?
    ensures forall r :: r in CollectEntry(cfg, sep, e, dirs, rel).value ==> SoundVia(cfg, e, dirs, r)
    decreases e
  {
    match e
    case Dir(n, children) =>
      if !FolderExcluded(cfg, n) {
        var sub := dirs + [n];
        CollectSound(cfg, sep, children, sub, JoinPath(rel, n, sep));
        forall r | r in CollectEntry(cfg, sep, e, dirs, rel).value
          ensures SoundVia(cfg, e, dirs, r)
        {
          assert Sound(cfg, children, sub, r);
          assert r.dirs[..|sub|][..|dirs|] == r.dirs[..|dirs|];
          assert r.dirs[..|sub|][|dirs|] == r.dirs[|dirs|];
          var ds := r.dirs[|dirs|..];
          assert ds[0] == n;
          assert ds[1..] == r.dirs[|sub|..];
        }
      }
    case Locked(_) =>
    case File(n, size, content) =>
      forall r | r in CollectEntry(cfg, sep, e, dirs, rel).value
        ensures SoundVia(cfg, e, dirs, r)
      {
        assert r.dirs == dirs;
        assert r.dirs[|dirs|..] == [];
      }
  }

  /** Every file the walk reaches through non-excluded directories and that
      passes the pattern, size and read checks has a block, labelled with its
      directory chain and carrying its content. */
  lemma {:induction false} CollectComplete(cfg: Config, sep: char, es: seq<Entry>, dirs: seq<string>, rel: string, ds: seq<string>, f: Entry)
    requires Collect(cfg, sep, es, dirs, rel).Success?
    requires Reaches(cfg, es, ds, f)
    requires f.File? && Classify(cfg, f.name, f.size, f.content).Include?
    ensures exists r :: (r in Collect(cfg, sep, es, dirs, rel).value && r.dirs == dirs + ds && r.name == f.name
      && Some(r.size) == f.size && Some(r.content) == f.content)
    decreases es
  {
    var i :| 0 <= i < |es| && ReachesVia(cfg, es[i], ds, f);
    CollectAround(cfg, sep, es, i, dirs, rel);
    CollectEntryComplete(cfg, sep, es[i], dirs, rel, ds, f);
    var r :| r in CollectEntry(cfg, sep, es[i], dirs, rel).value && r.dirs == dirs + ds && r.name == f.name
      && Some(r.size) == f.size && Some(r.content) == f.content;
    assert r in Collect(cfg, sep, es, dirs, rel).value;
  }

  lemma {:induction false} CollectEntryComplete(cfg: Config, sep: char, e: Entry, dirs: seq<string>, rel: string, ds: seq<string>, f: Entry)
    requires CollectEntry(cfg, sep, e, dirs, rel).Success?
    requires ReachesVia(cfg, e, ds, f)
    requires f.File? && Classify(cfg, f.name, f.size, f.content).Include?
    ensures exists r :: (r in CollectEntry(cfg, sep, e, dirs, rel).value && r.dirs == dirs + ds && r.name == f.name
      && Some(r.size) == f.size && Some(r.content) == f.content)
    decreases e
  {
    if |ds| == 0 {
      var r := CollectEntry(cfg, sep, e, dirs, rel).value[0];
      assert dirs + ds == dirs;
      assert r in CollectEntry(cfg, sep, e, dirs, rel).value;
    } else {
      CollectComplete(cfg, sep, e.children, dirs + [e.name], JoinPath(rel, e.name, sep), ds[1..], f);
      assert dirs + [e.name] + ds[1..] == dirs + ds;
    }
  }

  /** Nothing reached lies below an excluded directory: every directory name
      on the way is admitted. */
  lemma {:induction false} ReachesAvoidsExcluded(cfg: Config, es: seq<Entry>, ds: seq<string>, f: Entry)
    requires Reaches(cfg, es, ds, f)
    ensures forall k :: 0 <= k < |ds| ==> !FolderExcluded(cfg, ds[k])
    decreases es
  {
    var i :| 0 <= i < |es| && ReachesVia(cfg, es[i], ds, f);
    if |ds| > 0 {
      ReachesAvoidsExcluded(cfg, es[i].children, ds[1..], f);
      assert forall k :: 1 <= k < |ds| ==> ds[k] == ds[1..][k - 1];
    }
  }

  /** Exclusion soundness for a whole run: no block is for a file below a
      directory whose base name is excluded, whatever its depth, and none is
      for a file whose name matches an excluded pattern or that exceeds the
      size limit. */
  lemma NoBlockUnderExcludedFolder(cfg: Config, sep: char, root: Entry)
    requires Listing(cfg, sep, root, [], "").Success?
    ensures forall r :: r in Listing(cfg, sep, root, [], "").value ==>
      && (forall k :: 0 <= k < |r.dirs| ==> !FolderExcluded(cfg, r.dirs[k]))
      && !PatternExcluded(cfg, r.name)
      && r.size <= MaxFileSize
  {
    var rs := Listing(cfg, sep, root, [], "").value;
    CollectSound(cfg, sep, root.children, [], "");
    forall r | r in rs
      ensures forall k :: 0 <= k < |r.dirs| ==> !FolderExcluded(cfg, r.dirs[k])
    {
      assert r.dirs[0..] == r.dirs;
      ReachesAvoidsExcluded(cfg, root.children, r.dirs, SourceFile(r));
    }
  }

  /** An excluded directory is never listed: whatever it holds, even if it
      cannot be listed at all, the walk is the same. */
  lemma ExcludedDirectoryNeverEntered(cfg: Config, sep: char, before: seq<Entry>, d1: Entry, d2: Entry, after: seq<Entry>,
                                      dirs: seq<string>, rel: string)
    requires IsDirectory(d1) && IsDirectory(d2) && d1.name == d2.name
    requires FolderExcluded(cfg, d1.name)
    ensures Collect(cfg, sep, before + [d1] + after, dirs, rel) == Collect(cfg, sep, before + [d2] + after, dirs, rel)
  {
    SkippedEntry(cfg, sep, before, d1, after, dirs, rel);
    SkippedEntry(cfg, sep, before, d2, after, dirs, rel);
  }

  /** A file skipped for any reason (pattern, failed `stat`, size, failed
      read) leaves the walk exactly as if it were not there: the entries
      before and after it are walked as usual and the count is unchanged. */
  lemma SkippedFileChangesNothing(cfg: Config, sep: char, before: seq<Entry>, f: Entry, after: seq<Entry>,
                                  dirs: seq<string>, rel: string)
    requires f.File? && !Classify(cfg, f.name, f.size, f.content).Include?
    ensures Collect(cfg, sep, before + [f] + after, dirs, rel) == Collect(cfg, sep, before + after, dirs, rel)
  {
    SkippedEntry(cfg, sep, before, f, after, dirs, rel);
  }

  lemma SkippedEntry(cfg: Config, sep: char, before: seq<Entry>, e: Entry, after: seq<Entry>, dirs: seq<string>, rel: string)
    requires CollectEntry(cfg, sep, e, dirs, rel) == Success([])
    ensures Collect(cfg, sep, before + [e] + after, dirs, rel) == Collect(cfg, sep, before + after, dirs, rel)
  {
    CollectAppend(cfg, sep, before + [e], after, dirs, rel);
    CollectAppend(cfg, sep, before, [e], dirs, rel);
    CollectSingle(cfg, sep, e, dirs, rel);
    ThenUnit(Collect(cfg, sep, before, dirs, rel));
    CollectAppend(cfg, sep, before, after, dirs, rel);
  }

  /** `c2` excludes at least what `c1` does, with the same matcher. */
  ghost predicate Extends(c2: Config, c1: Config)
  {
    && c1.matches == c2.matches
    && (forall x :: x in c1.folders ==> x in c2.folders)
    && (forall p :: p in c1.patterns ==> p in c2.patterns)
  }

  /** Whether a record survives the exclusions of `cfg`. */
  predicate Admits(cfg: Config, r: Record)
  {
    && (forall k :: 0 <= k < |r.dirs| ==> !FolderExcluded(cfg, r.dirs[k]))
    && !PatternExcluded(cfg, r.name)
  }

  /** The records `cfg` admits, in their original order. */
  function Keep(cfg: Config, rs: seq<Record>): (kept: seq<Record>)
    ensures |kept| <= |rs|
    ensures forall r :: r in kept <==> r in rs && Admits(cfg, r)
  {
    if |rs| == 0 then []
    else (if Admits(cfg, rs[0]) then [rs[0]] else []) + Keep(cfg, rs[1..])
  }

  lemma {:induction false} KeepAppend(cfg: Config, a: seq<Record>, b: seq<Record>)
    ensures Keep(cfg, a + b) == Keep(cfg, a) + Keep(cfg, b)
    decreases |a|
  {
    if |a| == 0 {
      assert a + b == b;
    } else {
      assert (a + b)[0] == a[0];
      assert (a + b)[1..] == a[1..] + b;
      KeepAppend(cfg, a[1..], b);
    }
  }

  lemma {:induction false} KeepNone(cfg: Config, rs: seq<Record>)
    requires forall r :: r in rs ==> !Admits(cfg, r)
    ensures Keep(cfg, rs) == []
    decreases |rs|
  {
    if |rs| > 0 {
      KeepNone(cfg, rs[1..]);
    }
  }

  /** More excluded folders or patterns can only remove blocks: with `c2`
      excluding at least what `c1` does, a run that succeeds under `c1`
      succeeds under `c2` and yields exactly the records of `c1` that `c2`
      admits, in the same order. */
  lemma {:induction false} MoreExclusionsOnlyRemove(c1: Config, c2: Config, sep: char, es: seq<Entry>, dirs: seq<string>, rel: string)
    requires Extends(c2, c1)
    requires forall k :: 0 <= k < |dirs| ==> !FolderExcluded(c2, dirs[k])
    requires Collect(c1, sep, es, dirs, rel).Success?
    ensures Collect(c2, sep, es, dirs, rel) == Success(Keep(c2, Collect(c1, sep, es, dirs, rel).value))
    decreases es
  {
    if |es| == 0 {
    } else {
      MoreExclusionsOnlyRemoveEntry(c1, c2, sep, es[0], dirs, rel);
      MoreExclusionsOnlyRemove(c1, c2, sep, es[1..], dirs, rel);
      KeepAppend(c2, CollectEntry(c1, sep, es[0], dirs, rel).value, Collect(c1, sep, es[1..], dirs, rel).value);
    }
  }

  lemma {:induction false} MoreExclusionsOnlyRemoveEntry(c1: Config, c2: Config, sep: char, e: Entry, dirs: seq<string>, rel: string)
    requires Extends(c2, c1)
    requires forall k :: 0 <= k < |dirs| ==> !FolderExcluded(c2, dirs[k])
    requires CollectEntry(c1, sep, e, dirs, rel).Success?
    ensures CollectEntry(c2, sep, e, dirs, rel) == Success(Keep(c2, CollectEntry(c1, sep, e, dirs, rel).value))
    decreases e
  {
    match e
    case Dir(n, children) =>
      if FolderExcluded(c1, n) {
      } else if FolderExcluded(c2, n) {
        var rs := CollectEntry(c1, sep, e, dirs, rel).value;
        CollectSound(c1, sep, children, dirs + [n], JoinPath(rel, n, sep));
        forall r | r in rs
          ensures !Admits(c2, r)
        {
          assert r.dirs[..|dirs| + 1][|dirs|] == n;
        }
        KeepNone(c2, rs);
      } else {
        var sub := dirs + [n];
        assert forall k :: 0 <= k < |sub| ==> !FolderExcluded(c2, sub[k]);
        MoreExclusionsOnlyRemove(c1, c2, sep, children, sub, JoinPath(rel, n, sep));
      }
    case Locked(n) =>
    case File(n, size, content) =>
      PatternExcludedGrows(c1, c2, n);
      var rs := CollectEntry(c1, sep, e, dirs, rel).value;
      if |rs| == 1 {
        assert rs[1..] == [];
        if PatternExcluded(c2, n) {
          assert !Admits(c2, rs[0]);
        } else {
          assert Admits(c2, rs[0]);
          assert Classify(c2, n, size, content) == Classify(c1, n, size, content);
          assert rs == [rs[0]];
          assert Keep(c2, rs) == [rs[0]] + Keep(c2, []);
          assert [rs[0]] + [] == rs;
          assert CollectEntry(c2, sep, e, dirs, rel) == CollectEntry(c1, sep, e, dirs, rel);
        }
      }
  }

  /** Repeating an entry in either list, or reordering them, changes nothing
      in the walk: only membership matters. */
  lemma SameExclusionsSameWalk(c1: Config, c2: Config, sep: char, es: seq<Entry>, dirs: seq<string>, rel: string)
    requires Extends(c1, c2) && Extends(c2, c1)
    ensures Collect(c1, sep, es, dirs, rel) == Collect(c2, sep, es, dirs, rel)
    decreases es
  {
    if |es| > 0 {
      SameExclusionsSameWalkEntry(c1, c2, sep, es[0], dirs, rel);
      SameExclusionsSameWalk(c1, c2, sep, es[1..], dirs, rel);
    }
  }

  lemma SameExclusionsSameWalkEntry(c1: Config, c2: Config, sep: char, e: Entry, dirs: seq<string>, rel: string)
    requires Extends(c1, c2) && Extends(c2, c1)
    ensures CollectEntry(c1, sep, e, dirs, rel) == CollectEntry(c2, sep, e, dirs, rel)
    decreases e
  {
    match e
    case Dir(n, children) =>
      SameExclusionsSameWalk(c1, c2, sep, children, dirs + [n], JoinPath(rel, n, sep));
    case Locked(_) =>
    case File(n, size, content) =>
      SamePatternVerdict(c1, c2, n);
  }

  lemma SamePatternVerdict(c1: Config, c2: Config, name: string)
    requires Extends(c1, c2) && Extends(c2, c1)
    ensures PatternExcluded(c1, name) == PatternExcluded(c2, name)
  {
    PatternExcludedGrows(c1, c2, name);
    PatternExcludedGrows(c2, c1, name);
  }

  /** A name excluded by some pattern of `c1` is excluded by `c2`. */
  lemma PatternExcludedGrows(c1: Config, c2: Config, name: string)
    requires Extends(c2, c1)
    ensures PatternExcluded(c1, name) ==> PatternExcluded(c2, name)
  {
    if PatternExcluded(c1, name) {
      var i :| 0 <= i < |c1.patterns| && c1.matches(name, c1.patterns[i]);
      var p := c1.patterns[i];
      assert p in c2.patterns;
      var j :| 0 <= j < |c2.patterns| && c2.patterns[j] == p;
      assert c2.matches(name, c2.patterns[j]);
    }
  }

  /** Relative paths: when every name in the tree is non-empty, each block's
      label is the chain of names from the root to the file joined by the
      separator (just the name for a file at the root). */
  lemma {:induction false} RecordPathsJoinNames(cfg: Config, sep: char, es: seq<Entry>, dirs: seq<string>, rel: string)
    requires rel == JoinNames(dirs, sep)
    requires forall k :: 0 <= k < |dirs| ==> dirs[k] != ""
    requires forall i :: 0 <= i < |es| ==> WellNamed(es[i])
    requires Collect(cfg, sep, es, dirs, rel).Success?
    ensures forall r :: r in Collect(cfg, sep, es, dirs, rel).value ==> r.path == JoinNames(r.dirs + [r.name], sep)
    decreases es
  {
    if |es| > 0 {
      RecordPathsJoinNamesEntry(cfg, sep, es[0], dirs, rel);
      RecordPathsJoinNames(cfg, sep, es[1..], dirs, rel);
    }
  }

  lemma {:induction false} RecordPathsJoinNamesEntry(cfg: Config, sep: char, e: Entry, dirs: seq<string>, rel: string)
    requires rel == JoinNames(dirs, sep)
    requires forall k :: 0 <= k < |dirs| ==> dirs[k] != ""
    requires WellNamed(e)
    requires CollectEntry(cfg, sep, e, dirs, rel).Success?
    ensures forall r :: r in CollectEntry(cfg, sep, e, dirs, rel).value ==> r.path == JoinNames(r.dirs + [r.name], sep)
    decreases e
  {
    match e
    case Dir(n, children) =>
      if !FolderExcluded(cfg, n) {
        JoinPathExtends(dirs, n, sep);
        var sub := dirs + [n];
        assert forall k :: 0 <= k < |sub| ==> sub[k] != "";
        RecordPathsJoinNames(cfg, sep, children, sub, JoinPath(rel, n, sep));
      }
    case Locked(_) =>
    case File(n, size, content) =>
      if Classify(cfg, n, size, content).Include? {
        JoinPathExtends(dirs, n, sep);
        var r := CollectEntry(cfg, sep, e, dirs, rel).value[0];
        assert CollectEntry(cfg, sep, e, dirs, rel).value == [r];
        assert r.dirs == dirs && r.name == n && r.path == JoinPath(rel, n, sep);
      }
  }

  /** A run aborts exactly when some directory that is not excluded, and is
      reached only through directories that are not excluded, cannot be
      listed. */
  lemma {:induction false} FailsIffLockedReached(cfg: Config, sep: char, es: seq<Entry>, dirs: seq<string>, rel: string)
    ensures Collect(cfg, sep, es, dirs, rel).Failure? <==>
      exists ds, n :: Reaches(cfg, es, ds, Locked(n)) && !FolderExcluded(cfg, n)
  {
    if Collect(cfg, sep, es, dirs, rel).Failure? {
      FailureHasLocked(cfg, sep, es, dirs, rel);
    }
    if exists ds, n :: Reaches(cfg, es, ds, Locked(n)) && !FolderExcluded(cfg, n) {
      var ds, n :| Reaches(cfg, es, ds, Locked(n)) && !FolderExcluded(cfg, n);
      LockedFails(cfg, sep, es, dirs, rel, ds, n);
    }
  }

  lemma {:induction false} FailureHasLocked(cfg: Config, sep: char, es: seq<Entry>, dirs: seq<string>, rel: string)
    requires Collect(cfg, sep, es, dirs, rel).Failure?
    ensures exists ds, n :: Reaches(cfg, es, ds, Locked(n)) && !FolderExcluded(cfg, n)
    decreases es
  {
    var e := es[0];
    if CollectEntry(cfg, sep, e, dirs, rel).Failure? {
      match e
      case Dir(m, children) =>
        FailureHasLocked(cfg, sep, children, dirs + [m], JoinPath(rel, m, sep));
        var ds, n :| Reaches(cfg, children, ds, Locked(n)) && !FolderExcluded(cfg, n);
        assert ([m] + ds)[1..] == ds;
        assert ReachesVia(cfg, es[0], [m] + ds, Locked(n));
        assert Reaches(cfg, es, [m] + ds, Locked(n));
      case Locked(m) =>
        assert ReachesVia(cfg, es[0], [], Locked(m));
        assert Reaches(cfg, es, [], Locked(m));
      case File(_, _, _) =>
    } else {
      FailureHasLocked(cfg, sep, es[1..], dirs, rel);
      var ds, n :| Reaches(cfg, es[1..], ds, Locked(n)) && !FolderExcluded(cfg, n);
      var i :| 0 <= i < |es[1..]| && ReachesVia(cfg, es[1..][i], ds, Locked(n));
      assert ReachesVia(cfg, es[i + 1], ds, Locked(n));
      assert Reaches(cfg, es, ds, Locked(n));
    }
  }

  lemma {:induction false} LockedFails(cfg: Config, sep: char, es: seq<Entry>, dirs: seq<string>, rel: string, ds: seq<string>, n: string)
    requires Reaches(cfg, es, ds, Locked(n)) && !FolderExcluded(cfg, n)
    ensures Collect(cfg, sep, es, dirs, rel).Failure?
    decreases es
  {
    var i :| 0 <= i < |es| && ReachesVia(cfg, es[i], ds, Locked(n));
    CollectAround(cfg, sep, es, i, dirs, rel);
    if |ds| > 0 {
      var e := es[i];
      LockedFails(cfg, sep, e.children, dirs + [e.name], JoinPath(rel, e.name, sep), ds[1..], n);
    }
  }

  /** The header's "Files processed" number is the number of blocks in the
      body: reading the count from a successful run's output gives back the
      number of records, whatever the configured lists hold. When the lists
      join into single lines the whole header reads back too, and what
      follows it is exactly the records' blocks. */
  lemma SummaryCountsBlocks(cfg: Config, sep: char, timestamp: string, root: Entry)
    requires NoNewline(timestamp)
    requires Listing(cfg, sep, root, [], "").Success?
    ensures Aggregate(cfg, sep, timestamp, root).Success?
    ensures ReadCount(Aggregate(cfg, sep, timestamp, root).value) == Some(|Listing(cfg, sep, root, [], "").value|)
    ensures NoNewline(Join(cfg.folders, ", ")) && NoNewline(Join(cfg.patterns, ", ")) ==>
      && ParseSummary(Aggregate(cfg, sep, timestamp, root).value).Some?
      && ParseSummary(Aggregate(cfg, sep, timestamp, root).value).value.1 == Render(Listing(cfg, sep, root, [], "").value)
  {
    var rs := Listing(cfg, sep, root, [], "").value;
    CountRoundTrip(timestamp, |rs|, cfg.folders, cfg.patterns, Render(rs));
    if NoNewline(Join(cfg.folders, ", ")) && NoNewline(Join(cfg.patterns, ", ")) {
      SummaryRoundTrip(timestamp, |rs|, cfg.folders, cfg.patterns, Render(rs));
    }
  }

  /** The root is always listed, even when its own name is in the excluded
      list; a root that is not a readable directory aborts the run; an empty
      root gives the bare header with a count of 0. */
  lemma RootHandling(cfg: Config, sep: char, timestamp: string, name: string, children: seq<Entry>)
    ensures Aggregate(cfg, sep, timestamp, Dir(name, children)) == Aggregate(cfg, sep, timestamp, Dir("", children))
    ensures Aggregate(cfg, sep, timestamp, Locked(name)) == Failure(ListingFailed(""))
    ensures Aggregate(cfg, sep, timestamp, Dir(name, [])) == Success(Summary(timestamp, 0, cfg.folders, cfg.patterns))
  {
    assert Summary(timestamp, 0, cfg.folders, cfg.patterns) + "" == Summary(timestamp, 0, cfg.folders, cfg.patterns);
  }

  /** Sibling names are pairwise distinct, in every directory of the
      listing, as a file system guarantees. */
  ghost predicate DistinctNames(es: seq<Entry>)
    decreases es
  {
    && (forall i, j :: 0 <= i < j < |es| ==> es[i].name != es[j].name)
    && (forall i :: 0 <= i < |es| ==> DistinctEntry(es[i]))
  }

  ghost predicate DistinctEntry(e: Entry)
    decreases e
  {
    e.Dir? ==> DistinctNames(e.children)
  }

  /** The names from the root down to a record's file. */
  function Chain(r: Record): seq<string>
  {
    r.dirs + [r.name]
  }

  /** Below `dirs`, a record's chain starts with the name of the entry it
      was reached through. */
  lemma ReachedThrough(cfg: Config, e: Entry, dirs: seq<string>, r: Record)
    requires |dirs| <= |r.dirs| && r.dirs[..|dirs|] == dirs
    requires ReachesVia(cfg, e, r.dirs[|dirs|..], SourceFile(r))
    ensures |dirs| < |Chain(r)| && Chain(r)[..|dirs|] == dirs && Chain(r)[|dirs|] == e.name
  {
    var ds := r.dirs[|dirs|..];
    assert Chain(r)[..|dirs|] == r.dirs[..|dirs|];
    if |ds| == 0 {
      assert Chain(r)[|dirs|] == r.name;
    } else {
      assert Chain(r)[|dirs|] == ds[0];
    }
  }

  /** Every record of one entry's walk continues `dirs` with that entry's
      name. */
  lemma EntryRecordsStartWith(cfg: Config, sep: char, e: Entry, dirs: seq<string>, rel: string)
    requires CollectEntry(cfg, sep, e, dirs, rel).Success?
    ensures forall r :: r in CollectEntry(cfg, sep, e, dirs, rel).value ==>
      |dirs| < |Chain(r)| && Chain(r)[|dirs|] == e.name
  {
    CollectEntrySound(cfg, sep, e, dirs, rel);
    forall r | r in CollectEntry(cfg, sep, e, dirs, rel).value
      ensures |dirs| < |Chain(r)| && Chain(r)[|dirs|] == e.name
    {
      ReachedThrough(cfg, e, dirs, r);
    }
  }

  /** Every record of a listing's walk continues `dirs` with the name of
      one of the listed entries. */
  lemma ListRecordsStartWith(cfg: Config, sep: char, es: seq<Entry>, dirs: seq<string>, rel: string)
    requires Collect(cfg, sep, es, dirs, rel).Success?
    ensures forall r :: r in Collect(cfg, sep, es, dirs, rel).value ==>
      |dirs| < |Chain(r)| && exists k :: 0 <= k < |es| && Chain(r)[|dirs|] == es[k].name
  {
    CollectSound(cfg, sep, es, dirs, rel);
    forall r | r in Collect(cfg, sep, es, dirs, rel).value
      ensures |dirs| < |Chain(r)| && exists k :: 0 <= k < |es| && Chain(r)[|dirs|] == es[k].name
    {
      var k :| 0 <= k < |es| && ReachesVia(cfg, es[k], r.dirs[|dirs|..], SourceFile(r));
      ReachedThrough(cfg, es[k], dirs, r);
    }
  }

  /** Each file gets one block and no more: when sibling names are
      distinct, no two records of a walk share their chain of names. */
  lemma {:induction false} RecordsDistinct(cfg: Config, sep: char, es: seq<Entry>, dirs: seq<string>, rel: string)
    requires DistinctNames(es)
    requires Collect(cfg, sep, es, dirs, rel).Success?
    ensures forall i, j :: 0 <= i < j < |Collect(cfg, sep, es, dirs, rel).value| ==>
      Chain(Collect(cfg, sep, es, dirs, rel).value[i]) != Chain(Collect(cfg, sep, es, dirs, rel).value[j])
    decreases es
  {
    if |es| > 0 {
      var head := CollectEntry(cfg, sep, es[0], dirs, rel).value;
      var tail := Collect(cfg, sep, es[1..], dirs, rel).value;
      var rs := Collect(cfg, sep, es, dirs, rel).value;
      assert rs == head + tail;
      assert DistinctNames(es[1..]);
      RecordsDistinctEntry(cfg, sep, es[0], dirs, rel);
      RecordsDistinct(cfg, sep, es[1..], dirs, rel);
      EntryRecordsStartWith(cfg, sep, es[0], dirs, rel);
      ListRecordsStartWith(cfg, sep, es[1..], dirs, rel);
      forall i, j | 0 <= i < j < |rs|
        ensures Chain(rs[i]) != Chain(rs[j])
      {
        if j < |head| {
          assert rs[i] == head[i] && rs[j] == head[j];
        } else if |head| <= i {
          assert rs[i] == tail[i - |head|] && rs[j] == tail[j - |head|];
        } else {
          assert rs[i] in head && rs[j] in tail;
          var k :| 0 <= k < |es[1..]| && Chain(rs[j])[|dirs|] == es[1..][k].name;
          assert es[1..][k] == es[k + 1];
          assert Chain(rs[i])[|dirs|] != Chain(rs[j])[|dirs|];
        }
      }
    }
  }

  lemma {:induction false} RecordsDistinctEntry(cfg: Config, sep: char, e: Entry, dirs: seq<string>, rel: string)
    requires DistinctEntry(e)
    requires CollectEntry(cfg, sep, e, dirs, rel).Success?
    ensures forall i, j :: 0 <= i < j < |CollectEntry(cfg, sep, e, dirs, rel).value| ==>
      Chain(CollectEntry(cfg, sep, e, dirs, rel).value[i]) != Chain(CollectEntry(cfg, sep, e, dirs, rel).value[j])
    decreases e
  {
    match e
    case Dir(n, children) =>
      if !FolderExcluded(cfg, n) {
        RecordsDistinct(cfg, sep, children, dirs + [n], JoinPath(rel, n, sep));
      }
    case Locked(_) =>
    case File(_, _, _) =>
  }
}
