/** Concrete runs on small trees, and the default exclusion lists. */
module Scenarios {
  import opened Wrappers
  import opened FileTree
  import opened Policy
  import opened Layout
  import opened Traversal
  import opened Properties

  /** The default lists with their repeated entries removed. */
  const DistinctDefaultFolders: seq<string> := ["node_modules", ".git", ".vscode", ".next"]
  const DistinctDefaultPatterns: seq<string> := [
    "*.exe", "*.dll", "*.jpg", "*.png", "*.pdf", "*.jpeg", "*.avif", "*.webp",
    "*.mp3", "*.wav", "*.mp4", "*.docx", "*.ico", "*.vsix", "*.gitignore", "*.env", "*.json"]

  /** The repeated ".vscode" and "*.png" in the default lists have no
      effect on which files are walked and included. */
  lemma DefaultDuplicatesIrrelevant(matches: (string, string) -> bool, sep: char, es: seq<Entry>)
    ensures Collect(Config(DefaultFolders, DefaultPatterns, matches), sep, es, [], "")
         == Collect(Config(DistinctDefaultFolders, DistinctDefaultPatterns, matches), sep, es, [], "")
  {
    var c1 := Config(DefaultFolders, DefaultPatterns, matches);
    var c2 := Config(DistinctDefaultFolders, DistinctDefaultPatterns, matches);
    assert forall x :: x in c1.folders <==> x in c2.folders;
    assert forall p :: p in c1.patterns <==> p in c2.patterns;
    SameExclusionsSameWalk(c1, c2, sep, es, [], "");
  }

  /** A root holding `a.txt`, `node_modules/b.txt`, an image and `notes.md`. */
  function MixedRoot(): Entry
  {
    Dir("project", [
      File("a.txt", Some(5), Some("hello")),
      Dir("node_modules", [File("b.txt", Some(7), Some("ignored"))]),
      File("img.png", Some(2048), Some("PNG")),
      File("notes.md", Some(5), Some("world"))])
  }

  lemma NoDefaultPatternMatches(matches: (string, string) -> bool, name: string)
    requires forall p :: p in DefaultPatterns ==> !matches(name, p)
    ensures !PatternExcluded(Config(DefaultFolders, DefaultPatterns, matches), name)
  {
    forall i | 0 <= i < |DefaultPatterns|
      ensures !matches(name, DefaultPatterns[i])
    {
      assert DefaultPatterns[i] in DefaultPatterns;
    }
  }

  /** Under any lists that exclude `node_modules` and the image but
      neither text file (as the default lists do, see
      `DefaultListsFitMixedRoot`), the walk yields exactly the records of
      `a.txt` and `notes.md`, in listing order. */
  lemma MixedRootRecords(cfg: Config, sep: char)
    requires FolderExcluded(cfg, "node_modules")
    requires PatternExcluded(cfg, "img.png")
    requires !PatternExcluded(cfg, "a.txt") && !PatternExcluded(cfg, "notes.md")
    ensures Listing(cfg, sep, MixedRoot(), [], "")
         == Success([Record([], "a.txt", "a.txt", 5, "hello"), Record([], "notes.md", "notes.md", 5, "world")])
  {
    var es := MixedRoot().children;
    var a := Record([], "a.txt", "a.txt", 5, "hello");
    var n := Record([], "notes.md", "notes.md", 5, "world");
    assert CollectEntry(cfg, sep, es[0], [], "") == Success([a]) by {
      assert Classify(cfg, "a.txt", Some(5), Some("hello")) == Include("hello");
      assert JoinPath("", "a.txt", sep) == "a.txt";
    }
    assert CollectEntry(cfg, sep, es[1], [], "") == Success([]);
    assert CollectEntry(cfg, sep, es[2], [], "") == Success([]) by {
      assert Classify(cfg, "img.png", Some(2048), Some("PNG")) == ExcludedByPattern;
    }
    assert CollectEntry(cfg, sep, es[3], [], "") == Success([n]) by {
      assert Classify(cfg, "notes.md", Some(5), Some("world")) == Include("world");
      assert JoinPath("", "notes.md", sep) == "notes.md";
    }
    assert es == [es[0]] + [es[1]] + [es[2]] + [es[3]];
    CollectAppend(cfg, sep, [es[0]] + [es[1]] + [es[2]], [es[3]], [], "");
    CollectAppend(cfg, sep, [es[0]] + [es[1]], [es[2]], [], "");
    CollectAppend(cfg, sep, [es[0]], [es[1]], [], "");
    CollectSingle(cfg, sep, es[0], [], "");
    CollectSingle(cfg, sep, es[1], [], "");
    CollectSingle(cfg, sep, es[2], [], "");
    CollectSingle(cfg, sep, es[3], [], "");
    assert [a] + [] + [] + [n] == [a, n];
  }

  /** The whole output for that root: the header reporting 2 files, then
      the block of `a.txt`, then the block of `notes.md`. */
  lemma MixedRootOutput(cfg: Config, sep: char, timestamp: string)
    requires FolderExcluded(cfg, "node_modules")
    requires PatternExcluded(cfg, "img.png")
    requires !PatternExcluded(cfg, "a.txt") && !PatternExcluded(cfg, "notes.md")
    ensures Aggregate(cfg, sep, timestamp, MixedRoot())
         == Success(Summary(timestamp, 2, cfg.folders, cfg.patterns) + Block("a.txt", "hello") + Block("notes.md", "world"))
  {
    var a := Record([], "a.txt", "a.txt", 5, "hello");
    var n := Record([], "notes.md", "notes.md", 5, "world");
    MixedRootRecords(cfg, sep);
    var body := Render([a, n]);
    assert body == Block("a.txt", "hello") + Block("notes.md", "world") by {
      RenderAppend([a], [n]);
      RenderOne(a);
      RenderOne(n);
      assert [a] + [n] == [a, n];
    }
    var head := Summary(timestamp, 2, cfg.folders, cfg.patterns);
    assert Aggregate(cfg, sep, timestamp, MixedRoot()) == Success(head + body);
    Associate(head, Block("a.txt", "hello"), Block("notes.md", "world"));
  }

  /** The default lists exclude `node_modules` and, under a matcher for which
      "img.png" matches "*.png" and the text files match no default pattern,
      the image but neither text file. */
  lemma DefaultListsFitMixedRoot(matches: (string, string) -> bool)
    requires matches("img.png", "*.png")
    requires forall p :: p in DefaultPatterns ==> !matches("a.txt", p) && !matches("notes.md", p)
    ensures var cfg := Config(DefaultFolders, DefaultPatterns, matches);
      && FolderExcluded(cfg, "node_modules")
      && PatternExcluded(cfg, "img.png")
      && !PatternExcluded(cfg, "a.txt") && !PatternExcluded(cfg, "notes.md")
  {
    assert DefaultPatterns[3] == "*.png";
    NoDefaultPatternMatches(matches, "a.txt");
    NoDefaultPatternMatches(matches, "notes.md");
  }

  /** A 2 MiB text file whose name matches no pattern is still left out,
      because of its size alone. */
  lemma LargeFileLeftOut(cfg: Config, sep: char, timestamp: string, text: string)
    requires !PatternExcluded(cfg, "big.txt")
    ensures Aggregate(cfg, sep, timestamp, Dir("project", [File("big.txt", Some(2 * 1048576), Some(text))]))
         == Success(Summary(timestamp, 0, cfg.folders, cfg.patterns))
  {
    var f := File("big.txt", Some(2 * 1048576), Some(text));
    assert Classify(cfg, f.name, f.size, f.content) == TooLarge;
    CollectSingle(cfg, sep, f, [], "");
    assert Collect(cfg, sep, [f], [], "") == Success([]);
    assert Summary(timestamp, 0, cfg.folders, cfg.patterns) + "" == Summary(timestamp, 0, cfg.folders, cfg.patterns);
  }
}
