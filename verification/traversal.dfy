/** The traversal of extension.js:102-165. `Collect` is the reference
    definition: the records of the included files in pre-order over listing
    order. `TraverseDirectory` and `ProcessFiles` follow the source's loop
    with its running text and counter, and are proved to produce exactly the
    rendering of those records. */
module Traversal {
  import opened Wrappers
  import opened FileTree
  import opened Policy
  import opened Layout
  import opened Text

  /** An included file: the directories on the way from the root, its base
      name, the relative path the source labels it with, its size and its
      content. */
  datatype Record = Record(dirs: seq<string>, name: string, path: string, size: nat, content: string)

  /** The one failure that aborts a run: a directory (given by its relative
      path, the root being "") whose entries cannot be listed. */
  datatype Error = ListingFailed(path: string)

  type Outcome = Result<seq<Record>, Error>

  /** Doing one part of the walk and then the next: the first failure aborts
      the run, otherwise the records are concatenated in order. */
  function Then(first: Outcome, second: Outcome): Outcome
  {
    if first.Failure? then first
    else if second.Failure? then second
    else Success(first.value + second.value)
  }

  lemma ThenAssoc(x: Outcome, y: Outcome, z: Outcome)
    ensures Then(x, Then(y, z)) == Then(Then(x, y), z)
  {
    if x.Success? && y.Success? && z.Success? {
      assert x.value + (y.value + z.value) == (x.value + y.value) + z.value;
    }
  }

  lemma ThenUnit(x: Outcome)
    ensures Then(x, Success([])) == x
    ensures Then(Success([]), x) == x
  {
    if x.Success? {
      assert x.value + [] == x.value;
      assert [] + x.value == x.value;
    }
  }

  /** The records of the entries `es` of a directory whose chain of names
      from the root is `dirs` and whose relative path is `rel`. */
  function Collect(cfg: Config, sep: char, es: seq<Entry>, dirs: seq<string>, rel: string): Outcome
    decreases es
  {
    if |es| == 0 then Success([])
    else Then(CollectEntry(cfg, sep, es[0], dirs, rel), Collect(cfg, sep, es[1..], dirs, rel))
  }

  /** The records contributed by one entry: an excluded directory is skipped
      without being listed; any other directory is listed and walked (or
      aborts the run if it cannot be listed); a file gives one record if
      `Classify` includes it and none otherwise. */
  function CollectEntry(cfg: Config, sep: char, e: Entry, dirs: seq<string>, rel: string): Outcome
    decreases e
  {
    match e
    case Dir(n, children) =>
      if FolderExcluded(cfg, n) then Success([])
      else Collect(cfg, sep, children, dirs + [n], JoinPath(rel, n, sep))
    case Locked(n) =>
      if FolderExcluded(cfg, n) then Success([])
      else Failure(ListingFailed(JoinPath(rel, n, sep)))
    case File(n, size, content) =>
      match Classify(cfg, n, size, content)
      case Include(text) => Success([Record(dirs, n, JoinPath(rel, n, sep), size.value, text)])
      case _ => Success([])
  }

  /** Listing `dir` and walking its entries; listing anything but a readable
      directory fails. */
  function Listing(cfg: Config, sep: char, dir: Entry, dirs: seq<string>, rel: string): Outcome
  {
    match dir
    case Dir(_, children) => Collect(cfg, sep, children, dirs, rel)
    case _ => Failure(ListingFailed(rel))
  }

  /** The body: one block per record, in order. */
  function Render(rs: seq<Record>): string
  {
    if |rs| == 0 then "" else Render(rs[..|rs| - 1]) + Block(rs[|rs| - 1].path, rs[|rs| - 1].content)
  }

  /** The whole document: the summary, then the body. */
  function Aggregate(cfg: Config, sep: char, timestamp: string, root: Entry): Result<string, Error>
  {
    match Listing(cfg, sep, root, [], "")
    case Failure(err) => Failure(err)
    case Success(rs) => Success(Summary(timestamp, |rs|, cfg.folders, cfg.patterns) + Render(rs))
  }

  /** Walking a listing piece by piece is walking it whole: the records of
      `a + b` are those of `a` followed by those of `b`, and a failure in
      `a` stops the run before `b` is looked at. */
  lemma {:induction false} CollectAppend(cfg: Config, sep: char, a: seq<Entry>, b: seq<Entry>, dirs: seq<string>, rel: string)
    ensures Collect(cfg, sep, a + b, dirs, rel) == Then(Collect(cfg, sep, a, dirs, rel), Collect(cfg, sep, b, dirs, rel))
    decreases |a|
  {
    if |a| == 0 {
      assert a + b == b;
      ThenUnit(Collect(cfg, sep, b, dirs, rel));
    } else {
      assert (a + b)[0] == a[0];
      assert (a + b)[1..] == a[1..] + b;
      CollectAppend(cfg, sep, a[1..], b, dirs, rel);
      ThenAssoc(CollectEntry(cfg, sep, a[0], dirs, rel), Collect(cfg, sep, a[1..], dirs, rel), Collect(cfg, sep, b, dirs, rel));
    }
  }

  /** The walk of a listing split around its `i`-th entry. */
  lemma CollectAround(cfg: Config, sep: char, es: seq<Entry>, i: nat, dirs: seq<string>, rel: string)
    requires i < |es|
    ensures Collect(cfg, sep, es, dirs, rel) ==
      Then(Collect(cfg, sep, es[..i], dirs, rel),
           Then(CollectEntry(cfg, sep, es[i], dirs, rel), Collect(cfg, sep, es[i + 1..], dirs, rel)))
  {
    assert es == es[..i] + es[i..];
    CollectAppend(cfg, sep, es[..i], es[i..], dirs, rel);
  }

  /** The walk of a one-entry listing is the walk of that entry. */
  lemma CollectSingle(cfg: Config, sep: char, e: Entry, dirs: seq<string>, rel: string)
    ensures Collect(cfg, sep, [e], dirs, rel) == CollectEntry(cfg, sep, e, dirs, rel)
  {
    assert [e][1..] == [];
    ThenUnit(CollectEntry(cfg, sep, e, dirs, rel));
  }

  /** One more entry walked: its records follow those of the entries before
      it. */
  lemma CollectSnoc(cfg: Config, sep: char, es: seq<Entry>, i: nat, dirs: seq<string>, rel: string)
    requires i < |es|
    ensures Collect(cfg, sep, es[..i + 1], dirs, rel) ==
      Then(Collect(cfg, sep, es[..i], dirs, rel), CollectEntry(cfg, sep, es[i], dirs, rel))
  {
    assert es[..i + 1] == es[..i] + [es[i]];
    CollectAppend(cfg, sep, es[..i], [es[i]], dirs, rel);
    CollectSingle(cfg, sep, es[i], dirs, rel);
  }

  /** A failing entry stops the walk of its listing with its own error. */
  lemma CollectStopsAt(cfg: Config, sep: char, es: seq<Entry>, i: nat, dirs: seq<string>, rel: string)
    requires i < |es|
    requires Collect(cfg, sep, es[..i], dirs, rel).Success?
    requires CollectEntry(cfg, sep, es[i], dirs, rel).Failure?
    ensures Collect(cfg, sep, es, dirs, rel) == CollectEntry(cfg, sep, es[i], dirs, rel)
  {
    CollectAround(cfg, sep, es, i, dirs, rel);
  }

  lemma Associate(x: string, y: string, z: string)
    ensures x + y + z == x + (y + z)
  {
  }

  /** The body of concatenated records is the concatenation of their bodies. */
  lemma {:induction false} RenderAppend(a: seq<Record>, b: seq<Record>)
    ensures Render(a + b) == Render(a) + Render(b)
    decreases |b|
  {
    if |b| == 0 {
      assert a + b == a;
    } else {
      var b' := b[..|b| - 1];
      var last := b[|b| - 1];
      assert (a + b)[..|a + b| - 1] == a + b';
      assert (a + b)[|a + b| - 1] == last;
      var blk := Block(last.path, last.content);
      assert Render(a + b) == Render(a + b') + blk;
      assert Render(b) == Render(b') + blk;
      RenderAppend(a, b');
      Associate(Render(a), Render(b'), blk);
    }
  }

  lemma RenderOne(r: Record)
    ensures Render([r]) == Block(r.path, r.content)
  {
    assert [r][..0] == [];
  }

  /** Appending the body of more records to a running text that holds the
      body of the earlier ones. */
  lemma ExtendText(body: string, done: seq<Record>, more: seq<Record>, before: string, after: string)
    requires before == body + Render(done)
    requires after == before + Render(more)
    ensures after == body + Render(done + more)
  {
    RenderAppend(done, more);
  }

  /** The running text and counter the source keeps across the walk. */
  datatype Acc = Acc(body: string, processed: nat)

  /** `traverseDirectory(directory, relativePath)`: lists `dir` and visits
      its entries in listing order. The text and counter shared through the
      closure are passed in and handed back. A directory that cannot be
      listed aborts the whole walk. */
  method TraverseDirectory(cfg: Config, sep: char, dir: Entry, dirs: seq<string>, rel: string, body: string, processed: nat)
    returns (r: Result<Acc, Error>)
    ensures Listing(cfg, sep, dir, dirs, rel).Failure? ==> r == Failure(Listing(cfg, sep, dir, dirs, rel).error)
    ensures Listing(cfg, sep, dir, dirs, rel).Success? ==>
      var rs := Listing(cfg, sep, dir, dirs, rel).value;
      r == Success(Acc(body + Render(rs), processed + |rs|))
    decreases dir, 0
  {
    if !dir.Dir? {
      return Failure(ListingFailed(rel));
    }
    var entries := dir.children;
    var text := body;
    var count := processed;
    ghost var done: seq<Record> := [];
    var i := 0;
    while i < |entries|
      invariant 0 <= i <= |entries|
      invariant Collect(cfg, sep, entries[..i], dirs, rel) == Success(done)
      invariant text == body + Render(done)
      invariant count == processed + |done|
    {
      ghost var step := CollectEntry(cfg, sep, entries[i], dirs, rel);
      CollectSnoc(cfg, sep, entries, i, dirs, rel);
      var visited := VisitEntry(cfg, sep, entries[i], dirs, rel, text, count);
      if visited.Failure? {
        CollectStopsAt(cfg, sep, entries, i, dirs, rel);
        return Failure(visited.error);
      }
      ExtendText(body, done, step.value, text, visited.value.body);
      text := visited.value.body;
      count := visited.value.processed;
      done := done + step.value;
      i := i + 1;
    }
    assert entries[..i] == entries;
    return Success(Acc(text, count));
  }

  /** One turn of the loop over a listing: an excluded directory is
      skipped, any other directory is traversed, a file is classified and,
      if included, its block is appended and counted. */
  method VisitEntry(cfg: Config, sep: char, entry: Entry, dirs: seq<string>, rel: string, text: string, count: nat)
    returns (r: Result<Acc, Error>)
    ensures CollectEntry(cfg, sep, entry, dirs, rel).Failure? ==> r == Failure(CollectEntry(cfg, sep, entry, dirs, rel).error)
    ensures CollectEntry(cfg, sep, entry, dirs, rel).Success? ==>
      var rs := CollectEntry(cfg, sep, entry, dirs, rel).value;
      r == Success(Acc(text + Render(rs), count + |rs|))
    decreases entry, 1
  {
    if IsDirectory(entry) {
      if FolderExcluded(cfg, entry.name) {
        assert text + Render([]) == text;
        return Success(Acc(text, count));
      }
      var path := JoinPath(rel, entry.name, sep);
      r := TraverseDirectory(cfg, sep, entry, dirs + [entry.name], path, text, count);
    } else {
      var verdict := Classify(cfg, entry.name, entry.size, entry.content);
      if !verdict.Include? {
        assert text + Render([]) == text;
        return Success(Acc(text, count));
      }
      var path := JoinPath(rel, entry.name, sep);
      RenderOne(Record(dirs, entry.name, path, entry.size.value, verdict.content));
      var next := AppendBlock(text, path, verdict.content);
      return Success(Acc(next, count + 1));
    }
  }

  /** The five appends that write one file's block: the running text is
      kept as a prefix, and what follows it reads back as a block naming
      `path` and carrying `content` unchanged. */
  method AppendBlock(text: string, path: string, content: string) returns (t: string)
    ensures |text| <= |t| && t[..|text|] == text
    ensures NoNewline(path) ==> ParseBlock(t[|text|..]) == Some((path, content))
    ensures t == text + Block(path, content)
  {
    t := text + Opening;
    t := t + FileLabel + path + "\n";
    t := t + Closing;
    t := t + content;
    t := t + "\n\n";
    BlockPieces(text, path, content);
    assert t[|text|..] == Block(path, content);
    if NoNewline(path) {
      BlockRoundTrip(path, content);
    }
  }

  /** `processFiles(rootPath, excludedFolders, excludedPatterns)`: walks the
      root, then puts the summary in front of the collected text. */
  method ProcessFiles(cfg: Config, sep: char, timestamp: string, root: Entry) returns (r: Result<string, Error>)
    ensures r == Aggregate(cfg, sep, timestamp, root)
  {
    var walked := TraverseDirectory(cfg, sep, root, [], "", "", 0);
    if walked.Failure? {
      return Failure(walked.error);
    }
    var summary := Summary(timestamp, walked.value.processed, cfg.folders, cfg.patterns);
    assert walked.value.body == Render(Listing(cfg, sep, root, [], "").value);
    return Success(summary + walked.value.body);
  }
}
