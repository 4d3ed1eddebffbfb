# file-copier: the directory aggregator, modelled in Dafny

The extension's one command walks the open workspace folder, skips
excluded folders and file-name patterns, and concatenates every remaining
text file into one document. Each file's text sits in a `File:` block, and a
summary header goes in front. This project models that core,
`processFiles` and its inner `traverseDirectory`
(`extension.js:102-165`), as pure Dafny over an immutable directory tree,
and proves what the output contains and how it is laid out.

Modules, one per concern:

- `Wrappers` (`wrappers.dfy`): `Option` and `Result`.
- `Text` (`text.dfy`): repeated characters, `Array.prototype.join`, decimal
  rendering of the counter and its reader, line splitting.
- `FileTree` (`filetree.dfy`): the tree. `Dir(name, children)` is a readable
  directory, `Locked(name)` a directory whose listing throws, and
  `File(name, size, content)` any other entry. `size` is `None` when `stat`
  fails, and `content` is `None` when the read fails. It also holds
  `JoinPath`, the `path.join(relativePath, name)` of line 111.
- `Policy` (`policy.dfy`): the exclusion lists, the glob matcher, the 1 MiB
  constant, the default lists of lines 25-26, and `Classify`, the per-file
  decision of lines 120-149.
- `Layout` (`layout.dfy`): the block of lines 139-143 and the summary of
  lines 157-162, each with a reader (`ParseBlock`, `ParseSummary`) proved to
  invert it.
- `Traversal` (`traversal.dfy`): `Collect` is the reference definition, the
  records of the included files in pre-order over listing order.
  `TraverseDirectory`, `VisitEntry` and `ProcessFiles` follow the source's
  loop, with its running text and counter. They are proved to produce
  exactly `Summary(count) + Render(records)`.
- `Properties` (`properties.dfy`): soundness and completeness against a
  reachability predicate, exclusion, failure isolation, monotonicity in the
  exclusion lists, relative paths, run failure, and the header count.
- `Scenarios` (`scenarios.dfy`): concrete runs, and the duplicates in the
  default lists.

Parameters that stand for the environment:

- the tree stands for the file system;
- `Config.matches(name, pattern)` stands for
  `minimatch(name, pattern, { nocase: true })`;
- `timestamp` stands for `new Date().toLocaleString()`;
- `sep` stands for the platform path separator.

On these points the model follows what the code does:

- The code's default folder list repeats `.vscode`, and its default pattern
  list repeats `*.png`. The summary prints the lists as given, duplicates
  included. `DefaultDuplicatesIrrelevant` shows that the repeats change
  nothing else.
- The folder list is an array checked with `includes`, not a set. Only
  membership matters for the walk (`SameExclusionsSameWalk`), but the
  header prints the list in its given order.
- Entries are visited in listing order, not sorted.
- A failing `stat` is caught like a failing read: the file is skipped.
- A directory whose listing fails aborts the whole run (`Failure`). This
  holds for the root too, and for a root that is not a directory at all.
  The root's own name is never checked against the folder list.

## Model

| member | source | states |
|---|---|---|
| Policy.Classify | extension.js:120-149 | A file gets a block exactly when its name matches no pattern, its `stat` succeeds with size at most 1 MiB, and its read succeeds; the block carries the read content. Each skip reason holds exactly under its own condition, checked in the source's order (patterns, then stat and size, then read). |
| Policy.AnyMatches | extension.js:122-124 | The left-to-right `some` over the patterns is true exactly when some pattern in the list matches the name. |
| Policy.SizeGuardBoundary | extension.js:131-134 | The size guard is strict: a file of exactly 1,048,576 bytes is included, one of 1,048,577 bytes is not. |
| Layout.BlockRoundTrip | extension.js:139-143 | Reading a block back recovers the relative path and the unchanged content, whatever the content holds, as long as the path has no line feed. |
| Layout.SummaryRoundTrip | extension.js:157-162 | Reading the header of `summary + body` gives back the timestamp, the count, the joined folder list and the joined pattern list, and the rest is exactly `body`. This needs the timestamp and both joined lists to be single lines. |
| Layout.CountRoundTrip | extension.js:157-160 | The count written into the header reads back from any output that starts with it, whatever the folder and pattern lines after it hold. This needs only a single-line timestamp. |
| Text.DecimalRoundTrip | extension.js:160 | The count printed in decimal reads back as the same number. |
| FileTree.JoinPathExtends | extension.js:111 | Extending the relative path one name at a time, as the recursion does, yields the root-to-entry names joined by the separator. At the root this is the bare name. It needs the names to be non-empty. |
| FileTree.JoinPath | extension.js:111 | Definition of `path.join(relativePath, name)` for listed names: the bare name at the root, otherwise one separator between the two. `JoinPathExtends` and `RecordPathsJoinNames` pin it to the chain of names. |
| Layout.Block | extension.js:139-143 | Definition of one file's block: a blank line, a 40-character rule, `File: ` and the path, the rule, a blank line, the content, two line feeds. `BlockRoundTrip` pins it by reading the path and content back. |
| Layout.Summary | extension.js:157-162 | Definition of the header: title, 19-character underline, timestamp, count, the two lists joined with `, `, then a blank line. `SummaryRoundTrip` pins it by reading every field back. |
| Traversal.CollectEntry | extension.js:110-150 | Reference definition of one loop turn. An excluded directory gives nothing. Any other directory gives its own walk, one level deeper. A locked directory aborts. A file gives one record exactly when `Classify` includes it. `CollectSound` and `CollectComplete` pin it to reachability. |
| Traversal.Collect | extension.js:107-151 | Reference definition of one directory's walk: the entries' records concatenated in listing order, with the first failure ending the walk. `CollectAppend` and `TraverseDirectory` pin it to the source's loop. |
| Traversal.Aggregate | extension.js:154-164 | Reference definition of the output: the header with the number of records, then their blocks, or the listing failure. `ProcessFiles` is proved equal to it, and `SummaryCountsBlocks` shows the count read back from it is the number of blocks. |
| Traversal.CollectAppend | extension.js:109-151 | Records come in listing order: walking `a + b` gives the records of `a` followed by those of `b`, and a failure in `a` ends the run before `b`. |
| Traversal.VisitEntry | extension.js:110-150 | One turn of the loop appends exactly the blocks of that entry's records and adds their number to the counter. An excluded directory adds nothing. A listing failure inside the entry aborts with that error. |
| Traversal.TraverseDirectory | extension.js:106-152 | Walking a directory appends `Render(records)` to the running text and adds the number of records to the counter. If some listing fails, it returns that failure. |
| Traversal.AppendBlock | extension.js:139-143 | The five appends keep the running text as a prefix. What they add reads back as a block that names the relative path and carries the content unchanged, whenever the path has no line feed. |
| Traversal.ProcessFiles | extension.js:102-165 | The result is the reference aggregate: the summary with the record count, then the blocks of the records in order. It is a failure when a listing fails. |
| Properties.CollectSound | extension.js:106-149 | Every record comes from a file that really is in the tree, reached through folders that are not excluded, that passes every check, and whose content it carries. Its directory chain extends the walk's prefix. |
| Properties.CollectComplete | extension.js:106-149 | Every file reached through folders that are not excluded and that passes every check has a record, with its directory chain, name, size and content. |
| Properties.RecordsDistinct | extension.js:109-145 | When sibling names are distinct, as in any file system, no two records of a walk share their root-to-file chain of names. So each included file gets exactly one block, and the count is the number of distinct files. |
| Properties.ReachesAvoidsExcluded | extension.js:113-118 | No name on a reachable chain is an excluded folder. |
| Properties.NoBlockUnderExcludedFolder | extension.js:113-134 | Over a whole run, no record lies below an excluded folder at any depth. None has a name matching an excluded pattern, and none is larger than 1 MiB. |
| Properties.ExcludedDirectoryNeverEntered | extension.js:113-118 | An excluded directory is never listed: replacing it with any other directory of the same name, even one that cannot be listed, leaves the walk unchanged. |
| Properties.SkippedFileChangesNothing | extension.js:120-149 | A file skipped for any reason (pattern, failed stat, size, failed read) leaves the walk exactly as if it were absent. Its siblings before and after are still walked, and the count is unchanged. |
| Properties.MoreExclusionsOnlyRemove | extension.js:115-128 | With more excluded folders or patterns, a successful run stays successful. Its records are exactly the earlier records the larger lists still admit, in the same order. |
| Properties.SameExclusionsSameWalk | extension.js:113-128 | Lists with the same members, in any order and with any repeats, give the same walk. |
| Properties.PatternExcludedGrows | extension.js:122-124 | A name excluded by a pattern of the smaller list is excluded by the larger list. |
| Properties.RecordPathsJoinNames | extension.js:106-118 | When no name in the tree is empty, each record's relative path is its root-to-file chain of names joined by the separator. |
| Properties.FailsIffLockedReached | extension.js:107-118 | A run aborts exactly when it reaches, through folders that are not excluded, a directory that is not excluded and cannot be listed. |
| Properties.SummaryCountsBlocks | extension.js:139-164 | For a run that succeeds, the "Files processed" number read from the output header equals the number of records, whatever the configured lists contain. When both joined lists are single lines, the whole header reads back and what follows it is exactly the records' blocks. |
| Properties.RootHandling | extension.js:154-164 | The root is walked whatever its name, even an excluded one. A root that cannot be listed aborts the run. An empty root gives the bare header with count 0 and an empty body. |
| Scenarios.DefaultDuplicatesIrrelevant | extension.js:25-26 | The repeated `.vscode` and `*.png` in the default lists change nothing in the walk. |
| Scenarios.DefaultListsFitMixedRoot | extension.js:25-26 | The default lists exclude `node_modules`. Under a matcher where `img.png` matches `*.png` and the text files match no default pattern, they exclude the image but not the text files. |
| Scenarios.MixedRootRecords | extension.js:106-149 | On a root of `a.txt`, `node_modules/b.txt`, `img.png` and `notes.md`, the records are exactly those of `a.txt` and `notes.md`, in listing order. |
| Scenarios.MixedRootOutput | extension.js:102-165 | For that root the output is the header with count 2, then the block of `a.txt`, then the block of `notes.md`. |
| Scenarios.LargeFileLeftOut | extension.js:131-134 | A 2 MiB file whose name matches no pattern is left out because of its size alone. |

## Left out

- The VS Code command flow (extension.js:10-100) is host UI and I/O with no
  algorithm of its own. This covers the workspace lookup, the quick picks
  and input boxes, reading and writing the configuration, writing the output
  file, opening it, the clipboard and the notifications.
- The comma-split-and-trim of user input (extension.js:40, 57) is input
  handling in the UI flow. The model takes the lists as given.
- `minimatch` glob semantics, including `nocase` and dot-file rules, belong
  to a foreign library. The matcher is an uninterpreted parameter, so the
  case-insensitivity of pattern matching is a property of that parameter,
  not something proved here.
- `new Date().toLocaleString()` depends on the clock and the locale. The
  timestamp is a parameter.
- The real file system calls are replaced by the tree:
  - a failing `readdirSync` is `Locked`;
  - a failing `statSync` is `size == None`;
  - a failing `readFileSync` is `content == None`.

  UTF-8 decoding is not modelled: content is a string as read.
- Symbolic links are not modelled. A listing entry that is not reported as a
  directory, such as a link to a directory, is a `File`. Its read failure is
  expressed through `content == None`.
- `path.join` normalisation (`.`/`..` segments, duplicate separators, the
  `.` for an empty join) is not modelled. `JoinPath` only covers names as a
  listing reports them. The separator is a parameter rather than the
  platform's.
- `console.log` diagnostics for skipped files have no effect on the output.
  `Verdict` keeps the skip reason instead.
- `async`/`await`: every await is sequential, so there is nothing
  concurrent to model.
- JavaScript's maximum string length is not modelled, because model strings are unbounded. In the source, a `RangeError` from one of the appends at extension.js:139-143 is caught at 146. A partial block then stays in the result and the counter is not incremented, so the header count no longer matches the blocks. The same error at extension.js:164, outside the `try`, would abort a run that `Aggregate` reports as a success.
- A read that never returns is not modelled. For example, a named pipe passes `statSync` with size 0 and then `readFileSync` blocks. `File`'s content is either the text read or a failure.
- Layout.SummaryRoundTrip: the header can be read back only when the
  timestamp and both joined lists contain no line feed. The source puts no
  such restriction on the configured lists.
- Layout.BlockRoundTrip: a block can be read back only when the relative
  path contains no line feed. File names containing a line feed make the
  source's output ambiguous.
