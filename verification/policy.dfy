/** The per-entry decisions of the traversal (extension.js:113-136): which
    directories are skipped, and what happens to each file. */
module Policy {
  import opened Wrappers

  /** The caller's exclusion lists, as given (duplicates and all), and the
      glob matcher. `matches(name, pattern)` stands for
      `minimatch(name, pattern, { nocase: true })`; its glob rules live in a
      foreign library and are not interpreted here. */
  datatype Config = Config(
    folders: seq<string>,
    patterns: seq<string>,
    matches: (string, string) -> bool)

  /** Files strictly larger than this many bytes are skipped (1 MiB). */
  const MaxFileSize: nat := 1024 * 1024

  /** The default lists the command falls back to when the workspace has no
      setting of its own; both contain a duplicate entry. */
  const DefaultFolders: seq<string> := ["node_modules", ".git", ".vscode", ".next", ".vscode"]
  const DefaultPatterns: seq<string> := [
    "*.exe", "*.dll", "*.jpg", "*.png", "*.pdf", "*.png", "*.jpeg", "*.avif", "*.webp",
    "*.mp3", "*.wav", "*.mp4", "*.docx", "*.ico", "*.vsix", "*.gitignore", "*.env", "*.json"]

  /** `excludedFolders.includes(name)`: exact comparison of the base name. */
  predicate FolderExcluded(cfg: Config, name: string) {
    name in cfg.folders
  }

  /** `patterns.some(p => matches(name, p))`, scanning left to right. */
  function AnyMatches(matches: (string, string) -> bool, name: string, patterns: seq<string>): (r: bool)
    ensures r <==> exists i :: 0 <= i < |patterns| && matches(name, patterns[i])
  {
    if |patterns| == 0 then false
    else if matches(name, patterns[0]) then true
    else
      var rest := AnyMatches(matches, name, patterns[1..]);
      assert forall i :: 1 <= i < |patterns| ==> patterns[i] == patterns[1..][i - 1];
      rest
  }

  predicate PatternExcluded(cfg: Config, name: string) {
    AnyMatches(cfg.matches, name, cfg.patterns)
  }

  /** What the traversal does with one file, with the reason for a skip. */
  datatype Verdict =
    | Include(content: string)
    | ExcludedByPattern
    | StatFailed
    | TooLarge
    | ReadFailed

  /** The checks on a file in the order the source makes them: the name
      patterns first (no file access), then `stat` and the size guard, then
      the read. A failing `stat` or read is caught and only skips this file. */
  function Classify(cfg: Config, name: string, size: Option<nat>, content: Option<string>): (v: Verdict)
    ensures v.Include? <==>
      && !PatternExcluded(cfg, name)
      && size.Some? && size.value <= MaxFileSize
      && content.Some?
    ensures v.Include? ==> v.content == content.value
    ensures v == ExcludedByPattern <==> PatternExcluded(cfg, name)
    ensures v == TooLarge <==> !PatternExcluded(cfg, name) && size.Some? && size.value > MaxFileSize
    ensures v == StatFailed <==> !PatternExcluded(cfg, name) && size.None?
    ensures v == ReadFailed <==>
      !PatternExcluded(cfg, name) && size.Some? && size.value <= MaxFileSize && content.None?
  {
    if PatternExcluded(cfg, name) then ExcludedByPattern
    else match size
      case None => StatFailed
      case Some(n) =>
        if n > MaxFileSize then TooLarge
        else match content
          case None => ReadFailed
          case Some(text) => Include(text)
  }

  /** The size guard is strict: exactly 1 MiB is still read, one byte more
      is not. */
  lemma SizeGuardBoundary(cfg: Config, name: string, text: string)
    requires !PatternExcluded(cfg, name)
    ensures Classify(cfg, name, Some(1048576), Some(text)) == Include(text)
    ensures Classify(cfg, name, Some(1048577), Some(text)) == TooLarge
  {
  }
}
