/** The directory tree the extension walks, as an immutable value, and the
    relative paths it labels files with (extension.js:106-111). */
module FileTree {
  import opened Wrappers

  /** One entry of a directory listing.
      - `Dir`: a directory whose entries, in listing order, are `children`.
      - `Locked`: a directory whose entries cannot be listed (the listing
        call throws, outside any handler).
      - `File`: anything the listing does not report as a directory; `size`
        is `None` when `stat` fails, `content` is `None` when reading the
        file as text fails. */
  datatype Entry =
    | Dir(name: string, children: seq<Entry>)
    | Locked(name: string)
    | File(name: string, size: Option<nat>, content: Option<string>)

  predicate IsDirectory(e: Entry) {
    e.Dir? || e.Locked?
  }

  /** `path.join(rel, name)` for the relative paths the traversal builds:
      at the root (`rel` empty) the path is the bare name, below it the name
      is appended after one separator. */
  function JoinPath(rel: string, name: string, sep: char): string
  {
    if rel == "" then name else rel + [sep] + name
  }

  /** The names of a root-to-entry chain joined by the separator. */
  function JoinNames(names: seq<string>, sep: char): string
  {
    if |names| == 0 then ""
    else if |names| == 1 then names[0]
    else JoinNames(names[..|names| - 1], sep) + [sep] + names[|names| - 1]
  }

  /** Extending a relative path one name at a time, as the recursion does,
      yields the joined chain, provided no name on it is empty (a listing
      never reports an empty name). */
  lemma {:induction false} JoinPathExtends(names: seq<string>, name: string, sep: char)
    requires forall i :: 0 <= i < |names| ==> names[i] != ""
    ensures JoinPath(JoinNames(names, sep), name, sep) == JoinNames(names + [name], sep)
  {
    var ext := names + [name];
    assert ext[..|ext| - 1] == names;
    if |names| > 0 {
      NonEmptyJoin(names, sep);
    }
  }

  lemma {:induction false} NonEmptyJoin(names: seq<string>, sep: char)
    requires 0 < |names|
    requires forall i :: 0 <= i < |names| ==> names[i] != ""
    ensures JoinNames(names, sep) != ""
  {
    if |names| > 1 {
      var p := JoinNames(names, sep);
      assert p[|p| - 1] == names[|names| - 1][|names[|names| - 1]| - 1];
    }
  }

  /** Every name in the tree (at any depth) is non-empty. */
  predicate WellNamed(e: Entry)
  {
    && e.name != ""
    && match e
       case Dir(_, children) => forall i :: 0 <= i < |children| ==> WellNamed(children[i])
       case _ => true
  }
}
