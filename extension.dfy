/** The `extension.copyDirFilesWithContent` command (ext/src/extension.ts): every file
    under the selected folder becomes a block `relPath:\ncontent`, depth first in
    directory-listing order, and the blocks joined by blank lines go to the clipboard.
    The file system is a tree value whose reads may fail. */
module Extension {
  import opened Wrappers
  import opened Text
  import opened Json

  /** A directory entry as `readdir` and `readFile` see it. */
  datatype Entry =
    | File(name: string, content: Result<string, Thrown>)
    | Directory(name: string, failure: Option<Thrown>, children: seq<Entry>)
    | Other(name: string)

  /** `path.relative(base, path.join(dir, name)).replace(/\\/g, '/')` for the names
      leading from the selected folder to an entry, on a platform with separator `sep`. */
  function RelPath(names: seq<string>, sep: char): (p: string)
    ensures forall k :: 0 <= k < |p| ==> p[k] != '\\'
  {
    ReplaceChar(Join(names, [sep]), '\\', '/')
  }

  function Block(relPath: string, content: string): string
  {
    relPath + ":\n" + content
  }

  /** The blocks an entry contributes below folder path `path`. */
  function EntryBlocks(e: Entry, path: seq<string>, sep: char): Result<seq<string>, Thrown>
    decreases e, if e.Directory? then |e.children| + 1 else 0
  {
    match e
    case File(name, content) =>
      if content.Err? then Err(content.error) else Ok([Block(RelPath(path + [name], sep), content.value)])
    case Other(_) => Ok([])
    case Directory(name, failure, children) =>
      if failure.Some? then Err(failure.value) else ListBlocks(e, |children|, path + [name], sep)
  }

  /** The blocks of the first `n` entries of a directory whose own path is `path`; the
      first failure in listing order is the one reported. */
  function ListBlocks(d: Entry, n: nat, path: seq<string>, sep: char): Result<seq<string>, Thrown>
    requires d.Directory? && n <= |d.children|
    decreases d, n
  {
    if n == 0 then Ok([])
    else
      match ListBlocks(d, n - 1, path, sep)
      case Err(e) => Err(e)
      case Ok(acc) =>
        match EntryBlocks(d.children[n - 1], path, sep)
        case Err(e) => Err(e)
        case Ok(more) => Ok(acc + more)
  }

  /** Once an entry fails, the listing fails with that entry's error. */
  lemma {:induction false} ListBlocksFailure(d: Entry, i: nat, n: nat, path: seq<string>, sep: char)
    requires d.Directory? && i <= n <= |d.children| && ListBlocks(d, i, path, sep).Err?
    ensures ListBlocks(d, n, path, sep) == ListBlocks(d, i, path, sep)
    decreases n - i
  {
    if i < n {
      ListBlocksFailure(d, i, n - 1, path, sep);
    }
  }

  /** What `collect(dir, base)` returns for a directory whose path below the base is `path`. */
  function DirBlocks(d: Entry, path: seq<string>, sep: char): Result<seq<string>, Thrown>
    requires d.Directory?
  {
    if d.failure.Some? then Err(d.failure.value) else ListBlocks(d, |d.children|, path, sep)
  }

  /** `collect(dir, base)`: the loop over the entries, recursing into directories. */
  method Collect(dir: Entry, path: seq<string>, sep: char) returns (r: Result<seq<string>, Thrown>)
    requires dir.Directory?
    ensures r == DirBlocks(dir, path, sep)
    decreases dir
  {
    if dir.failure.Some? {
      return Err(dir.failure.value);
    }
    var result: seq<string> := [];
    var i := 0;
    while i < |dir.children|
      invariant i <= |dir.children|
      invariant ListBlocks(dir, i, path, sep) == Ok(result)
    {
      var entry := dir.children[i];
      match entry {
        case Directory(name, _, _) =>
          var sub := Collect(entry, path + [name], sep);
          assert EntryBlocks(entry, path, sep) == sub;
          if sub.Err? {
            ListBlocksFailure(dir, i + 1, |dir.children|, path, sep);
            return Err(sub.error);
          }
          assert ListBlocks(dir, i + 1, path, sep) == Ok(result + sub.value);
          result := result + sub.value;
        case File(name, content) =>
          if content.Err? {
            ListBlocksFailure(dir, i + 1, |dir.children|, path, sep);
            return Err(content.error);
          }
          assert ListBlocks(dir, i + 1, path, sep) == Ok(result + [Block(RelPath(path + [name], sep), content.value)]);
          result := result + [Block(RelPath(path + [name], sep), content.value)];
        case Other(_) =>
          assert result + [] == result;
      }
      i := i + 1;
    }
    return Ok(result);
  }

  /** The number of regular files in a tree. */
  function FileCount(e: Entry): nat
    decreases e, if e.Directory? then |e.children| + 1 else 0
  {
    match e
    case File(_, _) => 1
    case Other(_) => 0
    case Directory(_, _, children) => ListFileCount(e, |children|)
  }

  function ListFileCount(d: Entry, n: nat): nat
    requires d.Directory? && n <= |d.children|
    decreases d, n
  {
    if n == 0 then 0 else ListFileCount(d, n - 1) + FileCount(d.children[n - 1])
  }

  /** Each regular file yields exactly one block, and nothing else yields any. */
  lemma {:induction false} OneBlockPerFile(e: Entry, path: seq<string>, sep: char)
    requires EntryBlocks(e, path, sep).Ok?
    ensures |EntryBlocks(e, path, sep).value| == FileCount(e)
    decreases e, if e.Directory? then |e.children| + 1 else 0
  {
    if e.Directory? {
      OneBlockPerFileList(e, |e.children|, path + [e.name], sep);
    }
  }

  lemma {:induction false} OneBlockPerFileList(d: Entry, n: nat, path: seq<string>, sep: char)
    requires d.Directory? && n <= |d.children| && ListBlocks(d, n, path, sep).Ok?
    ensures |ListBlocks(d, n, path, sep).value| == ListFileCount(d, n)
    decreases d, n
  {
    if n > 0 {
      OneBlockPerFileList(d, n - 1, path, sep);
      OneBlockPerFile(d.children[n - 1], path, sep);
    }
  }

  /** A reference reading of a listing, front to back: the first entry's blocks, then
      the rest's. */
  function Splice(entries: seq<Entry>, path: seq<string>, sep: char): Result<seq<string>, Thrown>
    decreases |entries|
  {
    if entries == [] then Ok([])
    else
      match EntryBlocks(entries[0], path, sep)
      case Err(e) => Err(e)
      case Ok(first) =>
        match Splice(entries[1..], path, sep)
        case Err(e) => Err(e)
        case Ok(rest) => Ok(first + rest)
  }

  lemma {:induction false} SpliceSnoc(entries: seq<Entry>, x: Entry, path: seq<string>, sep: char)
    ensures Splice(entries + [x], path, sep) ==
            match Splice(entries, path, sep)
            case Err(e) => Err(e)
            case Ok(acc) =>
              (match EntryBlocks(x, path, sep) case Err(e) => Err(e) case Ok(more) => Ok(acc + more))
    decreases |entries|
  {
    if entries == [] {
      assert [] + [x] == [x];
      assert [x][1..] == [];
      match EntryBlocks(x, path, sep)
      case Err(_) =>
      case Ok(more) => assert more + [] == [] + more;
    } else {
      assert (entries + [x])[0] == entries[0];
      assert (entries + [x])[1..] == entries[1..] + [x];
      SpliceSnoc(entries[1..], x, path, sep);
      match EntryBlocks(entries[0], path, sep)
      case Err(_) =>
      case Ok(first) =>
        match Splice(entries[1..], path, sep)
        case Err(_) =>
        case Ok(rest) =>
          match EntryBlocks(x, path, sep)
          case Err(_) =>
          case Ok(more) => assert first + (rest + more) == (first + rest) + more;
    }
  }

  /** A directory's blocks are its entries' blocks, spliced in listing order. */
  lemma {:induction false} ListBlocksIsSplice(d: Entry, n: nat, path: seq<string>, sep: char)
    requires d.Directory? && n <= |d.children|
    ensures ListBlocks(d, n, path, sep) == Splice(d.children[..n], path, sep)
  {
    if n > 0 {
      ListBlocksIsSplice(d, n - 1, path, sep);
      assert d.children[..n] == d.children[..n - 1] + [d.children[n - 1]];
      SpliceSnoc(d.children[..n - 1], d.children[n - 1], path, sep);
    }
  }

  /** With names free of both separators, the path reads the same on Windows and POSIX:
      the names joined by `/`. */
  lemma {:induction false} RelPathPortable(names: seq<string>)
    requires forall i, k :: 0 <= i < |names| && 0 <= k < |names[i]| ==> names[i][k] != '\\' && names[i][k] != '/'
    ensures RelPath(names, '\\') == RelPath(names, '/') == Join(names, "/")
  {
    JoinReplace(names);
  }

  lemma {:induction false} JoinReplace(names: seq<string>)
    requires forall i, k :: 0 <= i < |names| && 0 <= k < |names[i]| ==> names[i][k] != '\\' && names[i][k] != '/'
    ensures ReplaceChar(Join(names, "\\"), '\\', '/') == Join(names, "/")
    ensures ReplaceChar(Join(names, "/"), '\\', '/') == Join(names, "/")
  {
    if |names| > 1 {
      var init := names[..|names| - 1];
      JoinReplace(init);
      ReplaceAppend(Join(init, "\\") + "\\", names[|names| - 1]);
      ReplaceAppend(Join(init, "\\"), "\\");
      ReplaceAppend(Join(init, "/") + "/", names[|names| - 1]);
      ReplaceAppend(Join(init, "/"), "/");
      ReplaceNone(names[|names| - 1]);
    } else if |names| == 1 {
      ReplaceNone(names[0]);
    }
  }

  lemma ReplaceAppend(a: string, b: string)
    ensures ReplaceChar(a + b, '\\', '/') == ReplaceChar(a, '\\', '/') + ReplaceChar(b, '\\', '/')
  {
    var l, r := ReplaceChar(a + b, '\\', '/'), ReplaceChar(a, '\\', '/') + ReplaceChar(b, '\\', '/');
    forall k | 0 <= k < |l| ensures l[k] == r[k] {
      if k >= |a| {
        assert (a + b)[k] == b[k - |a|];
      }
    }
  }

  lemma ReplaceNone(s: string)
    requires forall k :: 0 <= k < |s| ==> s[k] != '\\'
    ensures ReplaceChar(s, '\\', '/') == s
  {
  }

  /** The command's argument: the explorer item, when there is one. */
  datatype Uri = Uri(scheme: string, root: Entry)

  /** What the user sees: an error message, or the text written to the clipboard (with
      the information message that follows it). */
  datatype Outcome = ShowError(message: string) | Copied(text: string)

  const SelectFolder := "Select a folder in the explorer."

  /** The command, with `readdir` of a selection that is not a folder failing with
      `notADirectory` and the clipboard write failing with `clipboardFailure` if given. */
  function CommandOutcome(uri: Option<Uri>, sep: char, notADirectory: Thrown,
                          clipboardFailure: Option<Thrown>): (o: Outcome)
    ensures uri.None? || uri.value.scheme != "file" ==> o == ShowError(SelectFolder)
    ensures o.Copied? ==> clipboardFailure.None? && uri.Some? && uri.value.root.Directory?
    ensures o.Copied? ==> DirBlocks(uri.value.root, [], sep).Ok?
                          && o.text == Join(DirBlocks(uri.value.root, [], sep).value, "\n\n")
    ensures uri.Some? && uri.value.scheme == "file" && uri.value.root.Directory?
            && DirBlocks(uri.value.root, [], sep).Ok? && clipboardFailure.None? ==>
              o == Copied(Join(DirBlocks(uri.value.root, [], sep).value, "\n\n"))
    ensures uri.Some? && uri.value.scheme == "file" && !uri.value.root.Directory? ==>
              o == ShowError("Error: " + MessageOrElse(notADirectory))
    ensures uri.Some? && uri.value.scheme == "file" && uri.value.root.Directory?
            && DirBlocks(uri.value.root, [], sep).Err? ==>
              o == ShowError("Error: " + MessageOrElse(DirBlocks(uri.value.root, [], sep).error))
    ensures uri.Some? && uri.value.scheme == "file" && uri.value.root.Directory?
            && DirBlocks(uri.value.root, [], sep).Ok? && clipboardFailure.Some? ==>
              o == ShowError("Error: " + MessageOrElse(clipboardFailure.value))
  {
    if uri.None? || uri.value.scheme != "file" then ShowError(SelectFolder)
    else
      var blocks := if uri.value.root.Directory? then DirBlocks(uri.value.root, [], sep) else Err(notADirectory);
      match blocks
      case Err(e) => ShowError("Error: " + MessageOrElse(e))
      case Ok(bs) =>
        if clipboardFailure.Some? then ShowError("Error: " + MessageOrElse(clipboardFailure.value))
        else Copied(Join(bs, "\n\n"))
  }

  /** The command handler itself: it runs `collect` on the selected folder. */
  method CopyDirFilesWithContent(uri: Option<Uri>, sep: char, notADirectory: Thrown,
                                 clipboardFailure: Option<Thrown>) returns (o: Outcome)
    ensures o == CommandOutcome(uri, sep, notADirectory, clipboardFailure)
  {
    if uri.None? || uri.value.scheme != "file" {
      return ShowError(SelectFolder);
    }
    var blocks: Result<seq<string>, Thrown>;
    if uri.value.root.Directory? {
      blocks := Collect(uri.value.root, [], sep);
    } else {
      blocks := Err(notADirectory);
    }
    if blocks.Err? {
      return ShowError("Error: " + MessageOrElse(blocks.error));
    }
    if clipboardFailure.Some? {
      return ShowError("Error: " + MessageOrElse(clipboardFailure.value));
    }
    return Copied(Join(blocks.value, "\n\n"));
  }

  /** A folder holding one readable file copies exactly that file's block. */
  lemma SingleFile(name: string, content: string, sep: char)
    requires forall k :: 0 <= k < |name| ==> name[k] != '\\'
    ensures var root := Directory("root", None, [File(name, Ok(content))]);
            CommandOutcome(Some(Uri("file", root)), sep, Thrown(None, ""), None) == Copied(name + ":\n" + content)
  {
    var root := Directory("root", None, [File(name, Ok(content))]);
    assert [] + [name] == [name];
    assert Join([name], [sep]) == name;
    ReplaceNone(name);
    assert RelPath([] + [name], sep) == name;
    var block := name + ":\n" + content;
    assert EntryBlocks(root.children[0], [], sep) == Ok([block]);
    assert ListBlocks(root, 0, [], sep) == Ok([]);
    assert ListBlocks(root, 1, [], sep) == Ok([] + [block]);
    assert [] + [block] == [block];
    assert DirBlocks(root, [], sep) == Ok([block]);
    assert Join([block], "\n\n") == block;
  }
}
