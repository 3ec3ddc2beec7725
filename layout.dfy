/** The file layout resolver: turns the listing of a source directory into the
    graft points `name=path` that place each file at the root of the image. */
module Layout {
  import opened Basics
  import Paths

  /** `dir` with one trailing separator removed, if it has one. */
  function TrimSlash(dir: string): string {
    if dir != [] && dir[|dir| - 1] == '/' then dir[..|dir| - 1] else dir
  }

  /** Joins a directory and an entry name with exactly one separator between them
      (a trailing separator on the directory is absorbed); an empty directory
      leaves the name alone. */
  function Join(dir: string, name: string): (path: string)
    ensures |path| >= |name| && path[|path| - |name|..] == name
    ensures dir == "" ==> path == name
    ensures dir != "" ==> path[..|path| - |name|] == TrimSlash(dir) + "/"
  {
    if dir == "" then name
    else if dir[|dir| - 1] == '/' then dir + name
    else dir + "/" + name
  }

  /** The graft point that puts entry `name` of `dir` at the image root under the same name. */
  function GraftEntry(dir: string, name: string): string {
    name + "=" + Join(dir, name)
  }

  /** The first position of `c` in `s`, if any. */
  function IndexOf(s: string, c: char): (r: Option<nat>)
    ensures r.None? <==> c !in s
    ensures r.Some? ==> r.value < |s| && s[r.value] == c
    ensures r.Some? ==> forall j :: 0 <= j < r.value ==> s[j] != c
  {
    if s == [] then None
    else if s[0] == c then Some(0)
    else match IndexOf(s[1..], c)
      case None => None
      case Some(i) => Some(i + 1)
  }

  /** Reads a graft point back: the path inside the image and the path on the
      host, split at the first `=`. */
  function SplitGraft(entry: string): Option<(string, string)> {
    match IndexOf(entry, '=')
    case None => None
    case Some(i) => Some((entry[..i], entry[i + 1..]))
  }

  /** A graft point reads back as the name it was made from and the joined host
      path, provided the name has no `=` of its own. */
  lemma GraftRoundTrip(dir: string, name: string)
    requires '=' !in name
    ensures SplitGraft(GraftEntry(dir, name)) == Some((name, Join(dir, name)))
  {
    var e := GraftEntry(dir, name);
    assert e[|name|] == '=';
    assert e[..|name|] == name;
    assert e[|name| + 1..] == Join(dir, name);
  }

  /** `getFilesLayout`: one graft point per listed entry, in listing order, or
      nothing and the listing's own error when the directory could not be read.
      `listing` and `listErr` are what reading `dirPath` gave. */
  method GetFilesLayout(dirPath: string, listing: seq<string>, listErr: Option<Error>)
    returns (filesPath: seq<string>, err: Option<Error>)
    ensures err == listErr
    ensures listErr.Some? ==> filesPath == []
    ensures listErr.None? ==> |filesPath| == |listing|
    ensures listErr.None? ==>
      forall i :: 0 <= i < |listing| ==> filesPath[i] == GraftEntry(dirPath, listing[i])
  {
    filesPath := [];
    if listErr.Some? {
      return [], listErr;
    }
    for i := 0 to |listing|
      invariant |filesPath| == i
      invariant forall k :: 0 <= k < i ==> filesPath[k] == GraftEntry(dirPath, listing[k])
    {
      var fileName := listing[i];
      filesPath := filesPath + [fileName + "=" + Join(dirPath, fileName)];
    }
    err := None;
  }

  /** Entries of every registered source directory, the service account's
      (written with a trailing separator) included, are joined with exactly one
      separator: the directory part never ends in `/`. */
  lemma SourceEntriesJoinCleanly(t: Paths.Type, name: string)
    ensures Join(Paths.SourceDir(t), name) == TrimSlash(Paths.SourceDir(t)) + "/" + name
    ensures TrimSlash(Paths.SourceDir(t)) != ""
    ensures TrimSlash(Paths.SourceDir(t))[|TrimSlash(Paths.SourceDir(t))| - 1] != '/'
  {
  }
}
