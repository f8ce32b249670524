/** The part of java.io.File the program relies on, over an abstract file system: a map from
    normalised path strings to entries. Text files hold their decoded text. */
module Files {
  import opened Base
  import opened LittleEndian

  type Path = string

  datatype Node = Directory | Audio(bytes: seq<byte>) | Text(text: string)

  type FileSystem = map<Path, Node>

  /** java.io.File(parent, child): the child's path under the parent directory. */
  function Child(dir: Path, name: string): Path {
    dir + "/" + name
  }

  predicate HasNoSeparator(name: string) {
    forall i :: 0 <= i < |name| ==> name[i] != '/'
  }

  /** `p` lies strictly inside directory `dir`, at any depth. */
  predicate Within(p: Path, dir: Path) {
    |dir| < |p| && p[..|dir|] == dir && p[|dir|] == '/'
  }

  lemma ChildWithin(dir: Path, name: string)
    ensures Within(Child(dir, name), dir)
  {
    assert Child(dir, name)[..|dir|] == dir;
  }

  /** Index of the last '/' in `p`, or -1. */
  function LastSeparator(p: Path): (k: int)
    ensures -1 <= k < |p|
    ensures k >= 0 ==> p[k] == '/'
    ensures forall j :: k < j < |p| ==> p[j] != '/'
  {
    if |p| == 0 then -1
    else if p[|p| - 1] == '/' then |p| - 1
    else LastSeparator(p[..|p| - 1])
  }

  /** File.getParent on a normalised Unix path: everything before the last separator, "/" for a
      child of the root, and null when there is no separator. */
  function ParentOf(p: Path): Option<Path> {
    var k := LastSeparator(p);
    if k < 0 then None
    else if k == 0 then (if |p| > 1 then Some("/") else None)
    else Some(p[..k])
  }

  /** The parent of `Child(dir, name)` is `dir`, for a non-empty directory path and a plain name. */
  lemma ParentOfChild(dir: Path, name: string)
    requires |dir| > 0 && HasNoSeparator(name)
    ensures ParentOf(Child(dir, name)) == Some(dir)
  {
    var p := Child(dir, name);
    assert p[|dir|] == '/';
    assert forall j :: |dir| < j < |p| ==> p[j] == name[j - |dir| - 1];
    assert LastSeparator(p) == |dir| by {
      LastSeparatorIs(p, |dir|);
    }
    assert p[..|dir|] == dir;
  }

  lemma {:induction false} LastSeparatorIs(p: Path, k: nat)
    requires k < |p| && p[k] == '/'
    requires forall j :: k < j < |p| ==> p[j] != '/'
    ensures LastSeparator(p) == k
  {
    if k < |p| - 1 {
      LastSeparatorIs(p[..|p| - 1], k);
    }
  }

  function TextOf(fs: FileSystem, p: Path): string {
    if p in fs && fs[p].Text? then fs[p].text else ""
  }

  /** File.writeText: the file now holds exactly `s`. */
  function WriteText(fs: FileSystem, p: Path, s: string): FileSystem {
    fs[p := Text(s)]
  }

  /** File.appendText: `s` is added at the end of what the file holds. */
  function AppendText(fs: FileSystem, p: Path, s: string): FileSystem {
    fs[p := Text(TextOf(fs, p) + s)]
  }

  /** File.deleteRecursively: the entry and everything beneath it disappear; nothing else changes. */
  function DeleteRecursively(fs: FileSystem, dir: Path): (r: FileSystem)
    ensures forall p {:trigger p in r} :: p in r <==> (p in fs && p != dir && !Within(p, dir))
    ensures forall p {:trigger r[p]} :: p in r ==> r[p] == fs[p]
  {
    map p | p in fs && p != dir && !Within(p, dir) :: fs[p]
  }
}
