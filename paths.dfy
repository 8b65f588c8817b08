/**
 * Path strings as the backend and the worker build them, on a Unix host:
 * java.io.File (constructors, getPath, getParent, isAbsolute, getAbsolutePath),
 * java.nio.file.Paths.get and Path.resolve, and Python's posixpath.join.
 */
module Paths {
  import opened Wrappers
  import opened Text
  import JavaLang

  /** Every run of '/' in s replaced by a single '/'. */
  function CollapseSlashes(s: string): (r: string)
    ensures |r| <= |s|
    ensures s != [] ==> r != [] && r[0] == s[0]
    decreases |s|
  {
    if |s| <= 1 then s
    else if s[0] == '/' && s[1] == '/' then CollapseSlashes(s[1..])
    else [s[0]] + CollapseSlashes(s[1..])
  }

  /**
   * The normal form java.io.File and sun.nio.fs.UnixPath keep a path in: no repeated '/',
   * and no trailing '/' unless the whole path is "/".
   */
  function Normalize(s: string): (r: string)
    ensures (s != [] && s[0] == '/') <==> (r != [] && r[0] == '/')
  {
    var c := CollapseSlashes(s);
    if |c| > 1 && c[|c| - 1] == '/' then c[..|c| - 1] else c
  }

  /** A Unix path is absolute when it starts with '/'. */
  predicate IsAbsolute(p: string) {
    p != [] && p[0] == '/'
  }

  /** java.io.UnixFileSystem.resolve(parent, child): child appended to parent with one '/' between. */
  function Resolve(parent: string, child: string): string {
    if child == [] then parent
    else if child[0] == '/' then (if parent == "/" then child else parent + child)
    else if parent == "/" then parent + child
    else parent + "/" + child
  }

  /** The path of new File(parent, child) for a String parent. */
  function FileOf(parent: string, child: string): string {
    if parent == [] then Resolve("/", Normalize(child)) else Resolve(Normalize(parent), Normalize(child))
  }

  /** The path of new File(parent, child) for a File parent, which may be null. */
  function FileUnder(parent: Option<string>, child: string): string {
    match parent
    case None => Normalize(child)
    case Some(p) => if p == [] then Resolve("/", Normalize(child)) else Resolve(p, Normalize(child))
  }

  /** File.getParent(): the path before the last '/', "/" for a child of the root, null when there is none. */
  function ParentOf(path: string): Option<string> {
    var prefix := if IsAbsolute(path) then 1 else 0;
    var k := JavaLang.LastIndexOf(path, '/');
    if k < prefix then (if prefix > 0 && |path| > prefix then Some(path[..prefix]) else None)
    else Some(path[..k])
  }

  /** File.getAbsolutePath(): a relative path is resolved against the user directory. */
  function AbsolutePath(path: string, userDir: string): string {
    if IsAbsolute(path) then path else Resolve(userDir, path)
  }

  /**
   * The message of the InvalidPathException Paths.get and Path.resolve throw for a string holding the
   * NUL character, which no Unix path may contain.
   */
  function NulMessage(input: string): string {
    "Nul character not allowed: " + input
  }

  /** Paths.get(first, more).toString(): the non-empty parts joined by '/', then normalised. */
  function PathsGet(first: string, more: string): string {
    Normalize(if more == [] then first else if first == [] then more else first + "/" + more)
  }

  /** base.resolve(other).toString() for a normalised base path and a String other. */
  function PathResolve(base: string, other: string): string {
    var o := Normalize(other);
    if IsAbsolute(o) then o
    else if o == [] then base
    else if base == [] then o
    else if base == "/" then "/" + o
    else base + "/" + o
  }

  /** Python's os.path.join(a, b) on a POSIX system. */
  function PyJoin(a: string, b: string): string {
    if StartsWith(b, "/") then b
    else if a == [] || a[|a| - 1] == '/' then a + b
    else a + "/" + b
  }

  /** Collapsing slashes never introduces a line break. */
  lemma {:induction false} CollapseNoLineBreak(s: string)
    requires NoLineBreak(s)
    ensures NoLineBreak(CollapseSlashes(s))
    decreases |s|
  {
    if |s| > 1 {
      assert NoLineBreak(s[1..]);
      CollapseNoLineBreak(s[1..]);
      assert NoLineBreak([s[0]]);
      ConcatNoLineBreak([s[0]], CollapseSlashes(s[1..]));
    }
  }

  /** Normalising never introduces a line break. */
  lemma NormalizeNoLineBreak(s: string)
    requires NoLineBreak(s)
    ensures NoLineBreak(Normalize(s))
  {
    CollapseNoLineBreak(s);
  }

  /** Gluing two line-break-free strings gives a line-break-free string. */
  lemma ConcatNoLineBreak(a: string, b: string)
    requires NoLineBreak(a) && NoLineBreak(b)
    ensures NoLineBreak(a + b)
  {
    var s := a + b;
    forall i | 0 <= i < |s| ensures s[i] != '\n' && s[i] != '\r' {
      if i < |a| { assert s[i] == a[i]; } else { assert s[i] == b[i - |a|]; }
    }
  }

  /** Paths.get, Path.resolve and os.path.join introduce no line break that was not in their inputs. */
  lemma PathsNoLineBreak(a: string, b: string)
    requires NoLineBreak(a) && NoLineBreak(b)
    ensures NoLineBreak(PathsGet(a, b))
    ensures NoLineBreak(PathResolve(a, b))
    ensures NoLineBreak(PyJoin(a, b))
  {
    assert NoLineBreak("/");
    ConcatNoLineBreak(a, "/");
    ConcatNoLineBreak(a + "/", b);
    ConcatNoLineBreak(a, b);
    var joined := if b == [] then a else if a == [] then b else a + "/" + b;
    NormalizeNoLineBreak(joined);
    var o := Normalize(b);
    NormalizeNoLineBreak(b);
    ConcatNoLineBreak("/", o);
    ConcatNoLineBreak(a + "/", o);
  }
}
