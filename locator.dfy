/**
 * Where the backend looks for the worker script (findPythonAgentFile): the configured location first,
 * then, for a relative configured path only, a fixed list of five fallbacks probed in order.
 * File existence is a parameter. The imperative probe loop is
 * Service.DocumentProcessingService.FindPythonAgentFile, proved equal to Locate.
 */
module Locator {
  import opened Wrappers
  import opened Text
  import opened Paths

  const ScriptName: string := "main.py"
  const SiblingScript: string := "python_agent/main.py"
  const UpOneScript: string := "../python_agent/main.py"
  const UpTwoScript: string := "../../python_agent/main.py"
  const DeveloperScript: string := "D:/Programming/UTZAI/python_agent/main.py"

  /** new File(agentPath, "main.py"): the configured location. */
  function Primary(agentPath: string): string {
    FileOf(agentPath, ScriptName)
  }

  /** new File(".").getAbsoluteFile(): the working directory followed by "/." (nothing removes the dot). */
  function BackendDir(userDir: string): string {
    Normalize(AbsolutePath(".", userDir))
  }

  /**
   * The five fallback locations, in the order they are probed. The last three are new File(s) for
   * strings already in normal form, so their paths are the strings themselves (UpOneNormal,
   * UpTwoNormal, DeveloperNormal).
   */
  function Candidates(agentPath: string, userDir: string): (cs: seq<string>)
    ensures |cs| == 5
  {
    var backendDir := BackendDir(userDir);
    [ FileUnder(Some(backendDir), agentPath + "/" + ScriptName),
      FileUnder(ParentOf(backendDir), SiblingScript),
      UpOneScript,
      UpTwoScript,
      DeveloperScript ]
  }

  /** The message of the exception thrown when no location exists. */
  function NotFoundMessage(agentPath: string, userDir: string): string {
    "❌ Python agent not found. Searched paths:\n1. " + AbsolutePath(Primary(agentPath), userDir)
    + "\n2. From backend dir: " + AbsolutePath(".", userDir)
  }

  /** The index of the first path of paths that exists, if any. */
  function FirstExisting(paths: seq<string>, present: string -> bool): (r: Option<nat>)
    ensures r.Some? ==> r.value < |paths| && present(paths[r.value])
    ensures r.Some? ==> forall j :: 0 <= j < r.value ==> !present(paths[j])
    ensures r.None? ==> forall j :: 0 <= j < |paths| ==> !present(paths[j])
    decreases |paths|
  {
    if paths == [] then None
    else if present(paths[0]) then Some(0)
    else match FirstExisting(paths[1..], present)
      case None => None
      case Some(i) => Some(i + 1)
  }

  /**
   * The located script: the configured location when it exists; otherwise, only when that location is
   * relative, the first fallback that exists; otherwise the not-found failure. An absolute configured
   * location that does not exist fails without any fallback being considered.
   */
  function Locate(agentPath: string, userDir: string, present: string -> bool): (r: Result<string, string>)
    ensures present(Primary(agentPath)) ==> r == Success(Primary(agentPath))
    ensures !present(Primary(agentPath)) && IsAbsolute(Primary(agentPath)) ==>
      r == Failure(NotFoundMessage(agentPath, userDir))
    ensures !present(Primary(agentPath)) && !IsAbsolute(Primary(agentPath)) ==>
      (r.Success? <==> exists i :: 0 <= i < 5 && present(Candidates(agentPath, userDir)[i]))
    ensures !present(Primary(agentPath)) && r.Success? ==>
      exists i :: 0 <= i < 5 && r.value == Candidates(agentPath, userDir)[i]
        && present(r.value) && forall j :: 0 <= j < i ==> !present(Candidates(agentPath, userDir)[j])
    ensures r.Failure? ==> r.error == NotFoundMessage(agentPath, userDir)
  {
    var primary := Primary(agentPath);
    if present(primary) then Success(primary)
    else if IsAbsolute(primary) then Failure(NotFoundMessage(agentPath, userDir))
    else
      var cs := Candidates(agentPath, userDir);
      match FirstExisting(cs, present)
      case Some(i) => Success(cs[i])
      case None => Failure(NotFoundMessage(agentPath, userDir))
  }

  /**
   * The second fallback is not in the parent of the backend directory: the absolute form of "." keeps its
   * final ".", whose parent is the backend directory itself, so the second fallback is
   * "<working directory>/python_agent/main.py".
   */
  lemma SecondCandidateUnderWorkingDir(agentPath: string, userDir: string)
    requires IsAbsolute(userDir) && userDir != "/" && Normalize(userDir) == userDir
    ensures Candidates(agentPath, userDir)[1] == userDir + "/" + SiblingScript
  {
    SecondUnder(userDir);
  }

  lemma SecondUnder(userDir: string)
    requires IsAbsolute(userDir) && userDir != "/" && Normalize(userDir) == userDir
    ensures FileUnder(ParentOf(BackendDir(userDir)), SiblingScript) == userDir + "/" + SiblingScript
  {
    ParentOfDotted(userDir);
    SiblingUnder(userDir);
  }

  lemma SiblingUnder(dir: string)
    requires IsAbsolute(dir) && dir != "/"
    ensures FileUnder(Some(dir), SiblingScript) == dir + "/" + SiblingScript
  {
    SiblingNormal();
    assert SiblingScript[0] != '/';
  }

  /** A path with no two '/' in a row that does not end in '/' is already in normal form. */
  lemma NoDoubleSlashNormal(s: string)
    requires s != [] && s[|s| - 1] != '/'
    requires forall i :: 0 <= i < |s| - 1 ==> !(s[i] == '/' && s[i + 1] == '/')
    ensures Normalize(s) == s
  {
    CollapseIdentity(s);
  }

  /** The three literal fallbacks are in the normal form java.io.File keeps paths in. */
  lemma UpOneNormal()
    ensures Normalize(UpOneScript) == UpOneScript
  {
    NoDoubleSlashNormal(UpOneScript);
  }

  lemma UpTwoNormal()
    ensures Normalize(UpTwoScript) == UpTwoScript
  {
    NoDoubleSlashNormal(UpTwoScript);
  }

  lemma DeveloperNormal()
    ensures Normalize(DeveloperScript) == DeveloperScript
  {
    NoDoubleSlashNormal(DeveloperScript);
  }

  lemma SiblingNormal()
    ensures Normalize(SiblingScript) == SiblingScript
  {
    assert forall i :: 0 <= i < |SiblingScript| - 1 ==> !(SiblingScript[i] == '/' && SiblingScript[i + 1] == '/');
    CollapseIdentity(SiblingScript);
  }

  /** The parent of the absolute form of "." is the working directory itself. */
  lemma ParentOfDotted(userDir: string)
    requires IsAbsolute(userDir) && userDir != "/" && Normalize(userDir) == userDir
    ensures ParentOf(BackendDir(userDir)) == Some(userDir)
  {
    var dotted := userDir + "/.";
    assert AbsolutePath(".", userDir) == dotted;
    NormalizeDotted(userDir);
    assert BackendDir(userDir) == dotted;
    assert dotted[..|dotted| - 1] == userDir + "/";
    assert JavaLang.LastIndexOf(userDir + "/", '/') == |userDir|;
    assert JavaLang.LastIndexOf(dotted, '/') == |userDir|;
    assert dotted[..|userDir|] == userDir;
  }

  /** Collapsing a string with no two '/' in a row changes nothing. */
  lemma {:induction false} CollapseIdentity(s: string)
    requires forall i :: 0 <= i < |s| - 1 ==> !(s[i] == '/' && s[i + 1] == '/')
    ensures CollapseSlashes(s) == s
    decreases |s|
  {
    if |s| > 1 {
      CollapseIdentity(s[1..]);
      assert !(s[0] == '/' && s[1] == '/');
      assert s == [s[0]] + s[1..];
    }
  }

  /** A normalised absolute directory with "/." appended is still normalised. */
  lemma NormalizeDotted(d: string)
    requires IsAbsolute(d) && d != "/" && Normalize(d) == d
    ensures Normalize(d + "/.") == d + "/."
  {
    NormalizedEnd(d);
    CollapseAppend(d, "/.");
    assert CollapseSlashes(d) == d;
  }

  /** Collapsing d + t, where d does not end in '/' and t = "/.", collapses d and keeps t. */
  lemma {:induction false} CollapseAppend(d: string, t: string)
    requires t == "/."
    requires d != [] && d[|d| - 1] != '/'
    ensures CollapseSlashes(d + t) == CollapseSlashes(d) + t
    decreases |d|
  {
    if |d| == 1 {
      assert d + t == [d[0], '/', '.'];
      assert CollapseSlashes(['/', '.']) == ['/', '.'];
    } else {
      assert (d + t)[1..] == d[1..] + t;
      CollapseAppend(d[1..], t);
    }
  }

  /** A normalised path other than "/" does not end in '/'. */
  lemma NormalizedEnd(d: string)
    requires d != "/" && d != [] && Normalize(d) == d
    ensures d[|d| - 1] != '/'
  {
    var c := CollapseSlashes(d);
    assert c == d;
  }
}
