/**
 * DocumentProcessingService: the in-memory registry of jobs, the run of one job (staging the uploads,
 * locating and launching the worker, reading its output, reconciling its exit code), and the two
 * read-only lookups. The filesystem, the worker process and the clock are parameters: a Host says what
 * staging and launching do, a WorkerRun is what the worker wrote to standard output and its exit code.
 */
module Service {
  import opened Wrappers
  import opened Text
  import JavaLang
  import opened Paths
  import opened Model
  import opened Protocol
  import opened Locator

  const DefaultAgentPath: string := "../python_agent"
  const DefaultExecutable: string := "python3"
  const DefaultTempDirectory: string := "/tmp/docstyler"

  const DefaultTemplateName: string := "template.txt"
  const DefaultDraftName: string := "draft.txt"
  const StagedMessage: string := "📁 Файлы сохранены, запускаем Python агент..."

  const NotFoundPrefix: string := "❌ Process not found: "
  const NotCompletedPrefix: string := "❌ Process not completed yet. Status: "
  const NoResultMessage: string := "❌ No result file found"
  const ResultMissingPrefix: string := "❌ Result file not found: "

  /** An uploaded file, as far as the service looks at it: its original name, which may be null. */
  datatype Upload = Upload(originalFilename: Option<string>)

  /**
   * The host the job runs on: the working directory, which paths exist, and the message of the exception
   * (if any) thrown while staging the uploads or starting the worker process.
   */
  datatype Host = Host(
    userDir: string,
    present: string -> bool,
    stagingFailure: Option<string>,
    launchFailure: Option<string>)

  /** What the worker process did: the text of its standard output and its exit code. */
  datatype WorkerRun = WorkerRun(stdout: string, exitCode: int)

  /** The files the result lookup sees: which paths exist, and the bytes (or the read error) of each. */
  datatype FileStore = FileStore(present: string -> bool, read: string -> Result<seq<bv8>, string>)

  /** The name an upload is staged under: its original name, unless that is null or empty. */
  function StagedName(name: Option<string>, fallback: string): (r: string)
    ensures name.Some? && name.value != "" ==> r == name.value
    ensures name.None? || name.value == "" ==> r == fallback
  {
    match name
    case Some(n) => if n == "" then fallback else n
    case None => fallback
  }

  /** The record once both uploads are staged: progress 10 and the staged message. */
  function Staged(r: Record): (r': Record)
    ensures r'.progress == 10 && r'.message == Some(StagedMessage)
    ensures r' == r.(progress := 10, message := r'.message)
  {
    r.(progress := 10, message := Some(StagedMessage))
  }

  /** The command line the worker is started with. */
  function WorkerCommand(executable: string, agent: string, templatePath: string, draftPath: string, tempDir: string): seq<string> {
    [executable, agent, templatePath, draftPath, tempDir]
  }

  /**
   * The record at the end of one job run, from the record r it starts with. The run always ends
   * COMPLETED or ERROR, keeps the identity fields and keeps the record invariant. A failure before the
   * worker produced output ends in ERROR with the failure's message; a staging failure leaves the
   * progress as it was, a later one leaves it at 10.
   */
  function RunJob(r: Record, agentPath: string, host: Host, run: WorkerRun, now: Timestamp): (r': Record)
    ensures r'.status != Processing
    ensures SameIdentity(r, r')
    ensures WellFormed(r) ==> WellFormed(r')
    ensures host.stagingFailure.Some? ==>
      r'.status == Error && r'.progress == r.progress && r'.message == Some(FailurePrefix + host.stagingFailure.value)
    ensures host.stagingFailure.None? && Locate(agentPath, host.userDir, host.present).Failure? ==>
      r'.status == Error && r'.progress == 10
      && r'.message == Some(FailurePrefix + Locate(agentPath, host.userDir, host.present).error)
  {
    match host.stagingFailure
    case Some(cause) => Abort(r, cause)
    case None =>
      var staged := Staged(r);
      match Locate(agentPath, host.userDir, host.present)
      case Failure(e) => Abort(staged, e)
      case Success(_) =>
        match host.launchFailure
        case Some(cause) => Abort(staged, cause)
        case None => AfterWorker(staged, JavaLang.ReadLines(run.stdout), run.exitCode, now)
  }

  /**
   * getProcessResult's guards on a found record, in order: the job must be COMPLETED, must have a result
   * path, and the file at that path must exist; only then are its bytes read.
   */
  function ResultOf(rec: Record, store: FileStore): (r: Result<seq<bv8>, string>)
    ensures rec.status != Completed ==> r == Failure(NotCompletedPrefix + StatusName(rec.status))
    ensures rec.status == Completed && rec.resultFilePath.None? ==> r == Failure(NoResultMessage)
    ensures (rec.status == Completed && rec.resultFilePath.Some? && '\0' in rec.resultFilePath.value) ==>
      r == Failure(NulMessage(rec.resultFilePath.value))
    ensures (rec.status == Completed && rec.resultFilePath.Some? && '\0' !in rec.resultFilePath.value
             && !store.present(PathsGet(rec.resultFilePath.value, ""))) ==>
      r == Failure(ResultMissingPrefix + PathsGet(rec.resultFilePath.value, ""))
    ensures r.Success? <==>
      rec.status == Completed && rec.resultFilePath.Some? && '\0' !in rec.resultFilePath.value
      && store.present(PathsGet(rec.resultFilePath.value, ""))
      && store.read(PathsGet(rec.resultFilePath.value, "")).Success?
    ensures r.Success? ==> r.value == store.read(PathsGet(rec.resultFilePath.value, "")).value
  {
    if rec.status != Completed then Failure(NotCompletedPrefix + StatusName(rec.status))
    else if rec.resultFilePath.None? then Failure(NoResultMessage)
    else if '\0' in rec.resultFilePath.value then Failure(NulMessage(rec.resultFilePath.value))
    else
      var path := PathsGet(rec.resultFilePath.value, "");
      if !store.present(path) then Failure(ResultMissingPrefix + path)
      else store.read(path)
  }

  class DocumentProcessingService {
    /** The jobs, by process id. */
    var statusCache: map<string, ProcessStatus>
    const pythonAgentPath: string
    const pythonExecutable: string
    const tempDirectory: string

    /**
     * Every job is filed under its own process id and its record keeps the record invariant;
     * no two ids share one record object.
     */
    ghost predicate Valid()
      reads this, statusCache.Values
    {
      && (forall k :: k in statusCache ==>
            statusCache[k].processId == Some(k) && WellFormed(statusCache[k].Snapshot()))
      && (forall k, k' :: k in statusCache && k' in statusCache && k != k' ==> statusCache[k] != statusCache[k'])
    }

    /** A service with the given configuration and no jobs. */
    constructor (agentPath: string, executable: string, tempDir: string)
      ensures statusCache == map[]
      ensures pythonAgentPath == agentPath && pythonExecutable == executable && tempDirectory == tempDir
      ensures Valid()
    {
      statusCache := map[];
      pythonAgentPath := agentPath;
      pythonExecutable := executable;
      tempDirectory := tempDir;
    }

    /**
     * Files a new job for userId under the fresh id freshId (the random UUID) and returns that id.
     * The new record is the accepted one; every other job is kept as it was. Running the job is
     * ProcessDocumentsAsync, which the caller invokes afterwards.
     */
    method StartDocumentProcessing(userId: string, freshId: string, now: Timestamp) returns (processId: string)
      requires Valid()
      modifies this
      ensures processId == freshId
      ensures processId in statusCache && fresh(statusCache[processId])
      ensures statusCache == old(statusCache)[processId := statusCache[processId]]
      ensures statusCache[processId].Snapshot() == NewRecord(processId, userId, now)
      ensures forall k :: k in statusCache && k != processId ==> statusCache[k].Snapshot() == old(statusCache[k].Snapshot())
      ensures Valid()
    {
      processId := freshId;
      var status := new ProcessStatus(processId, userId, now);
      statusCache := statusCache[processId := status];
    }

    /** The catch block of the job run: the job ends in ERROR with the exception's message. */
    method Catch(status: ProcessStatus, cause: string)
      modifies status
      ensures status.Snapshot() == Abort(old(status.Snapshot()), cause)
    {
      status.SetStatus(Error);
      status.SetMessage(Some(FailurePrefix + cause));
    }

    /**
     * The command line a job run starts the worker with, when staging succeeded and the worker script
     * was found: the executable, the script's absolute path, the two staged files and the job's directory.
     */
    function CommandFor(processId: string, template: Upload, draft: Upload, host: Host): (cmd: Option<seq<string>>)
      ensures cmd.Some? <==> host.stagingFailure.None? && Locate(pythonAgentPath, host.userDir, host.present).Success?
      ensures cmd.Some? ==>
        && |cmd.value| == 5 && cmd.value[0] == pythonExecutable
        && cmd.value[1] == AbsolutePath(Locate(pythonAgentPath, host.userDir, host.present).value, host.userDir)
        && cmd.value[4] == PathsGet(tempDirectory, processId)
      ensures cmd.Some? && IsAbsolute(tempDirectory) ==>
        IsAbsolute(cmd.value[2]) && IsAbsolute(cmd.value[3]) && IsAbsolute(cmd.value[4])
    {
      if host.stagingFailure.None? && Locate(pythonAgentPath, host.userDir, host.present).Success? then
        var tempDir := PathsGet(tempDirectory, processId);
        Some(WorkerCommand(pythonExecutable,
                           AbsolutePath(Locate(pythonAgentPath, host.userDir, host.present).value, host.userDir),
                           PathResolve(tempDir, StagedName(template.originalFilename, DefaultTemplateName)),
                           PathResolve(tempDir, StagedName(draft.originalFilename, DefaultDraftName)),
                           tempDir))
      else None
    }

    /**
     * One job run, on the record filed under processId: stage the uploads, locate and start the worker,
     * read its output line by line, reconcile its exit code; any exception ends the job in ERROR.
     * Returns the worker's command line when the run got as far as building it. Only that job's record
     * changes, and the service's invariant is kept.
     */
    method ProcessDocumentsAsync(processId: string, template: Upload, draft: Upload, host: Host, run: WorkerRun, now: Timestamp)
      returns (command: Option<seq<string>>)
      requires Valid() && processId in statusCache
      modifies statusCache[processId]
      ensures statusCache[processId].Snapshot() ==
        RunJob(old(statusCache[processId].Snapshot()), pythonAgentPath, host, run, now)
      ensures command == CommandFor(processId, template, draft, host)
      ensures forall k :: k in statusCache && k != processId ==> statusCache[k].Snapshot() == old(statusCache[k].Snapshot())
      ensures Valid()
    {
      var status := statusCache[processId];
      command := RunOn(status, processId, template, draft, host, run, now);
    }

    /** The body of the job run, on the job's record status. */
    method RunOn(status: ProcessStatus, processId: string, template: Upload, draft: Upload, host: Host, run: WorkerRun, now: Timestamp)
      returns (command: Option<seq<string>>)
      modifies status
      ensures status.Snapshot() == RunJob(old(status.Snapshot()), pythonAgentPath, host, run, now)
      ensures command == CommandFor(processId, template, draft, host)
    {
      command := None;
      if host.stagingFailure.Some? {
        Catch(status, host.stagingFailure.value);
        return;
      }
      var tempDir := PathsGet(tempDirectory, processId);
      var templateName := StagedName(template.originalFilename, DefaultTemplateName);
      var draftName := StagedName(draft.originalFilename, DefaultDraftName);
      var templatePath := PathResolve(tempDir, templateName);
      var draftPath := PathResolve(tempDir, draftName);
      status.SetProgress(10);
      status.SetMessage(Some(StagedMessage));

      var agent := FindPythonAgentFile(host);
      if agent.Failure? {
        Catch(status, agent.error);
        return;
      }
      command := Some(WorkerCommand(pythonExecutable, AbsolutePath(agent.value, host.userDir), templatePath, draftPath, tempDir));
      if host.launchFailure.Some? {
        Catch(status, host.launchFailure.value);
        return;
      }

      FollowWorker(status, run.stdout, run.exitCode, now);
    }

    /**
     * The part of the job run after the worker has started: read its standard output line by line,
     * updating the record as the lines say (a malformed PROGRESS line ends the job in ERROR), then
     * reconcile the exit code with what was read.
     */
    method FollowWorker(status: ProcessStatus, stdout: string, exitCode: int, now: Timestamp)
      modifies status
      ensures status.Snapshot() == AfterWorker(old(status.Snapshot()), JavaLang.ReadLines(stdout), exitCode, now)
    {
      var lines := JavaLang.ReadLines(stdout);
      ghost var staged := status.Snapshot();
      var i := 0;
      while i < |lines|
        invariant 0 <= i <= |lines|
        invariant Interpret(staged, lines, now) == Interpret(status.Snapshot(), lines[i..], now)
      {
        var line := lines[i];
        assert lines[i..][0] == line && lines[i..][1..] == lines[i + 1..];
        if StartsWith(line, ProgressPrefix) {
          var parsed := ProgressValue(line);
          if parsed.Failure? {
            Catch(status, parsed.error);
            return;
          }
          status.SetProgress(parsed.value);
        } else if StartsWith(line, MessagePrefix) {
          status.SetMessage(Some(line[8..]));
        } else if StartsWith(line, ResultPrefix) {
          status.SetResultFilePath(Some(line[7..]));
          status.SetStatus(Completed);
          status.SetProgress(100);
          status.SetEndTime(Some(now));
          status.SetMessage(Some(ResultMessage));
        }
        i := i + 1;
      }

      if exitCode != 0 && status.status != Completed {
        status.SetStatus(Error);
        status.SetMessage(Some(ExitFailurePrefix + JavaLang.ToString(exitCode)));
      } else if status.status == Completed {
      } else {
        status.SetStatus(Completed);
        status.SetProgress(100);
        status.SetMessage(Some(FallbackMessage));
        status.SetEndTime(Some(now));
      }
    }

    /**
     * findPythonAgentFile: probes the configured location, then (for a relative one) the fallbacks in
     * order, returning the first that exists, or fails with the not-found message.
     */
    method FindPythonAgentFile(host: Host) returns (r: Result<string, string>)
      ensures r == Locate(pythonAgentPath, host.userDir, host.present)
    {
      var agentFile := Primary(pythonAgentPath);
      if host.present(agentFile) {
        return Success(agentFile);
      }
      if !IsAbsolute(agentFile) {
        var candidates := Candidates(pythonAgentPath, host.userDir);
        var found := Probe(candidates, host.present);
        if found.Some? {
          return Success(candidates[found.value]);
        }
      }
      return Failure(NotFoundMessage(pythonAgentPath, host.userDir));
    }

    /** The probe loop over the fallbacks: the index of the first one that exists, if any. */
    method Probe(candidates: seq<string>, present: string -> bool) returns (r: Option<nat>)
      ensures r == FirstExisting(candidates, present)
    {
      var i := 0;
      while i < |candidates|
        invariant 0 <= i <= |candidates|
        invariant forall j :: 0 <= j < i ==> !present(candidates[j])
      {
        if present(candidates[i]) {
          var first := FirstExisting(candidates, present);
          assert first == Some(i);
          return Some(i);
        }
        i := i + 1;
      }
      return None;
    }

    /** getProcessStatus: the record filed under processId, or the not-found failure. */
    function GetProcessStatus(processId: string): (r: Result<ProcessStatus, string>)
      reads this
      ensures r.Success? <==> processId in statusCache
      ensures r.Success? ==> r.value == statusCache[processId]
      ensures r.Failure? ==> r.error == NotFoundPrefix + processId
    {
      if processId in statusCache then Success(statusCache[processId]) else Failure(NotFoundPrefix + processId)
    }

    /**
     * getProcessResult: the not-found failure for an unknown id; otherwise the guards of ResultOf on the
     * job's current record.
     */
    function GetProcessResult(processId: string, store: FileStore): (r: Result<seq<bv8>, string>)
      reads this, statusCache.Values
      ensures processId !in statusCache ==> r == Failure(NotFoundPrefix + processId)
      ensures processId in statusCache ==> r == ResultOf(statusCache[processId].Snapshot(), store)
    {
      match GetProcessStatus(processId)
      case Failure(e) => Failure(e)
      case Success(status) => ResultOf(status.Snapshot(), store)
    }
  }
}
