/**
 * The job record: ProcessStatus, a mutable object whose generated (@Data) setters each overwrite
 * one field in place. A Record is a snapshot of all its fields, used to state what the job-processing
 * code does to the object.
 */
module Model {
  import opened Wrappers

  /** A point in time; the clock is read by the caller and passed in. */
  type Timestamp = int

  /** The values the status string takes: "PROCESSING", "COMPLETED" and "ERROR". */
  datatype JobStatus = Processing | Completed | Error

  /** The text of a status value, as the status string holds it. */
  function StatusName(s: JobStatus): string {
    match s
    case Processing => "PROCESSING"
    case Completed => "COMPLETED"
    case Error => "ERROR"
  }

  /** A snapshot of every field of a ProcessStatus object; None stands for null. */
  datatype Record = Record(
    id: Option<string>,
    processId: Option<string>,
    status: JobStatus,
    progress: int,
    message: Option<string>,
    userId: Option<string>,
    startTime: Option<Timestamp>,
    endTime: Option<Timestamp>,
    resultFilePath: Option<string>)

  const AcceptedMessage: string := "Документы приняты в обработку"

  /**
   * The invariant every operation of the model keeps: the record was constructed (it has a start time);
   * a job still processing has neither an end time nor a result path; a result path only comes with an end time.
   */
  predicate WellFormed(r: Record) {
    && r.startTime.Some?
    && (r.status == Processing ==> r.endTime.None? && r.resultFilePath.None?)
    && (r.resultFilePath.Some? ==> r.endTime.Some?)
  }

  /** The fields nothing after construction writes: id, processId, userId and startTime. */
  predicate SameIdentity(a: Record, b: Record) {
    a.id == b.id && a.processId == b.processId && a.userId == b.userId && a.startTime == b.startTime
  }

  /** What new ProcessStatus() holds when constructed at time now. */
  function BlankRecord(now: Timestamp): (r: Record)
    ensures WellFormed(r)
  {
    Record(None, None, Processing, 0, None, None, Some(now), None, None)
  }

  /** What new ProcessStatus(processId, userId) holds when constructed at time now. */
  function NewRecord(processId: string, userId: string, now: Timestamp): (r: Record)
    ensures WellFormed(r)
  {
    BlankRecord(now).(processId := Some(processId), userId := Some(userId), message := Some(AcceptedMessage))
  }

  class ProcessStatus {
    var id: Option<string>
    var processId: Option<string>
    var status: JobStatus
    var progress: int
    var message: Option<string>
    var userId: Option<string>
    var startTime: Option<Timestamp>
    var endTime: Option<Timestamp>
    var resultFilePath: Option<string>

    /** The current values of all fields. */
    function Snapshot(): Record
      reads this
    {
      Record(id, processId, status, progress, message, userId, startTime, endTime, resultFilePath)
    }

    /** new ProcessStatus(): status "PROCESSING", progress 0, start time now, every other field null. */
    constructor Blank(now: Timestamp)
      ensures status == Processing && progress == 0 && startTime == Some(now)
      ensures id.None? && processId.None? && message.None? && userId.None?
      ensures endTime.None? && resultFilePath.None?
      ensures Snapshot() == BlankRecord(now)
    {
      id, processId, message, userId := None, None, None, None;
      endTime, resultFilePath := None, None;
      startTime := Some(now);
      status := Processing;
      progress := 0;
    }

    /**
     * new ProcessStatus(processId, userId): the blank record, plus the two identifiers and the
     * acceptance message.
     */
    constructor (processId: string, userId: string, now: Timestamp)
      ensures status == Processing && progress == 0 && startTime == Some(now)
      ensures this.processId == Some(processId) && this.userId == Some(userId)
      ensures message == Some(AcceptedMessage)
      ensures id.None? && endTime.None? && resultFilePath.None?
      ensures Snapshot() == NewRecord(processId, userId, now)
    {
      id, endTime, resultFilePath := None, None, None;
      startTime := Some(now);
      status := Processing;
      progress := 0;
      this.processId := Some(processId);
      this.userId := Some(userId);
      message := Some(AcceptedMessage);
    }

    method SetId(v: Option<string>)
      modifies this
      ensures Snapshot() == old(Snapshot()).(id := v)
    {
      id := v;
    }

    method SetProcessId(v: Option<string>)
      modifies this
      ensures Snapshot() == old(Snapshot()).(processId := v)
    {
      processId := v;
    }

    method SetStatus(v: JobStatus)
      modifies this
      ensures Snapshot() == old(Snapshot()).(status := v)
    {
      status := v;
    }

    method SetProgress(v: int)
      modifies this
      ensures Snapshot() == old(Snapshot()).(progress := v)
    {
      progress := v;
    }

    method SetMessage(v: Option<string>)
      modifies this
      ensures Snapshot() == old(Snapshot()).(message := v)
    {
      message := v;
    }

    method SetUserId(v: Option<string>)
      modifies this
      ensures Snapshot() == old(Snapshot()).(userId := v)
    {
      userId := v;
    }

    method SetStartTime(v: Option<Timestamp>)
      modifies this
      ensures Snapshot() == old(Snapshot()).(startTime := v)
    {
      startTime := v;
    }

    method SetEndTime(v: Option<Timestamp>)
      modifies this
      ensures Snapshot() == old(Snapshot()).(endTime := v)
    {
      endTime := v;
    }

    method SetResultFilePath(v: Option<string>)
      modifies this
      ensures Snapshot() == old(Snapshot()).(resultFilePath := v)
    {
      resultFilePath := v;
    }
  }
}
