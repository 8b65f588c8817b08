/**
 * DocumentController: the owner default of a submission, the rotating "still working" message of a
 * status poll, and the mapping of a result fetch onto a download or a 404. HTTP wiring is not modelled;
 * a response is a value.
 */
module Controller {
  import opened Wrappers
  import opened Text
  import JavaLang
  import opened Model
  import opened Service

  const AnonymousUser: string := "anonymous"
  const DefaultDownloadName: string := "styled_document.txt"
  const EmptyDownloadName: string := "result.txt"
  const ErrorPrefix: string := "Error: "

  /** How long, in milliseconds, each rotating message is shown. */
  const RotationPeriod: int := 5000

  /** The messages shown, in turn, while a job is processing. */
  const FunnyMessages: seq<string> := [
    "УткаИИ усердно перелопачивает ваш текст...",
    "Ищем смысл между строк...",
    "Нейросеть пьёт кофе и думает...",
    "Ускоряем мыслительный процесс...",
    "Магия стилизации в процессе...",
    "Ищем потерянные запятые...",
    "Добавляем немного волшебства..."
  ]

  /** The owner of a submission: the X-User-Id header when present, "anonymous" otherwise. */
  function EffectiveUser(header: Option<string>): (user: string)
    ensures header.None? ==> user == AnonymousUser
    ensures header.Some? ==> user == header.value
  {
    match header
    case Some(u) => u
    case None => AnonymousUser
  }

  /**
   * The message index as the code computes it from a long clock reading: the quotient by 5000 is
   * narrowed to int before the remainder is taken, so for readings of 5000 * 2^31 ms and more the
   * quotient wraps and the index can be negative.
   */
  function RotationIndexAsWritten(millis: int): (k: int)
    requires JavaLang.IsLong(millis)
    ensures -|FunnyMessages| < k < |FunnyMessages|
    ensures 0 <= millis < RotationPeriod * 0x8000_0000 ==> 0 <= k < |FunnyMessages|
  {
    JavaLang.Rem(JavaLang.ToInt(JavaLang.Div(millis, RotationPeriod)), |FunnyMessages|)
  }

  /** At 10737418240000 ms (5000 * 2^31, in the year 2310) the code's index is -2, outside the list. */
  lemma RotationIndexWrapsNegative()
    ensures JavaLang.IsLong(10737418240000)
    ensures RotationIndexAsWritten(10737418240000) == -2
  {
    assert JavaLang.Div(10737418240000, RotationPeriod) == 0x8000_0000;
    assert JavaLang.ToInt(0x8000_0000) == -0x8000_0000;
    assert JavaLang.Div(-0x8000_0000, 7) == -306783378;
  }

  /**
   * The message index as intended: the number of whole periods since the epoch, taken modulo the
   * number of messages (floor modulo, so any clock reading gives a valid index). It agrees with the
   * code's index for every reading before the wrap.
   */
  function RotationIndex(millis: int): (k: int)
    ensures 0 <= k < |FunnyMessages|
    ensures 0 <= millis < RotationPeriod * 0x8000_0000 ==> k == RotationIndexAsWritten(millis)
  {
    JavaLang.Div(millis, RotationPeriod) % |FunnyMessages|
  }

  /**
   * The text after the last '/' of p, all of p when there is none: the longest suffix of p
   * without '/'. It is empty exactly when p is empty or ends in '/'.
   */
  function LastSegment(p: string): (segment: string)
    ensures |segment| <= |p| && p[|p| - |segment|..] == segment
    ensures forall i :: 0 <= i < |segment| ==> segment[i] != '/'
    ensures |segment| == |p| || p[|p| - |segment| - 1] == '/'
    ensures segment == [] <==> p == [] || p[|p| - 1] == '/'
  {
    var k := JavaLang.LastIndexOf(p, '/');
    p[k + 1..]
  }

  /**
   * The download name for a result path: "styled_document.txt" without a path; otherwise the last
   * segment of the path, or "result.txt" when that segment is empty (the path is empty or ends in '/').
   */
  function DownloadFilename(resultPath: Option<string>): (name: string)
    ensures name != []
    ensures resultPath.None? ==> name == DefaultDownloadName
    ensures resultPath.Some? && LastSegment(resultPath.value) == [] ==> name == EmptyDownloadName
    ensures resultPath.Some? && LastSegment(resultPath.value) != [] ==> name == LastSegment(resultPath.value)
  {
    match resultPath
    case None => DefaultDownloadName
    case Some(p) =>
      var segment := LastSegment(p);
      if segment == [] then EmptyDownloadName else segment
  }

  /** What getResult answers: the file as a download, or a 404 whose body is the failure's message. */
  datatype Response =
    | Download(filename: string, contentLength: int, body: seq<bv8>)
    | NotFound(message: string)

  class DocumentController {
    const processingService: DocumentProcessingService

    constructor (service: DocumentProcessingService)
      ensures processingService == service
    {
      processingService := service;
    }

    /**
     * processDocuments: files a job for the header's user (or "anonymous") under the fresh id and
     * answers with its record, which is the freshly accepted one.
     */
    method ProcessDocuments(userHeader: Option<string>, freshId: string, now: Timestamp) returns (status: ProcessStatus)
      requires processingService.Valid()
      modifies processingService
      ensures fresh(status)
      ensures processingService.statusCache == old(processingService.statusCache)[freshId := status]
      ensures status.Snapshot() == NewRecord(freshId, EffectiveUser(userHeader), now)
      ensures status.userId == Some(EffectiveUser(userHeader))
      ensures processingService.Valid()
    {
      var user := EffectiveUser(userHeader);
      var processId := processingService.StartDocumentProcessing(user, freshId, now);
      var found := processingService.GetProcessStatus(processId);
      status := found.value;
    }

    /**
     * getStatus: the job's record. While the job is processing, its message is first replaced by the
     * rotating message at the index the code computes from the clock reading millis (a Java long). That
     * index is negative for some readings (RotationIndexWrapsNegative); then the list lookup throws
     * ArrayIndexOutOfBoundsException, the record is left as it was and the poll fails with that
     * exception's message. An unknown id fails.
     */
    method GetStatus(processId: string, millis: int) returns (r: Result<ProcessStatus, string>)
      requires processingService.Valid()
      requires JavaLang.IsLong(millis)
      modifies processingService.statusCache.Values
      ensures processingService.statusCache == old(processingService.statusCache)
      ensures processId !in processingService.statusCache ==> r == Failure(Service.NotFoundPrefix + processId)
      ensures processId in processingService.statusCache ==>
        var st := processingService.statusCache[processId];
        var k := RotationIndexAsWritten(millis);
        && (old(st.status) != Processing ==> r == Success(st) && st.Snapshot() == old(st.Snapshot()))
        && (old(st.status) == Processing && 0 <= k ==>
              r == Success(st) && st.Snapshot() == old(st.Snapshot()).(message := Some(FunnyMessages[k])))
        && (old(st.status) == Processing && k < 0 ==>
              r == Failure(JavaLang.IndexOutOfBoundsMessage(k, |FunnyMessages|))
              && st.Snapshot() == old(st.Snapshot()))
      ensures forall k :: k in processingService.statusCache && k != processId ==>
        processingService.statusCache[k].Snapshot() == old(processingService.statusCache[k].Snapshot())
      ensures processingService.Valid()
    {
      r := processingService.GetProcessStatus(processId);
      if r.Success? {
        var status := r.value;
        if status.status == Processing {
          var index := RotationIndexAsWritten(millis);
          if index < 0 {
            r := Failure(JavaLang.IndexOutOfBoundsMessage(index, |FunnyMessages|));
          } else {
            status.SetMessage(Some(FunnyMessages[index]));
          }
        }
      }
    }

    /**
     * getResult: the result bytes as a download named after the result path, with the content length
     * equal to the number of bytes; any failure of the fetch becomes a 404 carrying "Error: " and the
     * failure's message.
     */
    function GetResult(processId: string, store: FileStore): (resp: Response)
      reads processingService, processingService.statusCache.Values
      ensures resp.Download? <==> processingService.GetProcessResult(processId, store).Success?
      ensures resp.Download? ==>
        && resp.body == processingService.GetProcessResult(processId, store).value
        && resp.contentLength == |resp.body|
        && processId in processingService.statusCache
        && resp.filename == DownloadFilename(processingService.statusCache[processId].resultFilePath)
      ensures resp.NotFound? ==>
        resp.message == ErrorPrefix + processingService.GetProcessResult(processId, store).error
    {
      match processingService.GetProcessResult(processId, store)
      case Failure(e) => NotFound(ErrorPrefix + e)
      case Success(bytes) =>
        var status := processingService.statusCache[processId];
        Download(DownloadFilename(status.resultFilePath), |bytes|, bytes)
    }
  }
}
