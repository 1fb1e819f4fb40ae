/**
 * The raw interaction log: one entry per send attempt, holding a snapshot of the request
 * configuration and either the normalised response or the error text.
 */
module Interaction {
  import opened Wrappers
  import opened Normalizer

  datatype GenerationConfig = GenerationConfig(temperature: real, topP: real, topK: int, maxOutputTokens: int)

  /** The request snapshot logged with every attempt; safety settings are kept by name. */
  datatype RequestBody = RequestBody(
    modelName: string,
    systemInstruction: string,
    generationConfig: GenerationConfig,
    safetySettings: map<string, string>)

  /** The logged body: the normalised response, or `str(e)` of the exception. */
  datatype LogBody = Record(record: Json) | ErrorText(message: string)

  datatype LogResponse = LogResponse(body: LogBody, success: bool)

  /** One entry; the timestamp is an opaque, already formatted string. */
  datatype LogEntry = LogEntry(timestamp: string, request: RequestBody, response: LogResponse)

  /** `success` is set exactly when the body is a normalised response. */
  predicate WellFormedEntry(e: LogEntry) {
    e.response.success <==> e.response.body.Record?
  }

  function SuccessEntry(timestamp: string, request: RequestBody, response: Response): (e: LogEntry)
    ensures WellFormedEntry(e) && e.response.success
    ensures e.timestamp == timestamp && e.request == request
    ensures e.response.body == Record(ResponseToDict(Some(response)))
    ensures e.response.body.record.JObject? && e.response.body.record.fields.Keys == RecordKeys
  {
    LogEntry(timestamp, request, LogResponse(Record(ResponseToDict(Some(response))), true))
  }

  function FailureEntry(timestamp: string, request: RequestBody, error: string): (e: LogEntry)
    ensures WellFormedEntry(e) && !e.response.success
    ensures e.timestamp == timestamp && e.request == request && e.response.body == ErrorText(error)
  {
    LogEntry(timestamp, request, LogResponse(ErrorText(error), false))
  }

  /**
   * `enumerate(reversed(raw_logs))` labelled `len(raw_logs) - i`: the log shown newest
   * first, each entry with its number.
   */
  function NewestFirst(logs: seq<LogEntry>): (r: seq<(nat, LogEntry)>)
    ensures |r| == |logs|
    ensures forall i :: 0 <= i < |r| ==> r[i] == (|logs| - i, logs[|logs| - 1 - i])
  {
    if logs == [] then []
    else
      var rest := NewestFirst(logs[..|logs| - 1]);
      [(|logs|, logs[|logs| - 1])] + rest
  }

  /** The entry appended as the p-th (from 0) is shown with number p + 1. */
  lemma NumberIsAppendPosition(logs: seq<LogEntry>, p: int)
    requires 0 <= p < |logs|
    ensures (p + 1, logs[p]) in NewestFirst(logs)
  {
    var r := NewestFirst(logs);
    assert r[|logs| - 1 - p] == (p + 1, logs[p]);
  }

  /** Appending an entry puts it on top with the next number; older entries keep theirs. */
  lemma {:induction false} AppendKeepsNumbers(logs: seq<LogEntry>, e: LogEntry)
    ensures NewestFirst(logs + [e]) == [(|logs| + 1, e)] + NewestFirst(logs)
  {
    assert (logs + [e])[..|logs|] == logs;
  }
}
