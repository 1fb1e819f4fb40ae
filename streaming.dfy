/**
 * The reply of the remote generation client, abstracted: the network call itself is not
 * modelled, only the values it can hand back or the error it can raise.
 */
module Streaming {
  import opened Wrappers
  import opened Normalizer

  /** One step of a streamed reply: a chunk with its text, or an exception raised mid-stream. */
  datatype ChunkEvent = Chunk(text: string) | Raise(error: string)

  /**
   * What `send_message` gives back: it raises at once, or returns a stream of chunks
   * (`stream=True`), or returns a single response whose `.text` may itself raise.
   * `result` is the final response object that is normalised for the log.
   */
  datatype Reply =
    | SendRaised(error: string)
    | Streamed(events: seq<ChunkEvent>, result: Response)
    | Whole(text: Result<string, string>, result: Response)

  datatype StreamOutcome = Completed(text: string) | Interrupted(error: string, partial: string)

  /** The in-order concatenation of the chunk texts; raised events contribute nothing. */
  function Joined(events: seq<ChunkEvent>): string {
    if events == [] then ""
    else Joined(events[..|events| - 1]) + (if events[|events| - 1].Chunk? then events[|events| - 1].text else "")
  }

  /** The position of the first raised event, if any. */
  function FirstRaise(events: seq<ChunkEvent>): (r: Option<nat>)
    ensures r.None? <==> forall j :: 0 <= j < |events| ==> events[j].Chunk?
    ensures r.Some? ==> r.value < |events| && events[r.value].Raise? &&
                        forall j :: 0 <= j < r.value ==> events[j].Chunk?
  {
    if events == [] then None
    else if events[0].Raise? then Some(0)
    else
      var rest := FirstRaise(events[1..]);
      assert forall j :: 1 <= j < |events| ==> events[j] == events[1..][j - 1];
      if rest.Some? then Some(rest.value + 1) else None
  }

  /**
   * The result of consuming a stream: the joined text when every chunk arrives, otherwise
   * the first error, with the text accumulated before it.
   */
  function StreamOutcomeOf(events: seq<ChunkEvent>): StreamOutcome {
    match FirstRaise(events)
    case None => Completed(Joined(events))
    case Some(k) => Interrupted(events[k].error, Joined(events[..k]))
  }

  lemma {:induction false} JoinedAppend(a: seq<ChunkEvent>, b: seq<ChunkEvent>)
    ensures Joined(a + b) == Joined(a) + Joined(b)
  {
    if b == [] {
      assert a + b == a;
    } else {
      var b' := b[..|b| - 1];
      assert (a + b)[..|a + b| - 1] == a + b';
      JoinedAppend(a, b');
    }
  }

  /** An empty chunk leaves the aggregated text unchanged, wherever it occurs. */
  lemma EmptyChunkIgnored(a: seq<ChunkEvent>, b: seq<ChunkEvent>)
    ensures Joined(a + [Chunk("")] + b) == Joined(a + b)
  {
    JoinedAppend(a + [Chunk("")], b);
    JoinedAppend(a, b);
    assert (a + [Chunk("")])[..|a|] == a;
  }

  /**
   * The streaming loop: `full_response_text += chunk.text` for every chunk with a
   * non-empty text, stopping at the first exception.
   */
  method AggregateStream(events: seq<ChunkEvent>) returns (outcome: StreamOutcome)
    ensures outcome == StreamOutcomeOf(events)
  {
    var fullText := "";
    var i := 0;
    while i < |events|
      invariant 0 <= i <= |events|
      invariant forall j :: 0 <= j < i ==> events[j].Chunk?
      invariant fullText == Joined(events[..i])
    {
      assert events[..i + 1][..i] == events[..i];
      match events[i]
      case Raise(e) =>
        return Interrupted(e, fullText);
      case Chunk(t) =>
        if t != "" {
          fullText := fullText + t;
        }
      i := i + 1;
    }
    assert events[..i] == events;
    return Completed(fullText);
  }

  /**
   * What the send path obtains from a reply: the text of the model turn and the response
   * to normalise, or the string of the exception that was raised.
   */
  function ReplyResult(reply: Reply): Result<(string, Response), string> {
    match reply
    case SendRaised(e) => Failure(e)
    case Streamed(events, result) =>
      (match StreamOutcomeOf(events)
       case Completed(t) => Success((t, result))
       case Interrupted(e, _) => Failure(e))
    case Whole(text, result) =>
      (match text
       case Success(t) => Success((t, result))
       case Failure(e) => Failure(e))
  }

  /** A reply succeeds exactly when nothing in it raises. */
  lemma ReplySucceedsIffNothingRaises(reply: Reply)
    ensures ReplyResult(reply).Success? <==>
              match reply
              case SendRaised(_) => false
              case Streamed(events, _) => forall j :: 0 <= j < |events| ==> events[j].Chunk?
              case Whole(text, _) => text.Success?
  {
  }

  /** A clean stream yields the concatenation of its chunk texts as the model text. */
  lemma StreamedTextIsJoined(events: seq<ChunkEvent>, result: Response)
    requires forall j :: 0 <= j < |events| ==> events[j].Chunk?
    ensures ReplyResult(Streamed(events, result)) == Success((Joined(events), result))
  {
  }

  /** The chunks "Hi" and " there" aggregate to "Hi there". */
  lemma HiThereExample(result: Response)
    ensures ReplyResult(Streamed([Chunk("Hi"), Chunk(" there")], result)) == Success(("Hi there", result))
  {
    var events := [Chunk("Hi"), Chunk(" there")];
    assert FirstRaise(events).None?;
    assert events[..1] == [Chunk("Hi")];
    assert [Chunk("Hi")][..0] == [];
    assert Joined([Chunk("Hi")]) == "Hi";
    assert Joined(events) == "Hi" + " there";
    assert "Hi" + " there" == "Hi there";
    StreamedTextIsJoined(events, result);
  }

  /** A stream that raises after "Partial" fails with the raised error. */
  lemma PartialThenRaiseExample(result: Response, e: string)
    ensures StreamOutcomeOf([Chunk("Partial"), Raise(e)]) == Interrupted(e, "Partial")
    ensures ReplyResult(Streamed([Chunk("Partial"), Raise(e)], result)) == Failure(e)
  {
    var events := [Chunk("Partial"), Raise(e)];
    assert events[1..] == [Raise(e)];
    assert events[..1] == [Chunk("Partial")];
    assert [Chunk("Partial")][..0] == [];
  }
}
