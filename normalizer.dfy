/**
 * `response_to_dict`: turns a generation response, whose fields may be missing, into a
 * JSON-serialisable record with exactly three keys and fixed defaults.
 */
module Normalizer {
  import opened Wrappers

  /** The JSON values the record is built from. */
  datatype Json =
    | JNull
    | JBool(b: bool)
    | JInt(i: int)
    | JString(s: string)
    | JArray(items: seq<Json>)
    | JObject(fields: map<string, Json>)

  /** A protobuf enumeration value. The member numbered 0 is false in a Python condition. */
  datatype EnumValue = EnumValue(number: int, name: string)

  datatype SafetyRating = SafetyRating(category: EnumValue, probability: EnumValue)

  /** One candidate of a response; `partTexts` are the texts of its content parts. */
  datatype Candidate = Candidate(
    partTexts: seq<string>,
    role: string,
    finishReason: Option<EnumValue>,
    safetyRatings: seq<SafetyRating>,
    tokenCount: int)

  datatype UsageMetadata = UsageMetadata(
    promptTokenCount: int,
    candidatesTokenCount: int,
    totalTokenCount: int)

  datatype PromptFeedback = PromptFeedback(blockReason: Option<EnumValue>, safetyRatings: seq<SafetyRating>)

  /** A response as the client library hands it over; `None` marks an absent attribute. */
  datatype Response = Response(
    candidates: seq<Candidate>,
    usageMetadata: Option<UsageMetadata>,
    promptFeedback: Option<PromptFeedback>)

  const UnknownFinishReason: string := "UNKNOWN"
  const NoBlockReason: string := "NONE"

  /** `e.name if e else default`: an absent value and the zero member both give `default`. */
  function EnumNameOr(e: Option<EnumValue>, default: string): (r: string)
    ensures e.Some? && e.value.number != 0 ==> r == e.value.name
    ensures e.None? || e.value.number == 0 ==> r == default
  {
    if e.Some? && e.value.number != 0 then e.value.name else default
  }

  predicate RatedAt(ratings: seq<SafetyRating>, i: int, category: string) {
    0 <= i < |ratings| && ratings[i].category.name == category
  }

  /** Some rating in `ratings` is about `category`. */
  predicate Rated(ratings: seq<SafetyRating>, category: string) {
    exists i | 0 <= i < |ratings| :: RatedAt(ratings, i, category)
  }

  /**
   * `{rating.category.name: rating.probability.name for rating in ratings}`: a later rating
   * of the same category overwrites an earlier one.
   */
  function RatingsToMap(ratings: seq<SafetyRating>): (m: map<string, Json>)
    ensures forall k :: k in m <==> Rated(ratings, k)
  {
    if ratings == [] then map[]
    else
      var init := ratings[..|ratings| - 1];
      var last := ratings[|ratings| - 1];
      var m := RatingsToMap(init);
      forall k ensures Rated(ratings, k) <==> Rated(init, k) || k == last.category.name {
        RatedSnoc(ratings, k);
      }
      m[last.category.name := JString(last.probability.name)]
  }

  /** The value kept for a category is the probability of the last rating of that category. */
  lemma {:induction false} LastRatingWins(ratings: seq<SafetyRating>, i: int)
    requires 0 <= i < |ratings|
    requires forall j :: i < j < |ratings| ==> ratings[j].category.name != ratings[i].category.name
    ensures ratings[i].category.name in RatingsToMap(ratings)
    ensures RatingsToMap(ratings)[ratings[i].category.name] == JString(ratings[i].probability.name)
  {
    assert RatedAt(ratings, i, ratings[i].category.name);
    if i < |ratings| - 1 {
      var init := ratings[..|ratings| - 1];
      assert init[i] == ratings[i];
      forall j | i < j < |init| ensures init[j].category.name != init[i].category.name {
        assert init[j] == ratings[j];
      }
      LastRatingWins(init, i);
    }
  }

  lemma RatedSnoc(ratings: seq<SafetyRating>, k: string)
    requires ratings != []
    ensures Rated(ratings, k) <==> Rated(ratings[..|ratings| - 1], k) || k == ratings[|ratings| - 1].category.name
  {
    var init := ratings[..|ratings| - 1];
    if Rated(init, k) {
      var i :| 0 <= i < |init| && RatedAt(init, i, k);
      assert init[i] == ratings[i];
      assert RatedAt(ratings, i, k);
    }
    if k == ratings[|ratings| - 1].category.name {
      assert RatedAt(ratings, |ratings| - 1, k);
    }
    if Rated(ratings, k) && k != ratings[|ratings| - 1].category.name {
      var i :| 0 <= i < |ratings| && RatedAt(ratings, i, k);
      assert init[i] == ratings[i];
      assert RatedAt(init, i, k);
    }
  }

  function PartsList(texts: seq<string>): seq<Json> {
    seq(|texts|, i requires 0 <= i < |texts| => JObject(map["type" := JString("text"), "content" := JString(texts[i])]))
  }

  function CandidateToDict(c: Candidate): Json {
    JObject(map[
      "content" := JObject(map["parts" := JArray(PartsList(c.partTexts)), "role" := JString(c.role)]),
      "finish_reason" := JString(EnumNameOr(c.finishReason, UnknownFinishReason)),
      "safety_ratings" := JObject(RatingsToMap(c.safetyRatings)),
      "token_count" := JInt(c.tokenCount)])
  }

  function CandidateList(cs: seq<Candidate>): seq<Json> {
    seq(|cs|, i requires 0 <= i < |cs| => CandidateToDict(cs[i]))
  }

  function UsageToDict(u: Option<UsageMetadata>): Json {
    match u
    case None => JObject(map[])
    case Some(m) => JObject(map[
      "prompt_token_count" := JInt(m.promptTokenCount),
      "candidates_token_count" := JInt(m.candidatesTokenCount),
      "total_token_count" := JInt(m.totalTokenCount)])
  }

  function FeedbackToDict(f: Option<PromptFeedback>): Json {
    match f
    case None => JObject(map[])
    case Some(p) => JObject(map[
      "block_reason" := JString(EnumNameOr(p.blockReason, NoBlockReason)),
      "safety_ratings" := JObject(RatingsToMap(p.safetyRatings))])
  }

  const RecordKeys: set<string> := {"candidates", "prompt_feedback", "usage_metadata"}

  /**
   * `d` records candidate `c`: its part texts and role under `content`, its finish reason
   * by name, its ratings by category name, and its token count.
   */
  predicate RecordsCandidate(d: Json, c: Candidate) {
    d.JObject? && d.fields.Keys == {"content", "finish_reason", "safety_ratings", "token_count"} &&
    d.fields["content"] == JObject(map["parts" := JArray(PartsList(c.partTexts)), "role" := JString(c.role)]) &&
    d.fields["finish_reason"] == JString(EnumNameOr(c.finishReason, UnknownFinishReason)) &&
    d.fields["safety_ratings"] == JObject(RatingsToMap(c.safetyRatings)) &&
    d.fields["token_count"] == JInt(c.tokenCount)
  }

  /** `u` records the three token counts of `m`. */
  predicate RecordsUsage(u: Json, m: UsageMetadata) {
    u.JObject? && u.fields.Keys == {"prompt_token_count", "candidates_token_count", "total_token_count"} &&
    u.fields["prompt_token_count"] == JInt(m.promptTokenCount) &&
    u.fields["candidates_token_count"] == JInt(m.candidatesTokenCount) &&
    u.fields["total_token_count"] == JInt(m.totalTokenCount)
  }

  /** `f` records the block reason of `p` by name and its ratings by category name. */
  predicate RecordsFeedback(f: Json, p: PromptFeedback) {
    f.JObject? && f.fields.Keys == {"block_reason", "safety_ratings"} &&
    f.fields["block_reason"] == JString(EnumNameOr(p.blockReason, NoBlockReason)) &&
    f.fields["safety_ratings"] == JObject(RatingsToMap(p.safetyRatings))
  }

  /**
   * The normalised record. It always has exactly the three keys; a missing response or
   * an empty candidate list gives no candidates; a missing usage or feedback attribute
   * gives an empty object; an unset finish reason reads "UNKNOWN", an unset block reason "NONE".
   */
  function ResponseToDict(response: Option<Response>): (r: Json)
    ensures r.JObject? && r.fields.Keys == RecordKeys
    ensures r.fields["candidates"].JArray?
    ensures |r.fields["candidates"].items| == if response.Some? then |response.value.candidates| else 0
    ensures forall i :: 0 <= i < |r.fields["candidates"].items| ==>
              RecordsCandidate(r.fields["candidates"].items[i], response.value.candidates[i]) &&
              (r.fields["candidates"].items[i].fields["finish_reason"] == JString(UnknownFinishReason) <==>
                 (var f := response.value.candidates[i].finishReason;
                  f.None? || f.value.number == 0 || f.value.name == UnknownFinishReason))
    ensures response.None? || response.value.usageMetadata.None? ==> r.fields["usage_metadata"] == JObject(map[])
    ensures response.Some? && response.value.usageMetadata.Some? ==>
              RecordsUsage(r.fields["usage_metadata"], response.value.usageMetadata.value)
    ensures response.None? || response.value.promptFeedback.None? ==> r.fields["prompt_feedback"] == JObject(map[])
    ensures response.Some? && response.value.promptFeedback.Some? ==>
              RecordsFeedback(r.fields["prompt_feedback"], response.value.promptFeedback.value)
  {
    var candidates :=
      if response.Some? && |response.value.candidates| > 0 then CandidateList(response.value.candidates)
      else [];
    var usage := if response.Some? then UsageToDict(response.value.usageMetadata) else JObject(map[]);
    var feedback := if response.Some? then FeedbackToDict(response.value.promptFeedback) else JObject(map[]);
    JObject(map["candidates" := JArray(candidates), "prompt_feedback" := feedback, "usage_metadata" := usage])
  }

  // Reading populated fields back out of a normalised record.

  /** The texts of a `parts` list, each `{"type": "text", "content": text}`. */
  function ReadPartTexts(items: seq<Json>): Option<seq<string>> {
    if items == [] then Some([])
    else
      var rest := ReadPartTexts(items[1..]);
      var item := items[0];
      if item.JObject? && "content" in item.fields && item.fields["content"].JString? && rest.Some? then
        Some([item.fields["content"].s] + rest.value)
      else None
  }

  /** The part texts of one candidate object, read from its `content.parts` list. */
  function ReadCandidate(c: Json): Option<seq<string>> {
    if c.JObject? && "content" in c.fields && c.fields["content"].JObject?
       && "parts" in c.fields["content"].fields && c.fields["content"].fields["parts"].JArray?
    then ReadPartTexts(c.fields["content"].fields["parts"].items)
    else None
  }

  function ReadCandidateTexts(items: seq<Json>): Option<seq<seq<string>>> {
    if items == [] then Some([])
    else
      var texts := ReadCandidate(items[0]);
      var rest := ReadCandidateTexts(items[1..]);
      if texts.Some? && rest.Some? then Some([texts.value] + rest.value) else None
  }

  /** The part texts of every candidate, read back from a record. */
  function ReadTexts(record: Json): Option<seq<seq<string>>> {
    if record.JObject? && "candidates" in record.fields && record.fields["candidates"].JArray? then
      ReadCandidateTexts(record.fields["candidates"].items)
    else None
  }

  /** The token counts, read back from a record; an empty object reads as no usage. */
  function ReadUsage(record: Json): Option<Option<UsageMetadata>> {
    if record.JObject? && "usage_metadata" in record.fields && record.fields["usage_metadata"].JObject? then
      var u := record.fields["usage_metadata"].fields;
      if u == map[] then Some(None)
      else if "prompt_token_count" in u && "candidates_token_count" in u && "total_token_count" in u
              && u["prompt_token_count"].JInt? && u["candidates_token_count"].JInt? && u["total_token_count"].JInt?
      then Some(Some(UsageMetadata(u["prompt_token_count"].i, u["candidates_token_count"].i, u["total_token_count"].i)))
      else None
    else None
  }

  function CandidateTexts(cs: seq<Candidate>): seq<seq<string>> {
    seq(|cs|, i requires 0 <= i < |cs| => cs[i].partTexts)
  }

  lemma {:induction false} PartTextsRoundTrip(texts: seq<string>)
    ensures ReadPartTexts(PartsList(texts)) == Some(texts)
  {
    if texts != [] {
      assert PartsList(texts)[1..] == PartsList(texts[1..]);
      PartTextsRoundTrip(texts[1..]);
      assert [texts[0]] + texts[1..] == texts;
    }
  }

  /** One normalised candidate's texts read back unchanged. */
  lemma CandidateDictTexts(c: Candidate)
    ensures ReadCandidate(CandidateToDict(c)) == Some(c.partTexts)
  {
    PartTextsRoundTrip(c.partTexts);
  }

  /** The head of a normalised candidate list reads back, and its tail is the rest normalised. */
  lemma CandidateListSplit(cs: seq<Candidate>)
    requires cs != []
    ensures ReadCandidate(CandidateList(cs)[0]) == Some(cs[0].partTexts)
    ensures CandidateList(cs)[1..] == CandidateList(cs[1..])
  {
    CandidateDictTexts(cs[0]);
    assert CandidateList(cs)[1..] == CandidateList(cs[1..]);
  }

  lemma CandidateTextsSplit(cs: seq<Candidate>)
    requires cs != []
    ensures CandidateTexts(cs) == [cs[0].partTexts] + CandidateTexts(cs[1..])
  {
    assert CandidateTexts(cs) == [cs[0].partTexts] + CandidateTexts(cs[1..]);
  }

  lemma {:induction false} CandidateTextsRoundTrip(cs: seq<Candidate>)
    ensures ReadCandidateTexts(CandidateList(cs)) == Some(CandidateTexts(cs))
  {
    if cs == [] {
      assert CandidateList(cs) == [];
      assert CandidateTexts(cs) == [];
    } else {
      CandidateListSplit(cs);
      CandidateTextsSplit(cs);
      CandidateTextsRoundTrip(cs[1..]);
    }
  }

  /** Normalisation keeps the candidates' texts, in order: they can be read back unchanged. */
  lemma NormalizedTextsRoundTrip(response: Response)
    ensures ReadTexts(ResponseToDict(Some(response))) == Some(CandidateTexts(response.candidates))
  {
    var cs := response.candidates;
    var r := ResponseToDict(Some(response));
    if |cs| > 0 {
      CandidateTextsRoundTrip(cs);
    } else {
      assert CandidateTexts(cs) == [];
    }
  }

  /** Normalisation keeps the token counts: they can be read back unchanged. */
  lemma NormalizedUsageRoundTrip(response: Response)
    ensures ReadUsage(ResponseToDict(Some(response))) == Some(response.usageMetadata)
  {
    var r := ResponseToDict(Some(response));
    if response.usageMetadata.Some? {
      assert "prompt_token_count" in r.fields["usage_metadata"].fields;
    }
  }
}
