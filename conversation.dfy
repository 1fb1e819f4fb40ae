/**
 * The conversation history: an ordered sequence of turns, each with a role and an
 * ordered list of parts. A part is either text or an (opaque) uploaded image.
 */
module Conversation {
  import opened Wrappers

  /** An uploaded image. Decoding it is outside the model, so it is only a reference. */
  datatype ImageRef = ImageRef(id: nat)

  /** The roles stored in the history: "user" and "model". */
  datatype Role = User | Model

  datatype Part = Text(text: string) | Image(image: ImageRef)

  datatype Turn = Turn(role: Role, parts: seq<Part>)

  predicate HasText(parts: seq<Part>) {
    exists i :: 0 <= i < |parts| && parts[i].Text?
  }

  /** Index `i` holds the first text part of `parts`. */
  predicate IsFirstText(parts: seq<Part>, i: int) {
    0 <= i < |parts| && parts[i].Text? && forall j :: 0 <= j < i ==> !parts[j].Text?
  }

  /**
   * The lookup `next((part for part in parts if isinstance(part, str)), fallback)`:
   * the text of the first text part, or `fallback` when there is none.
   */
  function FirstText(parts: seq<Part>, fallback: string): string {
    if parts == [] then fallback
    else if parts[0].Text? then parts[0].text
    else FirstText(parts[1..], fallback)
  }

  /** The lookup finds the first text part. */
  lemma {:induction false} FirstTextAt(parts: seq<Part>, fallback: string, i: int)
    requires IsFirstText(parts, i)
    ensures FirstText(parts, fallback) == parts[i].text
  {
    if i > 0 {
      assert IsFirstText(parts[1..], i - 1);
      FirstTextAt(parts[1..], fallback, i - 1);
    }
  }

  /** Without a text part, the lookup gives the fallback. */
  lemma {:induction false} FirstTextNone(parts: seq<Part>, fallback: string)
    requires !HasText(parts)
    ensures FirstText(parts, fallback) == fallback
  {
    if parts != [] {
      assert !parts[0].Text?;
      NoTextInTail(parts);
      FirstTextNone(parts[1..], fallback);
    }
  }

  lemma NoTextInTail(parts: seq<Part>)
    requires parts != [] && !HasText(parts)
    ensures !HasText(parts[1..])
  {
    forall i | 0 <= i < |parts[1..]| ensures !parts[1..][i].Text? {
      assert parts[1..][i] == parts[i + 1];
    }
  }

  /** A part list that has text has a first text part. */
  lemma {:induction false} FirstTextExists(parts: seq<Part>) returns (i: int)
    requires HasText(parts)
    ensures IsFirstText(parts, i)
  {
    if parts[0].Text? {
      i := 0;
    } else {
      assert HasText(parts[1..]) by {
        var k :| 0 <= k < |parts| && parts[k].Text?;
        assert parts[1..][k - 1] == parts[k];
      }
      var k := FirstTextExists(parts[1..]);
      i := k + 1;
      assert parts[1..][k] == parts[i];
    }
  }

  /** The text shown in (and edited through) the log editor: the first text part, or "". */
  function CurrentText(t: Turn): string {
    FirstText(t.parts, "")
  }

  /**
   * The loop that scans a turn's parts for the first text part before an edit.
   * As in the source, -1 stands for "no text part".
   */
  method FindTextPartIndex(parts: seq<Part>) returns (index: int)
    ensures index == -1 <==> !HasText(parts)
    ensures index != -1 ==> IsFirstText(parts, index)
  {
    index := -1;
    var idx := 0;
    while idx < |parts|
      invariant 0 <= idx <= |parts|
      invariant forall j :: 0 <= j < idx ==> !parts[j].Text?
    {
      if parts[idx].Text? {
        index := idx;
        return;
      }
      idx := idx + 1;
    }
  }

  /**
   * Reference definition of an edit: the first text part is replaced by `newText`;
   * a turn without text gets `newText` appended as a new last part.
   */
  function EditedParts(parts: seq<Part>, newText: string): (r: seq<Part>)
    ensures |r| > 0
  {
    if parts == [] then [Text(newText)]
    else if parts[0].Text? then [Text(newText)] + parts[1..]
    else [parts[0]] + EditedParts(parts[1..], newText)
  }

  /** Editing replaces exactly the first text part, in place; every other part stays. */
  lemma {:induction false} EditReplacesFirstText(parts: seq<Part>, newText: string, i: int)
    requires IsFirstText(parts, i)
    ensures EditedParts(parts, newText) == parts[i := Text(newText)]
  {
    if i > 0 {
      assert IsFirstText(parts[1..], i - 1);
      EditReplacesFirstText(parts[1..], newText, i - 1);
      assert [parts[0]] + parts[1..][i - 1 := Text(newText)] == parts[i := Text(newText)];
    }
  }

  /** Editing a turn without text appends the new text after all of its parts. */
  lemma {:induction false} EditAppendsWhenNoText(parts: seq<Part>, newText: string)
    requires !HasText(parts)
    ensures EditedParts(parts, newText) == parts + [Text(newText)]
  {
    if parts != [] {
      assert !parts[0].Text?;
      NoTextInTail(parts);
      EditAppendsWhenNoText(parts[1..], newText);
      assert [parts[0]] + (parts[1..] + [Text(newText)]) == parts + [Text(newText)];
    }
  }

  /** After an edit, the text the editor and the export see is the new text. */
  lemma EditedFirstText(parts: seq<Part>, newText: string, fallback: string)
    ensures FirstText(EditedParts(parts, newText), fallback) == newText
  {
    var r := EditedParts(parts, newText);
    if HasText(parts) {
      var i := FirstTextExists(parts);
      EditReplacesFirstText(parts, newText, i);
      assert IsFirstText(r, i);
      FirstTextAt(r, fallback, i);
    } else {
      EditAppendsWhenNoText(parts, newText);
      assert IsFirstText(r, |parts|);
      FirstTextAt(r, fallback, |parts|);
    }
  }

  /**
   * The edit guard `new_text != current_text` only skips edits that would change nothing,
   * except on a turn without text, where an empty new text is not appended.
   */
  lemma SkippedEditIsNoOp(parts: seq<Part>, newText: string)
    requires newText == FirstText(parts, "") && HasText(parts)
    ensures EditedParts(parts, newText) == parts
  {
    var i := FirstTextExists(parts);
    FirstTextAt(parts, "", i);
    EditReplacesFirstText(parts, newText, i);
  }

  /**
   * The parts of a new user turn: `[prompt]`, with the attached image inserted in front.
   */
  function UserParts(prompt: string, image: Option<ImageRef>): (r: seq<Part>)
    ensures |r| > 0 && r[|r| - 1] == Text(prompt)
    ensures image.Some? ==> |r| == 2 && r[0] == Image(image.value)
    ensures image.None? ==> |r| == 1
    ensures FirstText(r, "") == prompt
  {
    var p := [Text(prompt)];
    var r := if image.Some? then [Image(image.value)] + p else p;
    assert IsFirstText(r, |r| - 1);
    FirstTextAt(r, "", |r| - 1);
    r
  }

  /** The chat bubble role: "model" is displayed as "assistant", "user" as itself. */
  function DisplayRole(role: Role): (r: string)
    ensures r == "assistant" <==> role == Model
    ensures r == "user" <==> role == User
  {
    match role
    case Model => "assistant"
    case User => "user"
  }

  /** The role label of the text export: "User" for user turns, "AI" for everything else. */
  function ExportLabel(role: Role): (r: string)
    ensures r == "User" <==> role == User
    ensures r == "AI" <==> role == Model
  {
    match role
    case User => "User"
    case Model => "AI"
  }
}
