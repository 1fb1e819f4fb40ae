/** The plain-text download of the conversation history. */
module TextExport {
  import opened Wrappers
  import opened Conversation

  /** Shown in place of the text of a turn that has none. */
  const NoTextPlaceholder: string := "[이미지 또는 파일]"

  const BlockEnd: string := "\n\n---\n"

  /** The block of one turn: its role label in brackets, a newline, its first text, a separator. */
  function Block(t: Turn): string {
    "[" + ExportLabel(t.role) + "]\n" + FirstText(t.parts, NoTextPlaceholder) + BlockEnd
  }

  /** The export of a history: the blocks of its turns, in order. */
  function TextLog(history: seq<Turn>): string {
    if history == [] then ""
    else TextLog(history[..|history| - 1]) + Block(history[|history| - 1])
  }

  lemma DropLastOfConcat(a: seq<Turn>, b: seq<Turn>)
    requires b != []
    ensures (a + b)[..|a + b| - 1] == a + b[..|b| - 1]
    ensures (a + b)[|a + b| - 1] == b[|b| - 1]
  {
    assert (a + b)[..|a + b| - 1] == a + b[..|b| - 1];
  }

  /**
   * Associativity of concatenation, kept apart from `TextLogConcat` so that its proof does
   * not unfold `TextLog` and `Block`.
   */
  lemma AppendAssoc(x: string, y: string, z: string)
    ensures (x + y) + z == x + (y + z)
  {
  }

  lemma {:induction false} TextLogConcat(a: seq<Turn>, b: seq<Turn>)
    ensures TextLog(a + b) == TextLog(a) + TextLog(b)
  {
    if b == [] {
      assert a + b == a;
    } else {
      var front, last := b[..|b| - 1], b[|b| - 1];
      DropLastOfConcat(a, b);
      assert TextLog(a + b) == TextLog(a + front) + Block(last);
      TextLogConcat(a, front);
      AppendAssoc(TextLog(a), TextLog(front), Block(last));
    }
  }

  lemma TextLogSingle(t: Turn)
    ensures TextLog([t]) == Block(t)
  {
    assert [t][..0] == [];
  }

  lemma SplitAround(history: seq<Turn>, i: int)
    requires 0 <= i < |history|
    ensures history == (history[..i] + [history[i]]) + history[i + 1..]
  {
    assert history[..i + 1] == history[..i] + [history[i]];
    assert history == history[..i + 1] + history[i + 1..];
  }

  /** Every turn contributes exactly its own block, at its own place. */
  lemma TextLogAt(history: seq<Turn>, i: int)
    requires 0 <= i < |history|
    ensures TextLog(history) == TextLog(history[..i]) + Block(history[i]) + TextLog(history[i + 1..])
  {
    var before, turn, after := history[..i], history[i], history[i + 1..];
    SplitAround(history, i);
    TextLogConcat(before + [turn], after);
    TextLogConcat(before, [turn]);
    TextLogSingle(turn);
    var b, t, a := TextLog(before), Block(turn), TextLog(after);
    assert TextLog(history) == (b + t) + a;
  }

  /** A block names the role and shows the first text part, or the placeholder. */
  lemma BlockShape(t: Turn)
    ensures t.role == User ==> Block(t)[..7] == "[User]\n"
    ensures t.role == Model ==> Block(t)[..5] == "[AI]\n"
    ensures Block(t)[|Block(t)| - |BlockEnd|..] == BlockEnd
    ensures !HasText(t.parts) ==> Block(t) == "[" + ExportLabel(t.role) + "]\n" + NoTextPlaceholder + BlockEnd
  {
    if !HasText(t.parts) {
      FirstTextNone(t.parts, NoTextPlaceholder);
    }
  }

  /** An edited turn's block shows the new text in place of whatever text it had. */
  lemma EditedBlock(t: Turn, newText: string)
    ensures Block(Turn(t.role, EditedParts(t.parts, newText))) == "[" + ExportLabel(t.role) + "]\n" + newText + BlockEnd
  {
    EditedFirstText(t.parts, newText, NoTextPlaceholder);
  }

  /** Editing turn i changes only turn i's block in the export; it then shows the new text. */
  lemma ExportAfterEdit(history: seq<Turn>, i: int, newText: string)
    requires 0 <= i < |history|
    ensures var edited := history[i := Turn(history[i].role, EditedParts(history[i].parts, newText))];
            TextLog(edited) == TextLog(history[..i]) + Block(edited[i]) + TextLog(history[i + 1..]) &&
            Block(edited[i]) == "[" + ExportLabel(history[i].role) + "]\n" + newText + BlockEnd
  {
    var edited := history[i := Turn(history[i].role, EditedParts(history[i].parts, newText))];
    TextLogAt(edited, i);
    assert edited[..i] == history[..i];
    assert edited[i + 1..] == history[i + 1..];
    EditedBlock(history[i], newText);
  }

  /**
   * The export loop (`log_str += ...` for every turn); the download is offered only when
   * the history is not empty.
   */
  method ExportTextLog(history: seq<Turn>) returns (download: Option<string>)
    ensures download.None? <==> history == []
    ensures download.Some? ==> download.value == TextLog(history)
  {
    if history == [] {
      return None;
    }
    var logText := "";
    var i := 0;
    while i < |history|
      invariant 0 <= i <= |history|
      invariant logText == TextLog(history[..i])
    {
      var msg := history[i];
      var role := ExportLabel(msg.role);
      var textPart := FirstText(msg.parts, NoTextPlaceholder);
      logText := logText + ("[" + role + "]\n" + textPart + BlockEnd);
      assert history[..i + 1][..i] == history[..i];
      i := i + 1;
    }
    assert history[..i] == history;
    return Some(logText);
  }
}
