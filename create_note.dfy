/**
 * The note editor (app/components/CreateNoteView.tsx): the formatting
 * toolbar, which splices markup around the textarea's selection, and the
 * save button.
 */
module CreateNote {
  import opened Wrappers
  import opened Text

  /** `s.substring(a, b)`: both ends clamped to the string, then swapped if out of order. */
  function Substring(s: string, a: int, b: int): (r: string)
    ensures 0 <= a <= b <= |s| ==> r == s[a..b]
    ensures |r| <= |s|
  {
    var lo := if a < 0 then 0 else if a > |s| then |s| else a;
    var hi := if b < 0 then 0 else if b > |s| then |s| else b;
    if lo <= hi then s[lo..hi] else s[hi..lo]
  }

  /** The textarea as the DOM reports it: its value and its selection. */
  datatype TextArea = TextArea(value: string, selectionStart: nat, selectionEnd: nat)

  /** A DOM selection lies inside the value, start first. */
  predicate WellFormed(t: TextArea) {
    t.selectionStart <= t.selectionEnd <= |t.value|
  }

  /** The new content and the selection restored after the splice. */
  datatype Formatted = Formatted(text: string, selectionStart: nat, selectionEnd: nat)

  /**
   * `insertFormat(startTag, endTag)`: nothing without a textarea; otherwise
   * `before + startTag + selection + endTag + after`, with the selection
   * moved right by the length of `startTag`.
   */
  function InsertFormat(textarea: Option<TextArea>, startTag: string, endTag: string): Option<Formatted> {
    match textarea
    case None => None
    case Some(t) =>
      var text := t.value;
      var before := Substring(text, 0, t.selectionStart);
      var selection := Substring(text, t.selectionStart, t.selectionEnd);
      var after := Substring(text, t.selectionEnd, |text|);
      Some(Formatted(before + startTag + selection + endTag + after,
                     t.selectionStart + |startTag|, t.selectionEnd + |startTag|))
  }

  /**
   * On a well-formed selection the splice adds exactly the two tags, and
   * the restored selection covers the same characters it covered before.
   */
  lemma InsertFormatShape(t: TextArea, startTag: string, endTag: string)
    requires WellFormed(t)
    ensures var f := InsertFormat(Some(t), startTag, endTag).value;
      && |f.text| == |t.value| + |startTag| + |endTag|
      && f.selectionStart <= f.selectionEnd <= |f.text|
      && f.text[f.selectionStart..f.selectionEnd] == t.value[t.selectionStart..t.selectionEnd]
      && f.text[..t.selectionStart] == t.value[..t.selectionStart]
      && f.text[t.selectionStart..f.selectionStart] == startTag
      && f.text[f.selectionEnd..f.selectionEnd + |endTag|] == endTag
      && f.text[f.selectionEnd + |endTag|..] == t.value[t.selectionEnd..]
  {
    var text := t.value;
    var s, e := t.selectionStart, t.selectionEnd;
    var f := InsertFormat(Some(t), startTag, endTag).value;
    assert f.text == text[..s] + startTag + text[s..e] + endTag + text[e..];
  }

  /** The markup around the selection removed again. */
  function Unformat(f: Formatted, startTagLength: nat, endTagLength: nat): string
    requires startTagLength <= f.selectionStart <= f.selectionEnd
    requires f.selectionEnd + endTagLength <= |f.text|
  {
    f.text[..f.selectionStart - startTagLength] + f.text[f.selectionStart..f.selectionEnd]
    + f.text[f.selectionEnd + endTagLength..]
  }

  /** Removing the two inserted tags gives back the original text. */
  lemma UnformatRoundTrip(t: TextArea, startTag: string, endTag: string)
    requires WellFormed(t)
    ensures var f := InsertFormat(Some(t), startTag, endTag).value;
      && |startTag| <= f.selectionStart <= f.selectionEnd
      && f.selectionEnd + |endTag| <= |f.text|
      && Unformat(f, |startTag|, |endTag|) == t.value
  {
    InsertFormatShape(t, startTag, endTag);
    var s, e := t.selectionStart, t.selectionEnd;
    assert t.value == t.value[..s] + t.value[s..e] + t.value[e..];
  }

  /** The toolbar's buttons. */
  datatype FormatButton = BoldButton | ItalicButton | ListButton | TaskButton | ImageButton

  /** The tags each button passes; `endTag` defaults to the empty string. */
  function Tags(b: FormatButton): (string, string) {
    match b
    case BoldButton => ("**", "**")
    case ItalicButton => ("_", "_")
    case ListButton => ("- ", "")
    case TaskButton => ("- [ ] ", "")
    case ImageButton => ("![Image](", ")")
  }

  /** The list and task buttons only insert a prefix: the text after the selection is untouched. */
  lemma PrefixButtons(t: TextArea, b: FormatButton)
    requires WellFormed(t) && (b == ListButton || b == TaskButton)
    ensures var f := InsertFormat(Some(t), Tags(b).0, Tags(b).1).value;
      && |f.text| == |t.value| + |Tags(b).0|
      && f.text[f.selectionEnd..] == t.value[t.selectionEnd..]
  {
    InsertFormatShape(t, Tags(b).0, Tags(b).1);
  }

  const UntitledTitle: string := "Nota sin título"

  /** The save button is enabled when the trimmed content is non-empty and no save is running. */
  predicate SaveEnabled(content: string, isSaving: bool) {
    Trim(content) != "" && !isSaving
  }

  /** What `handleSave` passes to `onSave`, if it calls it. */
  function SaveOutput(title: string, content: string): Option<(string, string)> {
    if Trim(content) != "" then Some((if title == "" then UntitledTitle else title, content)) else None
  }

  /**
   * An enabled save button always reaches `onSave`, with a non-empty title
   * and content that is not all whitespace; once pressed, the button is
   * disabled, so it cannot save the same note twice. Blank content is
   * never saved, even through a direct call.
   */
  lemma SaveButtonSavesOnce(title: string, content: string, isSaving: bool)
    ensures SaveEnabled(content, isSaving) ==> SaveOutput(title, content).Some?
    ensures SaveOutput(title, content).Some? ==>
      && SaveOutput(title, content).value.0 != ""
      && SaveOutput(title, content).value.1 == content
      && !AllWhitespace(content)
      && (title != "" ==> SaveOutput(title, content).value.0 == title)
    ensures AllWhitespace(content) ==> SaveOutput(title, content).None?
    ensures !SaveEnabled(content, true)
  {
    TrimEmptyIff(content);
  }

  class NoteEditor {
    var title: string
    var content: string
    var isSaving: bool

    constructor ()
      ensures title == "" && content == "" && !isSaving
    {
      title := "";
      content := "";
      isSaving := false;
    }

    method SetTitle(value: string)
      modifies this
      ensures title == value && content == old(content) && isSaving == old(isSaving)
    {
      title := value;
    }

    method SetContent(value: string)
      modifies this
      ensures content == value && title == old(title) && isSaving == old(isSaving)
    {
      content := value;
    }

    /**
     * A toolbar button: with a textarea, the content becomes the spliced
     * text and the selection to restore is returned; without one nothing
     * changes.
     */
    method ApplyFormat(textarea: Option<TextArea>, b: FormatButton) returns (selection: Option<(nat, nat)>)
      modifies this
      ensures textarea.None? ==> selection.None? && content == old(content)
      ensures textarea.Some? ==>
        var f := InsertFormat(textarea, Tags(b).0, Tags(b).1).value;
        content == f.text && selection == Some((f.selectionStart, f.selectionEnd))
      ensures title == old(title) && isSaving == old(isSaving)
    {
      var r := InsertFormat(textarea, Tags(b).0, Tags(b).1);
      if r.None? {
        return None;
      }
      content := r.value.text;
      selection := Some((r.value.selectionStart, r.value.selectionEnd));
    }

    /**
     * `handleSave`: with blank content nothing happens; otherwise the save
     * is marked as running and `onSave` receives the title, or the
     * placeholder title when it is empty, and the content as typed.
     */
    method HandleSave() returns (saved: Option<(string, string)>)
      modifies this
      ensures saved == SaveOutput(old(title), old(content))
      ensures isSaving == (old(isSaving) || saved.Some?)
      ensures title == old(title) && content == old(content)
      ensures saved.Some? ==> !SaveEnabled(content, isSaving)
    {
      if Trim(content) != "" {
        isSaving := true;
        saved := Some((if title == "" then UntitledTitle else title, content));
      } else {
        saved := None;
      }
    }
  }
}
