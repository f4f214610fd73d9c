/** The message transform `appendSheetContent`, the chain of wrappers around
    the host's `sendMessageAsUser`, and the field-rewrite rule that the send
    button, form submit and Enter-key handlers share. */
module Interceptor {
  import opened Text
  import opened Config

  const Separator: string := "\n\n"

  /** The extension appends anything at all: enabled, and the trimmed sheet
      content is non-empty. */
  predicate Active(s: Settings) {
    s.enabled && Trim(s.sheetContent) != []
  }

  /** `appendSheetContent(originalText)` under settings `s`. */
  function AppendSheetContent(s: Settings, text: string): string {
    if !Active(s) then text
    else
      var sheet := Trim(s.sheetContent);
      if Contains(text, sheet) then text
      else Trim(text) + Separator + sheet
  }

  /** The transform leaves the text alone exactly when the extension is
      inactive or the text already includes the trimmed sheet content;
      otherwise the result is the trimmed text, a blank line and the trimmed
      sheet content, and so ends with and includes that content. */
  lemma {:induction false} AppendSheetContentSpec(s: Settings, text: string)
    ensures var r := AppendSheetContent(s, text);
      (r == text <==> !Active(s) || Contains(text, Trim(s.sheetContent)))
      && (r != text ==> r == Trim(text) + Separator + Trim(s.sheetContent))
      && (Active(s) ==> Contains(r, Trim(s.sheetContent)))
  {
    var sheet := Trim(s.sheetContent);
    if Active(s) && !Contains(text, sheet) {
      ContainsSuffix(Trim(text) + Separator, sheet);
      assert Trim(text) + Separator + sheet == (Trim(text) + Separator) + sheet;
    }
  }

  /** Applying the transform twice is the same as applying it once. */
  lemma {:induction false} AppendSheetContentIdempotent(s: Settings, text: string)
    ensures AppendSheetContent(s, AppendSheetContent(s, text)) == AppendSheetContent(s, text)
  {
    if Active(s) && !Contains(text, Trim(s.sheetContent)) {
      ContainsSuffix(Trim(text) + Separator, Trim(s.sheetContent));
    }
  }

  /** The text that reaches the host's original `sendMessageAsUser` when `n`
      wrappers are stacked on it: each wrapper transforms, then calls the one
      it replaced. However many retries re-wrapped it, the text is sent as if
      wrapped once. */
  function Deliver(n: nat, s: Settings, text: string): (r: string)
    ensures r == if n == 0 then text else AppendSheetContent(s, text)
    decreases n
  {
    if n == 0 then text
    else
      AppendSheetContentIdempotent(s, text);
      Deliver(n - 1, s, AppendSheetContent(s, text))
  }

  /** The body of the click, submit and Enter handlers: with the extension
      active, a non-blank trimmed field value that does not include the
      trimmed sheet content is replaced by `appendSheetContent` of it. */
  function RewriteField(s: Settings, field: string): string {
    if Active(s) then
      var current := Trim(field);
      if current != [] && !Contains(current, Trim(s.sheetContent))
      then AppendSheetContent(s, current)
      else field
    else field
  }

  /** A handler changes the field exactly when the extension is active, the
      field is not blank and does not already include the trimmed sheet
      content; the new value is then the trimmed field, a blank line and the
      trimmed sheet content. A blank field is never modified. */
  lemma RewriteFieldSpec(s: Settings, field: string)
    ensures var r := RewriteField(s, field);
      (r != field <==> Active(s) && !AllWhitespace(field) && !Contains(field, Trim(s.sheetContent)))
      && (r != field ==> r == Trim(field) + Separator + Trim(s.sheetContent))
  {
    TrimEmptyIff(field);
    var sheet := Trim(s.sheetContent);
    if Active(s) {
      ContainsTrimIff(field, sheet);
      if !AllWhitespace(field) && !Contains(field, sheet) {
        TrimIdempotent(field);
        ContainsSuffix(Trim(field) + Separator, sheet);
        assert Trim(field) + Separator + sheet == (Trim(field) + Separator) + sheet;
      }
    }
  }

  /** On a field that is not blank, a handler does what the wrapped send
      function does: its extra guards only keep blank fields untouched. */
  lemma RewriteFieldAgrees(s: Settings, field: string)
    ensures !AllWhitespace(field) ==> RewriteField(s, field) == AppendSheetContent(s, field)
    ensures AllWhitespace(field) ==> RewriteField(s, field) == field
  {
    TrimEmptyIff(field);
    if Active(s) {
      ContainsTrimIff(field, Trim(s.sheetContent));
      TrimIdempotent(field);
    }
  }

  /** Running a handler on a field it already rewrote changes nothing. */
  lemma RewriteFieldIdempotent(s: Settings, field: string)
    ensures RewriteField(s, RewriteField(s, field)) == RewriteField(s, field)
  {
    RewriteFieldAgrees(s, field);
    if !AllWhitespace(field) {
      var r := RewriteField(s, field);
      if r != field {
        AppendSheetContentSpec(s, field);
        RewriteFieldSpec(s, field);
        assert r[0] == Trim(field)[0];
        assert !AllWhitespace(r);
        RewriteFieldAgrees(s, r);
        AppendSheetContentIdempotent(s, field);
      }
    }
  }

  /** A field rewritten by a handler and then sent through the wrapped send
      function carries the sheet content once, as if only the wrapper ran. */
  lemma SendAfterRewrite(s: Settings, field: string)
    ensures AppendSheetContent(s, RewriteField(s, field)) == AppendSheetContent(s, field)
  {
    RewriteFieldAgrees(s, field);
    AppendSheetContentIdempotent(s, field);
  }

  /** `n` listeners of one kind, registered by `n` hook attempts, each run the
      rule in turn on the current field value; the result is that of one. */
  function RewriteRepeated(n: nat, s: Settings, field: string): (r: string)
    ensures r == if n == 0 then field else RewriteField(s, field)
    decreases n
  {
    if n == 0 then field
    else
      RewriteFieldIdempotent(s, field);
      RewriteRepeated(n - 1, s, RewriteField(s, field))
  }

  /** A trimmed text shorter than the trimmed sheet cannot include it, so the
      sheet is appended after a blank line. */
  lemma AppendToShortText(s: Settings, text: string)
    requires s.enabled && s.sheetContent != [] && IsTrimmed(s.sheetContent)
    requires IsTrimmed(text) && |text| < |s.sheetContent|
    ensures AppendSheetContent(s, text) == text + Separator + s.sheetContent
  {
    TrimOfTrimmed(s.sheetContent);
    TrimOfTrimmed(text);
  }

  /** The sheet and the message of the worked example have no whitespace at
      their ends, and the message is the shorter. */
  lemma ExampleTextsTrimmed(sheet: string, text: string)
    requires sheet == "HP: 100/100\nLocation: Tavern" && text == "Hello there!"
    ensures sheet != [] && IsTrimmed(sheet) && IsTrimmed(text) && |text| < |sheet|
  {
  }

  /** The worked example: enabled settings with a two-line sheet, a message
      with no sheet content in it. */
  lemma AppendExample(s: Settings, text: string)
    requires s == Settings(true, "HP: 100/100\nLocation: Tavern") && text == "Hello there!"
    ensures AppendSheetContent(s, text) == text + "\n\n" + s.sheetContent
  {
    ExampleTextsTrimmed(s.sheetContent, text);
    AppendToShortText(s, text);
  }

  /** Disabled settings leave a message as it is, whatever the sheet holds. */
  lemma DisabledExample(sheet: string)
    ensures AppendSheetContent(Settings(false, sheet), "Hello there!") == "Hello there!"
  {
  }
}
