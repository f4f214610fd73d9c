/** The status line of the settings panel (`updateStatus`). */
module Panel {
  import opened Text
  import opened Config

  datatype StatusView = StatusView(text: string, colour: string)

  /** The text shown in the status span before the first `updateStatus`. */
  const Ready := StatusView("Ready", "")

  /** Text and colour are computed by two separate conditional expressions. */
  function StatusOf(s: Settings): StatusView {
    var hasContent := |Trim(s.sheetContent)| > 0;
    var text := if s.enabled then (if hasContent then "Active" else "Enabled (no content)") else "Disabled";
    var colour := if s.enabled && hasContent then "#4CAF50" else if s.enabled then "#FF9800" else "#666";
    StatusView(text, colour)
  }

  /** The status is a total three-way classification, and the text and the
      colour always agree on which of the three it is. */
  lemma StatusClassification(s: Settings)
    ensures var v := StatusOf(s);
      (v == StatusView("Active", "#4CAF50") <==> s.enabled && !AllWhitespace(s.sheetContent))
      && (v == StatusView("Enabled (no content)", "#FF9800") <==> s.enabled && AllWhitespace(s.sheetContent))
      && (v == StatusView("Disabled", "#666") <==> !s.enabled)
  {
    TrimEmptyIff(s.sheetContent);
  }
}
