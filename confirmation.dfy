/**
 * The write-operation confirmation gate: a write tool runs only when called with
 * `confirmed: true`; otherwise it answers with a warning that names the operation.
 */
module Confirmation {
  import opened Wrappers
  import opened Strings

  datatype ConfirmationCheckResult = ConfirmationCheckResult(isConfirmed: bool, warningMessage: Option<string>)

  const Warn := "\U{26A0}\U{FE0F}"

  /** The warning text up to the operation name. */
  const WarningHead := "# " + Warn + " WRITE OPERATION CONFIRMATION REQUIRED " + Warn + "\n\n## Operation: "

  /** The warning text after the operation details. */
  const WarningTail :=
    "\n\n---\n\n## " + Warn + " WARNING\n" +
    "This operation will **MODIFY DATA** in your Bitbucket repository.\n\n" +
    "**This action:**\n" +
    "- Will make permanent changes to your Bitbucket data\n" +
    "- May affect your team's workflow\n" +
    "- Cannot be easily undone in some cases\n\n" +
    "---\n\n" +
    "## To Proceed\n" +
    "If you want to proceed with this operation, call this tool again with the parameter:\n" +
    "```\nconfirmed: true\n```\n\n" +
    "## To Cancel\n" +
    "Simply do not call this tool again, or call it without the `confirmed` parameter.\n\n" +
    "---\n\n" +
    "**Think carefully before confirming this write operation.**"

  /** The warning once trimmed: the template between its first and last line breaks. */
  function WarningText(operationName: string, operationDetails: string): string
  {
    WarningHead + operationName + "\n\n" + operationDetails + WarningTail
  }

  /** `checkWriteOperationConfirmation(confirmed, operationName, operationDetails)`. */
  function CheckWriteOperationConfirmation(confirmed: Option<bool>, operationName: string, operationDetails: string): (r: ConfirmationCheckResult)
    ensures r.isConfirmed <==> confirmed == Some(true)
    ensures r.isConfirmed <==> r.warningMessage.None?
  {
    if confirmed == Some(true) then ConfirmationCheckResult(true, None)
    else ConfirmationCheckResult(false, Some(Trim("\n" + WarningText(operationName, operationDetails) + "\n")))
  }

  lemma WarningEnds()
    ensures |WarningHead| > 0 && WarningHead[0] == '#'
    ensures |WarningTail| > 0 && WarningTail[|WarningTail| - 1] == '*'
  {
  }

  /** Trimming the framed text removes only the two line breaks around it. */
  lemma FramedTrim(m: string)
    requires |m| > 0 && m[0] == '#' && m[|m| - 1] == '*'
    ensures Trim("\n" + m + "\n") == m
  {
    TrimFramed("\n", m, "\n");
  }

  /** The shape of the warning, for any head that starts with `#` and tail that ends with `*`. */
  lemma FramedText(head: string, name: string, details: string, tail: string)
    requires |head| > 0 && head[0] == '#'
    requires |tail| > 0 && tail[|tail| - 1] == '*'
    ensures var m := head + name + "\n\n" + details + tail;
      && Trim("\n" + m + "\n") == m
      && StartsWith(m, head + name)
      && Contains(m, name)
      && Contains(m, details)
      && |m| > 0 && !IsJsWhitespace(m[0]) && !IsJsWhitespace(m[|m| - 1])
  {
    var hn := head + name;
    var c := "\n\n" + details;
    var m := hn + "\n\n" + details + tail;
    ConcatAssoc(hn, "\n\n", details);
    ConcatAssoc(hn, c, tail);
    AppendStarts(hn, c + tail);
    AppendStarts(head, name);
    assert m[0] == '#' by {
      assert m[0] == hn[0] == head[0];
    }
    assert m[|m| - 1] == '*' by {
      assert m[|m| - 1] == tail[|tail| - 1];
    }
    FramedTrim(m);
    ContainsAt(head, name, c + tail);
    ContainsAt(hn + "\n\n", details, tail);
  }

  /**
   * An unconfirmed call gets a warning that names the operation and carries its details,
   * with no surrounding whitespace.
   */
  lemma UnconfirmedWarning(confirmed: Option<bool>, operationName: string, operationDetails: string)
    requires confirmed != Some(true)
    ensures var m := CheckWriteOperationConfirmation(confirmed, operationName, operationDetails).warningMessage.value;
      && m == WarningText(operationName, operationDetails)
      && StartsWith(m, WarningHead + operationName)
      && Contains(m, operationName)
      && Contains(m, operationDetails)
      && |m| > 0 && !IsJsWhitespace(m[0]) && !IsJsWhitespace(m[|m| - 1])
  {
    WarningEnds();
    FramedText(WarningHead, operationName, operationDetails, WarningTail);
  }

  datatype TextContent = TextContent(kind: string, text: string)

  datatype ToolResponse = ToolResponse(content: seq<TextContent>)

  /** `formatConfirmationWarning(warningMessage)`: one text item carrying the message unchanged. */
  function FormatConfirmationWarning(warningMessage: string): (r: ToolResponse)
    ensures |r.content| == 1 && r.content[0].kind == "text" && r.content[0].text == warningMessage
  {
    ToolResponse([TextContent("text", warningMessage)])
  }
}
