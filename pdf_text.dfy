/**
 * The text fallback (project/api/pdf-text.ts): a plain-text attachment that
 * names the invoice and the export time and tells the reader how to print
 * the invoice from their own browser. It reads nothing but the id and the clock.
 */
module PdfText {
  import opened Wrappers
  import opened Js
  import opened Http

  /** The locale date and time of `new Date()`, or the message of the error that formatting them threw. */
  datatype Clock = Now(date: string, time: string) | ClockFailed(message: string)

  const Title := "INVOICE EXPORT (TEXT FALLBACK)"
  const Rule := "=============================="

  function AttachmentName(id: string): string {
    "invoice-" + id + "-text.txt"
  }

  /** The opening banner: the title over a rule. */
  const Banner := Title + "\n" + Rule

  /** The line naming the invoice, with the line breaks around it. */
  function IdLine(id: string): string {
    "\nInvoice ID: " + id + "\n"
  }

  /** Everything after the id line: the export time and the printing instructions. */
  function Closing(date: string, time: string): string {
    "Exported on: " + date + " at " + time + "\n"
    + "\n"
    + "This is a text fallback version of your invoice.\n"
    + "For a proper PDF version, please try again later when our PDF service is available.\n"
    + "\n"
    + "To view this invoice properly:\n"
    + "1. Go to your Invoices list\n"
    + "2. Click on the Print icon for this invoice\n"
    + "3. Use your browser's print function (Ctrl+P or Cmd+P)\n"
    + "4. Select \"Save as PDF\" as the destination\n"
    + "\n"
    + "Thank you for your patience!\n"
    + Rule
  }

  /** The attachment text; only `id`, `date` and `time` vary. */
  function FallbackBody(id: string, date: string, time: string): string {
    Banner + IdLine(id) + Closing(date, time)
  }

  /** The text opens with its title. */
  lemma FallbackBodyOpensWithTitle(id: string, date: string, time: string)
    ensures StartsWith(FallbackBody(id, date, time), Title)
  {
    var closing := Closing(date, time);
    StartsWithConcat(Title, Banner, IdLine(id) + closing);
    assert Banner + IdLine(id) + closing == Banner + (IdLine(id) + closing);
  }

  /** The text carries the line `Invoice ID: {id}`. */
  lemma FallbackBodyNamesInvoice(id: string, date: string, time: string)
    ensures Includes(FallbackBody(id, date, time), IdLine(id))
  {
    IncludesMiddle(Banner, IdLine(id), Closing(date, time));
  }

  /**
   * The fallback handler. A missing or empty id gets 400 and no attachment
   * headers; otherwise 200 with a text/plain attachment named after the id;
   * an error thrown while building the answer gets 500 and its message.
   */
  method Handler(id: Option<string>, clock: Clock) returns (reply: Reply)
    ensures (id.None? || id.value == "") ==> reply == TextReply(400, "Missing invoice ID")
    ensures id.Some? && id.value != "" && clock.Now? ==>
      && reply.status == 200
      && reply.headers == map[
           "Content-Type" := Str("text/plain"),
           "Content-Disposition" := Str("attachment; filename=\"" + AttachmentName(id.value) + "\"")]
      && reply.body == Text(FallbackBody(id.value, clock.date, clock.time))
    ensures id.Some? && id.value != "" && clock.ClockFailed? ==>
      reply == TextReply(500, "Error generating text fallback: " + clock.message)
  {
    if id.None? || id.value == "" {
      return TextReply(400, "Missing invoice ID");
    }
    match clock {
      case ClockFailed(message) =>
        reply := TextReply(500, "Error generating text fallback: " + message);
      case Now(dateStr, timeStr) =>
        var headers := map[
          "Content-Type" := Str("text/plain"),
          "Content-Disposition" := Str("attachment; filename=\"" + AttachmentName(id.value) + "\"")];
        reply := Reply(200, headers, Text(FallbackBody(id.value, dateStr, timeStr)));
    }
  }
}
