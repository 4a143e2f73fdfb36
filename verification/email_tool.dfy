/**
 * The email tool: the text of a confirmation email, the record kept for each email
 * sent, and the reply naming the action, the recipient and the email's number.
 */
module Email {
  import opened Wrappers
  import opened Strings

  /** A local clock reading, as `DateTime.Now` gives it. */
  datatype DateTime = DateTime(year: nat, month: nat, day: nat, hour: nat, minute: nat, second: nat)

  predicate ValidDateTime(t: DateTime) {
    1 <= t.year <= 9999 && 1 <= t.month <= 12 && 1 <= t.day <= 31 && t.hour < 24 && t.minute < 60 && t.second < 60
  }

  /** `ToString("yyyy-MM-dd HH:mm:ss")`. */
  function FormatDate(t: DateTime): string {
    Padded(t.year, 4) + "-" + Padded(t.month, 2) + "-" + Padded(t.day, 2) + " " +
    Padded(t.hour, 2) + ":" + Padded(t.minute, 2) + ":" + Padded(t.second, 2)
  }

  /** Fields of widths 4, 2, 2, 2, 2, 2 joined by "-", "-", " ", ":", ":" give 19 characters with the separators in fixed places. */
  lemma Layout(y: string, mo: string, d: string, h: string, mi: string, s: string)
    requires |y| == 4 && |mo| == 2 && |d| == 2 && |h| == 2 && |mi| == 2 && |s| == 2
    ensures var r := y + "-" + mo + "-" + d + " " + h + ":" + mi + ":" + s;
      |r| == 19 && r[4] == '-' && r[7] == '-' && r[10] == ' ' && r[13] == ':' && r[16] == ':'
  {
    var date := y + "-" + mo + "-" + d;
    var time := h + ":" + mi + ":" + s;
    assert |date| == 10 && date[4] == '-' && date[7] == '-';
    assert |time| == 8 && time[2] == ':' && time[5] == ':';
    assert y + "-" + mo + "-" + d + " " + h + ":" + mi + ":" + s == date + " " + time;
  }

  /** A valid reading formats to 19 characters with its separators in fixed places. */
  lemma FormatDateShape(t: DateTime)
    requires ValidDateTime(t)
    ensures |FormatDate(t)| == 19
    ensures FormatDate(t)[4] == '-' && FormatDate(t)[7] == '-' && FormatDate(t)[10] == ' '
    ensures FormatDate(t)[13] == ':' && FormatDate(t)[16] == ':'
  {
    PaddedLength(t.year, 4, 10000);
    PaddedLength(t.month, 2, 100);
    PaddedLength(t.day, 2, 100);
    PaddedLength(t.hour, 2, 100);
    PaddedLength(t.minute, 2, 100);
    PaddedLength(t.second, 2, 100);
    Layout(Padded(t.year, 4), Padded(t.month, 2), Padded(t.day, 2), Padded(t.hour, 2), Padded(t.minute, 2), Padded(t.second, 2));
  }

  const Closing: string :=
    "\n\nIf you have any questions, please contact our customer service.\n\nBest regards,\nYour Healthcare Provider"

  function Head(action: string, details: string, date: string): string {
    "Dear Patient,\n\nThis is a confirmation that your " + action + " has been successfully completed.\n\nDetails: "
      + details + "\n\nDate: " + date
  }

  const FeedbackIntro: string := "\n\nYour feedback: "
  const FeedbackThanks: string :=
    "\n\nThank you for your input. We value your opinion and will use it to improve our services."

  function FeedbackBlock(feedback: string): string {
    FeedbackIntro + feedback + FeedbackThanks
  }

  /**
   * The email text: the greeting and action, details and date; the feedback paragraph
   * only for non-empty feedback; then the closing.
   */
  function EmailContent(action: string, details: string, date: string, feedback: Option<string>): (r: string)
    ensures StartsWith(r, Head(action, details, date))
    ensures |r| >= |Closing| && r[|r| - |Closing|..] == Closing
    ensures |r| == |Head(action, details, date)| + |Closing| <==> feedback.None? || feedback.value == ""
  {
    var head := Head(action, details, date);
    var block := if feedback.Some? && feedback.value != "" then FeedbackBlock(feedback.value) else "";
    AppendShape(head, block, Closing);
    head + block + Closing
  }

  /** Non-empty feedback is quoted in the email, right after the date. */
  lemma FeedbackQuoted(action: string, details: string, date: string, feedback: string)
    requires feedback != ""
    ensures var r := EmailContent(action, details, date, Some(feedback));
      var at := |Head(action, details, date)| + |FeedbackIntro|;
      |r| >= at + |feedback| && r[at..at + |feedback|] == feedback
  {
    InfixAt(Head(action, details, date), FeedbackIntro, feedback, FeedbackThanks, Closing);
  }

  /** One stored email. */
  datatype EmailRecord = EmailRecord(recipient: string, subject: string, content: string, timestamp: string)

  /** The reply: success, a message, and the email's number. */
  datatype SendResult = SendResult(success: bool, message: string, emailId: nat)

  class EmailTool {
    /** `_sentEmails`, in the order sent. */
    var sentEmails: seq<EmailRecord>

    constructor ()
      ensures sentEmails == []
    {
      sentEmails := [];
    }

    /**
     * `SendConfirmationEmail`: stores the email and reports success with a number that is
     * the stored record's position counted from 1.
     */
    method SendConfirmationEmail(emailAddress: string, action: string, details: string, feedback: Option<string>, now: DateTime)
      returns (result: SendResult)
      modifies this
      ensures sentEmails == old(sentEmails) + [EmailRecord(emailAddress, "Confirmation: " + action,
        EmailContent(action, details, FormatDate(now), feedback), FormatDate(now))]
      ensures result.success
      ensures result.message == "Confirmation email for " + action + " sent to " + emailAddress
      ensures 1 <= result.emailId == |sentEmails| && result.emailId == |old(sentEmails)| + 1
      ensures sentEmails[result.emailId - 1].recipient == emailAddress
    {
      var currentDate := FormatDate(now);
      var emailContent := EmailContent(action, details, currentDate, feedback);
      sentEmails := sentEmails + [EmailRecord(emailAddress, "Confirmation: " + action, emailContent, currentDate)];
      result := SendResult(true, "Confirmation email for " + action + " sent to " + emailAddress, |sentEmails|);
    }
  }
}
