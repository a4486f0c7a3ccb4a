/**
 * The two notification e-mails: their recipient, sender, subject and plain-text body,
 * and the status tables of the status-update mail. The transport is a collaborator
 * whose result is an argument.
 */
module EmailService {
  import opened Wrappers
  import opened Text

  datatype EmailMessage = EmailMessage(to: string, from: string, subject: string, text: string)

  const SiteUrl := "https://opphub-opportunity-aggregator-mr7k0y5s.sites.blink.new"

  /** The deadline reminder; `formattedDeadline` is the deadline rendered as a long en-US date. */
  function DeadlineReminderEmail(userEmail: string, userName: string, title: string, formattedDeadline: string,
                                 applyUrl: string): (m: EmailMessage)
    ensures m.to == userEmail && m.from == "reminders@opphub.com"
    ensures m.subject == "\U{23F0} Deadline Reminder: " + title
    ensures Contains(m.text, "Hi " + userName + "!")
    ensures Contains(m.text, "\"" + title + "\"")
    ensures Contains(m.text, "Deadline: " + formattedDeadline)
    ensures Contains(m.text, "Apply now: " + applyUrl)
  {
    var parts := [
      "\n",
      "Hi " + userName + "!",
      "\n\nThis is a friendly reminder that the application deadline for ",
      "\"" + title + "\"",
      " is approaching soon.\n\n",
      "Deadline: " + formattedDeadline,
      "\n\nDon't miss out on this opportunity! Make sure to submit your application before the deadline.\n\n",
      "Apply now: " + applyUrl,
      "\n\n---\nThis reminder was sent by OppHub - Your unified opportunity aggregator\nVisit: " + SiteUrl + "\n    "
    ];
    JoinContainsEach(parts, "", 1);
    JoinContainsEach(parts, "", 3);
    JoinContainsEach(parts, "", 5);
    JoinContainsEach(parts, "", 7);
    EmailMessage(userEmail, "reminders@opphub.com", "\U{23F0} Deadline Reminder: " + title, Join(parts, ""))
  }

  /** The status-update mail's text line `Status Updated: old → new`. */
  function StatusLine(oldStatus: string, newStatus: string): string {
    "Status Updated: " + oldStatus + " → " + newStatus
  }

  /** The status update. */
  function StatusUpdateEmail(userEmail: string, userName: string, title: string, oldStatus: string,
                             newStatus: string): (m: EmailMessage)
    ensures m.to == userEmail && m.from == "updates@opphub.com"
    ensures m.subject == "\U{1F4EC} Application Update: " + title
    ensures Contains(m.text, "\"" + title + "\"")
    ensures Contains(m.text, StatusLine(oldStatus, newStatus))
  {
    var parts := [
      "\nHi " + userName + "!\n\nGreat news! There's an update on your application for ",
      "\"" + title + "\"",
      ".\n\n",
      StatusLine(oldStatus, newStatus),
      "\n\nKeep track of all your applications in your personal dashboard.\n\nVisit your dashboard: " + SiteUrl +
      "\n\n---\nThis update was sent by OppHub - Your unified opportunity aggregator\n    "
    ];
    JoinContainsEach(parts, "", 1);
    JoinContainsEach(parts, "", 3);
    EmailMessage(userEmail, "updates@opphub.com", "\U{1F4EC} Application Update: " + title, Join(parts, ""))
  }

  /** `statusEmoji[newStatus]`: defined for the four statuses, `undefined` (no error) otherwise. */
  function StatusEmoji(status: string): (r: Option<string>)
    ensures r.Some? <==> status in {"applied", "shortlisted", "accepted", "rejected"}
  {
    match status
    case "applied" => Some("\U{1F4DD}")
    case "shortlisted" => Some("\U{1F3AF}")
    case "accepted" => Some("\U{1F389}")
    case "rejected" => Some("\U{1F614}")
    case _ => None
  }

  /** `statusColor[newStatus]`: defined for the four statuses, `undefined` otherwise. */
  function StatusColor(status: string): (r: Option<string>)
    ensures r.Some? <==> status in {"applied", "shortlisted", "accepted", "rejected"}
  {
    match status
    case "applied" => Some("#3b82f6")
    case "shortlisted" => Some("#f59e0b")
    case "accepted" => Some("#10b981")
    case "rejected" => Some("#ef4444")
    case _ => None
  }

  /** The two tables cover the same statuses and give each a different emoji and colour. */
  lemma StatusTablesAgree(s: string, t: string)
    ensures StatusEmoji(s).Some? <==> StatusColor(s).Some?
    ensures StatusEmoji(s).Some? && StatusEmoji(t).Some? && s != t ==>
      StatusEmoji(s) != StatusEmoji(t) && StatusColor(s) != StatusColor(t)
  {
  }

  /**
   * `sendDeadlineReminder`: hands the reminder to the transport and returns the
   * transport's result, or passes its error on unchanged.
   */
  method SendDeadlineReminder<R>(userEmail: string, userName: string, title: string, deadline: string,
                                 applyUrl: string, formatLongDate: string -> string, transport: Result<R, string>)
    returns (sent: EmailMessage, r: Result<R, string>)
    ensures sent == DeadlineReminderEmail(userEmail, userName, title, formatLongDate(deadline), applyUrl)
    ensures r == transport
  {
    sent := DeadlineReminderEmail(userEmail, userName, title, formatLongDate(deadline), applyUrl);
    r := transport;
  }

  /** `sendApplicationStatusUpdate`: as above, for the status-update mail. */
  method SendApplicationStatusUpdate<R>(userEmail: string, userName: string, title: string, oldStatus: string,
                                        newStatus: string, transport: Result<R, string>)
    returns (sent: EmailMessage, r: Result<R, string>)
    ensures sent == StatusUpdateEmail(userEmail, userName, title, oldStatus, newStatus)
    ensures r == transport
  {
    sent := StatusUpdateEmail(userEmail, userName, title, oldStatus, newStatus);
    r := transport;
  }
}
