/**
  `send_email`: reads the Gmail sender address and app password from the
  environment, refuses to go on when either is missing or empty, and
  otherwise builds a plain-text message and submits it over SMTP. The SMTP
  session is not run; what it would be asked to do is part of the result,
  and how it ended is an argument.
 */
module EmailTool {
  import opened Wrappers

  /** The two environment variables, as `os.getenv` returns them: `None`
      when unset. */
  datatype Credentials = Credentials(sender: Option<string>, appPassword: Option<string>)

  /** Python truthiness of an optional string: present and not empty. */
  predicate Truthy(v: Option<string>) {
    v.Some? && v.value != ""
  }

  predicate Configured(creds: Credentials) {
    Truthy(creds.sender) && Truthy(creds.appPassword)
  }

  /** How the SMTP part ended: delivered, or an exception with its text
      (connection, STARTTLS, login or send failure). */
  datatype SmtpOutcome = Delivered | Failed(error: string)

  /** A message header: name and value. */
  datatype Header = Header(name: string, value: string)

  /** What the SMTP session is asked to do: log in, then send `body` with
      `headers` from `envelopeFrom` to each of `recipients`. */
  datatype Submission = Submission(
    login: string,
    password: string,
    envelopeFrom: string,
    recipients: seq<string>,
    headers: seq<Header>,
    body: string)

  /** The tool's reply, and the submission it attempted (`None` when it
      stopped before any SMTP step). */
  datatype EmailRun = EmailRun(reply: string, submission: Option<Submission>)

  const NotConfigured := "Error: Gmail credentials not configured."

  /** The headers of the message: From, To and Subject, and Cc only when a
      CC address was given. */
  function MessageHeaders(sender: string, toEmail: string, subject: string, ccEmail: string): (hs: seq<Header>)
    ensures |hs| == if ccEmail == "" then 3 else 4
    ensures hs[0] == Header("From", sender) && hs[1] == Header("To", toEmail)
    ensures hs[2] == Header("Subject", subject)
    ensures ccEmail != "" ==> hs[3] == Header("Cc", ccEmail)
  {
    [Header("From", sender), Header("To", toEmail), Header("Subject", subject)]
    + (if ccEmail != "" then [Header("Cc", ccEmail)] else [])
  }

  /** `addr` is named in a To or Cc header. */
  predicate Addressed(hs: seq<Header>, addr: string) {
    exists i :: 0 <= i < |hs| && (hs[i].name == "To" || hs[i].name == "Cc") && hs[i].value == addr
  }

  /** The envelope recipients that deliver to every addressee: the To
      address, then the CC address when one was given. */
  function EnvelopeRecipients(toEmail: string, ccEmail: string): (rs: seq<string>)
    ensures toEmail in rs && (ccEmail != "" ==> ccEmail in rs)
    ensures forall k :: 0 <= k < |rs| ==> rs[k] == toEmail || rs[k] == ccEmail
  {
    [toEmail] + (if ccEmail != "" then [ccEmail] else [])
  }

  /** One run of the tool, submitting to `recipients`. */
  function EmailAttempt(creds: Credentials, toEmail: string, subject: string, message: string,
                        ccEmail: string, smtp: SmtpOutcome, recipients: seq<string>): EmailRun
  {
    if !Configured(creds) then EmailRun(NotConfigured, None)
    else
      var sender := creds.sender.value;
      var submission := Submission(sender, creds.appPassword.value, sender, recipients,
                                   MessageHeaders(sender, toEmail, subject, ccEmail), message);
      match smtp
      case Delivered => EmailRun("Email sent to " + toEmail + "!", Some(submission))
      case Failed(error) => EmailRun("Failed to send email: " + error, Some(submission))
  }

  /** `send_email` as written. Missing credentials give the configuration
      error and no SMTP step; otherwise the message is submitted, to the
      To address alone, and the reply reports delivery to the To address
      or quotes the exception text. */
  function SendEmail(creds: Credentials, toEmail: string, subject: string, message: string,
                     ccEmail: string, smtp: SmtpOutcome): (run: EmailRun)
    ensures run.submission.None? <==> !Configured(creds)
    ensures !Configured(creds) ==> run.reply == NotConfigured
    ensures Configured(creds) ==> run.submission == Some(Submission(
      creds.sender.value, creds.appPassword.value, creds.sender.value,
      [toEmail],
      MessageHeaders(creds.sender.value, toEmail, subject, ccEmail), message))
    ensures Configured(creds) && smtp.Delivered? ==> run.reply == "Email sent to " + toEmail + "!"
    ensures Configured(creds) && smtp.Failed? ==> run.reply == "Failed to send email: " + smtp.error
  {
    EmailAttempt(creds, toEmail, subject, message, ccEmail, smtp, [toEmail])
  }

  /** As written, a CC address appears in the Cc header of the submitted
      message but is not one of its envelope recipients, so the SMTP
      server never delivers to it. */
  lemma CcNotDeliveredAsWritten(creds: Credentials, toEmail: string, subject: string, message: string,
                                ccEmail: string, smtp: SmtpOutcome)
    requires Configured(creds) && ccEmail != "" && ccEmail != toEmail
    ensures var run := SendEmail(creds, toEmail, subject, message, ccEmail, smtp);
      run.submission.Some?
      && Addressed(run.submission.value.headers, ccEmail)
      && ccEmail !in run.submission.value.recipients
  {
    var hs := SendEmail(creds, toEmail, subject, message, ccEmail, smtp).submission.value.headers;
    assert hs[3].name == "Cc" && hs[3].value == ccEmail;
  }

  /** `send_email` with the CC address delivered as well: the same reply
      and the same message, submitted to the To and the CC address. */
  function SendEmailCorrected(creds: Credentials, toEmail: string, subject: string, message: string,
                              ccEmail: string, smtp: SmtpOutcome): (run: EmailRun)
    ensures var asWritten := SendEmail(creds, toEmail, subject, message, ccEmail, smtp);
      run.reply == asWritten.reply
      && run.submission.Some? == asWritten.submission.Some?
      && (run.submission.Some? ==>
            run.submission.value == asWritten.submission.value.(recipients := EnvelopeRecipients(toEmail, ccEmail)))
  {
    EmailAttempt(creds, toEmail, subject, message, ccEmail, smtp, EnvelopeRecipients(toEmail, ccEmail))
  }

  /** With the correction, an address is an envelope recipient of the
      submitted message if and only if its To or Cc header names it. */
  lemma EveryAddresseeDelivered(creds: Credentials, toEmail: string, subject: string, message: string,
                                ccEmail: string, smtp: SmtpOutcome, addr: string)
    requires Configured(creds)
    ensures var sub := SendEmailCorrected(creds, toEmail, subject, message, ccEmail, smtp).submission;
      sub.Some? && (Addressed(sub.value.headers, addr) <==> addr in sub.value.recipients)
  {
    var sub := SendEmailCorrected(creds, toEmail, subject, message, ccEmail, smtp).submission.value;
    var hs := sub.headers;
    var rs := sub.recipients;
    assert hs == MessageHeaders(creds.sender.value, toEmail, subject, ccEmail);
    assert rs == EnvelopeRecipients(toEmail, ccEmail);
    if addr in rs {
      if addr == toEmail {
        assert hs[1].name == "To";
      } else {
        assert hs[3].name == "Cc";
      }
    }
    if Addressed(hs, addr) {
      var i :| 0 <= i < |hs| && (hs[i].name == "To" || hs[i].name == "Cc") && hs[i].value == addr;
      assert i == 1 || i == 3;
      assert rs[if i == 1 then 0 else 1] == addr;
    }
  }

  /** Missing credentials short-circuit: the run is the same whatever the
      message and whatever SMTP would have done. */
  lemma MissingCredentialsShortCircuit(creds: Credentials,
    to1: string, subject1: string, message1: string, cc1: string, smtp1: SmtpOutcome,
    to2: string, subject2: string, message2: string, cc2: string, smtp2: SmtpOutcome)
    requires !Configured(creds)
    ensures SendEmail(creds, to1, subject1, message1, cc1, smtp1)
         == SendEmail(creds, to2, subject2, message2, cc2, smtp2)
         == EmailRun(NotConfigured, None)
  {
  }
}
