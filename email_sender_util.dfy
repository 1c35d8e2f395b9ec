/** app/utils/email_sender_util.py: one message per lead, sent through the
    mail relay, with the outcomes tallied in a loop. The relay (SMTP,
    STARTTLS, login) is an oracle that accepts a message or names an error. */
module EmailSenderUtil {
  import opened Wrappers
  import opened PyStr
  import opened Config
  import opened CsvReader

  /** The message handed to the relay. */
  datatype Message = Message(sender: Value, to: string, subject: string, body: string)

  /** The relay's answer for one message: `None` when it was accepted,
      otherwise the text of the exception smtplib raised. */
  type Relay = (EmailConfig, Message) -> Option<string>

  datatype Status = Success | Failed

  /** The per-message record `send_single_email` returns. */
  datatype Delivery = Delivery(status: Status, email: string, message: string, error: Option<string>)

  const HeaderErrorText: string := "Header values may not contain linefeed or carriage return characters"

  /** The headers are assigned before the `try`, and the email library
      refuses a header value that spans several lines. */
  predicate HeaderRejected(sender: Value, to: string, subject: string) {
    (sender.Text? && MultiLine(sender.text)) || MultiLine(to) || MultiLine(subject)
  }

  /** `send_single_email`: a relay failure is reported as data, never
      raised; only a header value spanning lines escapes as an exception. */
  function SendSingleEmail(config: EmailConfig, relay: Relay, to: string, subject: string, body: string): (r: Result<Delivery, string>)
    ensures r.Err? <==> HeaderRejected(config.emailAddress, to, subject)
    ensures r.Err? ==> r.error == HeaderErrorText
    ensures r.Ok? ==> r.value.email == to
    ensures r.Ok? ==> (r.value.status == Success <==> relay(config, Message(config.emailAddress, to, subject, body)).None?)
    ensures r.Ok? && r.value.status == Failed ==> r.value.error == relay(config, Message(config.emailAddress, to, subject, body))
  {
    if HeaderRejected(config.emailAddress, to, subject) then Err(HeaderErrorText)
    else
      match relay(config, Message(config.emailAddress, to, subject, body))
      case None => Ok(Delivery(Success, to, "\U{2705} Sent to " + to, None))
      case Some(e) => Ok(Delivery(Failed, to, "\U{274C} Failed to send to " + to + ": " + e, Some(e)))
  }

  /** A lead with a line break inside its address makes
      `send_single_email` raise instead of reporting a failure. */
  lemma SendSingleEmailRaisesOnFoldedAddress(config: EmailConfig, relay: Relay, subject: string, body: string)
    ensures SendSingleEmail(config, relay, "a@b.example\nBcc: c@d.example", subject, body) == Err(HeaderErrorText)
  {
    var to := "a@b.example\nBcc: c@d.example";
    assert IsLineBreak(to[11]) && 11 < |to| - 1;
    MultiLineIffInnerBreak(to);
    assert MultiLine(to);
  }

  /** What one batch shares: the relay settings, the relay, the template and
      the campaign id. */
  datatype Batch = Batch(config: EmailConfig, relay: Relay, template: Option<Template>, campaignId: Option<string>)

  /** `None.get(...)`: the batch has no template. */
  const NoTemplateText: string := "'NoneType' object has no attribute 'get'"

  /** `str.replace` given a NaN business name. */
  const NameNotTextText: string := "replace() argument 2 must be str, not float"

  /** Every lead the loop is given has an email cell. */
  predicate AllAddressed(leads: seq<Row>) {
    forall i | 0 <= i < |leads| :: leads[i].email1.Some?
  }

  /** One pass of the loop body: render the template for the lead, then
      send. `Err` is what Python raises, which ends the whole loop. */
  function SendLead(b: Batch, lead: Row): (r: Result<(Message, Delivery), string>)
    requires lead.email1.Some?
    ensures b.template.None? ==> r == Err(NoTemplateText)
    ensures b.template.Some? && lead.name.None? ==> r == Err(NameNotTextText)
    ensures r.Ok? ==> r.value.1.email == lead.email1.value && b.template.Some? && lead.name.Some?
  {
    if b.template.None? then Err(NoTemplateText)
    else if lead.name.None? then Err(NameNotTextText)
    else
      var rendered := GetCustomTemplate(lead.name.value, b.template.value, b.campaignId);
      var m := Message(b.config.emailAddress, lead.email1.value, rendered.0, rendered.1);
      match SendSingleEmail(b.config, b.relay, lead.email1.value, rendered.0, rendered.1)
      case Err(e) => Err(e)
      case Ok(d) => Ok((m, d))
  }

  /** A completed pass hands the relay the rendered template from the
      batch's sender to the lead's address, and records a success exactly
      when the relay accepted that message; a pass raises only on a missing
      template, a NaN name or a header spanning lines. */
  lemma SendLeadOutcome(b: Batch, lead: Row)
    requires lead.email1.Some?
    ensures var r := SendLead(b, lead);
            r.Ok? ==> && b.template.Some? && lead.name.Some?
                      && var rendered := GetCustomTemplate(lead.name.value, b.template.value, b.campaignId);
                      && r.value.0 == Message(b.config.emailAddress, lead.email1.value, rendered.0, rendered.1)
                      && (r.value.1.status == Success <==> b.relay(b.config, r.value.0).None?)
    ensures var r := SendLead(b, lead);
            r.Err? ==> r.error in {NoTemplateText, NameNotTextText, HeaderErrorText}
  {
  }

  /** What a run of the loop leaves behind: the messages handed to the
      relay, the delivery records, and what a pass raised, if one did. */
  datatype Trace = Trace(messages: seq<Message>, details: seq<Delivery>, fault: Option<string>)

  /** The loop over a list of leads, stated lead by lead from the end: once
      a pass has raised, later leads are never reached. */
  function Run(b: Batch, leads: seq<Row>): Trace
    requires AllAddressed(leads)
    decreases |leads|
  {
    if |leads| == 0 then Trace([], [], None)
    else
      var prior := Run(b, leads[..|leads| - 1]);
      if prior.fault.Some? then prior
      else
        match SendLead(b, leads[|leads| - 1])
        case Err(e) => Trace(prior.messages, prior.details, Some(e))
        case Ok(pass) => Trace(prior.messages + [pass.0], prior.details + [pass.1], None)
  }

  /** A run is pass by pass: the first `k` leads complete, each giving its
      message and record in order, and then either every lead has been
      handled or lead `k` raised the recorded fault. */
  lemma {:induction false} RunIsPassByPass(b: Batch, leads: seq<Row>)
    requires AllAddressed(leads)
    ensures var r := Run(b, leads);
            && |r.messages| == |r.details| <= |leads|
            && (forall j | 0 <= j < |r.details| :: SendLead(b, leads[j]) == Ok((r.messages[j], r.details[j])))
            && (r.fault.None? <==> |r.details| == |leads|)
            && (r.fault.Some? ==> SendLead(b, leads[|r.details|]) == Err(r.fault.value))
    decreases |leads|
  {
    if |leads| > 0 {
      var init := leads[..|leads| - 1];
      RunIsPassByPass(b, init);
      var prior := Run(b, init);
      assert forall j | 0 <= j < |init| :: init[j] == leads[j];
    }
  }

  /** Every record of a run carries the address of its lead, in lead order. */
  lemma RunAddresses(b: Batch, leads: seq<Row>)
    requires AllAddressed(leads)
    ensures var r := Run(b, leads);
            forall j | 0 <= j < |r.details| && j < |leads| :: r.details[j].email == leads[j].email1.value
  {
    RunIsPassByPass(b, leads);
  }

  /** Once a prefix of the leads has raised, the rest of the list changes
      nothing. */
  lemma {:induction false} RunStopsAtFault(b: Batch, leads: seq<Row>, i: nat)
    requires AllAddressed(leads) && i <= |leads|
    requires Run(b, leads[..i]).fault.Some?
    ensures Run(b, leads) == Run(b, leads[..i])
    decreases |leads|
  {
    if i < |leads| {
      var init := leads[..|leads| - 1];
      assert init[..i] == leads[..i];
      RunStopsAtFault(b, init, i);
    } else {
      assert leads[..i] == leads;
    }
  }

  /** One more lead extends a run that has not raised. */
  lemma RunExtends(b: Batch, leads: seq<Row>, i: nat)
    requires AllAddressed(leads) && i < |leads|
    ensures var prior := Run(b, leads[..i]);
            prior.fault.None? ==>
              Run(b, leads[..i + 1]) == match SendLead(b, leads[i])
                                        case Err(e) => Trace(prior.messages, prior.details, Some(e))
                                        case Ok(pass) => Trace(prior.messages + [pass.0], prior.details + [pass.1], None)
  {
    assert leads[..i + 1][..i] == leads[..i];
  }

  /** The addresses whose delivery succeeded, in order. */
  function SuccessfulEmails(ds: seq<Delivery>): seq<string> {
    if |ds| == 0 then []
    else SuccessfulEmails(ds[..|ds| - 1]) + (if ds[|ds| - 1].status == Success then [ds[|ds| - 1].email] else [])
  }

  /** The addresses whose delivery failed, in order. */
  function FailedEmails(ds: seq<Delivery>): seq<string> {
    if |ds| == 0 then []
    else FailedEmails(ds[..|ds| - 1]) + (if ds[|ds| - 1].status == Failed then [ds[|ds| - 1].email] else [])
  }

  /** The address of every delivery record, in order. */
  function Addresses(ds: seq<Delivery>): seq<string> {
    seq(|ds|, i requires 0 <= i < |ds| => ds[i].email)
  }

  /** The `results` dictionary `send_bulk_emails` returns. */
  datatype BulkReport = BulkReport(totalSent: nat, totalFailed: nat, successfulEmails: seq<string>,
                                   failedEmails: seq<string>, details: seq<Delivery>)

  function Report(ds: seq<Delivery>): BulkReport {
    BulkReport(|SuccessfulEmails(ds)|, |FailedEmails(ds)|, SuccessfulEmails(ds), FailedEmails(ds), ds)
  }

  /** Every record is counted exactly once, as a success or as a failure. */
  lemma {:induction false} SuccessAndFailureCount(ds: seq<Delivery>)
    ensures |SuccessfulEmails(ds)| + |FailedEmails(ds)| == |ds|
    decreases |ds|
  {
    if |ds| > 0 {
      SuccessAndFailureCount(ds[..|ds| - 1]);
    }
  }

  /** The successful and the failed addresses together are exactly the
      addresses of the records. */
  lemma {:induction false} SuccessAndFailurePartition(ds: seq<Delivery>)
    ensures multiset(SuccessfulEmails(ds)) + multiset(FailedEmails(ds)) == multiset(Addresses(ds))
    decreases |ds|
  {
    if |ds| > 0 {
      var init, last := ds[..|ds| - 1], ds[|ds| - 1];
      SuccessAndFailurePartition(init);
      TalliesSnoc(ds);
      MultisetSnoc(Addresses(init), last.email);
      if last.status == Success {
        MultisetSnoc(SuccessfulEmails(init), last.email);
      } else {
        MultisetSnoc(FailedEmails(init), last.email);
      }
    }
  }

  /** Every tallied address, sent or failed, is the address of some record. */
  lemma TalliedAddressesAreRecorded(ds: seq<Delivery>)
    ensures forall e | e in SuccessfulEmails(ds) || e in FailedEmails(ds) ::
              exists j | 0 <= j < |ds| :: ds[j].email == e
  {
    SuccessAndFailurePartition(ds);
    forall e | e in SuccessfulEmails(ds) || e in FailedEmails(ds)
      ensures exists j | 0 <= j < |ds| :: ds[j].email == e
    {
      assert e in multiset(SuccessfulEmails(ds)) + multiset(FailedEmails(ds));
      assert e in Addresses(ds);
    }
  }

  /** How the last record extends each tally. */
  lemma TalliesSnoc(ds: seq<Delivery>)
    requires |ds| > 0
    ensures Addresses(ds) == Addresses(ds[..|ds| - 1]) + [ds[|ds| - 1].email]
    ensures ds[|ds| - 1].status == Success ==>
              SuccessfulEmails(ds) == SuccessfulEmails(ds[..|ds| - 1]) + [ds[|ds| - 1].email]
              && FailedEmails(ds) == FailedEmails(ds[..|ds| - 1])
    ensures ds[|ds| - 1].status == Failed ==>
              FailedEmails(ds) == FailedEmails(ds[..|ds| - 1]) + [ds[|ds| - 1].email]
              && SuccessfulEmails(ds) == SuccessfulEmails(ds[..|ds| - 1])
  {
    AddressesSnoc(ds);
    SuccessfulSnoc(ds);
    FailedSnoc(ds);
  }

  lemma AddressesSnoc(ds: seq<Delivery>)
    requires |ds| > 0
    ensures Addresses(ds) == Addresses(ds[..|ds| - 1]) + [ds[|ds| - 1].email]
  {
  }

  lemma SuccessfulSnoc(ds: seq<Delivery>)
    requires |ds| > 0
    ensures SuccessfulEmails(ds) == SuccessfulEmails(ds[..|ds| - 1])
                                    + (if ds[|ds| - 1].status == Success then [ds[|ds| - 1].email] else [])
  {
  }

  lemma FailedSnoc(ds: seq<Delivery>)
    requires |ds| > 0
    ensures FailedEmails(ds) == FailedEmails(ds[..|ds| - 1])
                                + (if ds[|ds| - 1].status == Failed then [ds[|ds| - 1].email] else [])
  {
  }

  lemma MultisetSnoc(s: seq<string>, e: string)
    ensures multiset(s + [e]) == multiset(s) + multiset{e}
  {
  }

  /** `send_bulk_emails`: one pass per lead in order, tallying each outcome.
      A pass that raises ends the loop and the exception propagates. It
      returns the report (or what was raised), the messages the relay was
      given, and how many pauses it took. */
  method SendBulkEmails(b: Batch, leads: seq<Row>) returns (outcome: Result<BulkReport, string>, sent: seq<Message>, pauses: nat)
    requires AllAddressed(leads)
    ensures var r := Run(b, leads);
            && sent == r.messages
            && (r.fault.Some? ==> outcome == Err(r.fault.value))
            && (r.fault.None? ==> outcome == Ok(Report(r.details)))
            && pauses == if |leads| > 1 then |r.details| else 0
  {
    var totalSent, totalFailed := 0, 0;
    var successful, failed, details := [], [], [];
    sent, pauses := [], 0;
    var i := 0;
    while i < |leads|
      invariant 0 <= i <= |leads|
      invariant Run(b, leads[..i]) == Trace(sent, details, None)
      invariant successful == SuccessfulEmails(details) && failed == FailedEmails(details)
      invariant totalSent == |successful| && totalFailed == |failed|
      invariant pauses == if |leads| > 1 then |details| else 0
    {
      var lead := leads[i];
      var email := lead.email1.value;
      RunExtends(b, leads, i);
      var pass := SendLead(b, lead);
      if pass.Err? {
        RunStopsAtFault(b, leads, i + 1);
        outcome := Err(pass.error);
        return;
      }
      var d := pass.value.1;
      sent := sent + [pass.value.0];
      var before := details;
      details := details + [d];
      assert details[..|details| - 1] == before;
      SuccessfulSnoc(details);
      FailedSnoc(details);
      if d.status == Success {
        totalSent := totalSent + 1;
        successful := successful + [email];
      } else {
        totalFailed := totalFailed + 1;
        failed := failed + [email];
      }
      if |leads| > 1 {
        pauses := pauses + 1;
      }
      i := i + 1;
    }
    assert leads[..i] == leads;
    outcome := Ok(BulkReport(totalSent, totalFailed, successful, failed, details));
  }

  /** A run that completes reports one record per lead, in lead order, each
      counted once as sent or failed, and the two address lists together
      hold every lead's address. */
  lemma BulkReportAccounts(b: Batch, leads: seq<Row>)
    requires AllAddressed(leads) && Run(b, leads).fault.None?
    ensures var r := Report(Run(b, leads).details);
            && r.totalSent + r.totalFailed == |leads|
            && r.totalSent == |r.successfulEmails| && r.totalFailed == |r.failedEmails|
            && |r.details| == |leads|
            && (forall i | 0 <= i < |leads| :: r.details[i].email == leads[i].email1.value)
            && multiset(r.successfulEmails) + multiset(r.failedEmails)
               == multiset(seq(|leads|, i requires 0 <= i < |leads| && AllAddressed(leads) => leads[i].email1.value))
  {
    var ds := Run(b, leads).details;
    RunIsPassByPass(b, leads);
    RunAddresses(b, leads);
    SuccessAndFailureCount(ds);
    SuccessAndFailurePartition(ds);
    assert Addresses(ds) == seq(|leads|, i requires 0 <= i < |leads| && AllAddressed(leads) => leads[i].email1.value);
  }
}
