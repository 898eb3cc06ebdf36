/**
 * EmailService.send: picks a mail sender and a From address by channel,
 * builds the MIME message, sends it once and maps how the send ended to a
 * response. The mail senders themselves are outside the model: which one was
 * used is recorded in the returned `MailCall`s, and what its `send` did is the
 * `MailOutcome` parameter.
 */
module Email {
  import opened Wrappers
  import opened Http
  import opened Text
  import opened Mime

  datatype EmailChannel = Aws | Smtp

  datatype EmailBody = EmailBody(plainMessage: string, htmlMessage: Option<string>)

  datatype EmailModel = EmailModel(receiver: string, body: EmailBody, subject: string, channel: EmailChannel)

  /** The two injected `JavaMailSender` beans. */
  datatype MailSender = SesMailSender | SmtpMailSender

  /** The injected sender addresses: `cloud.aws.sender` and `spring.mail.username`. */
  datatype EmailService = EmailService(awsSender: string, smtpSender: string)

  /** The sender picked for a channel, with the From address that goes with it. */
  datatype SenderChoice = SenderChoice(sender: MailSender, address: string)

  /** A call on a mail sender: `createMimeMessage()`, or `send` with the message handed over. */
  datatype MailCall =
    | CreateMimeMessage(via: MailSender)
    | SendMessage(via: MailSender, message: MessageValue)

  /** How `mailSender.send` ended. */
  datatype MailOutcome =
    | Delivered
    | AuthenticationFailed(message: Option<string>)   // MailAuthenticationException
    | SendFailed(message: Option<string>)             // MailSendException
    | OtherMailFailure(message: Option<string>)       // any other MailException
    | NonMailFailure(error: Exception)                // not a MailException: not caught
  // The constructor says which handler catches the exception; the class name
  // carried by `NonMailFailure` is not consulted and is not constrained.

  /** The `when (channel)` at the head of `send`. */
  function Select(service: EmailService, channel: EmailChannel): (choice: SenderChoice)
    ensures choice.sender == SesMailSender <==> channel == Aws
    ensures choice.address == if choice.sender == SesMailSender then service.awsSender else service.smtpSender
  {
    match channel
    case Aws => SenderChoice(SesMailSender, service.awsSender)
    case Smtp => SenderChoice(SmtpMailSender, service.smtpSender)
  }

  /** The try/catch around `mailSender.send`: the first handler that matches decides. */
  function SendResponse(model: EmailModel, senderAddress: string, outcome: MailOutcome): (r: Completion<ResponseEntity>)
    ensures r.Throws? <==> outcome.NonMailFailure?
    ensures r.Throws? ==> r.error == outcome.error
    ensures r.Normal? ==> r.value.status != BadRequest
    ensures r.Normal? && r.value.status == Ok <==> outcome.Delivered?
    ensures r.Normal? && r.value.status == Unauthorized <==> outcome.AuthenticationFailed?
    ensures r.Normal? && r.value.status == InternalServerError <==> outcome.SendFailed? || outcome.OtherMailFailure?
    ensures outcome.OtherMailFailure? ==> r == Normal(ResponseEntity(InternalServerError, outcome.message))
  {
    match outcome
    case Delivered =>
      Normal(ResponseEntity(Ok, Some("Mail sent successfully to " + model.receiver + " with subject " + model.subject)))
    case AuthenticationFailed(_) =>
      Normal(ResponseEntity(Unauthorized, Some("Authentication of user " + senderAddress + " failed")))
    case SendFailed(_) =>
      Normal(ResponseEntity(InternalServerError, Some("Mail failed to sent to " + model.receiver + " with subject " + model.subject)))
    case OtherMailFailure(message) =>
      Normal(ResponseEntity(InternalServerError, message))
    case NonMailFailure(e) =>
      Throws(e)
  }

  /**
   * `send(emailModel)`: the selected sender creates a fresh MimeMessage, the
   * message is built on it step by step, it is handed once to the same sender, and the outcome of that
   * send is mapped to the response.
   */
  method Send(service: EmailService, model: EmailModel, outcome: MailOutcome)
    returns (result: Completion<ResponseEntity>, calls: seq<MailCall>)
    ensures |calls| == 2
    ensures calls[0] == CreateMimeMessage(Select(service, model.channel).sender)
    ensures calls[1].SendMessage? && calls[1].via == Select(service, model.channel).sender
    ensures forall i | 0 <= i < |calls| :: calls[i].via == Select(service, model.channel).sender
    ensures calls[1].message.from == Some(Select(service, model.channel).address)
    ensures calls[1].message.to == [model.receiver]
    ensures calls[1].message.subject == Some(model.subject)
    ensures calls[1].message.content.Some?
    ensures PlainPart(calls[1].message.content.value) == Some(model.body.plainMessage)
    ensures HtmlPart(calls[1].message.content.value) == model.body.htmlMessage
    ensures calls[1].message.content.value.Alternative? <==> model.body.htmlMessage.Some?
    ensures result == SendResponse(model, Select(service, model.channel).address, outcome)
  {
    var choice := Select(service, model.channel);
    var mimeMessage := new MimeMessage();
    mimeMessage.SetFrom(choice.address);
    mimeMessage.SetTo(model.receiver);
    mimeMessage.SetSubject(model.subject);
    match model.body.htmlMessage {
      case Some(html) => mimeMessage.SetAlternative(model.body.plainMessage, html);
      case None => mimeMessage.SetText(model.body.plainMessage, false);
    }
    calls := [CreateMimeMessage(choice.sender), SendMessage(choice.sender, mimeMessage.Value())];
    result := SendResponse(model, choice.address, outcome);
  }

  /** A successful send names the receiver and the subject, in the code's wording (no trailing '.'). */
  lemma DeliveredResponse(model: EmailModel, senderAddress: string)
    ensures var r := SendResponse(model, senderAddress, Delivered);
      && r.Normal? && r.value.status == Ok && r.value.body.Some?
      && r.value.body.value == "Mail sent successfully to " + model.receiver + " with subject " + model.subject
      && Occurs(model.receiver, r.value.body.value)
      && Occurs(model.subject, r.value.body.value)
  {
    OccursBetween("Mail sent successfully to ", model.receiver, " with subject " + model.subject);
    assert "Mail sent successfully to " + model.receiver + " with subject " + model.subject
        == "Mail sent successfully to " + model.receiver + (" with subject " + model.subject);
    assert "Mail sent successfully to " + model.receiver + " with subject " + model.subject
        == ("Mail sent successfully to " + model.receiver + " with subject ") + model.subject + [];
    OccursBetween("Mail sent successfully to " + model.receiver + " with subject ", model.subject, []);
  }

  /**
   * An authentication failure is 401 and names the sender address; the body
   * depends on nothing else: not on the receiver, the subject, the text or the
   * exception's own message.
   */
  lemma AuthenticationFailedResponse(model: EmailModel, other: EmailModel, senderAddress: string, m1: Option<string>, m2: Option<string>)
    ensures var r := SendResponse(model, senderAddress, AuthenticationFailed(m1));
      && r.Normal? && r.value.status == Unauthorized && r.value.body.Some?
      && r.value.body.value == "Authentication of user " + senderAddress + " failed"
      && Occurs(senderAddress, r.value.body.value)
      && r == SendResponse(other, senderAddress, AuthenticationFailed(m2))
  {
    OccursBetween("Authentication of user ", senderAddress, " failed");
  }

  /** A send failure is 500 and names the receiver and the subject; the exception's message is dropped. */
  lemma SendFailedResponse(model: EmailModel, senderAddress: string, m: Option<string>)
    ensures var r := SendResponse(model, senderAddress, SendFailed(m));
      && r.Normal? && r.value.status == InternalServerError && r.value.body.Some?
      && r.value.body.value == "Mail failed to sent to " + model.receiver + " with subject " + model.subject
      && Occurs(model.receiver, r.value.body.value)
      && Occurs(model.subject, r.value.body.value)
      && r == SendResponse(model, senderAddress, SendFailed(None))
  {
    OccursBetween("Mail failed to sent to ", model.receiver, " with subject " + model.subject);
    assert "Mail failed to sent to " + model.receiver + " with subject " + model.subject
        == "Mail failed to sent to " + model.receiver + (" with subject " + model.subject);
    assert "Mail failed to sent to " + model.receiver + " with subject " + model.subject
        == ("Mail failed to sent to " + model.receiver + " with subject ") + model.subject + [];
    OccursBetween("Mail failed to sent to " + model.receiver + " with subject ", model.subject, []);
  }

  /** The sender and address that were not selected play no part: changing them changes nothing chosen. */
  lemma UnselectedSenderUnused(service: EmailService, other: EmailService, model: EmailModel)
    requires model.channel == Aws ==> other.awsSender == service.awsSender
    requires model.channel == Smtp ==> other.smtpSender == service.smtpSender
    ensures Select(other, model.channel) == Select(service, model.channel)
  {
  }
}
