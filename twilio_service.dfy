/**
 * TwilioService.send: creates one message from the configured sender to the
 * receiver and maps how the creation ended to a response. Twilio's REST
 * client is outside the model: the creator calls are returned, and what
 * `create()` did is the `CreateOutcome` parameter.
 */
module Twilio {
  import opened Wrappers
  import opened Http
  import opened Text
  import opened SmsService

  /** The injected `twilio.from-phone-number`. */
  datatype TwilioService = TwilioService(sender: string)

  /** One `Message.creator(to, from, body).create()` call. */
  datatype CreateCall = CreateCall(to: string, from: string, body: string)

  /** How `create()` ended. */
  datatype CreateOutcome =
    | Created
    | ApiFailure(message: Option<string>)   // ApiException: caught
    | OtherFailure(error: Exception)        // anything else: not caught
  // The constructor says which handler catches the exception; the class name
  // carried by `OtherFailure` is not consulted and is not constrained.

  /** What one call did: how it ended, and the creator calls made. */
  datatype TwilioResult = TwilioResult(result: Completion<ResponseEntity>, created: seq<CreateCall>)

  /** `send(smsModel)`. The request's type is never looked at. */
  function Send(service: TwilioService, model: SmsModel, outcome: CreateOutcome): (r: TwilioResult)
    ensures |r.created| == 1
    ensures r.created[0].to == model.receiver
    ensures r.created[0].from == service.sender
    ensures r.created[0].body == model.body
    ensures r.result.Throws? <==> outcome.OtherFailure?
    ensures r.result.Throws? ==> r.result.error == outcome.error
    ensures r.result.Normal? && r.result.value.status == Ok <==> outcome.Created?
    ensures outcome.ApiFailure? ==> r.result == Normal(ResponseEntity(InternalServerError, outcome.message))
  {
    var call := CreateCall(model.receiver, service.sender, model.body);
    match outcome
    case Created =>
      TwilioResult(Normal(ResponseEntity(Ok, Some("SMS sent successfully to " + model.receiver))), [call])
    case ApiFailure(message) =>
      TwilioResult(Normal(ResponseEntity(InternalServerError, message)), [call])
    case OtherFailure(e) =>
      TwilioResult(Throws(e), [call])
  }

  /** There is no type precondition: a request with or without a type is sent the same way. */
  lemma TypeIgnored(service: TwilioService, model: SmsModel, smsType: Option<string>, outcome: CreateOutcome)
    ensures Send(service, model.(smsType := smsType), outcome) == Send(service, model, outcome)
    ensures Send(service, model.(smsType := None), Created).result.Normal?
    ensures Send(service, model.(smsType := None), Created).result.value.status == Ok
  {
  }

  /** A successful creation is 200 "SMS sent successfully to <receiver>". */
  lemma CreatedResponse(service: TwilioService, model: SmsModel)
    ensures var r := Send(service, model, Created).result;
      && r.Normal? && r.value.body == Some("SMS sent successfully to " + model.receiver)
      && Occurs(model.receiver, r.value.body.value)
  {
    OccursBetween("SMS sent successfully to ", model.receiver, []);
    assert "SMS sent successfully to " + model.receiver == "SMS sent successfully to " + model.receiver + [];
  }
}
