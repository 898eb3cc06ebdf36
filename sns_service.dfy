/**
 * SnsService.send: refuses a request without a type, otherwise builds one
 * publish request and maps how the publish ended to a response. The SNS
 * client is outside the model: the requests handed to it are returned, and
 * what its `publish` did is the `PublishOutcome` parameter.
 */
module Sns {
  import opened Wrappers
  import opened Http
  import opened Text
  import opened SmsService

  const SmsTypeAttribute := "AWS.SNS.SMS.SMSType"

  const TypeRequired := "SMS 'type' attribute is required."

  datatype MessageAttributeValue = MessageAttributeValue(stringValue: string, dataType: string)

  datatype PublishRequest = PublishRequest(
    phoneNumber: string,
    message: string,
    messageAttributes: map<string, MessageAttributeValue>)

  /** How `snsClient.publish` ended: every exception is caught, with its nullable message. */
  datatype PublishOutcome = Published | PublishFailed(message: Option<string>)

  /** What one call did: the response, and the publish requests handed to the client. */
  datatype SnsResult = SnsResult(response: ResponseEntity, published: seq<PublishRequest>)

  /** The request built once the type is known. */
  function BuildRequest(model: SmsModel, smsType: string): PublishRequest
  {
    PublishRequest(model.receiver, model.body,
      map[SmsTypeAttribute := MessageAttributeValue(smsType, "String")])
  }

  /** `send(smsModel)`. */
  function Send(model: SmsModel, outcome: PublishOutcome): (r: SnsResult)
    ensures model.smsType.None? <==> r.published == []
    ensures model.smsType.None? ==> r.response == ResponseEntity(BadRequest, Some(TypeRequired))
    ensures model.smsType.Some? ==> |r.published| == 1
    ensures r.response.status == Ok <==> model.smsType.Some? && outcome.Published?
    ensures model.smsType.Some? && outcome.PublishFailed? ==>
              r.response == ResponseEntity(InternalServerError, outcome.message)
  {
    match model.smsType
    case None => SnsResult(ResponseEntity(BadRequest, Some(TypeRequired)), [])
    case Some(smsType) =>
      var request := BuildRequest(model, smsType);
      match outcome
      case Published =>
        SnsResult(ResponseEntity(Ok, Some("SMS sent successfully to " + model.receiver)), [request])
      case PublishFailed(message) =>
        SnsResult(ResponseEntity(InternalServerError, message), [request])
  }

  /** Without a type nothing is published and the answer does not depend on the client. */
  lemma MissingTypePublishesNothing(model: SmsModel, o1: PublishOutcome, o2: PublishOutcome)
    requires model.smsType.None?
    ensures Send(model, o1).published == []
    ensures Send(model, o1) == Send(model, o2)
    ensures Send(model, o1).response.status.Code() == 400
  {
  }

  /**
   * With a type, the one request carries the receiver as phone number, the
   * body as message, and exactly one attribute: the type, as a String.
   */
  lemma PublishedRequest(model: SmsModel, outcome: PublishOutcome)
    requires model.smsType.Some?
    ensures var req := Send(model, outcome).published[0];
      && req.phoneNumber == model.receiver
      && req.message == model.body
      && req.messageAttributes.Keys == {SmsTypeAttribute}
      && |req.messageAttributes| == 1
      && req.messageAttributes[SmsTypeAttribute].stringValue == model.smsType.value
      && req.messageAttributes[SmsTypeAttribute].dataType == "String"
  {
  }

  /** A successful publish is 200 "SMS sent successfully to <receiver>". */
  lemma PublishedResponse(model: SmsModel)
    requires model.smsType.Some?
    ensures var r := Send(model, Published).response;
      && r.body == Some("SMS sent successfully to " + model.receiver)
      && Occurs(model.receiver, r.body.value)
  {
    OccursBetween("SMS sent successfully to ", model.receiver, []);
    assert "SMS sent successfully to " + model.receiver == "SMS sent successfully to " + model.receiver + [];
  }
}
