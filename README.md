# Notification service adapters, modelled in Dafny

The notification service is a Spring Boot gateway that forwards an email, an
SMS or a push notification to a provider SDK: JavaMail (through Amazon SES or
an SMTP server), Amazon SNS, Twilio, or a push provider. What the service owns
is the decision logic around each SDK call and the shaping of push payloads.
This project models that logic.

- `Email` (`email_service.dfy`): `EmailService.send`. It picks the SES or
  the SMTP mail sender by channel, together with the From address that belongs
  to it. It builds the MIME message, sends it once and maps the result of the
  send to a response. Success gives 200. An authentication failure gives 401
  and names the sender address. A send failure gives 500 and names the
  receiver and subject. Any other mail error gives 500 with the exception's
  own message. Anything that is not a mail exception escapes.
- `Mime` (`mime.dfy`): the message the service builds step by step. A class
  whose setters (`SetFrom`, `SetTo`, `SetSubject`, `SetText`,
  `SetAlternative`) change its fields in place. `PlainPart` and `HtmlPart`
  read the text/plain and text/html parts back, as a reader of the finished
  message would.
- `Sns` (`sns_service.dfy`): `SnsService.send`. A request without a type gets
  400 and nothing is published. Otherwise exactly one publish request is made
  from the receiver, the body and the single `AWS.SNS.SMS.SMSType` attribute.
  Success gives 200, and every exception gives 500 with its message.
- `Twilio` (`twilio_service.dfy`): `TwilioService.send`. It makes exactly
  one creator call (to the receiver, from the configured sender, with the
  body) and has no type check. Success gives 200, an `ApiException` gives 500
  with its message, and any other exception escapes.
- `SmsService` (`sms_service.dfy`): the SMS request as the adapters read it,
  the `SmsResponse` result record, and `validatePhoneNumber`. The
  `SmsResponse` status is the two-valued `SmsStatus` (`Success`, `Failed`),
  so every response has a receiver, a message and exactly one of the two
  statuses by construction.
- `Push`, `Fcm`, `Apns` (`push_model.dfy`, `fcm_model.dfy`,
  `apns_model.dfy`): the push request and the two payloads built from it by
  the `FCMModel(pushModel)` and `APNSModel(pushModel)` constructors.
- `Http`, `Wrappers`, `Text`: shared vocabulary. `Http` holds the HTTP status,
  a response whose body may be null, exceptions, and `Completion` (a call
  either returns or throws). `Wrappers` holds `Option`, which stands for
  Kotlin's nullable types. `Text` holds `Occurs`, which says that one string
  is found inside another, and a lemma by induction that whatever is spliced
  into a message template occurs in the result.

Every SDK call is replaced by an outcome parameter: `MailOutcome`,
`PublishOutcome` and `CreateOutcome`. Each adapter returns its response (or
the exception that escapes) together with the transport calls it made. This
lets the contracts say how many calls were made, through which sender, and
with what content. The phone number library is a value of type
`PhoneNumberUtil` whose `parse` and `isValidNumber` are function-typed fields.
The model therefore assumes nothing about which numbers the library accepts.

The request's `type` attribute is called `smsType` here, because `type` is a
Dafny keyword.

## Where the code and its tests disagree

The model follows the main code:

- The code's success message for email has no trailing "."
  (`EmailService.kt:54`). `EmailServiceTest.kt:113` expects one.
- An email authentication failure gives 401 "Authentication of user
  <sender> failed" (`EmailService.kt:55-56`). `EmailServiceTest.kt:134,146`
  expect 500 "Authentication of server configurations failed.".
- `SnsServiceTest.kt:94-162` uses a receiver list and `formattedReceivers`,
  and `TwilioServiceTest.kt:110` reads a `formattedReceiver`. The code shown
  sends to one `receiver` as given.
- `TwilioServiceTest.kt:65` expects "SMS sent successfully to <receiver>."
  with a trailing ".". `TwilioService.kt:31` has none.
- `SnsServiceTest.kt:113` expects 200 when the publish fails.
  `SnsService.kt:38-39` answers 500 with the exception's message.
- `SmsModel.kt:3-7` declares a `channel` and no `type`. `SnsService.kt:18`
  reads `type`. Both adapters are modelled as their own code reads the
  request: receiver, body and an optional type.
- `SmsService.kt:6-7` declares an abstract class whose `send` returns a list
  of `SmsResponse`. The adapters implement it as an interface whose `send`
  returns a `ResponseEntity<String>`. Each adapter is modelled as its own code
  is written.

## Model

| member | source | states |
|---|---|---|
| `Email.Select` | src/main/kotlin/com/valensas/notificationservice/service/EmailService.kt:28-39 | The SES sender is chosen exactly when the channel is AWS. The From address is always the one that belongs to the chosen sender (`awsSender` for SES, `smtpSender` for SMTP). |
| `Email.UnselectedSenderUnused` | src/main/kotlin/com/valensas/notificationservice/service/EmailService.kt:28-39 | The sender and address that belong to the other channel never affect the choice (sender and From address) made for this one. |
| `Email.Send` | src/main/kotlin/com/valensas/notificationservice/service/EmailService.kt:27-63 | Exactly two calls are made on mail senders, both on the selected one: `createMimeMessage` and then one send. The message sent has From = selected address, To = exactly the receiver, and Subject = the subject. Its text/plain part is the plain message and its text/html part is the HTML message, which is absent when the HTML message is null. The body is multipart/alternative exactly when an HTML message is present. The response is the outcome mapping `SendResponse`. |
| `Email.SendResponse` | src/main/kotlin/com/valensas/notificationservice/service/EmailService.kt:52-63 | 200 exactly on delivery. 401 exactly on an authentication failure. 500 exactly on a send failure or another mail error, where another mail error gives the exception's message verbatim (possibly null). An exception escapes exactly when it is not a mail exception, and it escapes unchanged. |
| `Email.DeliveredResponse` | src/main/kotlin/com/valensas/notificationservice/service/EmailService.kt:54 | The success body is "Mail sent successfully to <receiver> with subject <subject>" (no trailing "."), and the receiver and the subject both occur in it. |
| `Email.AuthenticationFailedResponse` | src/main/kotlin/com/valensas/notificationservice/service/EmailService.kt:55-56 | 401 with "Authentication of user <senderAddress> failed". The sender address occurs in the body. The response is the same for any receiver, subject, text or exception message. |
| `Email.SendFailedResponse` | src/main/kotlin/com/valensas/notificationservice/service/EmailService.kt:57-60 | 500 with "Mail failed to sent to <receiver> with subject <subject>". The receiver and the subject occur in the body. The exception's message is dropped. |
| `Mime.MimeMessage.SetAlternative` | src/main/kotlin/com/valensas/notificationservice/service/EmailService.kt:48-49 | Only the body changes. It becomes a plain part and an HTML part, and both read back unchanged. |
| `Mime.MimeMessage.SetText` | src/main/kotlin/com/valensas/notificationservice/service/EmailService.kt:50 | Only the body changes. It becomes one part of the given type: with the HTML flag false, the text reads back as the plain part and there is no HTML part. |
| `Sns.Send` | src/main/kotlin/com/valensas/notificationservice/service/SnsService.kt:17-41 | Nothing is published exactly when the type is absent, and then the response is 400 "SMS 'type' attribute is required.". With a type, exactly one request is published. The response is 200 exactly when a type is present and the publish succeeds. A failed publish gives 500 with the exception's message (possibly null). |
| `Sns.MissingTypePublishesNothing` | src/main/kotlin/com/valensas/notificationservice/service/SnsService.kt:18 | Without a type, no request is published, the status code is 400, and the result is the same whatever the client would have done. |
| `Sns.PublishedRequest` | src/main/kotlin/com/valensas/notificationservice/service/SnsService.kt:20-33 | The published request has phone number = receiver and message = body. It has exactly one message attribute, `AWS.SNS.SMS.SMSType`, whose string value is the type and whose data type is "String". |
| `Sns.PublishedResponse` | src/main/kotlin/com/valensas/notificationservice/service/SnsService.kt:35-37 | A successful publish answers "SMS sent successfully to <receiver>", and the receiver occurs in it. |
| `Twilio.Send` | src/main/kotlin/com/valensas/notificationservice/service/TwilioService.kt:22-36 | Exactly one creator call is made, with to = receiver, from = configured sender and body = body. 200 exactly on success. An `ApiException` gives 500 with its message. Any other exception escapes unchanged, and an exception escapes exactly then. |
| `Twilio.TypeIgnored` | src/main/kotlin/com/valensas/notificationservice/service/TwilioService.kt:22-36 | The type does not change anything the call does. A request with no type is still sent and answers 200 on success. |
| `Twilio.CreatedResponse` | src/main/kotlin/com/valensas/notificationservice/service/TwilioService.kt:30-32 | A successful creation answers "SMS sent successfully to <receiver>", and the receiver occurs in it. |
| `SmsService.ValidatePhoneNumber` | src/main/kotlin/com/valensas/notificationservice/service/SmsService.kt:9-15 | A parse error with the default region escapes unchanged. A parsed number passes exactly when the library calls it valid. The only other way to fail is the invalid-number exception. |
| `SmsService.ValidationUsesDefaultRegion` | src/main/kotlin/com/valensas/notificationservice/service/SmsService.kt:10-11 | Only the parse with region "TR" matters: two libraries that agree on it, and on validity, give the same verdict. |
| `SmsService.InvalidNumberMessage` | src/main/kotlin/com/valensas/notificationservice/service/SmsService.kt:12-13 | A parsed number that the library rejects throws an `IllegalArgumentException` with exactly "Invalid phone number.". |
| `Fcm.RoundTrip` | src/main/kotlin/com/valensas/notificationservice/model/FCMModel.kt:6-15 | The payload's token, notification title and notification body are the request's token, title and body. Mapping back (with the dropped channel) gives back the request, and the payload of that request is the payload. |
| `Fcm.SameFields` | src/main/kotlin/com/valensas/notificationservice/model/FCMModel.kt:6-15 | Two requests give the same payload if and only if they agree on token, title and body. The channel never matters. |
| `Apns.RoundTrip` | src/main/kotlin/com/valensas/notificationservice/model/APNSModel.kt:6-13 | The alert's title and body are the request's title and body. Mapping back (with the dropped token and channel) gives back the request, and the payload of that request is the payload. |
| `Apns.SameFields` | src/main/kotlin/com/valensas/notificationservice/model/APNSModel.kt:6-13 | Two requests give the same payload if and only if they agree on title and body. The token and the channel never matter. |

## Left out

- The SDKs are not modelled: JavaMailSender, SnsClient, Twilio's `Message.creator` and libphonenumber. Each call is an outcome parameter or a function-typed field, and the model returns the calls made instead of performing them.
- Exceptions thrown while the MIME message is built are not modelled. This covers `createMimeMessage` and an address the helper cannot parse in `setFrom` or `setTo`. These calls are assumed to succeed, and only `send` can fail.
- Only `java.lang.Exception` is caught by the SNS adapter, so JVM `Error`s are not covered. The model treats every failure of `publish` as caught.
- The HTML flag of `SetText` is modelled, but the service only ever passes `false`. The multipart mode chosen by `MimeMessageHelper(mimeMessage, true)` is not modelled beyond the parts a reader finds.
- The controllers (`EmailController`, `SmsController`, `PushController`) are not modelled: they are HTTP routing and a catch-all wrapper.
- Configuration is not modelled: the config and property classes, credential loading, the `Twilio.init` start-up call and the property-driven activation of each service. The sender addresses and the Twilio sender number are plain parameters.
- The push service that sends the payloads is not part of this model. Only the payload shapes and their constructors are.
- Multi-recipient fan-out, receiver normalisation (`formattedReceivers`) and an SMS type enum are expected by the tests but not implemented by the code shown, so they are not modelled.
