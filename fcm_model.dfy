/**
 * The Firebase Cloud Messaging payload, `{message: {token, notification:
 * {title, body}}}`, built from a push request by the secondary constructor
 * `FCMModel(pushModel)`. It keeps token, title and body and drops the
 * channel; the lemmas say so by reading the kept fields back.
 */
module Fcm {
  import opened Push

  datatype FcmNotification = FcmNotification(title: string, body: string)

  datatype FcmMessage = FcmMessage(token: string, notification: FcmNotification)

  datatype FcmModel = FcmModel(message: FcmMessage)

  /** `FCMModel(pushModel)`. */
  function FromPush(push: PushModel): FcmModel
  {
    FcmModel(FcmMessage(push.token, FcmNotification(push.title, push.body)))
  }

  /** The push request a payload was made from, given the channel it dropped. */
  function ToPush(m: FcmModel, channel: PushChannel): PushModel
  {
    PushModel(m.message.notification.title, m.message.notification.body, m.message.token, channel)
  }

  /** Token, title and body are copied into the payload and read back unchanged. */
  lemma RoundTrip(push: PushModel, m: FcmModel, channel: PushChannel)
    ensures FromPush(push).message.token == push.token
    ensures FromPush(push).message.notification == FcmNotification(push.title, push.body)
    ensures ToPush(FromPush(push), push.channel) == push
    ensures FromPush(ToPush(m, channel)) == m
  {
  }

  /** Two requests give the same payload exactly when they agree on token, title and body. */
  lemma SameFields(p: PushModel, q: PushModel)
    ensures FromPush(p) == FromPush(q) <==> p.token == q.token && p.title == q.title && p.body == q.body
    ensures FromPush(p) == FromPush(p.(channel := q.channel))
  {
  }
}
