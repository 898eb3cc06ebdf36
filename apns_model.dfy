/**
 * The Apple Push Notification service payload, `{aps: {alert: {title,
 * body}}}`, built from a push request by the secondary constructor
 * `APNSModel(pushModel)`. It keeps title and body and drops the device token
 * and the channel; the lemmas say so by reading the kept fields back.
 */
module Apns {
  import opened Push

  datatype AlertModel = AlertModel(title: string, body: string)

  datatype ApsModel = ApsModel(alert: AlertModel)

  datatype ApnsModel = ApnsModel(aps: ApsModel)

  /** `APNSModel(pushModel)`. */
  function FromPush(push: PushModel): ApnsModel
  {
    ApnsModel(ApsModel(AlertModel(push.title, push.body)))
  }

  /** The push request a payload was made from, given the token and channel it dropped. */
  function ToPush(m: ApnsModel, token: string, channel: PushChannel): PushModel
  {
    PushModel(m.aps.alert.title, m.aps.alert.body, token, channel)
  }

  /** Title and body are copied into the alert and read back unchanged. */
  lemma RoundTrip(push: PushModel, m: ApnsModel, token: string, channel: PushChannel)
    ensures FromPush(push).aps.alert == AlertModel(push.title, push.body)
    ensures ToPush(FromPush(push), push.token, push.channel) == push
    ensures FromPush(ToPush(m, token, channel)) == m
  {
  }

  /** Two requests give the same payload exactly when they agree on title and body. */
  lemma SameFields(p: PushModel, q: PushModel)
    ensures FromPush(p) == FromPush(q) <==> p.title == q.title && p.body == q.body
    ensures FromPush(p) == FromPush(p.(token := q.token, channel := q.channel))
  {
  }
}
