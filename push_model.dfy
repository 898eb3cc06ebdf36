/** The push request as the push endpoint receives it. */
module Push {

  datatype PushChannel = Apns | Fcm

  datatype PushModel = PushModel(title: string, body: string, token: string, channel: PushChannel)
}
