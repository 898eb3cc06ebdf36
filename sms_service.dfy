/**
 * What the SMS adapters share: the request they read, the result vocabulary,
 * and the phone number check. The phone number library is a parameter: its
 * parser and its validity test are fields of `PhoneNumberUtil`, so the model
 * assumes nothing about which numbers they accept.
 */
module SmsService {
  import opened Wrappers
  import opened Http

  /** The request as the adapters read it; `smsType` is the request's `type` attribute. */
  datatype SmsModel = SmsModel(receiver: string, body: string, smsType: Option<string>)

  datatype SmsStatus = Success | Failed

  /** One receiver's result: who, whether it went out, and a message. */
  datatype SmsResponse = SmsResponse(receiver: string, status: SmsStatus, message: string)

  /** A parsed number: country calling code and national number. */
  datatype PhoneNumber = PhoneNumber(countryCode: nat, nationalNumber: nat)

  /** What the library's `parse` does: a number, or a `NumberParseException`. */
  datatype ParseResult = Parsed(number: PhoneNumber) | ParseError(error: Exception)

  /** The library: `parse(text, region)` and `isValidNumber(number)`. */
  datatype PhoneNumberUtil = PhoneNumberUtil(
    parse: (string, string) -> ParseResult,
    isValidNumber: PhoneNumber -> bool)

  const DefaultRegion := "TR"

  const InvalidPhoneNumber := Exception("IllegalArgumentException", Some("Invalid phone number."))

  /**
   * `validatePhoneNumber(phoneNumber)`: parse with the default region; an
   * invalid number throws, a parse error escapes as it is, a valid one
   * returns with no result.
   */
  function ValidatePhoneNumber(util: PhoneNumberUtil, phoneNumber: string): (r: Completion<()>)
    ensures util.parse(phoneNumber, DefaultRegion).ParseError? ==>
              r == Throws(util.parse(phoneNumber, DefaultRegion).error)
    ensures util.parse(phoneNumber, DefaultRegion).Parsed? ==>
              (r.Normal? <==> util.isValidNumber(util.parse(phoneNumber, DefaultRegion).number))
    ensures r.Throws? && r.error != InvalidPhoneNumber ==> util.parse(phoneNumber, DefaultRegion).ParseError?
  {
    match util.parse(phoneNumber, DefaultRegion)
    case ParseError(e) => Throws(e)
    case Parsed(number) =>
      if !util.isValidNumber(number) then Throws(InvalidPhoneNumber) else Normal(())
  }

  /**
   * Only the parse with region "TR" matters: two libraries that agree on it
   * and on validity give the same verdict, whatever they do for other regions.
   */
  lemma ValidationUsesDefaultRegion(u1: PhoneNumberUtil, u2: PhoneNumberUtil, phoneNumber: string)
    requires u1.parse(phoneNumber, "TR") == u2.parse(phoneNumber, "TR")
    requires forall n: PhoneNumber :: u1.isValidNumber(n) == u2.isValidNumber(n)
    ensures ValidatePhoneNumber(u1, phoneNumber) == ValidatePhoneNumber(u2, phoneNumber)
  {
  }

  /** A parsed number the library rejects yields exactly "Invalid phone number." as an IllegalArgumentException. */
  lemma InvalidNumberMessage(util: PhoneNumberUtil, phoneNumber: string)
    requires util.parse(phoneNumber, DefaultRegion).Parsed?
    requires !util.isValidNumber(util.parse(phoneNumber, DefaultRegion).number)
    ensures ValidatePhoneNumber(util, phoneNumber).Throws?
    ensures ValidatePhoneNumber(util, phoneNumber).error.className == "IllegalArgumentException"
    ensures ValidatePhoneNumber(util, phoneNumber).error.message == Some("Invalid phone number.")
  {
  }
}
