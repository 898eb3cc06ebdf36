/**
 * The MIME message that EmailService builds before it hands it to a mail
 * sender. The service wraps it in a multipart `MimeMessageHelper` and sets the
 * From, To and Subject headers and the text one call at a time; this class
 * keeps the fields those calls change and the methods change them in place.
 */
module Mime {
  import opened Wrappers

  /** The body a `setText` call leaves in the message. */
  datatype MailContent =
    | Text(text: string, isHtml: bool)          // setText(text, html): one part
    | Alternative(plain: string, html: string)  // setText(plainText, htmlText): text/plain then text/html

  /** The text/plain part a reader of the finished message finds, if any. */
  function PlainPart(c: MailContent): Option<string>
  {
    match c
    case Text(t, isHtml) => if isHtml then None else Some(t)
    case Alternative(plain, _) => Some(plain)
  }

  /** The text/html part a reader of the finished message finds, if any. */
  function HtmlPart(c: MailContent): Option<string>
  {
    match c
    case Text(t, isHtml) => if isHtml then Some(t) else None
    case Alternative(_, html) => Some(html)
  }

  /** A snapshot of a message's headers and body. */
  datatype MessageValue = MessageValue(
    from: Option<string>,
    to: seq<string>,
    subject: Option<string>,
    content: Option<MailContent>)

  class MimeMessage {
    var from: Option<string>
    var to: seq<string>
    var subject: Option<string>
    var content: Option<MailContent>

    /** The message as it stands now. */
    function Value(): MessageValue
      reads this
    {
      MessageValue(from, to, subject, content)
    }

    /** `createMimeMessage()`: a message with no headers and no body. */
    constructor ()
      ensures Value() == MessageValue(None, [], None, None)
    {
      from, to, subject, content := None, [], None, None;
    }

    /** `setFrom(address)`: replaces the From header. */
    method SetFrom(address: string)
      modifies this
      ensures Value() == old(Value()).(from := Some(address))
    {
      from := Some(address);
    }

    /** `setTo(address)`: the To recipients become exactly `address`. */
    method SetTo(address: string)
      modifies this
      ensures Value() == old(Value()).(to := [address])
    {
      to := [address];
    }

    /** `setSubject(subject)`: replaces the Subject header. */
    method SetSubject(s: string)
      modifies this
      ensures Value() == old(Value()).(subject := Some(s))
    {
      subject := Some(s);
    }

    /** `setText(text, isHtml)`: a single body part of one type. */
    method SetText(text: string, isHtml: bool)
      modifies this
      ensures Value() == old(Value()).(content := Some(Text(text, isHtml)))
      ensures PlainPart(content.value) == (if isHtml then None else Some(text))
      ensures HtmlPart(content.value) == (if isHtml then Some(text) else None)
    {
      content := Some(Text(text, isHtml));
    }

    /** `setText(plainText, htmlText)`: a multipart/alternative body with both parts. */
    method SetAlternative(plain: string, html: string)
      modifies this
      ensures Value() == old(Value()).(content := Some(Alternative(plain, html)))
      ensures PlainPart(content.value) == Some(plain) && HtmlPart(content.value) == Some(html)
    {
      content := Some(Alternative(plain, html));
    }
  }
}
