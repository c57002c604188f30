/**
 * The message builders of the mailer base class (`Mailer.msg_plain` and
 * `Mailer.msg_html`) and the two ways a message is read back: by header
 * name, as `msg['From']` does, and by the part a mail client would display.
 *
 * A message is a record: its own content type, its header map and the
 * ordered list of its body parts. A single-part `text/plain` message holds
 * its one text part in `parts`; a `multipart/alternative` message holds its
 * sub-parts there, least preferred first. Serialization (`as_string`) is not
 * modelled here: the transports receive it as an opaque function.
 */
module Messages {
  import opened Wrappers

  const PlainType := "text/plain"
  const HtmlType := "text/html"
  const AlternativeType := "multipart/alternative"
  const Utf8 := "utf-8"

  /** One text part: its MIME type, its charset and the text it carries. */
  datatype Part = Part(mimeType: string, charset: string, payload: string)

  /**
   * `headers` holds the headers the builders assign. The ones the MIME
   * classes set themselves are not in it: `Content-Type` is `contentType`
   * (and the parts' charset), `MIME-Version` and `Content-Transfer-Encoding`
   * are not modelled.
   */
  datatype Message = Message(contentType: string, headers: map<string, string>, parts: seq<Part>)

  /** `msg[name]`: the header's value, or None when the message has no such header. */
  function Header(m: Message, name: string): Option<string>
  {
    if name in m.headers then Some(m.headers[name]) else None
  }

  /** The four headers both builders assign, in the order Subject, From, To, Date. */
  function Envelope(fromEmail: string, toEmail: string, subject: string, date: string): map<string, string>
  {
    map["Subject" := subject, "From" := fromEmail, "To" := toEmail, "Date" := date]
  }

  /**
   * `msg_plain`: a single-part `text/plain` message in UTF-8 holding `body`.
   * `date` is the value `email.utils.formatdate()` returned at build time.
   */
  function MsgPlain(fromEmail: string, toEmail: string, subject: string, body: string, date: string): (m: Message)
    ensures m.contentType == PlainType
    ensures Header(m, "Subject") == Some(subject) && Header(m, "From") == Some(fromEmail)
    ensures Header(m, "To") == Some(toEmail) && Header(m, "Date") == Some(date)
    ensures m.headers.Keys == {"Subject", "From", "To", "Date"}
    ensures |m.parts| == 1 && m.parts[0].mimeType == PlainType && m.parts[0].charset == Utf8
    ensures m.parts[0].payload == body
  {
    Message(PlainType, Envelope(fromEmail, toEmail, subject, date), [Part(PlainType, Utf8, body)])
  }

  /**
   * `msg_html`: a `multipart/alternative` message with the same four headers
   * and two UTF-8 parts, the plain text first and the HTML second.
   */
  function MsgHtml(fromEmail: string, toEmail: string, subject: string, bodyText: string, bodyHtml: string,
                   date: string): (m: Message)
    ensures m.contentType == AlternativeType
    ensures Header(m, "Subject") == Some(subject) && Header(m, "From") == Some(fromEmail)
    ensures Header(m, "To") == Some(toEmail) && Header(m, "Date") == Some(date)
    ensures m.headers.Keys == {"Subject", "From", "To", "Date"}
    ensures |m.parts| == 2
    ensures m.parts[0] == Part(PlainType, Utf8, bodyText)
    ensures m.parts[1] == Part(HtmlType, Utf8, bodyHtml)
  {
    Message(AlternativeType, Envelope(fromEmail, toEmail, subject, date),
            [Part(PlainType, Utf8, bodyText), Part(HtmlType, Utf8, bodyHtml)])
  }

  /**
   * The part a reader that understands the MIME types `understood` displays:
   * the LAST such part, since alternatives are listed from least to most
   * preferred (section 5.1.4 of RFC 2046).
   */
  function Preferred(parts: seq<Part>, understood: set<string>): (r: Option<Part>)
    ensures r.None? <==> forall p :: p in parts ==> p.mimeType !in understood
    ensures r.Some? ==> r.value.mimeType in understood
    ensures r.Some? ==> exists i :: 0 <= i < |parts| && parts[i] == r.value &&
                                    forall j :: i < j < |parts| ==> parts[j].mimeType !in understood
    decreases |parts|
  {
    if parts == [] then None
    else
      var last := parts[|parts| - 1];
      if last.mimeType in understood then Some(last)
      else
        var r := Preferred(parts[..|parts| - 1], understood);
        assert forall p :: p in parts ==> p in parts[..|parts| - 1] || p == last;
        r
  }

  /** What a reader sees of a message: its displayed part, if any. */
  function Displayed(m: Message, understood: set<string>): Option<Part>
  {
    Preferred(m.parts, understood)
  }

  /** A plain message reads back as its body whenever the reader understands plain text. */
  lemma PlainRoundTrip(fromEmail: string, toEmail: string, subject: string, body: string, date: string,
                       understood: set<string>)
    ensures var m := MsgPlain(fromEmail, toEmail, subject, body, date);
            Displayed(m, understood) == if PlainType in understood then Some(Part(PlainType, Utf8, body)) else None
  {
  }

  /**
   * The alternative message shows the HTML to a reader that understands
   * HTML, falls back to the plain text for one that only understands plain
   * text, and shows nothing to a reader that understands neither.
   */
  lemma HtmlAlternativePreference(fromEmail: string, toEmail: string, subject: string, bodyText: string,
                                  bodyHtml: string, date: string, understood: set<string>)
    ensures var m := MsgHtml(fromEmail, toEmail, subject, bodyText, bodyHtml, date);
            Displayed(m, understood) ==
              if HtmlType in understood then Some(Part(HtmlType, Utf8, bodyHtml))
              else if PlainType in understood then Some(Part(PlainType, Utf8, bodyText))
              else None
  {
    var m := MsgHtml(fromEmail, toEmail, subject, bodyText, bodyHtml, date);
    if HtmlType !in understood {
      assert m.parts[..1] == [Part(PlainType, Utf8, bodyText)];
    }
  }

  /** Both builders give the same header map for the same arguments. */
  lemma SameEnvelope(fromEmail: string, toEmail: string, subject: string, bodyText: string, bodyHtml: string,
                     date: string)
    ensures MsgPlain(fromEmail, toEmail, subject, bodyText, date).headers ==
            MsgHtml(fromEmail, toEmail, subject, bodyText, bodyHtml, date).headers
  {
  }
}
