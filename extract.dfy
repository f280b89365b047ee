/**
 * Turning an uploaded document into the email text the prompts are built
 * from. The document libraries are not modelled: a word-processor document
 * arrives as its list of paragraph texts, an internet message as its
 * headers and the content type and decoded payload of each part.
 */
module Extract {
  import opened Wrappers
  import opened PyStrings

  /** A word-processor document as the parser hands it over, or the message of
      the exception raised while opening it. */
  datatype DocxInput = Document(paragraphs: seq<string>) | CorruptDocx(message: string)

  const DocxErrorPrefix: string := "Error reading DOCX file: "

  /** `extract_text_from_docx`: the paragraph texts, in order, one per line. */
  method ExtractTextFromDocx(doc: DocxInput) returns (text: string)
    ensures doc.Document? ==> text == Join(doc.paragraphs, "\n")
    ensures doc.CorruptDocx? ==> text == DocxErrorPrefix + doc.message
  {
    match doc
    case CorruptDocx(message) =>
      text := DocxErrorPrefix + message;
    case Document(paragraphs) =>
      var lines: seq<string> := [];
      for i := 0 to |paragraphs|
        invariant lines == paragraphs[..i]
      {
        lines := lines + [paragraphs[i]];
      }
      assert lines == paragraphs;
      text := Join(lines, "\n");
  }

  /** Two documented cases: three paragraphs with an empty middle one, and an
      empty document. */
  lemma DocxJoinExamples()
    ensures Join(["Hi", "", "Thanks"], "\n") == "Hi\n\nThanks"
    ensures Join([], "\n") == ""
  {
  }

  /** The extracted text keeps the paragraphs: when none contains a line break,
      splitting it at line breaks gives them back. */
  lemma DocxParagraphsRecoverable(paragraphs: seq<string>)
    requires |paragraphs| >= 1
    requires forall k | 0 <= k < |paragraphs| :: '\n' !in paragraphs[k]
    ensures Split(Join(paragraphs, "\n"), '\n') == paragraphs
  {
    SplitJoin(paragraphs, '\n');
  }

  /** One MIME part as the message walk yields it. */
  datatype Part = Part(contentType: string, payload: string)

  /** The body of a parsed message: the parts in walk order for a multipart
      message, the single decoded payload otherwise. */
  datatype EmlBody = Multipart(walk: seq<Part>) | SinglePart(payload: string)

  /** A parsed internet message (headers present in the map, absent otherwise),
      or the message of the exception raised while reading it. */
  datatype EmlInput = Message(headers: map<string, string>, body: EmlBody) | Unparseable(message: string)

  /** `msg.get(name, default)`: the header's value, or `default` when the
      message has no such header. */
  function HeaderOr(headers: map<string, string>, name: string, default: string): string {
    if name in headers then headers[name] else default
  }

  const PlainType: string := "text/plain"
  const EmlErrorPrefix: string := "Error reading EML file: "

  /** Where the first `text/plain` part stands in the walk, or `|walk|` if none does. */
  function FirstPlainIndex(walk: seq<Part>): (k: nat)
    ensures k <= |walk|
    ensures forall j | 0 <= j < k :: walk[j].contentType != PlainType
    ensures k < |walk| ==> walk[k].contentType == PlainType
  {
    if walk == [] then 0
    else if walk[0].contentType == PlainType then 0
    else 1 + FirstPlainIndex(walk[1..])
  }

  /** The body text the source extracts: the payload of the first plain-text
      part of a multipart message (empty if there is none), or the single
      payload of any other message. */
  function BodyText(body: EmlBody): string {
    match body
    case SinglePart(payload) => payload
    case Multipart(walk) =>
      var k := FirstPlainIndex(walk);
      if k < |walk| then walk[k].payload else ""
  }

  /** The canonical text: three header lines, a blank line, the body. */
  function FormatEmail(sender: string, subject: string, date: string, body: string): string {
    "From: " + sender + "\nSubject: " + subject + "\nDate: " + date + "\n\n" + body
  }

  /** `extract_text_from_eml`: header values with placeholders for the absent
      ones, and the body found by walking the parts up to the first plain one. */
  method ExtractTextFromEml(input: EmlInput) returns (text: string)
    ensures input.Unparseable? ==> text == EmlErrorPrefix + input.message
    ensures input.Message? ==>
      text == FormatEmail(HeaderOr(input.headers, "From", "Unknown Sender"),
                          HeaderOr(input.headers, "Subject", "No Subject"),
                          HeaderOr(input.headers, "Date", "No Date"),
                          BodyText(input.body))
  {
    match input
    case Unparseable(message) =>
      text := EmlErrorPrefix + message;
    case Message(headers, msgBody) =>
      var subject := HeaderOr(headers, "Subject", "No Subject");
      var sender := HeaderOr(headers, "From", "Unknown Sender");
      var date := HeaderOr(headers, "Date", "No Date");
      var body := "";
      match msgBody {
        case Multipart(walk) =>
          var i := 0;
          while i < |walk|
            invariant 0 <= i <= |walk|
            invariant forall j | 0 <= j < i :: walk[j].contentType != PlainType
            invariant body == ""
          {
            if walk[i].contentType == PlainType {
              body := walk[i].payload;
              break;
            }
            i := i + 1;
          }
          FirstPlainAt(walk, i);
        case SinglePart(payload) =>
          body := payload;
      }
      text := FormatEmail(sender, subject, date, body);
  }

  /** An index before which no part is plain text, and at which the walk ends
      or a plain part stands, is the first plain index. */
  lemma FirstPlainAt(walk: seq<Part>, i: nat)
    requires i <= |walk|
    requires forall j | 0 <= j < i :: walk[j].contentType != PlainType
    requires i < |walk| ==> walk[i].contentType == PlainType
    ensures FirstPlainIndex(walk) == i
  {
  }

  /** A multipart message with a plain-text and an HTML part yields only the
      plain-text part, whichever comes first. */
  lemma PlainPartChosenOverHtml(plain: string, html: string)
    ensures BodyText(Multipart([Part("multipart/alternative", ""), Part(PlainType, plain), Part("text/html", html)])) == plain
    ensures BodyText(Multipart([Part("multipart/alternative", ""), Part("text/html", html), Part(PlainType, plain)])) == plain
  {
    var root := Part("multipart/alternative", "");
    assert root.contentType[0] != PlainType[0];
    assert "text/html"[5] != PlainType[5];
    FirstPlainAt([root, Part(PlainType, plain), Part("text/html", html)], 1);
    FirstPlainAt([root, Part("text/html", html), Part(PlainType, plain)], 2);
  }

  /** When no header value contains a line break, the canonical text splits
      into exactly the three header lines, an empty line, and the lines of the
      body. */
  lemma {:induction false} EmailLayout(sender: string, subject: string, date: string, body: string)
    requires '\n' !in sender && '\n' !in subject && '\n' !in date
    ensures Split(FormatEmail(sender, subject, date, body), '\n')
         == ["From: " + sender, "Subject: " + subject, "Date: " + date, ""] + Split(body, '\n')
  {
    var l1, l2, l3 := "From: " + sender, "Subject: " + subject, "Date: " + date;
    assert '\n' !in l1 && '\n' !in l2 && '\n' !in l3;
    var s := FormatEmail(sender, subject, date, body);
    assert s == l1 + "\n" + (l2 + "\n" + (l3 + "\n" + ("" + "\n" + body)));
    SplitAfterPiece("", body, '\n');
    SplitAfterPiece(l3, "" + "\n" + body, '\n');
    SplitAfterPiece(l2, l3 + "\n" + ("" + "\n" + body), '\n');
    SplitAfterPiece(l1, l2 + "\n" + (l3 + "\n" + ("" + "\n" + body)), '\n');
  }
}
