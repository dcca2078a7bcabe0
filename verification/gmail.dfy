/**
 The deterministic parts of the mail service: the MIME text `createEmailRaw`
 assembles, the 76-column wrapping of attachment data, the threading headers
 of `replyEmail`, the projection of a provider message through the label
 cache, and the validation that precedes every send, draft and update.
 */
module Gmail {
  import Text
  import opened Js
  import EmailAddress

  // ---------------------------------------------------------------------------
  // Attachment wrapping

  /** The alphabet of `Buffer.toString("base64")`. */
  predicate IsBase64Text(s: string)
  {
    forall i :: 0 <= i < |s| ==> (EmailAddress.IsAlnum(s[i]) || s[i] in "+/=")
  }

  /**
   `content.replace(/(.{76})/g, "$1\n")` on base64 text (which holds no line
   terminator, so `.` matches every character): a newline after every full run
   of 76 characters, including a final full run.
   */
  function Wrap76(s: string): (r: string)
    requires IsBase64Text(s)
    decreases |s|
  {
    if |s| < 76 then s else s[..76] + "\n" + Wrap76(s[76..])
  }

  /** Deletes every newline. */
  function Unwrap(s: string): (r: string)
    ensures '\n' !in r
    ensures |r| <= |s|
  {
    if |s| == 0 then ""
    else (if s[0] == '\n' then "" else [s[0]]) + Unwrap(s[1..])
  }

  lemma {:induction false} UnwrapConcat(a: string, b: string)
    ensures Unwrap(a + b) == Unwrap(a) + Unwrap(b)
    decreases |a|
  {
    if |a| > 0 {
      assert (a + b)[1..] == a[1..] + b;
      UnwrapConcat(a[1..], b);
    } else {
      assert a + b == b;
    }
  }

  lemma {:induction false} UnwrapWithoutNewline(s: string)
    requires '\n' !in s
    ensures Unwrap(s) == s
    decreases |s|
  {
    if |s| > 0 {
      UnwrapWithoutNewline(s[1..]);
      assert s == [s[0]] + s[1..];
    }
  }

  /** Deleting the inserted newlines restores the base64 text. */
  lemma {:induction false} Wrap76RoundTrip(s: string)
    requires IsBase64Text(s)
    ensures Unwrap(Wrap76(s)) == s
    decreases |s|
  {
    assert '\n' !in s by {
      forall i | 0 <= i < |s| ensures s[i] != '\n' {
        assert EmailAddress.IsAlnum(s[i]) || s[i] in "+/=";
      }
    }
    if |s| < 76 {
      UnwrapWithoutNewline(s);
    } else {
      assert '\n' !in s[..76];
      Wrap76RoundTrip(s[76..]);
      UnwrapConcat(s[..76] + "\n", Wrap76(s[76..]));
      UnwrapConcat(s[..76], "\n");
      UnwrapWithoutNewline(s[..76]);
      assert s[..76] + s[76..] == s;
    }
  }

  /** The wrapped text's lines: all but the last hold exactly 76 characters, the last fewer. */
  lemma {:induction false} Wrap76Lines(s: string)
    requires IsBase64Text(s)
    ensures var lines := Text.Split(Wrap76(s), '\n');
      && (forall i :: 0 <= i < |lines| - 1 ==> |lines[i]| == 76)
      && |lines[|lines| - 1]| < 76
    decreases |s|
  {
    assert '\n' !in s by {
      forall i | 0 <= i < |s| ensures s[i] != '\n' {
        assert EmailAddress.IsAlnum(s[i]) || s[i] in "+/=";
      }
    }
    if |s| < 76 {
      Text.SplitWithoutSeparator(s, '\n');
    } else {
      var w := Wrap76(s);
      var head := s[..76];
      assert '\n' !in head;
      assert w[76] == '\n' && w[..76] == head && w[77..] == Wrap76(s[76..]);
      Text.IndexOfIs(w, '\n', 76);
      Wrap76Lines(s[76..]);
      var rest := Text.Split(w[77..], '\n');
      assert Text.Split(w, '\n') == [head] + rest;
    }
  }

  // ---------------------------------------------------------------------------
  // MIME assembly

  datatype Attachment = Attachment(filename: string, content: string, contentType: Option<string>)

  /** The options of `sendEmail`, `createDraft` and `updateDraft`. */
  datatype SendOptions = SendOptions(
    to: EmailAddress.Recipients,
    subject: string,
    body: string,
    cc: EmailAddress.Recipients,
    bcc: EmailAddress.Recipients,
    isHtml: bool,
    replyTo: Option<string>,
    attachments: seq<Attachment>,
    draftId: Option<string>)

  /** `Array.isArray(to) ? to : [to]`; a missing `to` is one `undefined`, which joins as empty. */
  function ToList(r: EmailAddress.Recipients): seq<string>
  {
    match r
    case Missing => [""]
    case Joined(t) => [t]
    case Listed(items) => items
  }

  /** `cc ? (Array.isArray(cc) ? cc : [cc]) : []` */
  function CopyList(r: EmailAddress.Recipients): seq<string>
  {
    match r
    case Missing => []
    case Joined(t) => if t == "" then [] else [t]
    case Listed(items) => items
  }

  function Boundary(stamp: string): string
  {
    "boundary" + stamp
  }

  function CcLine(o: SendOptions): string
  {
    "Cc: " + Text.Join(CopyList(o.cc), ", ")
  }

  function BccLine(o: SendOptions): string
  {
    "Bcc: " + Text.Join(CopyList(o.bcc), ", ")
  }

  /** The headers that come and go with the options: Cc, Bcc and Reply-To. */
  function OptionalHeaders(o: SendOptions): seq<string>
  {
    (if |CopyList(o.cc)| > 0 then [CcLine(o)] else [])
    + (if |CopyList(o.bcc)| > 0 then [BccLine(o)] else [])
    + (if o.replyTo.Some? && o.replyTo.value != "" then ["Reply-To: " + o.replyTo.value] else [])
  }

  /**
   Each optional header is a Cc, Bcc or Reply-To line, told apart by its first
   letter, carries its option's value and is there only for that option.
   */
  lemma OptionalHeaderKinds(o: SendOptions, i: nat)
    requires i < |OptionalHeaders(o)|
    ensures var h := OptionalHeaders(o)[i];
      && |h| > 0
      && (h[0] == 'C' || h[0] == 'B' || h[0] == 'R')
      && (h[0] == 'C' ==> |CopyList(o.cc)| > 0 && h == CcLine(o))
      && (h[0] == 'B' ==> |CopyList(o.bcc)| > 0 && h == BccLine(o))
      && (h[0] == 'R' ==> o.replyTo.Some? && o.replyTo.value != "" && h == "Reply-To: " + o.replyTo.value)
  {
    var c := if |CopyList(o.cc)| > 0 then [CcLine(o)] else [];
    var b := if |CopyList(o.bcc)| > 0 then [BccLine(o)] else [];
    var r := if o.replyTo.Some? && o.replyTo.value != "" then ["Reply-To: " + o.replyTo.value] else [];
    var opt := OptionalHeaders(o);
    assert opt == c + b + r;
    if i < |c| {
      assert opt[i] == CcLine(o);
    } else if i < |c| + |b| {
      assert opt[i] == BccLine(o);
    } else {
      assert opt[i] == r[i - |c| - |b|];
    }
  }

  /** How many of Cc, Bcc and Reply-To the options call for. */
  function PresentOptions(o: SendOptions): nat
  {
    (if |CopyList(o.cc)| > 0 then 1 else 0) + (if |CopyList(o.bcc)| > 0 then 1 else 0)
    + (if o.replyTo.Some? && o.replyTo.value != "" then 1 else 0)
  }

  function HeaderLines(o: SendOptions, b: string): seq<string>
  {
    [ "Content-Type: multipart/mixed; boundary=\"" + b + "\"",
      "MIME-Version: 1.0",
      "To: " + Text.Join(ToList(o.to), ", "),
      "Subject: " + o.subject ]
    + OptionalHeaders(o)
  }

  /** The Content-Type line of a text part: HTML or plain text, always UTF-8. */
  function TextPartType(isHtml: bool): string
  {
    "Content-Type: " + (if isHtml then "text/html" else "text/plain") + "; charset=\"UTF-8\""
  }

  function BodyLines(o: SendOptions, b: string): seq<string>
  {
    [ "", "--" + b,
      TextPartType(o.isHtml),
      "MIME-Version: 1.0",
      "Content-Transfer-Encoding: 7bit",
      "",
      o.body,
      "" ]
  }

  /** `contentType || "application/octet-stream"` */
  function PartType(a: Attachment): string
  {
    if a.contentType.Some? && a.contentType.value != "" then a.contentType.value else "application/octet-stream"
  }

  predicate AllBase64(atts: seq<Attachment>)
  {
    forall i :: 0 <= i < |atts| ==> IsBase64Text(atts[i].content)
  }

  /** The eight lines of one attachment part. */
  function AttachmentPart(a: Attachment, b: string): (r: seq<string>)
    requires IsBase64Text(a.content)
    ensures |r| == 8
  {
    [ "--" + b,
      "Content-Type: " + PartType(a),
      "MIME-Version: 1.0",
      "Content-Transfer-Encoding: base64",
      "Content-Disposition: attachment; filename=\"" + a.filename + "\"",
      "",
      Wrap76(a.content),
      "" ]
  }

  function AttachmentLines(atts: seq<Attachment>, b: string): (r: seq<string>)
    requires AllBase64(atts)
    ensures |r| == 8 * |atts|
  {
    if |atts| == 0 then [] else AttachmentPart(atts[0], b) + AttachmentLines(atts[1..], b)
  }

  /** The lines `createEmailRaw` joins with CRLF; `stamp` stands for `Date.now()`. */
  function RawLines(o: SendOptions, stamp: string): seq<string>
    requires AllBase64(o.attachments)
  {
    var b := Boundary(stamp);
    HeaderLines(o, b) + BodyLines(o, b) + AttachmentLines(o.attachments, b) + ["--" + b + "--"]
  }

  /** The message text before its base64url encoding. */
  function RawText(o: SendOptions, stamp: string): string
    requires AllBase64(o.attachments)
  {
    Text.Join(RawLines(o, stamp), "\r\n")
  }

  /** Index of the first empty line, or `|lines|`: where a reader's header section ends. */
  function FirstEmpty(lines: seq<string>): (k: nat)
    ensures k <= |lines|
    ensures forall i :: 0 <= i < k ==> lines[i] != ""
    ensures k < |lines| ==> lines[k] == ""
  {
    if |lines| == 0 || lines[0] == "" then 0 else 1 + FirstEmpty(lines[1..])
  }

  /**
   The layout of the raw message: four fixed headers; Cc and Bcc exactly when
   their lists are non-empty, and Reply-To (with the given address) exactly
   when given, and no other header; then a blank line that ends the header
   section, the opening boundary, the body part's content type and the body;
   then the attachment parts; the closing boundary last.
   */
  lemma RawMessageLayout(o: SendOptions, stamp: string)
    requires AllBase64(o.attachments)
    ensures var lines := RawLines(o, stamp);
      var b := Boundary(stamp);
      var k := FirstEmpty(lines);
      && k >= 4 && k + 1 < |lines|
      && lines[0] == "Content-Type: multipart/mixed; boundary=\"" + b + "\""
      && lines[1] == "MIME-Version: 1.0"
      && lines[2] == "To: " + Text.Join(ToList(o.to), ", ")
      && lines[3] == "Subject: " + o.subject
      && (CcLine(o) in lines[4..k] <==> |CopyList(o.cc)| > 0)
      && (BccLine(o) in lines[4..k] <==> |CopyList(o.bcc)| > 0)
      && ((exists v :: ("Reply-To: " + v) in lines[4..k]) <==> o.replyTo.Some? && o.replyTo.value != "")
      && (o.replyTo.Some? && o.replyTo.value != "" ==> ("Reply-To: " + o.replyTo.value) in lines[4..k])
      && k - 4 == PresentOptions(o)
      && (forall h :: h in lines[4..k] ==>
            h == CcLine(o) || h == BccLine(o) || (o.replyTo.Some? && h == "Reply-To: " + o.replyTo.value))
      && k + 8 < |lines|
      && lines[k + 1] == "--" + b
      && lines[k + 2] == TextPartType(o.isHtml)
      && lines[k + 6] == o.body
      && lines[k + 8..|lines| - 1] == AttachmentLines(o.attachments, b)
      && lines[|lines| - 1] == "--" + b + "--"
  {
    var b := Boundary(stamp);
    var lines := RawLines(o, stamp);
    HeaderSectionEnds(o, stamp);
    var k := |HeaderLines(o, b)|;
    var hs := lines[..k];
    assert hs == HeaderLines(o, b);
    assert lines[0] == hs[0] && lines[1] == hs[1] && lines[2] == hs[2] && lines[3] == hs[3];
    assert lines[4..k] == hs[4..] == OptionalHeaders(o);
    OptionalHeaderPresence(o);
  }

  /** The header section ends at the first blank line, which the opening boundary follows. */
  lemma HeaderSectionEnds(o: SendOptions, stamp: string)
    requires AllBase64(o.attachments)
    ensures var lines := RawLines(o, stamp);
      var b := Boundary(stamp);
      var k := |HeaderLines(o, b)|;
      && k + 8 < |lines| && FirstEmpty(lines) == k
      && lines[..k] == HeaderLines(o, b)
      && lines[k..k + 8] == BodyLines(o, b)
      && lines[k + 8..|lines| - 1] == AttachmentLines(o.attachments, b)
      && lines[k + 1] == "--" + b
      && lines[|lines| - 1] == "--" + b + "--"
  {
    var b := Boundary(stamp);
    var lines := RawLines(o, stamp);
    var hs := HeaderLines(o, b);
    var opt := OptionalHeaders(o);
    forall i | 0 <= i < |hs| ensures hs[i] != "" {
      if i >= 4 {
        assert hs[i] == opt[i - 4];
        OptionalHeaderKinds(o, i - 4);
      }
    }
    assert lines[..|hs|] == hs;
    assert lines[|hs|..|hs| + 8] == BodyLines(o, b);
    assert lines[|hs| + 8..|lines| - 1] == AttachmentLines(o.attachments, b);
    assert lines[|hs|] == "";
    FirstEmptyAt(lines, |hs|);
  }

  /**
   Cc and Bcc appear exactly when their lists are non-empty, Reply-To exactly
   when given and then with the given address; there is one line per present
   option and no other.
   */
  lemma OptionalHeaderPresence(o: SendOptions)
    ensures CcLine(o) in OptionalHeaders(o) <==> |CopyList(o.cc)| > 0
    ensures BccLine(o) in OptionalHeaders(o) <==> |CopyList(o.bcc)| > 0
    ensures (exists v :: ("Reply-To: " + v) in OptionalHeaders(o)) <==> o.replyTo.Some? && o.replyTo.value != ""
    ensures o.replyTo.Some? && o.replyTo.value != "" ==> ("Reply-To: " + o.replyTo.value) in OptionalHeaders(o)
    ensures |OptionalHeaders(o)| == PresentOptions(o)
    ensures forall h :: h in OptionalHeaders(o) ==>
      h == CcLine(o) || h == BccLine(o) || (o.replyTo.Some? && h == "Reply-To: " + o.replyTo.value)
  {
    var opt := OptionalHeaders(o);
    forall h | h in opt
      ensures h == CcLine(o) || h == BccLine(o) || (o.replyTo.Some? && h == "Reply-To: " + o.replyTo.value)
    {
      var i :| 0 <= i < |opt| && opt[i] == h;
      OptionalHeaderKinds(o, i);
    }
    if CcLine(o) in opt {
      var i :| 0 <= i < |opt| && opt[i] == CcLine(o);
      OptionalHeaderKinds(o, i);
    }
    if BccLine(o) in opt {
      var i :| 0 <= i < |opt| && opt[i] == BccLine(o);
      OptionalHeaderKinds(o, i);
    }
    if |CopyList(o.cc)| > 0 {
      assert opt[0] == CcLine(o);
    }
    if |CopyList(o.bcc)| > 0 {
      assert BccLine(o) in opt;
    }
    if o.replyTo.Some? && o.replyTo.value != "" {
      assert ("Reply-To: " + o.replyTo.value) in opt;
    }
    forall v | ("Reply-To: " + v) in opt
      ensures o.replyTo.Some? && o.replyTo.value != ""
    {
      var i :| 0 <= i < |opt| && opt[i] == "Reply-To: " + v;
      OptionalHeaderKinds(o, i);
    }
  }

  lemma FirstEmptyAt(lines: seq<string>, k: nat)
    requires k < |lines| && lines[k] == ""
    requires forall i :: 0 <= i < k ==> lines[i] != ""
    ensures FirstEmpty(lines) == k
  {
  }

  /** The attachment section is the attachments' parts in order, eight lines each. */
  lemma {:induction false} AttachmentLinesAt(atts: seq<Attachment>, b: string, j: nat)
    requires AllBase64(atts) && j < |atts|
    ensures AttachmentLines(atts, b)[8 * j..8 * j + 8] == AttachmentPart(atts[j], b)
  {
    var lines := AttachmentLines(atts, b);
    if j > 0 {
      var rest := AttachmentLines(atts[1..], b);
      assert lines[8..] == rest;
      assert atts[1..][j - 1] == atts[j];
      AttachmentLinesAt(atts[1..], b, j - 1);
      assert lines[8 * j..8 * j + 8] == rest[8 * (j - 1)..8 * (j - 1) + 8];
    }
  }

  /**
   Each attachment part opens with the boundary, declares its content type
   (defaulting to `application/octet-stream`) and carries the wrapped data.
   */
  lemma AttachmentPartLayout(atts: seq<Attachment>, b: string, j: nat)
    requires AllBase64(atts) && j < |atts|
    ensures var lines := AttachmentLines(atts, b);
      && lines[8 * j] == "--" + b
      && lines[8 * j + 1] == "Content-Type: " + PartType(atts[j])
      && lines[8 * j + 6] == Wrap76(atts[j].content)
      && Unwrap(lines[8 * j + 6]) == atts[j].content
  {
    var lines := AttachmentLines(atts, b);
    var part := AttachmentPart(atts[j], b);
    AttachmentLinesAt(atts, b, j);
    assert lines[8 * j..8 * j + 8] == part;
    assert lines[8 * j] == part[0];
    assert lines[8 * j + 1] == part[1];
    assert lines[8 * j + 6] == part[6];
    Wrap76RoundTrip(atts[j].content);
  }

  // ---------------------------------------------------------------------------
  // Sending, drafts and updates

  /** What a send, create or update hands to the provider, and what it reports back. */
  datatype Submission = Submission(raw: Option<string>, outcome: Result<string>)

  /** `validateEmailList` on `to`, then `cc`, then `bcc`: the first failure wins. */
  function ValidateRecipients(o: SendOptions): (r: Result<()>)
    ensures r.Ok? <==>
      EmailAddress.ValidateList(o.to).Ok? && EmailAddress.ValidateList(o.cc).Ok?
      && EmailAddress.ValidateList(o.bcc).Ok?
    ensures EmailAddress.ValidateList(o.to).Err? ==> r == EmailAddress.ValidateList(o.to)
    ensures EmailAddress.ValidateList(o.to).Ok? && EmailAddress.ValidateList(o.cc).Err? ==>
      r == EmailAddress.ValidateList(o.cc)
    ensures EmailAddress.ValidateList(o.to).Ok? && EmailAddress.ValidateList(o.cc).Ok? ==>
      r == EmailAddress.ValidateList(o.bcc)
  {
    var t := EmailAddress.ValidateList(o.to);
    if t.Err? then t
    else
      var c := EmailAddress.ValidateList(o.cc);
      if c.Err? then c else EmailAddress.ValidateList(o.bcc)
  }

  /**
   `sendEmail` and `createDraft`: validate, then build the raw message, then
   call the provider (`provider` maps the raw text to the id it returns or the
   error it throws).
   */
  function Submit(o: SendOptions, stamp: string, provider: string -> Result<string>): (s: Submission)
    requires AllBase64(o.attachments)
    ensures s.raw.Some? <==> ValidateRecipients(o).Ok?
    ensures s.raw.None? ==> s.outcome == Err(ValidateRecipients(o).thrown)
    ensures s.raw.Some? ==> s.raw.value == RawText(o, stamp) && s.outcome == provider(s.raw.value)
  {
    match ValidateRecipients(o)
    case Err(t) => Submission(None, Err(t))
    case Ok(_) =>
      var raw := RawText(o, stamp);
      Submission(Some(raw), provider(raw))
  }

  const DraftIdRequired: string := "Draft ID is required for updating"

  /** `updateDraft`: a missing or empty draft id fails before anything else. */
  function UpdateDraft(o: SendOptions, stamp: string, provider: string -> Result<string>): (s: Submission)
    requires AllBase64(o.attachments)
    ensures (o.draftId.None? || o.draftId.value == "") ==> s == Submission(None, Err(Fail(DraftIdRequired)))
    ensures o.draftId.Some? && o.draftId.value != "" ==> s == Submit(o, stamp, provider)
  {
    if o.draftId.None? || o.draftId.value == "" then Submission(None, Err(Fail(DraftIdRequired)))
    else Submit(o, stamp, provider)
  }

  /** An invalid `to` address is reported before `cc` and `bcc` are looked at. */
  lemma InvalidToReportedFirst(o: SendOptions, stamp: string, provider: string -> Result<string>)
    requires AllBase64(o.attachments)
    requires EmailAddress.ValidateList(o.to).Err?
    ensures Submit(o, stamp, provider) == Submission(None, Err(EmailAddress.ValidateList(o.to).thrown))
  {
  }

  // ---------------------------------------------------------------------------
  // Reply threading

  /** A header as the provider returns it; its value may be missing. */
  datatype Header = Header(name: string, value: Option<string>)

  /** `headers.find(h => h.name === name)?.value || ""`: the first header with that exact name. */
  function HeaderValue(hs: seq<Header>, name: string): (r: string)
    ensures (forall i :: 0 <= i < |hs| ==> hs[i].name != name) ==> r == ""
  {
    if |hs| == 0 then ""
    else if hs[0].name == name then (if hs[0].value.Some? then hs[0].value.value else "")
    else HeaderValue(hs[1..], name)
  }

  /** The reply subject: `Re: ` is prepended unless the subject already starts with `Re:`. */
  function ReplySubject(subject: string): (r: string)
    ensures Text.StartsWith(r, "Re:")
    ensures Text.StartsWith(subject, "Re:") ==> r == subject
    ensures !Text.StartsWith(subject, "Re:") ==> r == "Re: " + subject
  {
    if Text.StartsWith(subject, "Re:") then subject
    else
      var r := "Re: " + subject;
      assert r[..3] == "Re:";
      r
  }

  /** Replying to a reply keeps its subject: prefixing is idempotent. */
  lemma ReplySubjectIdempotent(subject: string)
    ensures ReplySubject(ReplySubject(subject)) == ReplySubject(subject)
  {
  }

  /** The new References header: the prior references followed by the original id. */
  function ReplyReferences(references: string, messageId: string): (r: string)
    ensures references == "" ==> r == messageId
    ensures references != "" ==> Text.StartsWith(r, references + " ")
    ensures |messageId| <= |r| && r[|r| - |messageId|..] == messageId
    ensures references != "" ==> |r| == |references| + 1 + |messageId|
  {
    if references != "" then references + " " + messageId else messageId
  }

  /** The lines `replyEmail` joins with CRLF, from the original message's headers. */
  function ReplyLines(original: seq<Header>, body: string, isHtml: bool): (lines: seq<string>)
    ensures |lines| == 8
    ensures lines[0] == TextPartType(isHtml)
    ensures lines[1] == "MIME-Version: 1.0"
    ensures lines[2] == "Subject: " + ReplySubject(HeaderValue(original, "Subject"))
    ensures lines[3] == "To: " + HeaderValue(original, "From")
    ensures lines[4] == "References: " +
      ReplyReferences(HeaderValue(original, "References"), HeaderValue(original, "Message-ID"))
    ensures lines[5] == "In-Reply-To: " + HeaderValue(original, "Message-ID")
    ensures lines[6] == "" && lines[7] == body
  {
    var subject := HeaderValue(original, "Subject");
    var messageId := HeaderValue(original, "Message-ID");
    var references := HeaderValue(original, "References");
    var from := HeaderValue(original, "From");
    var head := [TextPartType(isHtml), "MIME-Version: 1.0"];
    var threading := [ "Subject: " + ReplySubject(subject),
                       "To: " + from,
                       "References: " + ReplyReferences(references, messageId),
                       "In-Reply-To: " + messageId ];
    head + threading + ["", body]
  }

  // ---------------------------------------------------------------------------
  // Message metadata

  /** A cached label; its name may be missing. */
  datatype Label = Label(name: Option<string>)

  datatype LabelRef = LabelRef(id: string, name: string)

  /** A message as the provider returns it, reduced to the fields the projection reads. */
  datatype Message = Message(
    id: string,
    threadId: string,
    snippet: Option<string>,
    headers: seq<Header>,
    labelIds: Option<seq<string>>,
    partFilenames: Option<seq<Option<string>>>)

  datatype Metadata = Metadata(
    id: string,
    threadId: string,
    snippet: string,
    subject: string,
    labels: seq<LabelRef>,
    hasAttachments: bool,
    isUnread: bool,
    isImportant: bool)

  /** Whether `xs` can be obtained from `ys` by deleting elements. */
  predicate IsSubsequence(xs: seq<string>, ys: seq<string>)
    decreases |ys|
  {
    if |xs| == 0 then true
    else if |ys| == 0 then false
    else if xs[0] == ys[0] then IsSubsequence(xs[1..], ys[1..])
    else IsSubsequence(xs, ys[1..])
  }

  function IdsOf(ls: seq<LabelRef>): (r: seq<string>)
    ensures |r| == |ls| && forall i :: 0 <= i < |ls| ==> r[i] == ls[i].id
  {
    if |ls| == 0 then [] else [ls[0].id] + IdsOf(ls[1..])
  }

  /** A cached label as the projection lists it: its name, or its id when the name is missing or empty. */
  function LabelFor(id: string, cache: map<string, Label>): (l: LabelRef)
    requires id in cache
    ensures l.id == id
    ensures cache[id].name.Some? && cache[id].name.value != "" ==> l.name == cache[id].name.value
    ensures !(cache[id].name.Some? && cache[id].name.value != "") ==> l.name == id
  {
    var entry := cache[id];
    LabelRef(id, if entry.name.Some? && entry.name.value != "" then entry.name.value else id)
  }

  /** The label list of the projection: the ids found in the cache, each named through the cache. */
  function LabelsOf(ids: seq<string>, cache: map<string, Label>): (r: seq<LabelRef>)
    ensures |r| <= |ids|
    ensures forall i :: 0 <= i < |r| ==> r[i].id in cache && r[i] == LabelFor(r[i].id, cache)
  {
    if |ids| == 0 then []
    else if ids[0] in cache then [LabelFor(ids[0], cache)] + LabelsOf(ids[1..], cache)
    else LabelsOf(ids[1..], cache)
  }

  /**
   The projected labels keep the original order of the ids, and drop exactly
   the ids missing from the cache: a cached id appears as often as in the
   input, repeats included, and an id missing from the cache not at all.
   */
  lemma {:induction false} LabelsOfKeepsOrder(ids: seq<string>, cache: map<string, Label>)
    ensures IsSubsequence(IdsOf(LabelsOf(ids, cache)), ids)
    ensures forall id :: id in ids && id in cache ==> id in IdsOf(LabelsOf(ids, cache))
    ensures forall id ::
      multiset(IdsOf(LabelsOf(ids, cache)))[id] == if id in cache then multiset(ids)[id] else 0
  {
    if |ids| > 0 {
      var rest := LabelsOf(ids[1..], cache);
      LabelsOfKeepsOrder(ids[1..], cache);
      var id := ids[0];
      assert ids == [id] + ids[1..];
      assert multiset(ids) == multiset{id} + multiset(ids[1..]);
      if id in cache {
        var r := [LabelFor(id, cache)] + rest;
        assert IdsOf(r) == [id] + IdsOf(rest);
        assert IdsOf(r)[1..] == IdsOf(rest);
        assert multiset(IdsOf(r)) == multiset{id} + multiset(IdsOf(rest));
      } else {
        SubsequenceDropHead(IdsOf(rest), ids);
      }
      forall x | x in ids && x in cache ensures x in IdsOf(LabelsOf(ids, cache)) {
        if x != id {
          assert x in ids[1..];
        }
      }
    }
  }

  /** Skipping the first element of the longer sequence keeps a subsequence. */
  lemma SubsequenceDropHead(xs: seq<string>, ys: seq<string>)
    requires |ys| > 0 && IsSubsequence(xs, ys[1..])
    ensures IsSubsequence(xs, ys)
    decreases |ys|, 0
  {
    if |xs| > 0 && xs[0] == ys[0] {
      if |ys| > 1 {
        SubsequenceTail(xs, ys[1..]);
      }
    }
  }

  /** A subsequence without its head is still a subsequence. */
  lemma SubsequenceTail(xs: seq<string>, ys: seq<string>)
    requires |xs| > 0 && IsSubsequence(xs, ys)
    ensures IsSubsequence(xs[1..], ys)
    decreases |ys|, 1
  {
    if |ys| > 0 && xs[0] != ys[0] {
      SubsequenceTail(xs, ys[1..]);
      SubsequenceDropHead(xs[1..], ys);
    } else if |ys| > 0 {
      SubsequenceDropHead(xs[1..], ys);
    }
  }

  /** The snippet with the two HTML entities the provider emits decoded, in this order. */
  function DecodeSnippet(s: string): string
  {
    Text.ReplaceAll(Text.ReplaceAll(s, "&#39;", "'"), "&quot;", "\"")
  }

  /** A snippet without any `&` passes through unchanged. */
  lemma PlainSnippetUnchanged(s: string)
    requires '&' !in s
    ensures DecodeSnippet(s) == s
  {
    Text.ReplaceAllWithoutLead(s, "&#39;", "'");
    Text.ReplaceAllWithoutLead(s, "&quot;", "\"");
  }

  predicate HasAttachment(parts: Option<seq<Option<string>>>)
  {
    parts.Some? && exists i :: 0 <= i < |parts.value| && parts.value[i].Some? && parts.value[i].value != ""
  }

  /** `extractEmailMetadata`, without the sender, recipients and date. */
  function Project(m: Message, cache: map<string, Label>): (md: Metadata)
    ensures md.id == m.id && md.threadId == m.threadId
    ensures md.isUnread <==> m.labelIds.Some? && "UNREAD" in m.labelIds.value
    ensures md.isImportant <==> m.labelIds.Some? && "IMPORTANT" in m.labelIds.value
    ensures HeaderValue(m.headers, "Subject") == "" ==> md.subject == "(no subject)"
    ensures HeaderValue(m.headers, "Subject") != "" ==> md.subject == HeaderValue(m.headers, "Subject")
    ensures m.labelIds.None? ==> md.labels == []
    ensures md.labels == LabelsOf(if m.labelIds.Some? then m.labelIds.value else [], cache)
    ensures m.snippet.None? ==> md.snippet == ""
    ensures m.snippet.Some? ==> md.snippet == DecodeSnippet(m.snippet.value)
    ensures md.hasAttachments <==> HasAttachment(m.partFilenames)
  {
    var ids := if m.labelIds.Some? then m.labelIds.value else [];
    var subject := HeaderValue(m.headers, "Subject");
    Metadata(
      m.id,
      m.threadId,
      if m.snippet.Some? then DecodeSnippet(m.snippet.value) else "",
      if subject != "" then subject else "(no subject)",
      LabelsOf(ids, cache),
      HasAttachment(m.partFilenames),
      "UNREAD" in ids,
      "IMPORTANT" in ids)
  }
}
