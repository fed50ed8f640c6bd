/** The `Email` message object: its recipients, subject, body, custom headers and
    attachments, the once-per-population template pass, and the two send
    operations up to the point where they hand the message to the mailer. */
module EmailMessage {
  import opened Wrappers
  import opened PhpStrings
  import opened Dispatch

  /** One entry of the attachment list: the file's bytes, its name and, optionally,
      its MIME type. */
  datatype Attachment = Attachment(contents: string, filename: string, mimetype: Option<string>)

  /** The mailer call a send ends with: `sendHTML` also carries the plain-text body. */
  datatype Transport = Html(plaintextBody: string) | Plain

  /** Everything a send hands to the mailer. */
  datatype Outgoing = Outgoing(envelope: Envelope, body: string, attachments: seq<Attachment>, transport: Transport)

  /** The template a new message is rendered with. */
  const DefaultTemplate := "GenericEmail"

  /** The body `parseVariables` builds before rewriting its URLs: the template's output
      when a template is named, the message is not plain and the template exists
      (`templateOutput` is then Some), and otherwise the body as it stands. */
  function BuiltBody(body: string, template: string, isPlain: bool, templateOutput: Option<string>): string {
    if Truthy(template) && !isPlain && templateOutput.Some? then templateOutput.value else body
  }

  class Email {
    var from: string
    var to: string
    var subject: string
    var body: string
    var plaintextBody: string
    var cc: string
    var bcc: string
    var customHeaders: map<string, string>
    var attachments: seq<Attachment>
    var parseVariablesDone: bool
    var template: string

    /** `Cc` and `Bcc` never sit among the custom headers: `addCustomHeader` sends
        them to their own fields. */
    ghost predicate Valid()
      reads this`customHeaders
    {
      "Cc" !in customHeaders && "Bcc" !in customHeaders
    }

    /** The fields the envelope is composed from. */
    function CurrentDraft(): Draft
      reads this
    {
      Draft(to, from, subject, cc, bcc, customHeaders)
    }

    function Subject(): string reads this { subject }
    function Body(): string reads this { body }
    function To(): string reads this { to }
    function From(): string reads this { from }
    function Cc(): string reads this { cc }
    function Bcc(): string reads this { bcc }
    function Template(): string reads this { template }

    /** A new message; every argument left out is null, modelled as "". */
    constructor (from: string, to: string, subject: string, body: string, cc: string, bcc: string)
      ensures Valid()
      ensures From() == from && To() == to && Subject() == subject && Body() == body
      ensures Cc() == cc && Bcc() == bcc
      ensures customHeaders == map[] && attachments == []
      ensures !parseVariablesDone && Template() == DefaultTemplate && plaintextBody == ""
    {
      this.from, this.to, this.subject, this.body := from, to, subject, body;
      this.cc, this.bcc := cc, bcc;
      plaintextBody := "";
      customHeaders := map[];
      attachments := [];
      parseVariablesDone := false;
      template := DefaultTemplate;
    }

    /** Appends one attachment; the earlier ones stay as they are. */
    method AttachFileFromString(data: string, filename: string, mimetype: Option<string> := None)
      returns (self: Email)
      modifies this`attachments
      ensures self == this
      ensures |attachments| == |old(attachments)| + 1
      ensures attachments[..|old(attachments)|] == old(attachments)
      ensures attachments[|attachments| - 1] == Attachment(data, filename, mimetype)
    {
      attachments := attachments + [Attachment(data, filename, mimetype)];
      self := this;
    }

    method SetSubject(val: string) returns (self: Email)
      modifies this`subject
      ensures self == this && Subject() == val
    {
      subject := val;
      self := this;
    }

    method SetBody(val: string) returns (self: Email)
      modifies this`body
      ensures self == this && Body() == val
    {
      body := val;
      self := this;
    }

    method SetTo(val: string) returns (self: Email)
      modifies this`to
      ensures self == this && To() == val
    {
      to := val;
      self := this;
    }

    method SetFrom(val: string) returns (self: Email)
      modifies this`from
      ensures self == this && From() == val
    {
      from := val;
      self := this;
    }

    method SetCc(val: string) returns (self: Email)
      modifies this`cc
      ensures self == this && Cc() == val
    {
      cc := val;
      self := this;
    }

    method SetBcc(val: string) returns (self: Email)
      modifies this`bcc
      ensures self == this && Bcc() == val
    {
      bcc := val;
      self := this;
    }

    method SetTemplate(val: string) returns (self: Email)
      modifies this`template
      ensures self == this && Template() == val
    {
      template := val;
      self := this;
    }

    /** `Cc` and `Bcc` (compared case-sensitively) replace the cc or bcc field; any
        other header is added, or, when already present, gets ", " and the new value
        appended. */
    method AddCustomHeader(name: string, value: string) returns (self: Email)
      requires Valid()
      modifies this`cc, this`bcc, this`customHeaders
      ensures Valid() && self == this
      ensures name == "Cc" ==> cc == value && bcc == old(bcc) && customHeaders == old(customHeaders)
      ensures name == "Bcc" ==> bcc == value && cc == old(cc) && customHeaders == old(customHeaders)
      ensures name != "Cc" && name != "Bcc" ==>
                && cc == old(cc) && bcc == old(bcc)
                && customHeaders.Keys == old(customHeaders).Keys + {name}
                && customHeaders[name]
                   == (if name in old(customHeaders) then old(customHeaders)[name] + ", " + value else value)
                && forall other :: other in old(customHeaders) && other != name ==>
                     customHeaders[other] == old(customHeaders)[other]
    {
      if name == "Cc" {
        cc := value;
      } else if name == "Bcc" {
        bcc := value;
      } else {
        if name in customHeaders {
          customHeaders := customHeaders[name := customHeaders[name] + ", " + value];
        } else {
          customHeaders := customHeaders[name := value];
        }
      }
      self := this;
    }

    /** Adds `address` to the `Reply-To` header, as `AddCustomHeader` does. */
    method ReplyTo(address: string) returns (self: Email)
      requires Valid()
      modifies this`cc, this`bcc, this`customHeaders
      ensures Valid() && self == this
      ensures cc == old(cc) && bcc == old(bcc)
      ensures customHeaders.Keys == old(customHeaders).Keys + {"Reply-To"}
      ensures customHeaders["Reply-To"]
              == if "Reply-To" in old(customHeaders) then old(customHeaders)["Reply-To"] + ", " + address else address
      ensures forall other :: other in old(customHeaders) && other != "Reply-To" ==>
                customHeaders[other] == old(customHeaders)[other]
    {
      self := AddCustomHeader("Reply-To", address);
    }

    /** New template data invalidates the rendered body: the next `ParseVariables`
        builds it again. The data itself is not modelled. */
    method PopulateTemplate() returns (self: Email)
      modifies this`parseVariablesDone
      ensures self == this && !parseVariablesDone
    {
      parseVariablesDone := false;
      self := this;
    }

    /** Builds the body once: the first call after construction or after
        `PopulateTemplate` replaces the body by `absolutize` (which rewrites
        relative URLs) applied to the built body, and every later call leaves it
        alone. `templateOutput` is what the named template renders to, or None
        when it does not exist. */
    method ParseVariables(isPlain: bool, templateOutput: Option<string>, absolutize: string -> string)
      modifies this`body, this`parseVariablesDone
      ensures parseVariablesDone
      ensures old(parseVariablesDone) ==> body == old(body)
      ensures !old(parseVariablesDone) ==>
                body == absolutize(BuiltBody(old(body), template, isPlain, templateOutput))
    {
      if !parseVariablesDone {
        parseVariablesDone := true;
        body := absolutize(BuiltBody(body, template, isPlain, templateOutput));
      }
    }

    /** `debug`: runs the template pass (not plain) exactly as a send would, so a
        later send does not render again, then returns the message's fields as HTML
        followed by the body. `className` is the message's PHP class name. */
    method Debug(className: string, templateOutput: Option<string>, absolutize: string -> string)
      returns (text: string)
      modifies this`body, this`parseVariablesDone
      ensures parseVariablesDone
      ensures body == if old(parseVariablesDone) then old(body)
                      else absolutize(BuiltBody(old(body), template, false, templateOutput))
      ensures text == "<h2>Email template " + className + "</h2>\n"
                      + "<p><b>From:</b> " + from + "\n"
                      + "<b>To:</b> " + to + "\n"
                      + "<b>Cc:</b> " + cc + "\n"
                      + "<b>Bcc:</b> " + bcc + "\n"
                      + "<b>Subject:</b> " + subject + "</p>"
                      + body
    {
      ParseVariables(false, templateOutput, absolutize);
      text := "<h2>Email template " + className + "</h2>\n"
              + "<p><b>From:</b> " + from + "\n"
              + "<b>To:</b> " + to + "\n"
              + "<b>Cc:</b> " + cc + "\n"
              + "<b>Bcc:</b> " + bcc + "\n"
              + "<b>Subject:</b> " + subject + "</p>"
              + body;
    }

    /** The part `send` and `sendPlain` share: build the body, give an empty sender
        the admin address (kept on the message), then compose the envelope. */
    method Prepare(isPlain: bool, cfg: Config, project: string, messageID: string,
                   templateOutput: Option<string>, absolutize: string -> string)
      returns (envelope: Envelope)
      requires Valid()
      modifies this`body, this`parseVariablesDone, this`from
      ensures parseVariablesDone
      ensures body == if old(parseVariablesDone) then old(body)
                      else absolutize(BuiltBody(old(body), template, isPlain, templateOutput))
      ensures from == if Truthy(old(from)) then old(from) else cfg.adminEmail
      ensures Complies(CurrentDraft(), cfg, project, messageID, envelope)
      ensures !Redirected(cfg) ==>
                && Lookup(envelope.headers, "Cc") == WithCopy(if Truthy(cc) then Some(cc) else None, cfg.ccAllEmailsTo)
                && Lookup(envelope.headers, "Bcc") == WithCopy(if Truthy(bcc) then Some(bcc) else None, cfg.bccAllEmailsTo)
    {
      ParseVariables(isPlain, templateOutput, absolutize);
      if !Truthy(from) {
        from := cfg.adminEmail;
      }
      envelope := ComposeEnvelope(CurrentDraft(), cfg, project, messageID);
    }

    /** `send`: an HTML message, rendered through the template. */
    method Send(cfg: Config, project: string, messageID: string,
                templateOutput: Option<string>, absolutize: string -> string)
      returns (out: Outgoing)
      requires Valid()
      modifies this`body, this`parseVariablesDone, this`from
      ensures parseVariablesDone
      ensures body == if old(parseVariablesDone) then old(body)
                      else absolutize(BuiltBody(old(body), template, false, templateOutput))
      ensures from == if Truthy(old(from)) then old(from) else cfg.adminEmail
      ensures Complies(CurrentDraft(), cfg, project, messageID, out.envelope)
      ensures out.body == body && out.attachments == attachments && out.transport == Html(plaintextBody)
    {
      var envelope := Prepare(false, cfg, project, messageID, templateOutput, absolutize);
      out := Outgoing(envelope, body, attachments, Html(plaintextBody));
    }

    /** `sendPlain`: a plain-text message; the template is not used. */
    method SendPlain(cfg: Config, project: string, messageID: string, absolutize: string -> string)
      returns (out: Outgoing)
      requires Valid()
      modifies this`body, this`parseVariablesDone, this`from
      ensures parseVariablesDone
      ensures body == if old(parseVariablesDone) then old(body) else absolutize(old(body))
      ensures from == if Truthy(old(from)) then old(from) else cfg.adminEmail
      ensures Complies(CurrentDraft(), cfg, project, messageID, out.envelope)
      ensures out.body == body && out.attachments == attachments && out.transport == Plain
    {
      var envelope := Prepare(true, cfg, project, messageID, None, absolutize);
      out := Outgoing(envelope, body, attachments, Plain);
    }
  }
}
