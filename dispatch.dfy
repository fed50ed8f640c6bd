/** What `Email::send` and `Email::sendPlain` hand to the mailer, apart from the
    body and the attachments: the recipient, the sender, the subject and the
    header map. Both run the same procedure on the message's fields and the
    site configuration; this module states that procedure's rules and proves an
    imperative rendition of it against them. */
module Dispatch {
  import opened Wrappers
  import opened PhpStrings

  const MessageIdHeader := "X-SilverStripeMessageID"
  const SiteHeader := "X-SilverStripeSite"

  /** The `Email` configuration read at send time; "" stands for an unset value. */
  datatype Config = Config(
    adminEmail: string,
    sendAllEmailsTo: string,
    sendAllEmailsFrom: string,
    ccAllEmailsTo: string,
    bccAllEmailsTo: string)

  /** The fields of a message that take part in composing its envelope. */
  datatype Draft = Draft(
    to: string,
    from: string,
    subject: string,
    cc: string,
    bcc: string,
    customHeaders: map<string, string>)

  /** What the mailer is handed besides the body and the attachments. */
  datatype Envelope = Envelope(to: string, from: string, subject: string, headers: map<string, string>)

  function Lookup(headers: map<string, string>, name: string): Option<string> {
    if name in headers then Some(headers[name]) else None
  }

  /** `!empty($headers[$name]) && trim($headers[$name])`. */
  predicate NonBlank(value: Option<string>) {
    value.Some? && Truthy(value.value) && Truthy(Trim(value.value))
  }

  /** The `!empty` half of the test adds nothing: a header is non-blank exactly when
      it is present and its trimmed value is truthy. */
  lemma NonBlankIsTrimmedTruthy(value: Option<string>)
    ensures NonBlank(value) <==> value.Some? && Truthy(Trim(value.value))
  {
    if value.Some? {
      TrimmedTruthyImpliesTruthy(value.value);
    }
  }

  /** The headers the procedure writes itself; every other header is the message's own. */
  predicate Managed(name: string) {
    name == "Cc" || name == "Bcc" || name == MessageIdHeader || name == SiteHeader
  }

  // ----- The rules

  /** `send_all_emails_to` redirects the message. */
  predicate Redirected(cfg: Config) {
    Truthy(cfg.sendAllEmailsTo)
  }

  /** The note a redirected message carries in its subject: the original
      recipient, then the cc and the bcc when they are set. */
  function AddressedNote(d: Draft): string {
    " [addressed to " + d.to
    + (if Truthy(d.cc) then ", cc to " + d.cc else "")
    + (if Truthy(d.bcc) then ", bcc to " + d.bcc else "")
    + "]"
  }

  /** The recipient: the redirect address when one is configured, else the message's own. */
  predicate RoutesTo(d: Draft, cfg: Config, e: Envelope) {
    e.to == if Redirected(cfg) then cfg.sendAllEmailsTo else d.to
  }

  /** The sender: `send_all_emails_from` when configured, else the message's own. */
  predicate SendsFrom(d: Draft, cfg: Config, e: Envelope) {
    e.from == if Truthy(cfg.sendAllEmailsFrom) then cfg.sendAllEmailsFrom else d.from
  }

  /** The subject: the message's own, then the redirect note when redirected, then
      " [from <sender>]" when the sender is overridden and the message had one. */
  predicate TagsSubject(d: Draft, cfg: Config, e: Envelope) {
    e.subject == d.subject
      + (if Redirected(cfg) then AddressedNote(d) else "")
      + (if Truthy(cfg.sendAllEmailsFrom) && Truthy(d.from) then " [from " + d.from + "]" else "")
  }

  /** Every header the procedure does not manage is passed on exactly as the
      message has it (or not at all). */
  ghost predicate KeepsCustomHeaders(d: Draft, e: Envelope) {
    forall name :: !Managed(name) ==> Lookup(e.headers, name) == Lookup(d.customHeaders, name)
  }

  /** The message-id header is `<project>.<messageID>` when an id is given; the site
      header is the project name when there is one. */
  predicate StampsHeaders(custom: map<string, string>, project: string, messageID: string, headers: map<string, string>) {
    && Lookup(headers, MessageIdHeader)
       == (if Truthy(messageID) then Some(project + "." + messageID) else Lookup(custom, MessageIdHeader))
    && Lookup(headers, SiteHeader)
       == (if Truthy(project) then Some(project) else Lookup(custom, SiteHeader))
  }

  /** A copy header (`Cc` or `Bcc`) after a site-wide copy address `extra` is merged
      in: appended after ", " to a non-blank header, and otherwise the whole header. */
  function WithCopy(current: Option<string>, extra: string): Option<string> {
    if !Truthy(extra) then current
    else if NonBlank(current) then Some(current.value + ", " + extra)
    else Some(extra)
  }

  /** A copy header before the site-wide copy is merged: dropped when redirected,
      else the message's own field when it is set, else what the custom headers hold. */
  function CopyBase(redirected: bool, field: string, custom: Option<string>): Option<string> {
    if redirected then None else if Truthy(field) then Some(field) else custom
  }

  /** The `Cc` and `Bcc` headers. */
  predicate CopiesTo(d: Draft, cfg: Config, e: Envelope) {
    && Lookup(e.headers, "Cc")
       == WithCopy(CopyBase(Redirected(cfg), d.cc, Lookup(d.customHeaders, "Cc")), cfg.ccAllEmailsTo)
    && Lookup(e.headers, "Bcc")
       == WithCopy(CopyBase(Redirected(cfg), d.bcc, Lookup(d.customHeaders, "Bcc")), cfg.bccAllEmailsTo)
  }

  /** All the rules together. */
  ghost predicate Complies(d: Draft, cfg: Config, project: string, messageID: string, e: Envelope) {
    && RoutesTo(d, cfg, e)
    && SendsFrom(d, cfg, e)
    && TagsSubject(d, cfg, e)
    && KeepsCustomHeaders(d, e)
    && StampsHeaders(d.customHeaders, project, messageID, e.headers)
    && CopiesTo(d, cfg, e)
  }

  // ----- The procedure

  /** The header and subject assembly shared by `send` and `sendPlain`, step by step
      as they perform it, from the point where the sender has been defaulted. */
  method ComposeEnvelope(d: Draft, cfg: Config, project: string, messageID: string)
    returns (e: Envelope)
    ensures RoutesTo(d, cfg, e) && SendsFrom(d, cfg, e) && TagsSubject(d, cfg, e)
    ensures KeepsCustomHeaders(d, e)
    ensures StampsHeaders(d.customHeaders, project, messageID, e.headers)
    ensures CopiesTo(d, cfg, e)
  {
    var stamped := Stamp(d.customHeaders, project, messageID);
    var to, routedSubject, routed := Route(d, cfg, stamped);
    var withCc := MergeCopy(routed, "Cc", cfg.ccAllEmailsTo);
    var headers := MergeCopy(withCc, "Bcc", cfg.bccAllEmailsTo);
    var from, subject := OverrideSender(d.from, cfg, routedSubject);
    e := Envelope(to, from, subject, headers);
    assert forall name :: !Managed(name) ==> Lookup(headers, name) == Lookup(withCc, name) == Lookup(routed, name);
  }

  /** The `send_all_emails_from` step: the sender becomes that address, and the
      subject gets " [from <sender>]" when the message had a sender. */
  method OverrideSender(sender: string, cfg: Config, routedSubject: string)
    returns (from: string, subject: string)
    ensures from == if Truthy(cfg.sendAllEmailsFrom) then cfg.sendAllEmailsFrom else sender
    ensures subject == routedSubject
      + (if Truthy(cfg.sendAllEmailsFrom) && Truthy(sender) then " [from " + sender + "]" else "")
  {
    from, subject := sender, routedSubject;
    if Truthy(cfg.sendAllEmailsFrom) {
      if Truthy(from) {
        subject := subject + " [from " + from + "]";
      }
      from := cfg.sendAllEmailsFrom;
    }
  }

  /** The first step: the custom headers, with the message-id header set when an id
      is given and the site header set when there is a project name. */
  method Stamp(custom: map<string, string>, project: string, messageID: string)
    returns (headers: map<string, string>)
    ensures forall name :: name != MessageIdHeader && name != SiteHeader ==>
      Lookup(headers, name) == Lookup(custom, name)
    ensures StampsHeaders(custom, project, messageID, headers)
  {
    headers := custom;
    if Truthy(messageID) {
      headers := headers[MessageIdHeader := project + "." + messageID];
    }
    if Truthy(project) {
      headers := headers[SiteHeader := project];
    }
  }

  /** The `send_all_emails_to` step: when redirected, the recipient becomes the
      redirect address, the subject gets the addressed-to note and the `Cc` and
      `Bcc` headers are dropped; otherwise the message's own cc and bcc, when set,
      become those headers. */
  method Route(d: Draft, cfg: Config, stamped: map<string, string>)
    returns (to: string, subject: string, headers: map<string, string>)
    ensures to == if Redirected(cfg) then cfg.sendAllEmailsTo else d.to
    ensures subject == d.subject + if Redirected(cfg) then AddressedNote(d) else ""
    ensures forall name :: name != "Cc" && name != "Bcc" ==> Lookup(headers, name) == Lookup(stamped, name)
    ensures Lookup(headers, "Cc") == CopyBase(Redirected(cfg), d.cc, Lookup(stamped, "Cc"))
    ensures Lookup(headers, "Bcc") == CopyBase(Redirected(cfg), d.bcc, Lookup(stamped, "Bcc"))
  {
    headers := stamped;
    to, subject := d.to, d.subject;
    if Truthy(cfg.sendAllEmailsTo) {
      subject := subject + " [addressed to " + to;
      to := cfg.sendAllEmailsTo;
      if Truthy(d.cc) {
        subject := subject + ", cc to " + d.cc;
      }
      if Truthy(d.bcc) {
        subject := subject + ", bcc to " + d.bcc;
      }
      subject := subject + "]";
      assert subject == d.subject + AddressedNote(d);
      headers := headers - {"Cc", "Bcc"};
    } else {
      if Truthy(d.cc) {
        headers := headers["Cc" := d.cc];
      }
      if Truthy(d.bcc) {
        headers := headers["Bcc" := d.bcc];
      }
    }
  }

  /** The `cc_all_emails_to` / `bcc_all_emails_to` step for the header `name`. */
  method MergeCopy(headers: map<string, string>, name: string, extra: string)
    returns (merged: map<string, string>)
    ensures Lookup(merged, name) == WithCopy(Lookup(headers, name), extra)
    ensures forall other :: other != name ==> Lookup(merged, other) == Lookup(headers, other)
  {
    merged := headers;
    if Truthy(extra) {
      if NonBlank(Lookup(merged, name)) {
        merged := merged[name := merged[name] + ", " + extra];
      } else {
        merged := merged[name := extra];
      }
    }
  }

  // ----- Properties of the rules

  /** Two header maps that agree on every lookup are the same map. */
  lemma LookupExtensional(a: map<string, string>, b: map<string, string>)
    requires forall name :: Lookup(a, name) == Lookup(b, name)
    ensures a == b
  {
    assert a.Keys == b.Keys by {
      forall name ensures name in a <==> name in b {
        assert Lookup(a, name) == Lookup(b, name);
      }
    }
    forall name | name in a ensures a[name] == b[name] {
      assert Lookup(a, name) == Lookup(b, name);
    }
  }

  /** The rules leave nothing open: at most one envelope complies with them, so
      `send` and `sendPlain` hand the mailer the same envelope for the same message. */
  lemma EnvelopeDetermined(d: Draft, cfg: Config, project: string, messageID: string, e1: Envelope, e2: Envelope)
    requires Complies(d, cfg, project, messageID, e1)
    requires Complies(d, cfg, project, messageID, e2)
    ensures e1 == e2
  {
    forall name ensures Lookup(e1.headers, name) == Lookup(e2.headers, name) {
      if !Managed(name) {
        assert Lookup(e1.headers, name) == Lookup(d.customHeaders, name);
      }
    }
    LookupExtensional(e1.headers, e2.headers);
  }

  /** A redirected message carries no `Cc` or `Bcc` of its own: only the site-wide
      copy addresses, when they are configured, survive as those headers. */
  lemma RedirectDropsCopies(d: Draft, cfg: Config, project: string, messageID: string, e: Envelope)
    requires Complies(d, cfg, project, messageID, e)
    requires Redirected(cfg)
    ensures Lookup(e.headers, "Cc") == (if Truthy(cfg.ccAllEmailsTo) then Some(cfg.ccAllEmailsTo) else None)
    ensures Lookup(e.headers, "Bcc") == (if Truthy(cfg.bccAllEmailsTo) then Some(cfg.bccAllEmailsTo) else None)
    ensures e.to == cfg.sendAllEmailsTo
  {
  }

  /** With no site-wide setting at all, the message's own recipient, sender and
      subject go out unchanged, and `Cc`/`Bcc` are its own cc and bcc when they are
      set and absent otherwise. */
  lemma UnconfiguredSendIsTransparent(d: Draft, cfg: Config, project: string, messageID: string, e: Envelope)
    requires Complies(d, cfg, project, messageID, e)
    requires !Truthy(cfg.sendAllEmailsTo) && !Truthy(cfg.sendAllEmailsFrom)
    requires !Truthy(cfg.ccAllEmailsTo) && !Truthy(cfg.bccAllEmailsTo)
    requires "Cc" !in d.customHeaders && "Bcc" !in d.customHeaders
    ensures e.to == d.to && e.from == d.from && e.subject == d.subject
    ensures Lookup(e.headers, "Cc") == (if Truthy(d.cc) then Some(d.cc) else None)
    ensures Lookup(e.headers, "Bcc") == (if Truthy(d.bcc) then Some(d.bcc) else None)
  {
  }
}
