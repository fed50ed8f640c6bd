# Email message object — a Dafny model

This project models the `Email` class of the SilverStripe framework
(`email/Email.php`). An `Email` holds a message's sender, recipient, cc and bcc,
subject and body. It also holds a map of custom headers, a list of attachments,
the name of the template the body is rendered with, and a flag that makes the
template pass run once per population of template data. `send` and `sendPlain`
work out the outgoing recipient, sender, subject and headers from these fields
and from the site configuration. That configuration can redirect every message
(`send_all_emails_to`), override every sender (`send_all_emails_from`) and copy
every message to fixed addresses (`cc_all_emails_to`, `bcc_all_emails_to`). The
static `obfuscate` helper encodes an address in one of three ways to hide it from
harvesters.

Modules, one per concern:

- `PhpStrings` (`php_strings.dfy`): PHP string truthiness (`""` and `"0"` are false;
  `empty()` is its negation) and `trim()`.
- `Wrappers` (`wrappers.dfy`): the `Option` type, for a header that may be absent
  and for an attachment's optional MIME type.
- `Dispatch` (`dispatch.dfy`): the envelope rules as predicates over a message
  `Draft`, a `Config` and the resulting `Envelope`. It also holds
  `ComposeEnvelope`, the step-by-step assembly shared by `send` and `sendPlain`
  (split into the steps `Stamp`, `Route`, `MergeCopy` and `OverrideSender`),
  proved against those rules, and lemmas about them. The most important lemma is
  `EnvelopeDetermined`: the rules allow exactly one envelope.
- `EmailMessage` (`email_message.dfy`): the `Email` class. Its setters, header
  bookkeeping, attachment list and template flag are methods that update its
  fields. `Send` and `SendPlain` stop where the source calls the mailer, and return
  what they would hand to it. The object invariant `Valid()` says that `Cc` and
  `Bcc` are never keys of the custom-header map, because `addCustomHeader` routes
  them to their own fields.
- `Obfuscation` (`obfuscation.dfy`): the three encodings. `direction` reverses the
  address inside a right-to-left span. `visible` spells out `@`, `.` and `-`. `hex`
  writes one `&#xHH;` character reference per byte; it is a loop in the source, so
  it is the method `Hex`. `HexDecoding` is the partner that reads the encoding back.

Conventions:

- A PHP `null` string is modelled as `""`. Truthiness, `empty`, interpolation and
  `.=` treat the two alike. The `isset` test in `addCustomHeader`
  (email/Email.php:277) does not; the `EmailMessage.Email.AddCustomHeader` line
  under "Left out" says what the model then does differently.
- Configuration values, the project name (`project()`) and the message id are
  parameters, with `""` for unset.
- Two external services are also parameters: the output of the template engine
  (`None` when the template does not exist) and the relative-URL rewriter
  (`HTTP::absoluteURLs`).
- PHP strings are byte strings, so `obfuscate` takes a sequence of characters
  below 256, one per byte.
- The comment on `send_all_emails_from` (email/Email.php:136-137) describes the
  subject suffix as `" [, from to (email)]"`. The code appends `" [from <email>]"`
  (email/Email.php:464). The model follows the code.
- The comment on `obfuscate` (email/Email.php:654) gives the `visible` replacements
  as `[at]`, `[dot]` and `[dash]`. The code's table (email/Email.php:667) wraps
  each in spaces: `" [at] "`, `" [dot] "`, `" [dash] "`. The model follows the code.

## Model

| member | source | states |
|---|---|---|
| `PhpStrings.LeadingTrimmed` | email/Email.php:448 | the run of characters `trim()` removes at the front: all of them are whitespace/NUL/vertical-tab and the next one is not |
| `PhpStrings.TrailingTrimmed` | email/Email.php:448 | the same for the run at the back |
| `PhpStrings.Trim` | email/Email.php:448 | the result neither starts nor ends with a trimmed character; it is empty exactly when the input holds only trimmed characters; otherwise it is the slice between the two runs |
| `PhpStrings.TrimmedTruthyImpliesTruthy` | email/Email.php:448 | in `!empty($h) && trim($h)`, the `!empty` half is implied by the `trim` half |
| `Dispatch.ComposeEnvelope` | email/Email.php:425-466 | the header and subject assembly of `sendPlain` and `send`, step by step, meets every envelope rule: recipient, sender, subject, untouched custom headers, message-id and site stamps, and the `Cc`/`Bcc` headers |
| `Dispatch.Stamp` | email/Email.php:425-429 | the custom headers, plus `X-SilverStripeMessageID` = `<project>.<id>` when an id is given and `X-SilverStripeSite` = project when it is non-empty; no other header changes |
| `Dispatch.Route` | email/Email.php:431-445 | with `send_all_emails_to` set: the recipient is that address, the subject gets `" [addressed to <to>"`, then `", cc to <cc>"` and `", bcc to <bcc>"` only when set, then `"]"`, and `Cc`/`Bcc` are dropped. Otherwise: recipient and subject unchanged, and `Cc`/`Bcc` become the cc/bcc fields when those are non-empty; an empty field leaves a custom `Cc`/`Bcc` header as it was. No other header changes |
| `Dispatch.MergeCopy` | email/Email.php:447-461 | a site-wide copy address is appended after `", "` to a non-blank `Cc` (or `Bcc`) header, and otherwise becomes the whole header; no other header changes |
| `Dispatch.NonBlankIsTrimmedTruthy` | email/Email.php:448 | a header passes `!empty($h) && trim($h)` exactly when it is present and its trimmed value is truthy |
| `Dispatch.OverrideSender` | email/Email.php:463-466 | with `send_all_emails_from` set, the sender becomes that address and `" [from <old sender>]"` is appended to the subject only when the old sender was non-empty; otherwise both are unchanged |
| `Dispatch.EnvelopeDetermined` | email/Email.php:488-534 | the rules fix the envelope: two envelopes that both comply are equal, so `send` and `sendPlain` hand the mailer the same recipient, sender, subject and headers |
| `Dispatch.RedirectDropsCopies` | email/Email.php:434-461 | under `send_all_emails_to`, the recipient is the redirect address, and `Cc`/`Bcc` hold exactly the site-wide copy address when one is set and are absent otherwise |
| `Dispatch.UnconfiguredSendIsTransparent` | email/Email.php:431-466 | with no site-wide setting, recipient, sender and subject go out as written, and `Cc`/`Bcc` are the message's own cc/bcc when non-empty, absent otherwise |
| `EmailMessage.Email.constructor` | email/Email.php:162-177 | a new message holds the given fields, no custom headers or attachments, the `GenericEmail` template and a cleared template flag |
| `EmailMessage.Email.AttachFileFromString` | email/Email.php:179-186 | the attachment list grows by one; the new last entry holds the contents, file name and MIME type; earlier entries are unchanged; the message itself is returned |
| `EmailMessage.Email.SetSubject` | email/Email.php:203-230 | `Subject()` then returns the value, nothing else changes, and the message itself is returned for chaining |
| `EmailMessage.Email.SetBody` | email/Email.php:207-235 | `Body()` then returns the value; nothing else changes; chainable |
| `EmailMessage.Email.SetTo` | email/Email.php:211-240 | `To()` then returns the value; nothing else changes; chainable |
| `EmailMessage.Email.SetFrom` | email/Email.php:215-245 | `From()` then returns the value; nothing else changes; chainable |
| `EmailMessage.Email.SetCc` | email/Email.php:219-250 | `Cc()` then returns the value; nothing else changes; chainable |
| `EmailMessage.Email.SetBcc` | email/Email.php:223-255 | `Bcc()` then returns the value; nothing else changes; chainable |
| `EmailMessage.Email.SetTemplate` | email/Email.php:307-317 | `Template()` then returns the name; nothing else changes; chainable |
| `EmailMessage.Email.AddCustomHeader` | email/Email.php:273-281 | `Cc` sets the cc field and `Bcc` the bcc field, leaving the header map untouched. Any other name: an absent header is set to the value, a present one becomes `old + ", " + value`, and every other entry is unchanged. `Cc`/`Bcc` never enter the map |
| `EmailMessage.Email.ReplyTo` | email/Email.php:261-264 | adds the address to `Reply-To` exactly as `AddCustomHeader` would, leaving cc, bcc and all other headers unchanged |
| `EmailMessage.Email.PopulateTemplate` | email/Email.php:347-357 | clears the template flag, so the next template pass rebuilds the body |
| `EmailMessage.Email.ParseVariables` | email/Email.php:365-394 | sets the flag. When the flag was clear, the body becomes the URL-rewritten template output (when a template is named, the message is not plain and the template exists) or the URL-rewritten body. When the flag was set, the body is unchanged |
| `EmailMessage.Email.Debug` | email/Email.php:290-300 | runs the same template pass as `send` (sets the flag, so a later send does not render again), then returns the heading with the class name, the from, to, cc, bcc and subject lines, and the body as it stands after that pass |
| `EmailMessage.Email.Prepare` | email/Email.php:418-466 | the shared part of both sends: template pass, an empty sender replaced by `admin_email` on the message (a non-empty one kept), and an envelope meeting every rule. Without redirect, `Cc`/`Bcc` are the non-empty cc/bcc merged with the site-wide copies |
| `EmailMessage.Email.Send` | email/Email.php:483-540 | an HTML send: template pass (not plain), sender default, a complying envelope, and the body, attachments and plain-text body handed over with it |
| `EmailMessage.Email.SendPlain` | email/Email.php:418-471 | a plain send: the body is only URL-rewritten (no template), sender default, a complying envelope, with the body and attachments handed over |
| `Obfuscation.Reverse` | email/Email.php:665 | `strrev`: same length, and position `i` holds the input's byte at `n-1-i` |
| `Obfuscation.ReverseReverse` | email/Email.php:665 | reversing twice gives the input back |
| `Obfuscation.Direction` | email/Email.php:660-665 | the output is the `codedirection` span opening tag, then the address reversed, then the closing tag; reading the span text back to front gives the address |
| `Obfuscation.Visible` | email/Email.php:666-668 | `@` becomes `" [at] "`, `.` becomes `" [dot] "` and `-` becomes `" [dash] "`; no `@`, `.` or `-` survives, and an address without any of them comes back unchanged |
| `Obfuscation.VisibleConcat` | email/Email.php:666-668 | the substitution works byte by byte: encoding a concatenation encodes its parts independently |
| `Obfuscation.VisibleSpellsOut` | email/Email.php:666-668 | a `@`, `.` or `-` anywhere in an address is replaced in place by `" [at] "`, `" [dot] "` or `" [dash] "`, with the text on either side encoded independently |
| `Obfuscation.Entity` | email/Email.php:671 | one byte becomes six characters: `&#x`, the lower-case hex digits of its high and low nibble, and `;` |
| `Obfuscation.HexEncoding` | email/Email.php:669-672 | the `hex` output is 6·n characters long for n bytes |
| `Obfuscation.HexEncodingAt` | email/Email.php:671 | characters `6i` to `6i+5` of the output are the entity of byte `i` |
| `Obfuscation.HexEncodingAppend` | email/Email.php:671 | one loop step: appending a byte appends its entity |
| `Obfuscation.HexRoundTrip` | email/Email.php:669-672 | decoding the `hex` output gives the address back, so the encoding loses nothing |
| `Obfuscation.Hex` | email/Email.php:669-672 | the `for` loop accumulating `&#x<bin2hex>;` computes exactly `HexEncoding` |
| `Obfuscation.Obfuscate` | email/Email.php:658-677 | dispatches on the method name (`visible` by default): `direction`, `visible` or `hex` give their encoding, where `hex` decodes back to the address; any other name returns the address unchanged |

## Left out

- The mailer: the `Mailer` singleton and `set_mailer` (email/Email.php:68-87) and the final `sendPlain`/`sendHTML` calls (email/Email.php:470, email/Email.php:538). They belong to a collaborator that is not part of this model. `Send`/`SendPlain` return the message they would hand over. The mailer's boolean result is not modelled.
- Template rendering: `templateData`, `customise`, `SSViewer` and `HTTP::absoluteURLs` (email/Email.php:319-334, email/Email.php:373-389) are foreign code. Their results are parameters of `ParseVariables`. The data passed to `populateTemplate` is not stored; only its reset of the template flag is modelled. Saving and restoring `SSViewer.source_file_comments` (email/Email.php:366-367, email/Email.php:391) is left out too.
- Global configuration: `Config::inst()`, the deprecated static setters and getters (email/Email.php:552-614), and `project()` are replaced by parameters. The source reads `admin_email` through `Email::config()` and the other settings through `$this->config()`, which can differ in a subclass. The model has a single `Config`.
- `Requirements::clear`/`restore` around a send, and the `customCSS` that `direction` registers (email/Email.php:661-664). These are page-asset side effects.
- Four operations: `attachFile` (file-system I/O, email/Email.php:192-201), the `X_MAILER` constant (reads `$_SERVER`, email/Email.php:7-19), `validEmailAddress` (defers to `filter_var` or PCRE, email/Email.php:399-406) and `is_valid_address` (a composed RFC 822 regular expression handed to `preg_match`, email/Email.php:626-642).
- `BaseURL` (email/Email.php:283-285) returns `Director::absoluteBaseURL()`, a call into code outside this model. `IsEmail` (email/Email.php:339-341) only returns true. `setBounceHandlerURL` (email/Email.php:188-190) and the constructor's bounce-handler argument only raise a deprecation notice.
- EmailMessage.Email.Debug: `$this->class` is a parameter, since the model has no subclasses.
- The `E_USER_NOTICE` raised by `obfuscate` for an unknown method is not modelled. The returned value is.
- Header order: PHP arrays keep insertion order. The model's header maps do not, so the order in which headers reach the mailer is not captured.
- EmailMessage.Email.AddCustomHeader: a header added with a `null` value is not `isset`, so the source overwrites it on the next call instead of appending. With `null` modelled as `""`, the model appends. Likewise the getters return `""` where the source returns `null`.
- The HTML sanitiser test (tests/php/Forms/HTMLEditor/HTMLEditorSanitiserTest.php) is not modelled. The sanitiser's implementation is not part of this model.
