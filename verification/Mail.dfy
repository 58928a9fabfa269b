/** Messages handed to the delivery provider (app/mailer/base.py). */
module Mail {
  import opened Prelude

  /**
   * Idempotency keys. The program renders them as "email-confirmation/<id>",
   * "password-reset/<id>" and "issue-report/<uuid>"; the three renderings are
   * injective and never meet, which is all the constructors keep.
   */
  datatype Key = ConfirmationKey(tokenId: nat) | ResetKey(tokenId: nat) | ReportKey(uuid: nat)

  /** Rendered content, kept opaque; Blank is the empty text left by a permanent failure. */
  datatype Body =
    | Blank
    | ConfirmationBody(raw: nat, requestedAt: int)
    | ResetBody(raw: nat, requestedAt: int)
    | ReportBody(report: string)

  datatype EmailMessage = EmailMessage(
    to: string,
    replyTo: Option<string>,
    subject: string,
    text: Body,
    html: Body,
    key: Option<Key>)
}
