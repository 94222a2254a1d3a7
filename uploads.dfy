/**
 * The two upload configurations: attachments (images, PDF and Word files up
 * to 5 MB) and customer documents to be read as text (plain text and Word
 * files up to 10 MB). Each has a file filter that answers through a
 * callback and a file-name builder that prefixes the original name with
 * the time and a random number.
 *
 * The clock (`Date.now()`) and `Math.round(Math.random() * 1000)` are
 * parameters; the size limit is enforced by the upload library, which
 * refuses a file larger than it.
 */
module Uploads {
  import opened Wrappers
  import opened Text

  const Jpeg: string := "image/jpeg"
  const Png: string := "image/png"
  const Gif: string := "image/gif"
  const Webp: string := "image/webp"
  const Pdf: string := "application/pdf"
  const Msword: string := "application/msword"
  const Docx: string := "application/vnd.openxmlformats-officedocument.wordprocessingml.document"
  const PlainText: string := "text/plain"

  const AttachmentTypes: seq<string> := [Jpeg, Png, Gif, Webp, Pdf, Msword, Docx]
  const DocumentTypes: seq<string> := [PlainText, Msword, Docx]

  const AttachmentTypeMessage: string := "Недопустимый тип файла"
  const DocumentTypeMessage: string := "Допустимые форматы: .txt, .doc, .docx"

  const AttachmentSizeLimit: nat := 5 * 1024 * 1024
  const DocumentSizeLimit: nat := 10 * 1024 * 1024

  /** The filter's answer, `cb(error, accept)`. */
  datatype FilterAnswer = FilterAnswer(error: Option<string>, accept: bool)

  /** An allowlist filter: accepts exactly the listed types, without an
      error; refuses every other with the given error, never accepting. */
  function Filter(allowed: seq<string>, message: string, mimetype: string): (r: FilterAnswer)
    ensures r.accept <==> mimetype in allowed
    ensures r.accept ==> r.error.None?
    ensures !r.accept ==> r.error == Some(message)
  {
    if mimetype in allowed then FilterAnswer(None, true) else FilterAnswer(Some(message), false)
  }

  function AttachmentFilter(mimetype: string): FilterAnswer {
    Filter(AttachmentTypes, AttachmentTypeMessage, mimetype)
  }

  function DocumentFilter(mimetype: string): FilterAnswer {
    Filter(DocumentTypes, DocumentTypeMessage, mimetype)
  }

  /** Whether an upload gets through: its type passes the filter and its
      size is within the limit. */
  predicate Admitted(allowed: seq<string>, message: string, limit: nat, mimetype: string, size: nat) {
    Filter(allowed, message, mimetype).accept && size <= limit
  }

  predicate AttachmentAdmitted(mimetype: string, size: nat) {
    Admitted(AttachmentTypes, AttachmentTypeMessage, AttachmentSizeLimit, mimetype, size)
  }

  predicate DocumentAdmitted(mimetype: string, size: nat) {
    Admitted(DocumentTypes, DocumentTypeMessage, DocumentSizeLimit, mimetype, size)
  }

  /** The document upload takes no image the attachment upload takes, and
      plain text goes only through the document upload. */
  lemma ImagesAreAttachmentsOnly(mimetype: string)
    ensures mimetype in [Jpeg, Png, Gif, Webp] ==>
              AttachmentFilter(mimetype).accept && !DocumentFilter(mimetype).accept
    ensures mimetype == PlainText ==> DocumentFilter(mimetype).accept && !AttachmentFilter(mimetype).accept
  {
  }

  /** Word files are the types both uploads take. */
  lemma SharedTypes(mimetype: string)
    ensures AttachmentFilter(mimetype).accept && DocumentFilter(mimetype).accept <==>
              mimetype == Msword || mimetype == Docx
  {
  }

  /** A Word file over 5 MB and up to 10 MB is admitted as a document to
      read but not as an attachment. */
  lemma LargeWordFileIsDocumentOnly(mimetype: string, size: nat)
    requires mimetype == Msword || mimetype == Docx
    requires AttachmentSizeLimit < size <= DocumentSizeLimit
    ensures DocumentAdmitted(mimetype, size) && !AttachmentAdmitted(mimetype, size)
  {
  }

  /** `${Date.now()}-${Math.round(Math.random() * 1000)}-${originalname}`. */
  function StoredName(now: nat, roll: nat, originalName: string): string {
    NatToString(now) + "-" + NatToString(roll) + "-" + originalName
  }

  /** Reads a stored name back into its time, its random number and the
      original name (which may itself hold dashes). */
  function ParseStoredName(name: string): Option<(nat, nat, string)> {
    var parts := Split(name, '-');
    if |parts| >= 3 && ParseNat(parts[0]).Some? && ParseNat(parts[1]).Some? then
      Some((ParseNat(parts[0]).value, ParseNat(parts[1]).value, JoinWith(parts[2..], "-")))
    else
      None
  }

  /** The stored name's dash-separated fields: the two numbers, then the
      fields of the original name. */
  lemma StoredNameFields(now: nat, roll: nat, originalName: string)
    ensures Split(StoredName(now, roll, originalName), '-')
            == [NatToString(now), NatToString(roll)] + Split(originalName, '-')
  {
    DigitsExclude(NatToString(now), '-');
    DigitsExclude(NatToString(roll), '-');
    SplitTwoFields(NatToString(now), NatToString(roll), originalName, '-');
  }

  /** The stored name ends with the original name, and reads back into
      exactly the three parts it was built from. */
  lemma StoredNameRoundTrip(now: nat, roll: nat, originalName: string)
    ensures var name := StoredName(now, roll, originalName);
      && |originalName| <= |name|
      && name[|name| - |originalName|..] == originalName
      && ParseStoredName(name) == Some((now, roll, originalName))
  {
    var parts := Split(StoredName(now, roll, originalName), '-');
    StoredNameFields(now, roll, originalName);
    assert parts[2..] == Split(originalName, '-');
    JoinSplit(originalName, '-');
    ParseNatToString(now);
    ParseNatToString(roll);
  }

  /** Two uploads get different stored names unless they share the
      millisecond, the random number and the original name. */
  lemma StoredNamesDiffer(now1: nat, roll1: nat, name1: string, now2: nat, roll2: nat, name2: string)
    requires (now1, roll1, name1) != (now2, roll2, name2)
    ensures StoredName(now1, roll1, name1) != StoredName(now2, roll2, name2)
  {
    StoredNameRoundTrip(now1, roll1, name1);
    StoredNameRoundTrip(now2, roll2, name2);
  }
}
