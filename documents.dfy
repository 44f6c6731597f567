/** The persisted document entity as the document API reads and writes it:
    the fields of `XdDocument` and `XdDocumentType` that LegacyApi.kt
    touches, and the keyed store that holds them. */
module Documents {

  import opened Text

  /** A document's short, unique key. */
  type Slug = string

  /** A user entity, by identity only. */
  datatype User = User(id: nat)

  /** `XdDocumentType`: a shortened link or a plain paste. */
  datatype DocumentType = URL | PASTE

  /** `XdDocument`: `slug`, `owner`, `stringContent`, `type` and the edit
      counter `version`. */
  datatype Document = Document(
    slug: Slug,
    owner: User,
    content: string,
    kind: DocumentType,
    version: nat)

  /** The document store, keyed by slug. */
  type Store = map<Slug, Document>

  /** The type the API assigns from the URL classification. */
  function KindOf(isUrl: bool): (k: DocumentType)
    ensures k == URL <==> isUrl
  {
    if isUrl then URL else PASTE
  }

  /** Every document sits under its own slug, so slugs are unique, and its
      content is non-empty and has no surrounding whitespace. */
  ghost predicate WellFormed(docs: Store) {
    forall s :: s in docs ==>
      && docs[s].slug == s
      && docs[s].content != []
      && IsTrimmed(docs[s].content)
  }
}
