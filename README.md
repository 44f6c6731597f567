# dogbin legacy document API — a Dafny model

dogbin is a paste bin and URL shortener. Clients post text or a URL and get a
short slug back. They can later fetch the content under `raw/{slug}`, or post
again under the same slug to edit the document. This project models the
legacy API's `POST documents` handler, `ApplicationCall.createDocument`, and
the `GET raw/{slug}` lookup, both in `app/src/dog/del/app/frontend/LegacyApi.kt`.

`createDocument` runs in three steps:

1. Validation. Blank content is refused. Then a requested slug, when present
   and not blank, is checked by the slug validator.
2. The caller's capabilities. A request from the frontend (`?frontend=true`)
   acts as the session user with every right. Any other request uses its API
   credentials when it has some; without credentials it falls back to the
   session user with every right.
3. One transaction on the store. It decides between create, edit and refusal,
   then inserts a new document or edits the found one in place.

The files:

- `text.dfy` (module `Text`): Kotlin's `Char.isWhitespace`, `isBlank` and
  `trim`, which the handler uses on the content. It also proves what `trim`
  keeps and drops.
- `documents.dfy` (module `Documents`): the document entity, its type
  (URL or PASTE), the store `map<Slug, Document>` and the store invariant
  `WellFormed`. The invariant says every document sits under its own slug and
  holds trimmed, non-empty content.
- `legacy_api.dfy` (module `LegacyApi`): the request and reply types, the
  validation and capability steps, and the decision `Decide` with its effect
  `Perform`. `Resolve` is the whole request as a function of the store. The
  lemmas state each branch of the decision table. The class `DocumentStore`
  holds the store and carries out `POST documents` step by step
  (`CreateDocument`, with its write `Commit`) and `GET raw/{slug}` (`Raw`).
- `wrappers.dfy` (module `Wrappers`): `Option`, for Kotlin's nullable values.

The handler also relies on four collaborators whose code is not part of this
model: `XdDocument.verifySlug`, `String.isUrl`, `XdDocument.userCanEdit` and
`KeyGenerator.createKey`. They are function-valued fields of `Collaborators`
and are given to every operation. The model assumes only one thing about the
key generator: for the URL hint it is given, it returns a slug not in use
(`KeyIsFresh`). Only the properties that depend on that promise require it,
and only for requests that ask for no slug (`GeneratedKeyIsFresh`).

Statistics reports are recorded as a sequence of `Event`s in the order the
handler launches them.

Three details of the code that the model keeps:

- The slug validator is called before the blank-content check (line 94). The
  model treats `verifySlug` as pure, so that order is not visible in it.
- The URL classification is applied to the untrimmed content (lines 124, 151,
  175), while the trimmed content is what gets stored.
- The reply's key is the stored document's slug (lines 139, 162, 189).

`String.trim`, `isBlank` and `Char.isWhitespace` come from the Kotlin standard
library, which is not part of this model. They are modelled from their
documented behaviour, and their rows below cite the lines that call them.

## Model

| member | source | states |
|---|---|---|
| Text.Trim | app/src/dog/del/app/frontend/LegacyApi.kt:129 | `trim()` leaves no whitespace at either end. Its result is empty exactly when the input is blank (`isBlank`, line 95), so content that passes the blank check is never stored empty. |
| Text.TrimIsInfix | app/src/dog/del/app/frontend/LegacyApi.kt:152 | `trim()` removes only whitespace. The input is a blank prefix, then the trimmed result, then a blank suffix. |
| Text.TrimOfPadded | app/src/dog/del/app/frontend/LegacyApi.kt:179 | The converse of TrimIsInfix. A string with no whitespace at its ends, padded with whitespace on either side, trims back to itself. |
| Text.TrimIdempotent | app/src/dog/del/app/frontend/LegacyApi.kt:129 | Trimming stored content again changes nothing. |
| Documents.KindOf | app/src/dog/del/app/frontend/LegacyApi.kt:130 | The document type is URL exactly when the content is classified as a URL, and PASTE otherwise. |
| LegacyApi.Permissions | app/src/dog/del/app/frontend/LegacyApi.kt:114-117 | Capability defaulting. With credentials, the user and both flags come from them. Without, the session user acts with both the create and the edit right. |
| LegacyApi.CallerOf | app/src/dog/del/app/frontend/LegacyApi.kt:104-117 | A frontend request (`frontend` equal to "true", ignoring case) is the session user with every right, whatever credentials exist. Any other request gets Permissions of its stored credentials. |
| LegacyApi.Decide | app/src/dog/del/app/frontend/LegacyApi.kt:118-193 | A create needs the create right and a create branch. A requested slug is used verbatim and only when it is free; with no slug, the generator's key is used. An edit targets an existing requested slug and needs both the edit right and `userCanEdit`. The URL classification is that of the content. A refusal is Forbidden or Conflict. |
| LegacyApi.Perform | app/src/dog/del/app/frontend/LegacyApi.kt:123-191 | No slug leaves the store. The store stays as it was and the reply fails exactly when the decision is a refusal. A create under a free slug leaves every stored document as it was, and an edit leaves every other document as it was. |
| LegacyApi.Transact | app/src/dog/del/app/frontend/LegacyApi.kt:104-195 | No slug leaves the store, and a failed reply leaves the store as it was. |
| LegacyApi.Resolve | app/src/dog/del/app/frontend/LegacyApi.kt:94-196 | No slug leaves the store, and a rejected request leaves it as it was. A request that passes both validations is decided by the transaction. |
| LegacyApi.RawLookup | app/src/dog/del/app/frontend/LegacyApi.kt:45-59 | `raw/{slug}` answers OK exactly when the slug is stored. It then serves that document's content and reports one impression. Otherwise it answers NotFound "No Document found" and reports nothing. |
| LegacyApi.BlankContentRejected | app/src/dog/del/app/frontend/LegacyApi.kt:94-98 | Blank content yields BadRequest "Paste content cannot be empty", whatever the slug, validator or caller. It writes nothing and reports nothing. |
| LegacyApi.UnrequestedSlugIsIgnored | app/src/dog/del/app/frontend/LegacyApi.kt:94 | A missing or blank slug is never validated: any validator gives the same outcome. The request resolves exactly as if no slug were given (line 118). |
| LegacyApi.InvalidSlugRejected | app/src/dog/del/app/frontend/LegacyApi.kt:99-102 | A requested slug the validator refuses yields BadRequest carrying exactly the validator's message. The store is unchanged, and the reply is the same whatever the store holds. |
| LegacyApi.CreateRefusedWithoutPermission | app/src/dog/del/app/frontend/LegacyApi.kt:119-122 | On a create branch (no slug, or a requested slug not stored; also lines 170-173), a caller without the create right gets Forbidden "You do not have the permission to create documents". The store is unchanged. |
| LegacyApi.ResolveOnCreatePath | app/src/dog/del/app/frontend/LegacyApi.kt:123-141 | An authorised create writes `NewDocument` under the target slug, and the reply carries that slug and the URL classification. |
| LegacyApi.CreateAddsExactlyOneDocument | app/src/dog/del/app/frontend/LegacyApi.kt:174-191 | Also lines 123-141. An authorised create adds exactly one document, under the generated key or the requested slug verbatim, which was not in use. It is owned by the caller, holds the trimmed content, is typed by the classification and starts at version 0. Every other document is untouched, and the reply is OK with that slug and the classification. |
| LegacyApi.ResolveOnEditPath | app/src/dog/del/app/frontend/LegacyApi.kt:150-163 | An authorised edit overwrites the found document with its edited form, and the reply carries the document's slug. |
| LegacyApi.EditUpdatesInPlace | app/src/dog/del/app/frontend/LegacyApi.kt:150-163 | An authorised edit replaces the content with the trimmed input, reclassifies the type and adds 1 to the version. Slug and owner stay, the set of slugs is unchanged, every other document is untouched, and the reply is OK with the same slug. |
| LegacyApi.RepeatedEditBumpsVersionAgain | app/src/dog/del/app/frontend/LegacyApi.kt:154 | Edits are not idempotent. Sending the same accepted edit twice leaves the same content and type, and the version two higher than before. |
| LegacyApi.EditRefusedWithoutPermission | app/src/dog/del/app/frontend/LegacyApi.kt:145-149 | On an existing slug without the edit right, the reply is Forbidden "You do not have the permission to edit documents". This is checked before ownership: the outcome is the same for any `userCanEdit`. The store is unchanged. |
| LegacyApi.SlugTakenIsConflict | app/src/dog/del/app/frontend/LegacyApi.kt:164-167 | On an existing slug, with the edit right but a document the caller may not edit, the reply is Conflict "This URL is already in use, please choose a different one". The store is unchanged. |
| LegacyApi.SucceedsIff | app/src/dog/del/app/frontend/LegacyApi.kt:94-193 | A request succeeds exactly when it passes both validations and the caller has the right its branch needs. A create branch needs the create right. An existing slug needs the edit right and `userCanEdit`. |
| LegacyApi.StoreChangesIffSucceeds | app/src/dog/del/app/frontend/LegacyApi.kt:118-193 | If the generator hands out a free key, the store changes exactly when the request succeeds. |
| LegacyApi.ResolvePreservesWellFormed | app/src/dog/del/app/frontend/LegacyApi.kt:125-181 | Slugs stay unique. A requested-slug create happens only after `find` found nothing (lines 144-145, 176-177), and a generated key is fresh (line 125). Every stored document sits under its own slug, with trimmed, non-empty content. |
| LegacyApi.EventsReportOutcome | app/src/dog/del/app/frontend/LegacyApi.kt:104-186 | The events, in launch order, are exactly these. First comes one `API_KEY_USE` when a validated request runs on API credentials (lines 106-110), and `API_KEY_USE` appears in no other case. A failed request reports nothing more. A successful create then reports `URL_CREATE` or `PASTE_CREATE`, matching the reply's classification (lines 133-136, 183-186). A successful edit then reports `DOC_EDIT` (lines 156-158). |
| LegacyApi.RawServesWhatWasStored | app/src/dog/del/app/frontend/LegacyApi.kt:45-55 | After a successful create or edit, `raw/{slug}` with the reply's key serves the trimmed content. |
| LegacyApi.CreateThenEdit | app/src/dog/del/app/frontend/LegacyApi.kt:144-191 | A free slug requested twice by the same caller: the first request creates the document at version 0 (lines 174-191). The second edits it into version 1 with the new trimmed content and type (lines 150-163). Both replies carry that slug. |
| LegacyApi.DocumentStore.Find | app/src/dog/del/app/frontend/LegacyApi.kt:48 | `XdDocument.find`, as the raw lookup uses it, returns the document stored under the slug, or none exactly when the slug is absent. |
| LegacyApi.DocumentStore.Raw | app/src/dog/del/app/frontend/LegacyApi.kt:45-55 | The read-only lookup returns exactly RawLookup's reply and events. It may not modify the store. |
| LegacyApi.DocumentStore.Commit | app/src/dog/del/app/frontend/LegacyApi.kt:123-191 | The write inserts a document under a free slug, or edits the found one field by field and increments its version. The new store, reply and events are exactly those of Perform on the old store. Content that is not blank keeps the store well formed. |
| LegacyApi.DocumentStore.CreateDocument | app/src/dog/del/app/frontend/LegacyApi.kt:87-198 | `POST documents` carried out step by step keeps the store well formed. The new store, reply and events are exactly Resolve of the old store, so every lemma above describes it. |

## Left out

- Ktor routing, content negotiation and body parsing (JSON, multipart or raw text, lines 62-84) are left out. `createDocument` receives the already parsed `CreateRequest`.
- `respond` and `respondText` are left out. The status and message are returned as a `Reply` or `RawReply`.
- Coroutine dispatch, `db.transactional` and `db.suspended` are left out. Each request is one atomic step on the store, so concurrent requests and transaction retries are not modelled.
- Credential lookup (`apiCredentials(db)`) and session lookup (`user(db, !isFrontend)`) are parameters of `CallContext`. Whether the session lookup creates a user is not modelled.
- The code of `verifySlug`, `isUrl`, `userCanEdit` and `createKey` is not part of this model. They are arbitrary functions, and the generator's freshness is a precondition where a property needs it.
- Statistics reporting (`GlobalScope.launch`) is fire-and-forget. The model records which events are launched, in launch order. It does not model when they run or whether they fail, and the request details they carry are left out.
- LegacyApi.Perform: `XdDocument.new` always adds an entity. In the model, a generated key that is already in use overwrites the document stored under it. Every property that depends on this (uniqueness, exactly one document added, the store changing exactly on success) therefore requires `GeneratedKeyIsFresh`.
- LegacyApi.EditUpdatesInPlace: the version is an unbounded `nat`. The overflow of Kotlin's `Int` after 2^31 - 1 edits is not modelled.
- LegacyApi.CreateAddsExactlyOneDocument: a new document's version is 0. The entity's default value is set outside this model.
- LegacyApi.DocumentStore.Commit: the in-place mutation of the entity becomes an overwrite of its map entry. Other references to the same entity (aliasing) are not modelled.
- Text.Trim: the model assumes a Java 9 or later runtime, whose `Char.isWhitespace` follows Unicode 6.3 or later, so U+180E is not whitespace. The build also allows Java 8 (Unicode 6.2), where U+180E is whitespace. A Dafny `char` is a Unicode scalar value, so a Kotlin surrogate pair is one `char` here. Neither the pair nor its halves is whitespace, so `trim` and `isBlank` agree on it. An unpaired surrogate cannot occur in a Dafny string and is not modelled.
- `IsTrueIgnoringCase` (`String.toBoolean`) folds ASCII case only, which is all the string "true" needs.
