/** The legacy document API of LegacyApi.kt: `POST documents`, which creates
    a paste or short link or edits an existing one, and `GET raw/{slug}`,
    which serves a document's content.

    The create-or-edit request is resolved in three steps: validation of the
    content and of the requested slug, resolution of the caller's
    capabilities, and, as one atomic step on the store, the decision
    (`Decide`) and its effect (`Perform`). `Resolve` is the whole request as
    a function of the store; `DocumentStore.CreateDocument` carries it out
    step by step on the store object. */
module LegacyApi {

  import opened Wrappers
  import opened Text
  import opened Documents

  const EmptyContentMessage := "Paste content cannot be empty"
  const CreateForbiddenMessage := "You do not have the permission to create documents"
  const EditForbiddenMessage := "You do not have the permission to edit documents"
  const SlugInUseMessage := "This URL is already in use, please choose a different one"
  const NotFoundMessage := "No Document found"

  /** `CreateDocumentDto`: the content and an optional requested slug. */
  datatype CreateRequest = CreateRequest(content: string, slug: Option<string>)

  /** The API credentials a request may carry, with their capabilities. */
  datatype ApiCredentials = ApiCredentials(
    user: User,
    canCreateDocuments: bool,
    canUpdateDocuments: bool)

  /** The effective caller: who acts, and whether they may create documents
      and edit documents in general. */
  datatype Caller = Caller(user: User, canCreate: bool, canEdit: bool)

  /** What the request brings besides its body: the `frontend` query
      parameter, the credentials the credential lookup would find, and the
      session user. */
  datatype CallContext = CallContext(
    frontendParam: Option<string>,
    storedCredentials: Option<ApiCredentials>,
    sessionUser: User)

  /** The collaborators whose code is not part of this model:
      `XdDocument.verifySlug` (an error message, or none), `String.isUrl`,
      `XdDocument.userCanEdit` and `KeyGenerator.createKey`, which sees the
      slugs in use and the URL hint. */
  datatype Collaborators = Collaborators(
    verifySlug: string -> Option<string>,
    isUrl: string -> bool,
    userCanEdit: (Document, User) -> bool,
    createKey: (set<Slug>, bool) -> Slug)

  /** The key generator's promise: asked with a URL hint, it hands out a
      slug not yet in use. */
  predicate KeyIsFresh(env: Collaborators, keys: set<Slug>, isUrl: bool) {
    env.createKey(keys, isUrl) !in keys
  }

  /** The generator's promise where the request relies on it: a request
      without a slug gets a slug not yet in use, for the hint its content
      gives. */
  predicate GeneratedKeyIsFresh(docs: Store, req: CreateRequest, env: Collaborators) {
    !SlugRequested(req.slug) ==> KeyIsFresh(env, docs.Keys, env.isUrl(req.content))
  }

  /** The HTTP status codes the API answers with. */
  datatype Status = OK | BadRequest | Forbidden | Conflict | NotFound

  /** `CreateDocumentResponseDto` with its status: an error message, or the
      classification and the key of the stored document. */
  datatype Reply = Failed(status: Status, message: string) | Succeeded(isUrl: bool, key: Slug)

  /** The reply to `GET raw/{slug}`. */
  datatype RawReply = RawContent(content: string) | RawMissing(message: string)
  {
    function Code(): Status {
      if RawContent? then OK else NotFound
    }
  }

  /** Statistics events, in the order the API launches their reports. */
  datatype Event = ApiKeyUse | UrlCreate | PasteCreate | DocEdit | Impression(slug: Slug)

  function CreateEvent(isUrl: bool): Event {
    if isUrl then UrlCreate else PasteCreate
  }

  /** What the transaction decides to do. */
  datatype Action =
    | Refuse(status: Status, message: string)
    | CreateAt(slug: Slug, isUrl: bool)
    | EditAt(slug: Slug, isUrl: bool)

  /** The store after a request, the reply, and the events reported. */
  datatype Resolution = Resolution(docs: Store, reply: Reply, events: seq<Event>)

  // ---------------------------------------------------------------------
  // Validation and the caller's capabilities

  /** `!slug.isNullOrBlank()`: a slug counts as requested only when it is
      present and not blank. */
  predicate SlugRequested(slug: Option<string>) {
    slug.Some? && !IsBlank(slug.value)
  }

  /** The slug validator's verdict; a slug that was not requested is never
      shown to the validator. */
  function SlugError(req: CreateRequest, env: Collaborators): Option<string> {
    if SlugRequested(req.slug) then env.verifySlug(req.slug.value) else None
  }

  /** The request passes both validations. */
  predicate Validated(req: CreateRequest, env: Collaborators) {
    !IsBlank(req.content) && SlugError(req, env).None?
  }

  /** Kotlin `String.toBoolean()`: equal to "true" ignoring case. */
  predicate IsTrueIgnoringCase(p: string) {
    && |p| == 4
    && (p[0] == 't' || p[0] == 'T')
    && (p[1] == 'r' || p[1] == 'R')
    && (p[2] == 'u' || p[2] == 'U')
    && (p[3] == 'e' || p[3] == 'E')
  }

  /** `parameters["frontend"]?.toBoolean() ?: false`. */
  predicate IsFrontend(frontendParam: Option<string>) {
    frontendParam.Some? && IsTrueIgnoringCase(frontendParam.value)
  }

  /** A frontend request never uses API credentials. */
  function EffectiveCredentials(isFrontend: bool, stored: Option<ApiCredentials>): Option<ApiCredentials> {
    if isFrontend then None else stored
  }

  /** The capability defaulting: credentials supply the user and both flags;
      without credentials the session user acts with every right. */
  function Permissions(creds: Option<ApiCredentials>, sessionUser: User): (c: Caller)
    ensures creds.None? ==> c.user == sessionUser && c.canCreate && c.canEdit
    ensures creds.Some? ==> c.user == creds.value.user
    ensures c.canCreate <==> creds.None? || creds.value.canCreateDocuments
    ensures c.canEdit <==> creds.None? || creds.value.canUpdateDocuments
  {
    match creds
    case Some(cr) => Caller(cr.user, cr.canCreateDocuments, cr.canUpdateDocuments)
    case None => Caller(sessionUser, true, true)
  }

  /** The caller of a request: a frontend request is the session user with
      every right, whatever credentials exist; any other request is decided
      by the credentials when there are some. */
  function CallerOf(ctx: CallContext): (c: Caller)
    ensures IsFrontend(ctx.frontendParam) ==> c == Caller(ctx.sessionUser, true, true)
    ensures !IsFrontend(ctx.frontendParam) ==> c == Permissions(ctx.storedCredentials, ctx.sessionUser)
  {
    Permissions(EffectiveCredentials(IsFrontend(ctx.frontendParam), ctx.storedCredentials), ctx.sessionUser)
  }

  // ---------------------------------------------------------------------
  // The decision and its effect

  /** The request takes a create branch: no slug was requested, or the
      requested one is not in the store. */
  predicate CreatePath(docs: Store, req: CreateRequest) {
    !SlugRequested(req.slug) || req.slug.value !in docs
  }

  /** The transaction's decision, made on one snapshot of the store. It
      creates only with the create right, at the requested slug only when
      that slug is free; it edits only an existing document, with the edit
      right and when the caller may edit that document. */
  function Decide(docs: Store, req: CreateRequest, caller: Caller, env: Collaborators): (a: Action)
    ensures a.CreateAt? ==> caller.canCreate && CreatePath(docs, req)
    ensures a.CreateAt? && SlugRequested(req.slug) ==> a.slug == req.slug.value && a.slug !in docs
    ensures a.CreateAt? && !SlugRequested(req.slug) ==> a.slug == env.createKey(docs.Keys, a.isUrl)
    ensures a.EditAt? ==>
      && SlugRequested(req.slug) && a.slug == req.slug.value && a.slug in docs
      && caller.canEdit && env.userCanEdit(docs[a.slug], caller.user)
    ensures !a.Refuse? ==> a.isUrl == env.isUrl(req.content)
    ensures a.Refuse? ==> a.status == Forbidden || a.status == Conflict
  {
    if !SlugRequested(req.slug) then
      if !caller.canCreate then Refuse(Forbidden, CreateForbiddenMessage)
      else
        var isUrl := env.isUrl(req.content);
        CreateAt(env.createKey(docs.Keys, isUrl), isUrl)
    else
      var slug := req.slug.value;
      if slug in docs then
        if !caller.canEdit then Refuse(Forbidden, EditForbiddenMessage)
        else if env.userCanEdit(docs[slug], caller.user) then EditAt(slug, env.isUrl(req.content))
        else Refuse(Conflict, SlugInUseMessage)
      else if !caller.canCreate then Refuse(Forbidden, CreateForbiddenMessage)
      else CreateAt(slug, env.isUrl(req.content))
  }

  /** The document a create inserts. */
  function NewDocument(slug: Slug, owner: User, content: string, isUrl: bool): Document {
    Document(slug, owner, Trim(content), KindOf(isUrl), 0)
  }

  /** The document an edit leaves: new content and type, next version. */
  function EditedDocument(doc: Document, content: string, isUrl: bool): Document {
    doc.(content := Trim(content), kind := KindOf(isUrl), version := doc.version + 1)
  }

  /** The effect of a decision on the store, its reply and its event. */
  function Perform(docs: Store, a: Action, owner: User, content: string): (r: Resolution)
    requires a.EditAt? ==> a.slug in docs
    ensures docs.Keys <= r.docs.Keys
    ensures a.Refuse? <==> r.docs == docs && r.reply.Failed?
    ensures a.CreateAt? && a.slug !in docs ==> forall s :: s in docs ==> r.docs[s] == docs[s]
    ensures a.EditAt? ==> forall s :: s in docs && s != a.slug ==> r.docs[s] == docs[s]
  {
    match a
    case Refuse(status, message) =>
      Resolution(docs, Failed(status, message), [])
    case CreateAt(slug, isUrl) =>
      var doc := NewDocument(slug, owner, content, isUrl);
      Resolution(docs[slug := doc], Succeeded(isUrl, doc.slug), [CreateEvent(isUrl)])
    case EditAt(slug, isUrl) =>
      var doc := EditedDocument(docs[slug], content, isUrl);
      assert doc != docs[slug];
      Resolution(docs[slug := doc], Succeeded(isUrl, doc.slug), [DocEdit])
  }

  /** The events reported before the transaction: one `ApiKeyUse` when the
      request runs on API credentials. */
  function KeyEvents(creds: Option<ApiCredentials>): seq<Event> {
    if creds.Some? then [ApiKeyUse] else []
  }

  /** The part of `createDocument` after validation: the caller's
      capabilities, then the decision and its effect on one snapshot. */
  function Transact(docs: Store, req: CreateRequest, ctx: CallContext, env: Collaborators): (r: Resolution)
    ensures docs.Keys <= r.docs.Keys
    ensures r.reply.Failed? ==> r.docs == docs
  {
    var creds := EffectiveCredentials(IsFrontend(ctx.frontendParam), ctx.storedCredentials);
    var caller := CallerOf(ctx);
    var done := Perform(docs, Decide(docs, req, caller, env), caller.user, req.content);
    done.(events := KeyEvents(creds) + done.events)
  }

  /** `createDocument`: the whole request against one snapshot of the store.
      Blank content is refused first, then a slug the validator refuses; a
      rejected request leaves the store as it was, and no slug leaves the
      store. */
  function Resolve(docs: Store, req: CreateRequest, ctx: CallContext, env: Collaborators): (r: Resolution)
    ensures docs.Keys <= r.docs.Keys
    ensures r.reply.Failed? ==> r.docs == docs
    ensures Validated(req, env) ==> r == Transact(docs, req, ctx, env)
  {
    var slugError := SlugError(req, env);
    if IsBlank(req.content) then
      Resolution(docs, Failed(BadRequest, EmptyContentMessage), [])
    else if slugError.Some? then
      Resolution(docs, Failed(BadRequest, slugError.value), [])
    else
      Transact(docs, req, ctx, env)
  }

  /** `GET raw/{slug}`: the stored content of an existing document, with an
      impression reported, or NotFound. */
  function RawLookup(docs: Store, slug: Slug): (r: (RawReply, seq<Event>))
    ensures r.0.Code() == OK <==> slug in docs
    ensures slug in docs ==> r == (RawContent(docs[slug].content), [Impression(slug)])
    ensures slug !in docs ==> r == (RawMissing(NotFoundMessage), [])
  {
    if slug in docs then (RawContent(docs[slug].content), [Impression(slug)])
    else (RawMissing(NotFoundMessage), [])
  }

  // ---------------------------------------------------------------------
  // Properties of the resolution

  /** Blank content is rejected before anything else, whatever the slug, the
      validator or the caller, and nothing is written or reported. */
  lemma BlankContentRejected(docs: Store, req: CreateRequest, ctx: CallContext, env: Collaborators)
    requires IsBlank(req.content)
    ensures Resolve(docs, req, ctx, env) == Resolution(docs, Failed(BadRequest, EmptyContentMessage), [])
  {
  }

  /** A missing or blank slug is never validated, and the request is resolved
      exactly as if no slug had been given. */
  lemma UnrequestedSlugIsIgnored(docs: Store, req: CreateRequest, ctx: CallContext, env: Collaborators,
                                 otherValidator: string -> Option<string>)
    requires !SlugRequested(req.slug)
    ensures Resolve(docs, req, ctx, env) == Resolve(docs, req, ctx, env.(verifySlug := otherValidator))
    ensures Resolve(docs, req, ctx, env) == Resolve(docs, req.(slug := None), ctx, env)
  {
  }

  /** A requested slug the validator refuses yields BadRequest with exactly
      the validator's message; the store is neither read nor written, so the
      reply is the same whatever the store holds. */
  lemma InvalidSlugRejected(docs: Store, otherDocs: Store, req: CreateRequest, ctx: CallContext,
                            env: Collaborators)
    requires !IsBlank(req.content) && SlugRequested(req.slug)
    requires env.verifySlug(req.slug.value).Some?
    ensures var m := env.verifySlug(req.slug.value).value;
      && Resolve(docs, req, ctx, env) == Resolution(docs, Failed(BadRequest, m), [])
      && Resolve(otherDocs, req, ctx, env).reply == Resolve(docs, req, ctx, env).reply
  {
  }

  /** On a create branch, a caller without the create right is refused and
      the store stays as it was. */
  lemma CreateRefusedWithoutPermission(docs: Store, req: CreateRequest, ctx: CallContext, env: Collaborators)
    requires Validated(req, env) && CreatePath(docs, req)
    requires !CallerOf(ctx).canCreate
    ensures Resolve(docs, req, ctx, env).docs == docs
    ensures Resolve(docs, req, ctx, env).reply == Failed(Forbidden, CreateForbiddenMessage)
  {
  }

  /** The slug a create branch writes under: the requested one verbatim, or
      else the one the generator hands out. */
  function TargetSlug(docs: Store, req: CreateRequest, env: Collaborators): Slug {
    if SlugRequested(req.slug) then req.slug.value else env.createKey(docs.Keys, env.isUrl(req.content))
  }

  /** A validated request on a create branch, by a caller with the create
      right, writes the new document under its target slug. */
  lemma ResolveOnCreatePath(docs: Store, req: CreateRequest, ctx: CallContext, env: Collaborators)
    requires Validated(req, env) && CreatePath(docs, req)
    requires CallerOf(ctx).canCreate
    ensures var r, key, isUrl := Resolve(docs, req, ctx, env), TargetSlug(docs, req, env), env.isUrl(req.content);
      && r.docs == docs[key := NewDocument(key, CallerOf(ctx).user, req.content, isUrl)]
      && r.reply == Succeeded(isUrl, key)
  {
    var caller := CallerOf(ctx);
    var a := Decide(docs, req, caller, env);
    assert a == CreateAt(TargetSlug(docs, req, env), env.isUrl(req.content));
    assert Resolve(docs, req, ctx, env).docs == Perform(docs, a, caller.user, req.content).docs;
  }

  /** On a create branch, a caller with the create right adds exactly one
      document, under the generated slug or the requested slug verbatim,
      owned by the caller, holding the trimmed content and typed by the URL
      classification; every other document is untouched and the reply
      carries that slug. */
  lemma CreateAddsExactlyOneDocument(docs: Store, req: CreateRequest, ctx: CallContext, env: Collaborators)
    requires GeneratedKeyIsFresh(docs, req, env)
    requires Validated(req, env) && CreatePath(docs, req)
    requires CallerOf(ctx).canCreate
    ensures var r, isUrl := Resolve(docs, req, ctx, env), env.isUrl(req.content);
      var key := TargetSlug(docs, req, env);
      && key !in docs
      && r.docs == docs[key := Document(key, CallerOf(ctx).user, Trim(req.content), KindOf(isUrl), 0)]
      && r.docs.Keys == docs.Keys + {key}
      && |r.docs| == |docs| + 1
      && (forall s :: s in docs ==> r.docs[s] == docs[s])
      && r.reply == Succeeded(isUrl, key)
  {
    var key := TargetSlug(docs, req, env);
    ResolveOnCreatePath(docs, req, ctx, env);
    InsertAddsOne(docs, key, NewDocument(key, CallerOf(ctx).user, req.content, env.isUrl(req.content)));
  }

  /** Inserting under a free key adds exactly that entry. */
  lemma InsertAddsOne(docs: Store, key: Slug, doc: Document)
    requires key !in docs
    ensures docs[key := doc].Keys == docs.Keys + {key}
    ensures |docs[key := doc]| == |docs| + 1
  {
    assert docs[key := doc].Keys == docs.Keys + {key};
  }

  /** A validated request for an existing slug, by a caller with the edit
      right who may edit that document, overwrites it with its edited form. */
  lemma ResolveOnEditPath(docs: Store, req: CreateRequest, ctx: CallContext, env: Collaborators)
    requires Validated(req, env) && SlugRequested(req.slug) && req.slug.value in docs
    requires CallerOf(ctx).canEdit && env.userCanEdit(docs[req.slug.value], CallerOf(ctx).user)
    ensures var r, slug, isUrl := Resolve(docs, req, ctx, env), req.slug.value, env.isUrl(req.content);
      && r.docs == docs[slug := EditedDocument(docs[slug], req.content, isUrl)]
      && r.reply == Succeeded(isUrl, docs[slug].slug)
  {
    var caller := CallerOf(ctx);
    var a := Decide(docs, req, caller, env);
    assert a == EditAt(req.slug.value, env.isUrl(req.content));
    assert Resolve(docs, req, ctx, env).docs == Perform(docs, a, caller.user, req.content).docs;
  }

  /** A requested slug that exists, with the edit right and a caller who may
      edit that document: the content is replaced by the trimmed input, the
      type reclassified and the version bumped by one; slug and owner stay,
      nothing else in the store changes, and the reply carries the slug. */
  lemma EditUpdatesInPlace(docs: Store, req: CreateRequest, ctx: CallContext, env: Collaborators)
    requires Validated(req, env) && SlugRequested(req.slug) && req.slug.value in docs
    requires docs[req.slug.value].slug == req.slug.value
    requires CallerOf(ctx).canEdit && env.userCanEdit(docs[req.slug.value], CallerOf(ctx).user)
    ensures var r, slug, isUrl := Resolve(docs, req, ctx, env), req.slug.value, env.isUrl(req.content);
      && r.docs == docs[slug := r.docs[slug]]
      && r.docs.Keys == docs.Keys
      && (forall s :: s in docs && s != slug ==> r.docs[s] == docs[s])
      && r.docs[slug].content == Trim(req.content)
      && r.docs[slug].kind == KindOf(isUrl)
      && r.docs[slug].version == docs[slug].version + 1
      && r.docs[slug].slug == slug
      && r.docs[slug].owner == docs[slug].owner
      && r.reply == Succeeded(isUrl, slug)
  {
    ResolveOnEditPath(docs, req, ctx, env);
  }

  /** Edits are not idempotent: the same accepted edit sent twice leaves the
      same content and bumps the version once more. */
  lemma RepeatedEditBumpsVersionAgain(docs: Store, req: CreateRequest, ctx: CallContext, env: Collaborators)
    requires Validated(req, env) && SlugRequested(req.slug) && req.slug.value in docs
    requires docs[req.slug.value].slug == req.slug.value
    requires CallerOf(ctx).canEdit && env.userCanEdit(docs[req.slug.value], CallerOf(ctx).user)
    requires var once := Resolve(docs, req, ctx, env).docs;
      env.userCanEdit(once[req.slug.value], CallerOf(ctx).user)
    ensures var slug := req.slug.value;
      var once := Resolve(docs, req, ctx, env).docs;
      var twice := Resolve(once, req, ctx, env).docs;
      && slug in twice
      && twice[slug].version == docs[slug].version + 2
      && twice[slug].content == once[slug].content
      && twice[slug].kind == once[slug].kind
  {
    var slug := req.slug.value;
    EditUpdatesInPlace(docs, req, ctx, env);
    var once := Resolve(docs, req, ctx, env).docs;
    EditUpdatesInPlace(once, req, ctx, env);
  }

  /** A requested slug that exists, without the edit right: Forbidden, checked
      before ownership (the reply does not depend on `userCanEdit`), and the
      store stays as it was. */
  lemma EditRefusedWithoutPermission(docs: Store, req: CreateRequest, ctx: CallContext, env: Collaborators,
                                     otherUserCanEdit: (Document, User) -> bool)
    requires Validated(req, env) && SlugRequested(req.slug) && req.slug.value in docs
    requires !CallerOf(ctx).canEdit
    ensures Resolve(docs, req, ctx, env).docs == docs
    ensures Resolve(docs, req, ctx, env).reply == Failed(Forbidden, EditForbiddenMessage)
    ensures Resolve(docs, req, ctx, env) == Resolve(docs, req, ctx, env.(userCanEdit := otherUserCanEdit))
  {
  }

  /** A requested slug that exists, with the edit right but a document the
      caller may not edit: the slug is reported as taken (Conflict, not
      Forbidden), and the store stays as it was. */
  lemma SlugTakenIsConflict(docs: Store, req: CreateRequest, ctx: CallContext, env: Collaborators)
    requires Validated(req, env) && SlugRequested(req.slug) && req.slug.value in docs
    requires CallerOf(ctx).canEdit && !env.userCanEdit(docs[req.slug.value], CallerOf(ctx).user)
    ensures Resolve(docs, req, ctx, env).docs == docs
    ensures Resolve(docs, req, ctx, env).reply == Failed(Conflict, SlugInUseMessage)
  {
  }

  /** A request succeeds exactly when it passes validation and the caller
      holds the right its branch needs: the create right on a create
      branch, and on an existing slug both the edit right and the right to
      edit that document. */
  lemma SucceedsIff(docs: Store, req: CreateRequest, ctx: CallContext, env: Collaborators)
    ensures Resolve(docs, req, ctx, env).reply.Succeeded? <==>
      && Validated(req, env)
      && if CreatePath(docs, req) then CallerOf(ctx).canCreate
         else CallerOf(ctx).canEdit && env.userCanEdit(docs[req.slug.value], CallerOf(ctx).user)
  {
  }

  /** With a generator that keeps its promise, the store changes exactly when
      the request succeeds. */
  lemma StoreChangesIffSucceeds(docs: Store, req: CreateRequest, ctx: CallContext, env: Collaborators)
    requires GeneratedKeyIsFresh(docs, req, env)
    ensures var r := Resolve(docs, req, ctx, env);
      r.docs != docs <==> r.reply.Succeeded?
  {
    var r := Resolve(docs, req, ctx, env);
    if r.reply.Succeeded? {
      var a := Decide(docs, req, CallerOf(ctx), env);
      if a.CreateAt? {
        assert a.slug in r.docs.Keys && a.slug !in docs.Keys;
      } else {
        assert r.docs[a.slug] != docs[a.slug];
      }
    }
  }

  /** Every request keeps the store well formed: slugs stay unique and keyed
      by themselves, and stored content stays trimmed and non-empty. */
  lemma ResolvePreservesWellFormed(docs: Store, req: CreateRequest, ctx: CallContext, env: Collaborators)
    requires WellFormed(docs) && GeneratedKeyIsFresh(docs, req, env)
    ensures WellFormed(Resolve(docs, req, ctx, env).docs)
  {
    var r := Resolve(docs, req, ctx, env);
    if r.reply.Succeeded? {
      var a := Decide(docs, req, CallerOf(ctx), env);
      assert Trim(req.content) != [];
      forall s | s in r.docs
        ensures r.docs[s].slug == s && r.docs[s].content != [] && IsTrimmed(r.docs[s].content)
      {
        if s != a.slug {
          assert r.docs[s] == docs[s];
        }
      }
    }
  }

  /** The reported events, in launch order: one `ApiKeyUse` when a validated
      request runs on API credentials, then, when the request succeeds, one
      create event matching its URL classification on a create branch or one
      `DocEdit` on an edit. */
  lemma EventsReportOutcome(docs: Store, req: CreateRequest, ctx: CallContext, env: Collaborators)
    ensures var r := Resolve(docs, req, ctx, env);
      var creds := EffectiveCredentials(IsFrontend(ctx.frontendParam), ctx.storedCredentials);
      && (ApiKeyUse in r.events <==> Validated(req, env) && creds.Some?)
      && r.events ==
           (if Validated(req, env) then KeyEvents(creds) else [])
           + (if r.reply.Failed? then []
              else if CreatePath(docs, req) then [CreateEvent(r.reply.isUrl)]
              else [DocEdit])
  {
    var r := Resolve(docs, req, ctx, env);
    if Validated(req, env) {
      var caller := CallerOf(ctx);
      var creds := EffectiveCredentials(IsFrontend(ctx.frontendParam), ctx.storedCredentials);
      var done := Perform(docs, Decide(docs, req, caller, env), caller.user, req.content);
      assert r.events == KeyEvents(creds) + done.events && r.reply == done.reply;
      assert ApiKeyUse !in done.events;
    }
  }

  /** What a successful request stored is what `GET raw/{slug}` serves under
      the slug of its reply: the trimmed content. */
  lemma RawServesWhatWasStored(docs: Store, req: CreateRequest, ctx: CallContext, env: Collaborators)
    requires SlugRequested(req.slug) && req.slug.value in docs ==> docs[req.slug.value].slug == req.slug.value
    requires Resolve(docs, req, ctx, env).reply.Succeeded?
    ensures var r := Resolve(docs, req, ctx, env);
      RawLookup(r.docs, r.reply.key).0 == RawContent(Trim(req.content))
  {
    var a := Decide(docs, req, CallerOf(ctx), env);
    if a.EditAt? {
      assert docs[a.slug].slug == a.slug;
    }
  }

  /** A new slug requested, then the same slug requested again by the same
      caller: the first request creates the document at version 0, the
      second edits it in place into version 1 (for example "http://x.test"
      under "mylink", then "updated" under "mylink"). */
  lemma CreateThenEdit(docs: Store, slug: Slug, first: string, second: string, ctx: CallContext,
                       env: Collaborators)
    requires slug !in docs && !IsBlank(slug) && env.verifySlug(slug).None?
    requires !IsBlank(first) && !IsBlank(second)
    requires CallerOf(ctx).canCreate && CallerOf(ctx).canEdit
    requires var user := CallerOf(ctx).user;
      env.userCanEdit(NewDocument(slug, user, first, env.isUrl(first)), user)
    ensures var r1 := Resolve(docs, CreateRequest(first, Some(slug)), ctx, env);
      var r2 := Resolve(r1.docs, CreateRequest(second, Some(slug)), ctx, env);
      var user, isUrl := CallerOf(ctx).user, env.isUrl(second);
      && r1.reply == Succeeded(env.isUrl(first), slug)
      && r2.reply == Succeeded(isUrl, slug)
      && r2.docs == docs[slug := Document(slug, user, Trim(second), KindOf(isUrl), 1)]
  {
    var req1, req2 := CreateRequest(first, Some(slug)), CreateRequest(second, Some(slug));
    var user := CallerOf(ctx).user;
    var created := NewDocument(slug, user, first, env.isUrl(first));
    ResolveOnCreatePath(docs, req1, ctx, env);
    var r1 := Resolve(docs, req1, ctx, env);
    assert r1.docs == docs[slug := created];
    ResolveOnEditPath(r1.docs, req2, ctx, env);
    assert r1.docs[slug := EditedDocument(created, second, env.isUrl(second))]
        == docs[slug := EditedDocument(created, second, env.isUrl(second))];
  }

  // ---------------------------------------------------------------------
  // The store object

  /** The document store the API works on. */
  class DocumentStore {
    var docs: Store

    ghost predicate Valid()
      reads this
    {
      WellFormed(docs)
    }

    constructor ()
      ensures Valid() && docs == map[]
    {
      docs := map[];
    }

    /** `XdDocument.find(slug)`. */
    method Find(slug: Slug) returns (doc: Option<Document>)
      ensures doc.Some? <==> slug in docs
      ensures doc.Some? ==> doc.value == docs[slug]
    {
      doc := if slug in docs then Some(docs[slug]) else None;
    }

    /** `GET raw/{slug}`, a read-only lookup. */
    method Raw(slug: Slug) returns (reply: RawReply, events: seq<Event>)
      ensures (reply, events) == RawLookup(docs, slug)
    {
      var doc := Find(slug);
      if doc.None? {
        reply, events := RawMissing(NotFoundMessage), [];
      } else {
        reply, events := RawContent(doc.value.content), [Impression(slug)];
      }
    }

    /** The write of the transaction: inserts the new document under a free
        slug, or edits the found one field by field and bumps its version.
        Content that is not blank keeps the store well formed. */
    method Commit(action: Action, owner: User, content: string) returns (reply: Reply, events: seq<Event>)
      requires Valid()
      requires action.CreateAt? ==> action.slug !in docs
      requires action.EditAt? ==> action.slug in docs
      requires !action.Refuse? ==> !IsBlank(content)
      modifies this
      ensures Valid()
      ensures Resolution(docs, reply, events) == Perform(old(docs), action, owner, content)
    {
      match action {
        case Refuse(status, message) =>
          reply, events := Failed(status, message), [];
        case CreateAt(slug, isUrl) =>
          var doc := Document(slug, owner, Trim(content), KindOf(isUrl), 0);
          docs := docs[slug := doc];
          reply, events := Succeeded(isUrl, doc.slug), [CreateEvent(isUrl)];
        case EditAt(slug, isUrl) =>
          var doc := docs[slug];
          doc := doc.(content := Trim(content));
          doc := doc.(kind := KindOf(isUrl));
          doc := doc.(version := doc.version + 1);
          docs := docs[slug := doc];
          reply, events := Succeeded(isUrl, doc.slug), [DocEdit];
      }
    }

    /** `POST documents`: validates, resolves the caller, then decides and
        writes as one atomic step, inserting a new document or editing the
        found one field by field. */
    method CreateDocument(req: CreateRequest, ctx: CallContext, env: Collaborators)
      returns (reply: Reply, events: seq<Event>)
      requires Valid() && GeneratedKeyIsFresh(docs, req, env)
      modifies this
      ensures Valid()
      ensures Resolution(docs, reply, events) == Resolve(old(docs), req, ctx, env)
    {
      var slugError := SlugError(req, env);
      if IsBlank(req.content) {
        reply, events := Failed(BadRequest, EmptyContentMessage), [];
        return;
      }
      if slugError.Some? {
        reply, events := Failed(BadRequest, slugError.value), [];
        return;
      }
      var isFrontend := IsFrontend(ctx.frontendParam);
      var creds := EffectiveCredentials(isFrontend, ctx.storedCredentials);
      events := KeyEvents(creds);
      var caller := Permissions(creds, ctx.sessionUser);
      var action := Decide(docs, req, caller, env);
      var reported;
      reply, reported := Commit(action, caller.user, req.content);
      events := events + reported;
    }
  }
}
