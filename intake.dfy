/** The submission handler (`handle_submission`): the session check, the
    sanitising of the posted fields, the required-field and email checks, the
    duplicate lookup, the creation of the entry, and the sync step. Each
    `wp_send_json_error` ends the request and is an early return here. */
module Intake {
  import opened Php
  import opened Platform
  import opened Settings
  import opened Entries
  import opened Sync

  const NonceAction := "vwl_submit"

  datatype Rejection = SessionExpired | MissingFields | InvalidEmail | Duplicate | SaveFailed

  /** The JSON reply: `wp_send_json_success` or `wp_send_json_error` with a
      message. */
  datatype Reply = Reply(success: bool, message: string)

  const SuccessMessage := "¡Listo! Te avisaremos cuando esté disponible."

  /** The message of each `wp_send_json_error`; none reads as the success
      message. */
  function Message(r: Rejection): (m: string)
    ensures m != SuccessMessage
  {
    match r
    case SessionExpired => "Sesión expirada. Recarga la página."
    case MissingFields => "Todos los campos son requeridos."
    case InvalidEmail => "Email inválido."
    case Duplicate => "Ya estás inscrito en la lista de espera para este producto."
    case SaveFailed => "Error al guardar. Intenta de nuevo."
  }

  function ErrorReply(r: Rejection): Reply {
    Reply(false, Message(r))
  }

  const SuccessReply := Reply(true, SuccessMessage)

  /** Each rejection has its own message, so together with `Message`'s own
      contract the customer can tell every outcome apart. */
  lemma MessagesDistinct(a: Rejection, b: Rejection)
    ensures a != b ==> Message(a) != Message(b)
  {
  }

  /** The posted fields after sanitising; a missing `product_id` is
      `absint(0)`, which is 0, and any other missing field is sanitised as
      "". The image goes through the URL sanitiser, the email through the
      email sanitiser, and every other text field through the text one. */
  function Sanitize(p: Platform, post: map<string, string>): (r: Submission)
    ensures "product_id" !in post ==> r.productId == 0
    ensures "product_id" in post ==> r.productId == p.absint(post["product_id"])
    ensures r.productName == p.sanitizeTextField(Field(post, "product_name"))
    ensures r.productSku == p.sanitizeTextField(Field(post, "product_sku"))
    ensures r.productPrice == p.sanitizeTextField(Field(post, "product_price"))
    ensures r.customerEmail == p.sanitizeEmail(Field(post, "customer_email"))
    ensures r.productImage == p.escUrlRaw(Field(post, "product_image"))
    ensures r.customerName == p.sanitizeTextField(Field(post, "customer_name"))
    ensures r.customerPhone == p.sanitizeTextField(Field(post, "customer_phone"))
  {
    Submission(
      if "product_id" in post then p.absint(post["product_id"]) else 0,
      p.sanitizeTextField(Field(post, "product_name")),
      p.sanitizeTextField(Field(post, "product_sku")),
      p.sanitizeTextField(Field(post, "product_price")),
      p.escUrlRaw(Field(post, "product_image")),
      p.sanitizeTextField(Field(post, "customer_name")),
      p.sanitizeEmail(Field(post, "customer_email")),
      p.sanitizeTextField(Field(post, "customer_phone")))
  }

  /** The required-field test: a product id and a truthy name, email and
      phone. A field holding just "0" counts as missing. */
  predicate Complete(s: Submission): (b: bool)
    ensures b <==> && s.productId > 0 && s.customerName !in {"", "0"}
                   && s.customerEmail !in {"", "0"} && s.customerPhone !in {"", "0"}
    ensures s.customerName == "0" || s.customerEmail == "0" || s.customerPhone == "0" ==> !b
  {
    s.productId != 0 && !Falsy(s.customerName) && !Falsy(s.customerEmail) && !Falsy(s.customerPhone)
  }

  predicate NonceValid(p: Platform, post: map<string, string>) {
    p.verifyNonce(Field(post, "vwl_nonce"), NonceAction)
  }

  datatype Verdict = Accept(entry: Submission) | Reject(reason: Rejection)

  /** The checks that precede creation, in the order the handler runs them;
      the first failing one decides the rejection. */
  function Validate(p: Platform, post: map<string, string>, posts: map<nat, Post>): (v: Verdict)
    ensures v.Accept? <==> && NonceValid(p, post) && Complete(Sanitize(p, post))
                           && p.isEmail(Sanitize(p, post).customerEmail)
                           && !HasEntry(posts, Sanitize(p, post).productId, Sanitize(p, post).customerEmail)
    ensures v.Accept? ==> v.entry == Sanitize(p, post)
    ensures v.Reject? ==> v.reason != SaveFailed
  {
    if !NonceValid(p, post) then Reject(SessionExpired)
    else
      var s := Sanitize(p, post);
      if !Complete(s) then Reject(MissingFields)
      else if !p.isEmail(s.customerEmail) then Reject(InvalidEmail)
      else if HasEntry(posts, s.productId, s.customerEmail) then Reject(Duplicate)
      else Accept(s)
  }

  /** A failed session check rejects the submission whatever else it holds. */
  lemma ExpiredSessionRejected(p: Platform, post: map<string, string>, posts: map<nat, Post>)
    requires !NonceValid(p, post)
    ensures Validate(p, post, posts) == Reject(SessionExpired)
  {
  }

  /** With a valid session, a missing or zero product id, or an empty or "0"
      name, email or phone is rejected as missing fields. */
  lemma MissingFieldsRejected(p: Platform, post: map<string, string>, posts: map<nat, Post>)
    requires NonceValid(p, post)
    requires var s := Sanitize(p, post);
             s.productId == 0 || Falsy(s.customerName) || Falsy(s.customerEmail) || Falsy(s.customerPhone)
    ensures Validate(p, post, posts) == Reject(MissingFields)
  {
  }

  /** The email syntax check runs after the required-field check. */
  lemma InvalidEmailRejected(p: Platform, post: map<string, string>, posts: map<nat, Post>)
    requires NonceValid(p, post) && Complete(Sanitize(p, post))
    requires !p.isEmail(Sanitize(p, post).customerEmail)
    ensures Validate(p, post, posts) == Reject(InvalidEmail)
  {
  }

  /** A well-formed submission for a (product, sanitised email) pair that
      already has an entry is a duplicate. */
  lemma DuplicateRejected(p: Platform, post: map<string, string>, posts: map<nat, Post>, id: nat)
    requires NonceValid(p, post) && Complete(Sanitize(p, post)) && p.isEmail(Sanitize(p, post).customerEmail)
    requires id in posts && Matches(posts[id], Sanitize(p, post).productId, Sanitize(p, post).customerEmail)
    ensures Validate(p, post, posts) == Reject(Duplicate)
  {
  }

  /** Every check before the duplicate lookup is independent of the store:
      a submission rejected for its session, its fields or its email is
      rejected in the same way whatever entries exist. */
  lemma RejectionBeforeLookupIgnoresStore(p: Platform, post: map<string, string>, a: map<nat, Post>, b: map<nat, Post>)
    requires Validate(p, post, a).Reject? && Validate(p, post, a).reason != Duplicate
    ensures Validate(p, post, b) == Validate(p, post, a)
  {
  }

  /** The state of the store after a submission that reaches the create step:
      one new entry under `id`, holding the snapshot and then the sync
      outcome. */
  function Created(posts: map<nat, Post>, id: nat, s: Submission, createdAt: string, o: SyncOutcome, syncedAt: string): map<nat, Post> {
    posts[id := Post(EntryTitle(s), ApplyOutcome(NewEntryMeta(s, createdAt), o, syncedAt))]
  }

  /** Adding the freshly created entry, before any sync, keeps the store
      invariant. */
  lemma NewEntryKeepsInvariant(posts: map<nat, Post>, id: nat, s: Submission, createdAt: string)
    requires StoreInvariant(posts) && id !in posts
    requires !HasEntry(posts, s.productId, s.customerEmail)
    ensures StoreInvariant(posts[id := Post(EntryTitle(s), NewEntryMeta(s, createdAt))])
  {
  }

  /** Creating an accepted submission keeps the store invariant, whatever the
      sync outcome. */
  lemma {:induction false} CreateKeepsInvariant(posts: map<nat, Post>, id: nat, s: Submission, createdAt: string, o: SyncOutcome, syncedAt: string)
    requires StoreInvariant(posts) && id !in posts
    requires !HasEntry(posts, s.productId, s.customerEmail)
    ensures StoreInvariant(Created(posts, id, s, createdAt, o, syncedAt))
  {
    NewEntryKeepsInvariant(posts, id, s, createdAt);
    ApplyOutcomeKeepsInvariant(posts, id, EntryTitle(s), NewEntryMeta(s, createdAt), o, syncedAt);
  }

  /** After the create step the store holds an entry for the submitted
      pair, whatever the sync outcome. */
  lemma {:induction false} CreatedHasEntry(posts: map<nat, Post>, id: nat, s: Submission, createdAt: string,
                                           o: SyncOutcome, syncedAt: string)
    ensures HasEntry(Created(posts, id, s, createdAt, o, syncedAt), s.productId, s.customerEmail)
  {
    var q := Created(posts, id, s, createdAt, o, syncedAt);
    NewEntryWellFormed(s, createdAt);
    ApplyOutcomeKeepsWellFormed(NewEntryMeta(s, createdAt), o, syncedAt);
    assert Matches(q[id], s.productId, s.customerEmail);
  }

  /** Submitting the same form again, after it was accepted and created, is
      rejected as a duplicate. */
  lemma {:induction false} RepeatSubmissionIsDuplicate(p: Platform, post: map<string, string>, posts: map<nat, Post>, id: nat,
                                                       createdAt: string, o: SyncOutcome, syncedAt: string)
    requires Validate(p, post, posts).Accept?
    ensures Validate(p, post, Created(posts, id, Sanitize(p, post), createdAt, o, syncedAt)) == Reject(Duplicate)
  {
    CreatedHasEntry(posts, id, Sanitize(p, post), createdAt, o, syncedAt);
  }

  /** The checks of `handle_submission` before the insert, in the handler's
      order: the first that fails decides the rejection. Reads the store and
      changes nothing. */
  method Screen(store: Store, p: Platform, post: map<string, string>) returns (verdict: Verdict)
    ensures verdict == Validate(p, post, store.posts)
  {
    if !p.verifyNonce(Field(post, "vwl_nonce"), NonceAction) {
      return Reject(SessionExpired);
    }

    var s := Sanitize(p, post);

    if s.productId == 0 || Falsy(s.customerName) || Falsy(s.customerEmail) || Falsy(s.customerPhone) {
      return Reject(MissingFields);
    }

    if !p.isEmail(s.customerEmail) {
      return Reject(InvalidEmail);
    }

    var existing := store.FindEntry(s.productId, s.customerEmail);
    if existing.Some? {
      return Reject(Duplicate);
    }
    return Accept(s);
  }

  /** The "save meta" block of `handle_submission`: the ten
      `update_post_meta` writes on the post just inserted, which write
      nothing when the insert returned 0. */
  method SaveMeta(store: Store, id: nat, s: Submission, createdAt: string)
    requires store.Valid() && (id == 0 || (id in store.posts && store.posts[id].meta == map[]))
    modifies store
    ensures store.Valid() && store.lastId == old(store.lastId)
    ensures id == 0 ==> store.posts == old(store.posts)
    ensures id != 0 ==> store.posts == old(store.posts)[id := Post(old(store.posts)[id].title, NewEntryMeta(s, createdAt))]
  {
    ghost var title := if id in store.posts then store.posts[id].title else "";
    ghost var written: map<MetaKey, MetaValue> := map[];
    assert id != 0 ==> old(store.posts) == old(store.posts)[id := Post(title, written)];
    store.UpdateMeta(id, ProductIdKey, Num(s.productId));
    WithMetaOnPost(old(store.posts), id, title, written, ProductIdKey, Num(s.productId));
    written := written[ProductIdKey := Num(s.productId)];
    store.UpdateMeta(id, ProductNameKey, Text(s.productName));
    WithMetaOnPost(old(store.posts), id, title, written, ProductNameKey, Text(s.productName));
    written := written[ProductNameKey := Text(s.productName)];
    store.UpdateMeta(id, ProductSkuKey, Text(s.productSku));
    WithMetaOnPost(old(store.posts), id, title, written, ProductSkuKey, Text(s.productSku));
    written := written[ProductSkuKey := Text(s.productSku)];
    store.UpdateMeta(id, ProductPriceKey, Text(s.productPrice));
    WithMetaOnPost(old(store.posts), id, title, written, ProductPriceKey, Text(s.productPrice));
    written := written[ProductPriceKey := Text(s.productPrice)];
    store.UpdateMeta(id, ProductImageKey, Text(s.productImage));
    WithMetaOnPost(old(store.posts), id, title, written, ProductImageKey, Text(s.productImage));
    written := written[ProductImageKey := Text(s.productImage)];
    store.UpdateMeta(id, CustomerNameKey, Text(s.customerName));
    WithMetaOnPost(old(store.posts), id, title, written, CustomerNameKey, Text(s.customerName));
    written := written[CustomerNameKey := Text(s.customerName)];
    store.UpdateMeta(id, CustomerEmailKey, Text(s.customerEmail));
    WithMetaOnPost(old(store.posts), id, title, written, CustomerEmailKey, Text(s.customerEmail));
    written := written[CustomerEmailKey := Text(s.customerEmail)];
    store.UpdateMeta(id, CustomerPhoneKey, Text(s.customerPhone));
    WithMetaOnPost(old(store.posts), id, title, written, CustomerPhoneKey, Text(s.customerPhone));
    written := written[CustomerPhoneKey := Text(s.customerPhone)];
    store.UpdateMeta(id, SyncStatusKey, Text(Pending));
    WithMetaOnPost(old(store.posts), id, title, written, SyncStatusKey, Text(Pending));
    written := written[SyncStatusKey := Text(Pending)];
    store.UpdateMeta(id, CreatedAtKey, Text(createdAt));
    WithMetaOnPost(old(store.posts), id, title, written, CreatedAtKey, Text(createdAt));
    written := written[CreatedAtKey := Text(createdAt)];
  }

  /** `handle_submission` with the insert failure handled: when
      `wp_insert_post` returns 0 the customer is told the entry was not saved
      and nothing is sent. `createdAt` and `syncedAt` are the two readings of
      `current_time('mysql')`, `unixTime` is `time()`, `dbFails` is the
      database refusing the insert and `response` is the CRM's reply. A
      success reply always means the entry is in the store. */
  method HandleSubmission(store: Store, p: Platform, post: map<string, string>, stored: Option<Blob>,
                          createdAt: string, unixTime: nat, syncedAt: string, dbFails: bool, response: Response)
    returns (reply: Reply, sent: Option<Request>)
    requires store.Valid()
    modifies store
    ensures store.Valid()
    ensures var v := Validate(p, post, old(store.posts));
            v.Reject? ==> && reply == ErrorReply(v.reason) && sent.None?
                          && store.posts == old(store.posts) && store.lastId == old(store.lastId)
    ensures var v := Validate(p, post, old(store.posts));
            v.Accept? && dbFails ==> && reply == ErrorReply(SaveFailed) && sent.None?
                                     && store.posts == old(store.posts) && store.lastId == old(store.lastId)
    ensures var v := Validate(p, post, old(store.posts));
            var c := ConfigOf(GetSettings(stored));
            v.Accept? && !dbFails ==>
              && reply == SuccessReply
              && store.lastId !in old(store.posts)
              && store.posts == Created(old(store.posts), store.lastId, v.entry, createdAt,
                                        Outcome(GetSettings(stored), response), syncedAt)
              && sent == if Enabled(c) then Some(BuildRequest(p, c, v.entry, DecimalString(unixTime))) else None
    ensures reply.success ==> HasEntry(store.posts, Sanitize(p, post).productId, Sanitize(p, post).customerEmail)
    ensures StoreInvariant(old(store.posts)) ==> StoreInvariant(store.posts)
  {
    var verdict := Screen(store, p, post);
    if verdict.Reject? {
      return ErrorReply(verdict.reason), None;
    }
    var s := verdict.entry;

    var id := store.Insert(EntryTitle(s), dbFails);
    if id == 0 {
      return ErrorReply(SaveFailed), None;
    }

    SaveMeta(store, id, s, createdAt);
    OverwritePost(old(store.posts), id, Post(EntryTitle(s), map[]), Post(EntryTitle(s), NewEntryMeta(s, createdAt)));

    sent := SyncToApi(store, p, id, s, stored, unixTime, syncedAt, response);
    OverwritePost(old(store.posts), id, Post(EntryTitle(s), NewEntryMeta(s, createdAt)),
                  Post(EntryTitle(s), ApplyOutcome(NewEntryMeta(s, createdAt), Outcome(GetSettings(stored), response), syncedAt)));

    CreatedHasEntry(old(store.posts), id, s, createdAt, Outcome(GetSettings(stored), response), syncedAt);
    if StoreInvariant(old(store.posts)) {
      CreateKeepsInvariant(old(store.posts), id, s, createdAt, Outcome(GetSettings(stored), response), syncedAt);
    }
    reply := SuccessReply;
  }

  /** `handle_submission` as written. `wp_insert_post` is called without
      `$wp_error`, so a failed insert returns 0 rather than an error object
      and the `is_wp_error` test never fires: the meta writes to post 0 are
      dropped, the request is still sent when sync is configured, and the
      customer is told the entry was saved although the store holds none. */
  method HandleSubmissionAsWritten(store: Store, p: Platform, post: map<string, string>, stored: Option<Blob>,
                                   createdAt: string, unixTime: nat, syncedAt: string, dbFails: bool, response: Response)
    returns (reply: Reply, sent: Option<Request>)
    requires store.Valid()
    modifies store
    ensures store.Valid()
    ensures var v := Validate(p, post, old(store.posts));
            v.Reject? ==> && reply == ErrorReply(v.reason) && sent.None?
                          && store.posts == old(store.posts) && store.lastId == old(store.lastId)
    ensures var v := Validate(p, post, old(store.posts));
            var c := ConfigOf(GetSettings(stored));
            v.Accept? && dbFails ==>
              && reply == SuccessReply
              && store.posts == old(store.posts) && store.lastId == old(store.lastId)
              && !HasEntry(store.posts, v.entry.productId, v.entry.customerEmail)
              && sent == if Enabled(c) then Some(BuildRequest(p, c, v.entry, DecimalString(unixTime))) else None
    ensures var v := Validate(p, post, old(store.posts));
            var c := ConfigOf(GetSettings(stored));
            v.Accept? && !dbFails ==>
              && reply == SuccessReply
              && store.lastId !in old(store.posts)
              && store.posts == Created(old(store.posts), store.lastId, v.entry, createdAt,
                                        Outcome(GetSettings(stored), response), syncedAt)
              && sent == if Enabled(c) then Some(BuildRequest(p, c, v.entry, DecimalString(unixTime))) else None
    ensures StoreInvariant(old(store.posts)) ==> StoreInvariant(store.posts)
  {
    var verdict := Screen(store, p, post);
    if verdict.Reject? {
      return ErrorReply(verdict.reason), None;
    }
    var s := verdict.entry;

    var id := store.Insert(EntryTitle(s), dbFails);

    SaveMeta(store, id, s, createdAt);
    sent := SyncToApi(store, p, id, s, stored, unixTime, syncedAt, response);

    if id != 0 {
      OverwritePost(old(store.posts), id, Post(EntryTitle(s), map[]), Post(EntryTitle(s), NewEntryMeta(s, createdAt)));
      OverwritePost(old(store.posts), id, Post(EntryTitle(s), NewEntryMeta(s, createdAt)),
                    Post(EntryTitle(s), ApplyOutcome(NewEntryMeta(s, createdAt), Outcome(GetSettings(stored), response), syncedAt)));
      if StoreInvariant(old(store.posts)) {
        CreateKeepsInvariant(old(store.posts), id, s, createdAt, Outcome(GetSettings(stored), response), syncedAt);
      }
    }
    reply := SuccessReply;
  }
}
