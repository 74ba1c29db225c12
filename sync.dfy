/** The sync step (`sync_to_api`): read the API configuration, skip when it
    is incomplete, otherwise build the payload and the signed request, send
    it, and record the outcome on the entry's sync fields. Sending is outside
    the model: the server's reply arrives as a `Response` parameter. */
module Sync {
  import opened Php
  import opened Platform
  import opened Settings
  import opened Entries

  const ApiPath := "/api_v1/waitlist"
  const SignedMethod := "POST"
  const TimeoutSeconds := 30
  const PayloadSource := "woocommerce_waitlist"
  const PayloadNotes := "Inscrito desde WooCommerce (Victoria Waitlist Lite)"

  /** The three settings the sync step reads, as it reads them. */
  datatype Config = Config(apiUrl: string, apiKey: string, apiSecret: string)

  /** `rtrim($settings['api_url'] ?? '', '/')`, `$settings['api_key'] ?? ''`
      and `$settings['api_secret'] ?? ''`. */
  function ConfigOf(settings: Blob): (c: Config)
    ensures c.apiUrl == [] || c.apiUrl[|c.apiUrl| - 1] != '/'
    ensures c.apiUrl <= Setting(settings, ApiUrl)
    ensures forall i :: |c.apiUrl| <= i < |Setting(settings, ApiUrl)| ==> Setting(settings, ApiUrl)[i] == '/'
    ensures c.apiKey == Setting(settings, ApiKey) && c.apiSecret == Setting(settings, ApiSecret)
  {
    Config(RTrimSlash(Setting(settings, ApiUrl)), Setting(settings, ApiKey), Setting(settings, ApiSecret))
  }

  /** Sync runs only when none of the three values is `empty()`. */
  predicate Enabled(c: Config) {
    !Falsy(c.apiUrl) && !Falsy(c.apiKey) && !Falsy(c.apiSecret)
  }

  datatype ProductPayload = ProductPayload(wooId: nat, name: string, sku: string, price: string, imageUrl: string)
  datatype CustomerPayload = CustomerPayload(name: string, email: string, phone: string)
  datatype Payload = Payload(source: string, product: ProductPayload, customer: CustomerPayload, notes: string)

  /** The request body, before JSON encoding. Every submitted field reaches
      the CRM: the payload gives back the submission it was built from, with
      the fixed source and notes. */
  function PayloadOf(data: Submission): (payload: Payload)
    ensures SubmissionOf(payload) == data
    ensures payload.source == PayloadSource && payload.notes == PayloadNotes
  {
    Payload(
      PayloadSource,
      ProductPayload(data.productId, data.productName, data.productSku, data.productPrice, data.productImage),
      CustomerPayload(data.customerName, data.customerEmail, data.customerPhone),
      PayloadNotes)
  }

  /** What the receiving side reads back out of a payload. */
  function SubmissionOf(payload: Payload): Submission {
    Submission(
      payload.product.wooId, payload.product.name, payload.product.sku, payload.product.price,
      payload.product.imageUrl, payload.customer.name, payload.customer.email, payload.customer.phone)
  }

  /** The string that is signed: method, path and timestamp, in this order. */
  function CanonicalString(timestamp: string): (s: string)
    ensures |s| == |SignedMethod| + |ApiPath| + |timestamp|
    ensures s[..|SignedMethod|] == SignedMethod
    ensures s[|SignedMethod|..|SignedMethod| + |ApiPath|] == ApiPath
    ensures s[|SignedMethod| + |ApiPath|..] == timestamp
  {
    SignedMethod + ApiPath + timestamp
  }

  /** With method and path fixed, the signed string determines the
      timestamp: two requests signed over the same string carry the same
      timestamp. */
  lemma CanonicalStringInjective(t1: string, t2: string)
    ensures CanonicalString(t1) == CanonicalString(t2) ==> t1 == t2
  {
  }

  datatype Headers = Headers(contentType: string, accept: string, apiKey: string, signature: string, timestamp: string)

  datatype Request = Request(url: string, timeout: nat, headers: Headers, body: Payload)

  /** The request `wp_remote_post` is given: a POST of the payload to the
      base URL followed by the path, with a 30-second timeout, the API key,
      and the timestamp together with the signature over it. */
  function BuildRequest(p: Platform, c: Config, data: Submission, timestamp: string): (r: Request)
    ensures r.url == c.apiUrl + ApiPath && r.timeout == TimeoutSeconds
    ensures r.headers.contentType == "application/json" && r.headers.accept == "application/json"
    ensures r.headers.apiKey == c.apiKey && r.headers.timestamp == timestamp
    ensures r.headers.signature == p.hmacSha256(SignedMethod + ApiPath + r.headers.timestamp, c.apiSecret)
    ensures SubmissionOf(r.body) == data
    ensures r.body.source == PayloadSource && r.body.notes == PayloadNotes
  {
    Request(
      c.apiUrl + ApiPath,
      TimeoutSeconds,
      Headers("application/json", "application/json", c.apiKey,
              p.hmacSha256(CanonicalString(timestamp), c.apiSecret), timestamp),
      PayloadOf(data))
  }

  /** The request is authenticated as the receiver expects: the signature is
      the HMAC-SHA256, keyed by the API secret, of "POST", the path and the
      timestamp sent in `X-Timestamp`; the URL joins the base URL and the
      path with exactly one slash. */
  lemma RequestIsSigned(p: Platform, settings: Blob, data: Submission, unixTime: nat)
    requires Enabled(ConfigOf(settings))
    ensures var c := ConfigOf(settings);
            var r := BuildRequest(p, c, data, DecimalString(unixTime));
            && r.headers.signature == p.hmacSha256("POST" + "/api_v1/waitlist" + r.headers.timestamp, c.apiSecret)
            && r.headers.apiKey == Setting(settings, ApiKey)
            && DecimalValue(r.headers.timestamp) == unixTime
            && r.url[..|c.apiUrl|] == c.apiUrl && r.url[|c.apiUrl|..] == "/api_v1/waitlist"
            && r.url[|c.apiUrl| - 1] != '/'
            && SubmissionOf(r.body) == data
  {
  }

  /** The reply to the POST, after `json_decode`: a transport failure, or a
      status code with `data.wishlist_id` and `error.message` when the body
      holds them. */
  datatype Response =
    | TransportError(message: string)
    | HttpResponse(code: nat, wishlistId: Option<string>, errorMessage: Option<string>)

  datatype SyncOutcome =
    | Skipped
    | SyncFailed(message: string)
    | SyncSucceeded(remoteId: Option<string>)

  predicate IsSuccessCode(code: nat) {
    200 <= code < 300
  }

  /** The message stored when an error reply carries no `error.message`. */
  function FallbackError(code: nat): (m: string)
    ensures |m| > 6 && m[..6] == "Error " && AllDigits(m[6..]) && DecimalValue(m[6..]) == code
    ensures m[6] == '0' ==> m == "Error 0"
  {
    var m := "Error " + DecimalString(code);
    assert m[6..] == DecimalString(code);
    m
  }

  /** The outcome of a sync that was sent: every reply maps to exactly one of
      failed or succeeded, never to skipped. */
  function Classify(r: Response): (o: SyncOutcome)
    ensures !o.Skipped?
    ensures r.TransportError? ==> o == SyncFailed(r.message)
    ensures r.HttpResponse? && IsSuccessCode(r.code) ==> o == SyncSucceeded(r.wishlistId)
    ensures r.HttpResponse? && !IsSuccessCode(r.code) && r.errorMessage.Some? ==> o == SyncFailed(r.errorMessage.value)
    ensures r.HttpResponse? && !IsSuccessCode(r.code) && r.errorMessage.None? ==> o == SyncFailed(FallbackError(r.code))
  {
    match r
    case TransportError(message) => SyncFailed(message)
    case HttpResponse(code, wishlistId, errorMessage) =>
      if IsSuccessCode(code) then SyncSucceeded(wishlistId)
      else SyncFailed(if errorMessage.Some? then errorMessage.value else FallbackError(code))
  }

  /** The outcome of `sync_to_api` as a whole. */
  function Outcome(settings: Blob, r: Response): (o: SyncOutcome)
    ensures o.Skipped? <==> !Enabled(ConfigOf(settings))
    ensures Enabled(ConfigOf(settings)) ==> o == Classify(r)
  {
    if Enabled(ConfigOf(settings)) then Classify(r) else Skipped
  }

  /** An incomplete configuration skips the sync, and a skipped sync writes
      nothing: the entry stays as created, pending. */
  lemma UnconfiguredSyncWritesNothing(settings: Blob, r: Response, meta: map<MetaKey, MetaValue>, syncedAt: string)
    requires || Falsy(RTrimSlash(Setting(settings, ApiUrl)))
             || Falsy(Setting(settings, ApiKey)) || Falsy(Setting(settings, ApiSecret))
    ensures Outcome(settings, r) == Skipped
    ensures ApplyOutcome(meta, Outcome(settings, r), syncedAt) == meta
  {
  }

  /** A fresh install, with no saved settings, never syncs. */
  lemma DefaultsDisableSync(r: Response, meta: map<MetaKey, MetaValue>, syncedAt: string)
    ensures !Enabled(ConfigOf(GetSettings(None)))
    ensures ApplyOutcome(meta, Outcome(GetSettings(None), r), syncedAt) == meta
  {
  }

  /** A base URL made of slashes alone counts as not configured, since
      `rtrim` leaves nothing of it. */
  lemma SlashesOnlyUrlDisablesSync(settings: Blob)
    requires forall i :: 0 <= i < |Setting(settings, ApiUrl)| ==> Setting(settings, ApiUrl)[i] == '/'
    ensures !Enabled(ConfigOf(settings))
  {
  }

  /** The meta writes of each outcome. A skipped sync writes nothing; a
      failure sets the status to error and the message; a success sets the
      status to synced, the sync time and, when the reply names one, the
      remote id. Only the sync keys ever change, and a success leaves an
      earlier error message in place. */
  function ApplyOutcome(meta: map<MetaKey, MetaValue>, o: SyncOutcome, syncedAt: string): (r: map<MetaKey, MetaValue>)
    ensures forall k :: !IsSyncKey(k) ==> (k in r <==> k in meta) && (k in meta ==> r[k] == meta[k])
    ensures o.Skipped? ==> r == meta
    ensures o.SyncFailed? ==> r == meta[SyncStatusKey := Text(Failed)][SyncErrorKey := Text(o.message)]
    ensures o.SyncSucceeded? ==> && SyncStatusKey in r && r[SyncStatusKey] == Text(Synced)
                                 && SyncedAtKey in r && r[SyncedAtKey] == Text(syncedAt)
                                 && (SyncErrorKey in r <==> SyncErrorKey in meta)
                                 && (SyncErrorKey in meta ==> r[SyncErrorKey] == meta[SyncErrorKey])
                                 && (o.remoteId.Some? ==> RemoteIdKey in r && r[RemoteIdKey] == Text(o.remoteId.value))
                                 && (o.remoteId.None? ==> (RemoteIdKey in r <==> RemoteIdKey in meta))
                                 && (o.remoteId.None? && RemoteIdKey in meta ==> r[RemoteIdKey] == meta[RemoteIdKey])
  {
    match o
    case Skipped => meta
    case SyncFailed(message) => meta[SyncStatusKey := Text(Failed)][SyncErrorKey := Text(message)]
    case SyncSucceeded(remoteId) =>
      var m := meta[SyncStatusKey := Text(Synced)][SyncedAtKey := Text(syncedAt)];
      if remoteId.Some? then m[RemoteIdKey := Text(remoteId.value)] else m
  }

  /** A sync keeps an entry well formed and its snapshot intact, and an
      attempted sync never leaves it pending. */
  lemma ApplyOutcomeKeepsWellFormed(meta: map<MetaKey, MetaValue>, o: SyncOutcome, syncedAt: string)
    requires WellFormed(meta)
    ensures WellFormed(ApplyOutcome(meta, o, syncedAt))
    ensures SnapshotOf(ApplyOutcome(meta, o, syncedAt)) == SnapshotOf(meta)
    ensures !o.Skipped? ==> ApplyOutcome(meta, o, syncedAt)[SyncStatusKey] != Text(Pending)
  {
  }

  /** Recording a sync outcome on one entry keeps the store free of
      duplicates and keeps every entry well formed. */
  lemma {:induction false} ApplyOutcomeKeepsInvariant(posts: map<nat, Post>, id: nat, title: string,
                                                      meta: map<MetaKey, MetaValue>, o: SyncOutcome, syncedAt: string)
    requires StoreInvariant(posts[id := Post(title, meta)])
    ensures StoreInvariant(posts[id := Post(title, ApplyOutcome(meta, o, syncedAt))])
  {
    var before := posts[id := Post(title, meta)];
    var after := posts[id := Post(title, ApplyOutcome(meta, o, syncedAt))];
    assert before[id].meta == meta;
    ApplyOutcomeKeepsWellFormed(meta, o, syncedAt);
    forall i | i in after ensures WellFormed(after[i].meta) {
      if i != id {
        assert after[i] == before[i];
      }
    }
    forall i | i in after ensures SameKeyAs(after[i], before[i]) {
      if i == id {
        assert !IsSyncKey(ProductIdKey) && !IsSyncKey(CustomerEmailKey);
      }
    }
    forall i, j | i in after && j in after && i != j ensures !SameKey(after[i], after[j]) {
      assert SameKeyAs(after[i], before[i]) && SameKeyAs(after[j], before[j]);
      assert !SameKey(before[i], before[j]);
    }
  }

  /** `sync_to_api($post_id, $data)`. For post id 0 the request still goes
      out, and the outcome's writes go nowhere. */
  method SyncToApi(store: Store, p: Platform, id: nat, data: Submission, stored: Option<Blob>,
                   unixTime: nat, syncedAt: string, response: Response)
    returns (sent: Option<Request>)
    requires store.Valid() && (id == 0 || id in store.posts)
    modifies store
    ensures store.Valid() && store.lastId == old(store.lastId)
    ensures var c := ConfigOf(GetSettings(stored));
            sent == if Enabled(c) then Some(BuildRequest(p, c, data, DecimalString(unixTime))) else None
    ensures id == 0 ==> store.posts == old(store.posts)
    ensures id != 0 ==> store.posts == old(store.posts)[id := Post(old(store.posts)[id].title,
              ApplyOutcome(old(store.posts)[id].meta, Outcome(GetSettings(stored), response), syncedAt))]
  {
    var settings := GetSettings(stored);
    var apiUrl := RTrimSlash(Setting(settings, ApiUrl));
    var apiKey := Setting(settings, ApiKey);
    var apiSecret := Setting(settings, ApiSecret);

    if Falsy(apiUrl) || Falsy(apiKey) || Falsy(apiSecret) {
      return None;
    }

    var payload := PayloadOf(data);
    var timestamp := DecimalString(unixTime);
    var signature := p.hmacSha256(SignedMethod + ApiPath + timestamp, apiSecret);
    sent := Some(Request(apiUrl + ApiPath, TimeoutSeconds,
                         Headers("application/json", "application/json", apiKey, signature, timestamp),
                         payload));

    ghost var title := if id in store.posts then store.posts[id].title else "";
    ghost var meta := if id in store.posts then store.posts[id].meta else map[];
    assert id != 0 ==> old(store.posts) == old(store.posts)[id := Post(title, meta)];

    match response
    case TransportError(message) =>
      store.UpdateMeta(id, SyncStatusKey, Text(Failed));
      WithMetaOnPost(old(store.posts), id, title, meta, SyncStatusKey, Text(Failed));
      store.UpdateMeta(id, SyncErrorKey, Text(message));
      WithMetaOnPost(old(store.posts), id, title, meta[SyncStatusKey := Text(Failed)], SyncErrorKey, Text(message));
    case HttpResponse(code, wishlistId, errorMessage) =>
      if 200 <= code < 300 {
        store.UpdateMeta(id, SyncStatusKey, Text(Synced));
        WithMetaOnPost(old(store.posts), id, title, meta, SyncStatusKey, Text(Synced));
        store.UpdateMeta(id, SyncedAtKey, Text(syncedAt));
        WithMetaOnPost(old(store.posts), id, title, meta[SyncStatusKey := Text(Synced)], SyncedAtKey, Text(syncedAt));
        if wishlistId.Some? {
          store.UpdateMeta(id, RemoteIdKey, Text(wishlistId.value));
          WithMetaOnPost(old(store.posts), id, title, meta[SyncStatusKey := Text(Synced)][SyncedAtKey := Text(syncedAt)],
                         RemoteIdKey, Text(wishlistId.value));
        }
      } else {
        var message := if errorMessage.Some? then errorMessage.value else FallbackError(code);
        store.UpdateMeta(id, SyncStatusKey, Text(Failed));
        WithMetaOnPost(old(store.posts), id, title, meta, SyncStatusKey, Text(Failed));
        store.UpdateMeta(id, SyncErrorKey, Text(message));
        WithMetaOnPost(old(store.posts), id, title, meta[SyncStatusKey := Text(Failed)], SyncErrorKey, Text(message));
      }
  }
}
