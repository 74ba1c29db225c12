# Victoria Waitlist Lite — submission intake and CRM sync, modelled in Dafny

Victoria Waitlist Lite is a WooCommerce plugin that marks the products of one
category ("waitlist", configurable) as not purchasable, lets customers leave
their name, email and phone for such a product, stores each request as a
`vwl_entry` post with post meta, and pushes it to the VictoriaNexus CRM over a
signed HTTP call.

This project models the plugin's core:

- **Intake** (`handle_submission`): the session-token check, sanitising of the
  posted fields, the required-field check, the email check, the duplicate
  lookup by (product id, email), the creation of the entry with its ten meta
  fields, the sync step, and the JSON reply. Each `wp_send_json_error` is an
  early return with its own rejection reason and message.
- **Sync** (`sync_to_api`): reading the API settings, skipping silently when
  the URL (after trailing slashes are stripped), key or secret is empty, the
  fixed-shape payload, the signature over `"POST" + "/api_v1/waitlist" +
  timestamp`, the mapping of the reply to an outcome, and the meta writes of
  each outcome (`_sync_status` pending → synced | error).
- **Entry store**: the `vwl_entry` posts as a class holding a map from post id
  to title and meta, with `wp_insert_post`, `update_post_meta` and the
  duplicate query.
- **Filters and settings**: `make_not_purchasable`,
  `variation_not_purchasable`, `remove_variations`, `is_waitlist_product`'s id
  resolution, `get_settings` and `sanitize_settings`.

Files: `php.dfy` (PHP semantics used: `??`, truthiness, `rtrim`, integer to
string), `platform.dfy` (the library functions the plugin calls, as
parameters), `settings.dfy`, `catalog.dfy`, `entries.dfy`, `sync.dfy`,
`intake.dfy`.

Beyond the single calls, the model proves the store invariant the intake
maintains: at most one entry per (product id, email) pair, and every entry
well formed (full snapshot, creation time, a status among pending, synced and
error, a sync time when synced, an error message when in error).

Behaviour of the code worth knowing, which the model keeps:

- A later successful sync does not write `_sync_error` (lines 557-562), so an
  earlier error message stays on the entry; `Sync.ApplyOutcome` states this.
- The duplicate check reads before it inserts, with no uniqueness
  constraint, so it is not atomic. The model compares the `sanitize_email`
  output exactly (see "Left out" for the database's collation).
- "Empty" settings and "missing" fields use PHP truthiness: the string "0"
  counts as empty, so a customer name of "0" is rejected and an API key of
  "0" disables sync (`Php.Falsy`).
- `wp_insert_post` is called without `$wp_error`, so a failed insert returns
  0 and the `is_wp_error` test at line 467 never fires; see "Findings".
  `Intake.HandleSubmissionAsWritten` models the handler as written and
  `Intake.HandleSubmission` the handler with that failure reported.

## Model

| member | source | states |
|---|---|---|
| Php.RTrimSlash | victoria-waitlist-lite.php:504 | `rtrim($url, '/')` returns a prefix of its input that does not end in '/', and everything it removed was '/' |
| Php.DecimalString | victoria-waitlist-lite.php:533 | `(string) time()` renders a non-negative integer as digits that read back as that integer, with no leading zero |
| Php.DecimalStringInjective | victoria-waitlist-lite.php:533 | distinct times give distinct timestamp strings |
| Settings.Defaults | victoria-waitlist-lite.php:82-89 | the fallback settings hold all six keys, with empty API URL, key and secret and the slug "waitlist" and the two default texts |
| Settings.GetSettings | victoria-waitlist-lite.php:81-90 | the stored option when there is one, otherwise the six defaults (empty API URL, key and secret) |
| Settings.SanitizeSettings | victoria-waitlist-lite.php:596-605 | the sanitised settings always hold all six keys |
| Settings.SanitizeFillsDefaults | victoria-waitlist-lite.php:596-605 | each saved key is the input value or, when missing, the same default `get_settings` uses, passed through that key's sanitiser |
| Settings.SanitizeEmptyIsDefaults | victoria-waitlist-lite.php:596-605 | saving an empty form stores exactly the `get_settings` defaults when the sanitisers leave those values alone |
| Settings.SanitizeSettingsIdempotent | victoria-waitlist-lite.php:596-605 | re-sanitising saved settings changes nothing when each sanitiser is idempotent |
| Catalog.WaitlistCategory | victoria-waitlist-lite.php:105-106 | the category slug is the configured one unless it is falsy, then "waitlist"; never falsy |
| Catalog.IsWaitlistProduct | victoria-waitlist-lite.php:95-109 | a bare id or a non-variation product is judged by its own id, a variation by its parent's id; without saved settings the category is "waitlist" |
| Catalog.MakeNotPurchasable | victoria-waitlist-lite.php:133-138 | the filter only withdraws purchasability: the result is true exactly when the input was true and the product is not a waitlist product |
| Catalog.VariationNotPurchasable | victoria-waitlist-lite.php:143-148 | the same rule for a variation |
| Catalog.RemoveVariations | victoria-waitlist-lite.php:153-160 | outside the admin a waitlist product gets no variations; in the admin, or for other products, the list passes through unchanged |
| Catalog.VariationFollowsParent | victoria-waitlist-lite.php:95-109 | a variation is withheld from sale exactly when its parent product is, because it is judged by its parent's id |
| Catalog.FiltersIdempotent | victoria-waitlist-lite.php:133-160 | running a filter on its own output changes nothing |
| Entries.EntryTitle | victoria-waitlist-lite.php:463 | the entry's title is the customer's name, then " - ", then the product's name |
| Entries.NewEntryMeta | victoria-waitlist-lite.php:471-481 | a new entry holds exactly the eight snapshot keys, the status and the creation time, and no sync key but the status; its snapshot gives back the submission; the status is pending |
| Entries.NewEntryWellFormed | victoria-waitlist-lite.php:471-481 | a new entry's meta is well formed |
| Entries.NewEntryMatches | victoria-waitlist-lite.php:446-454 | the duplicate query finds a new entry under its own product id and email |
| Entries.AddFreshKeepsUnique | victoria-waitlist-lite.php:445-481 | adding an entry for a pair with no entry yet keeps at most one entry per (product id, email) |
| Entries.Store.Insert | victoria-waitlist-lite.php:461-465 | `wp_insert_post` without `$wp_error` adds one post with the title and no meta under a new positive id, or on a database error returns 0 and changes nothing |
| Entries.Store.UpdateMeta | victoria-waitlist-lite.php:472-481 | `update_post_meta` sets one key of one post and nothing else, and writes nothing for post id 0 |
| Entries.Store.FindEntry | victoria-waitlist-lite.php:446-456 | the duplicate query returns an entry whose `_product_id` and `_customer_email` match exactly, and returns none only when no entry matches |
| Sync.ConfigOf | victoria-waitlist-lite.php:502-506 | the URL is a prefix of the stored one that does not end in '/', and only '/' characters were removed from the end; key and secret are read as stored, "" when absent |
| Sync.PayloadOf | victoria-waitlist-lite.php:514-529 | the payload carries every submitted field: the CRM can read back the exact submission, with the fixed source and notes |
| Sync.CanonicalString | victoria-waitlist-lite.php:532-534 | the signed string is "POST", then the path, then the timestamp |
| Sync.CanonicalStringInjective | victoria-waitlist-lite.php:532-534 | with method and path fixed, the signed string determines the timestamp |
| Sync.BuildRequest | victoria-waitlist-lite.php:531-547 | the request goes to the base URL followed by the path, with a 30-second timeout, JSON `Content-Type` and `Accept`, the API key, the given timestamp and the HMAC of "POST" + path + that timestamp keyed by the secret; the body gives back the submission with the fixed source and notes |
| Sync.RequestIsSigned | victoria-waitlist-lite.php:531-547 | the signature header is HMAC-SHA256 keyed by the API secret over "POST" + "/api_v1/waitlist" + the `X-Timestamp` value; the timestamp reads back as the time; the URL joins base and path with one slash; the body carries the submission |
| Sync.FallbackError | victoria-waitlist-lite.php:565 | the fallback message is "Error " followed by digits that read back as the status code, with no leading zero |
| Sync.Classify | victoria-waitlist-lite.php:549-566 | every reply maps to one outcome, never "skipped": a transport error keeps its message; a 2xx code succeeds with `data.wishlist_id` when present; any other code fails with `error.message` or "Error " + code |
| Sync.Outcome | victoria-waitlist-lite.php:508-566 | sync is skipped exactly when the URL, key or secret is empty; otherwise the outcome is the classification of the reply |
| Sync.UnconfiguredSyncWritesNothing | victoria-waitlist-lite.php:508-511 | an incomplete configuration skips the sync and leaves the entry's meta as created |
| Sync.DefaultsDisableSync | victoria-waitlist-lite.php:502-511 | with no saved settings the API values are empty, so sync is skipped and writes nothing |
| Sync.SlashesOnlyUrlDisablesSync | victoria-waitlist-lite.php:504-511 | a base URL of slashes alone disables sync |
| Sync.ApplyOutcome | victoria-waitlist-lite.php:550-566 | only the four sync keys ever change; a skip writes nothing; a failure sets status error and the message; a success sets status synced and the sync time, sets the remote id only when given, and keeps any earlier error message |
| Sync.ApplyOutcomeKeepsWellFormed | victoria-waitlist-lite.php:550-566 | recording an outcome keeps the entry well formed and its snapshot intact, and an attempted sync never leaves it pending |
| Sync.ApplyOutcomeKeepsInvariant | victoria-waitlist-lite.php:550-566 | recording an outcome on one entry keeps the store free of duplicates and every entry well formed |
| Sync.SyncToApi | victoria-waitlist-lite.php:501-568 | when configured, sends exactly the signed request and writes the outcome's meta on the entry; otherwise sends nothing and changes nothing; no other post changes; for post id 0 the writes go nowhere |
| Intake.Message | victoria-waitlist-lite.php:423-495 | the message of each of the five error replies (lines 423, 438, 442, 457, 468) differs from the success message of line 495 |
| Intake.MessagesDistinct | victoria-waitlist-lite.php:422-495 | each rejection has its own message |
| Intake.Sanitize | victoria-waitlist-lite.php:426-434 | a missing product id is 0; the email goes through `sanitize_email`, the image through `esc_url_raw`, and product name, SKU, price, customer name and phone through `sanitize_text_field`, each applied to the posted value or "" |
| Intake.Complete | victoria-waitlist-lite.php:437 | a submission is complete exactly when its product id is positive and its name, email and phone are each neither "" nor "0" |
| Intake.Validate | victoria-waitlist-lite.php:420-458 | a submission passes the checks exactly when the nonce verifies, the fields are complete, the email is valid and no entry exists for the pair; an accepted submission is the sanitised one |
| Intake.ExpiredSessionRejected | victoria-waitlist-lite.php:421-424 | a failed nonce check rejects with the session-expired reason whatever else is posted |
| Intake.MissingFieldsRejected | victoria-waitlist-lite.php:426-439 | with a valid session, a zero product id or an empty name, email or phone is rejected as missing fields |
| Intake.InvalidEmailRejected | victoria-waitlist-lite.php:441-443 | the email check runs after the required-field check and rejects an invalid email |
| Intake.DuplicateRejected | victoria-waitlist-lite.php:445-458 | a valid submission whose product id and sanitised email match an existing entry is a duplicate |
| Intake.RejectionBeforeLookupIgnoresStore | victoria-waitlist-lite.php:421-458 | every check before the duplicate lookup is independent of the store |
| Intake.NewEntryKeepsInvariant | victoria-waitlist-lite.php:445-481 | adding the created entry for a pair not yet present keeps the store invariant |
| Intake.CreateKeepsInvariant | victoria-waitlist-lite.php:445-495 | creating an accepted submission and recording any sync outcome keeps the store invariant |
| Intake.CreatedHasEntry | victoria-waitlist-lite.php:461-481 | after the create step the duplicate query finds an entry for the submitted pair, whatever the sync outcome |
| Intake.RepeatSubmissionIsDuplicate | victoria-waitlist-lite.php:445-481 | once a submission has been created, the same submission is rejected as a duplicate, whatever its sync outcome |
| Intake.Screen | victoria-waitlist-lite.php:420-458 | the handler's checks before the insert, run in order, give exactly the verdict `Validate` specifies, and change nothing |
| Intake.SaveMeta | victoria-waitlist-lite.php:471-481 | the ten meta writes leave the new post holding exactly the snapshot, status pending and the creation time; for post id 0 they write nothing |
| Intake.HandleSubmission | victoria-waitlist-lite.php:420-496 | with a failed insert reported (see Findings): a rejected submission replies with its reason and changes nothing; a failed insert replies "Error al guardar" and changes nothing; otherwise one new entry holds the snapshot and the sync outcome, nothing else changes, the signed request is sent only when configured, and the reply is success whatever the sync outcome; a success reply means the store holds an entry for the pair; the store invariant is preserved |
| Intake.HandleSubmissionAsWritten | victoria-waitlist-lite.php:420-496 | as written: the same as `HandleSubmission` except that a failed insert replies success, leaves the store unchanged with no entry for the pair, and still sends the signed request when sync is configured |

## Left out

- Rendering (`catalog_button`, `render_modal`, `render_admin_page`, including the admin list of the last ten entries): markup, CSS and JavaScript with no state to model.
- Wiring (`instance`, `init_hooks`, `register_post_type`, `add_admin_menu`, `register_settings`, `check_woocommerce`, `vwl_init`): framework registration.
- `hash_hmac`, `wp_json_encode`, `json_decode` and `wp_remote_post`: the HMAC is an arbitrary function of message and key, the body is the `Payload` value before encoding, and the reply is a `Response` parameter (a transport error, or a status code with the decoded `data.wishlist_id` and `error.message` when present). The 30-second timeout is recorded on the request; a timeout arrives as a transport error.
- `wp_verify_nonce`, `sanitize_text_field`, `sanitize_email`, `sanitize_title`, `esc_url_raw`, `absint`, `is_email` and `has_term`: WordPress functions whose definitions are not part of this model; they are arbitrary functions passed in, and properties that need something of them say so in their requires. A missing `product_id` is taken as `absint(0)`, that is 0.
- `time()` and the two `current_time('mysql')` readings: parameters.
- `wp_insert_post`'s failure causes: every failure is the `dbFails` parameter, and the call returns 0 for it, as it does without `$wp_error`.
- The database: only `vwl_entry` posts are held, post type and status are implicit, trashing and deleting entries are not modelled, and the meta query compares exactly (a case-insensitive column collation is not modelled).
- Concurrency: two simultaneous identical submissions can both pass the duplicate lookup before either inserts; the model is sequential.
- Settings keys other than the six the plugin knows are never read and are dropped on saving, so the settings blob is a map over those six keys.
- PHP details: posted values that are arrays rather than strings, notices for missing array keys, and the `?? ''`/`?? 0` defaults inside the payload (lines 519-526), which never apply because the handler always passes every key. `wishlist_id` and `error.message` are taken to be strings, and the status code a natural number.

## Findings

| source | as written | input that shows it | evidently intended | confidence | as-written member | corrected member |
|---|---|---|---|---|---|---|
| victoria-waitlist-lite.php:461-469 | `wp_insert_post` is called without `$wp_error`, so a failed insert returns 0, `is_wp_error(0)` is false, the ten `update_post_meta(0, …)` calls write nothing, `sync_to_api(0, …)` still sends the request, and the customer is told "¡Listo!…" | a valid submission for a new (product, email) pair while the database refuses the insert | reply "Error al guardar. Intenta de nuevo." and stop, as the `is_wp_error` branch does | high; not executed | Intake.HandleSubmissionAsWritten | Intake.HandleSubmission |
