/** The entry store: WordPress posts of type `vwl_entry` with their post
    meta. Posts are kept in a map from post id to title and meta; ids come
    from an auto-increment counter. Only the operations the plugin uses are
    modelled: `wp_insert_post`, `update_post_meta` and the duplicate query
    `get_posts` with a meta query on `_product_id` and `_customer_email`. */
module Entries {
  import opened Php

  /** The sanitised fields of one submission (the `$data` array handed to
      the sync step and the snapshot stored on the entry). */
  datatype Submission = Submission(
    productId: nat,
    productName: string,
    productSku: string,
    productPrice: string,
    productImage: string,
    customerName: string,
    customerEmail: string,
    customerPhone: string
  )

  /** The post meta keys the plugin writes. */
  datatype MetaKey =
    | ProductIdKey        // _product_id
    | ProductNameKey      // _product_name
    | ProductSkuKey       // _product_sku
    | ProductPriceKey     // _product_price
    | ProductImageKey     // _product_image
    | CustomerNameKey     // _customer_name
    | CustomerEmailKey    // _customer_email
    | CustomerPhoneKey    // _customer_phone
    | SyncStatusKey       // _sync_status
    | CreatedAtKey        // _created_at
    | SyncedAtKey         // _synced_at
    | SyncErrorKey        // _sync_error
    | RemoteIdKey         // _victorianexus_id

  datatype MetaValue = Num(n: nat) | Text(s: string)

  datatype Post = Post(title: string, meta: map<MetaKey, MetaValue>)

  const Pending := "pending"
  const Synced := "synced"
  const Failed := "error"

  /** The four meta keys the sync step may write; every other key is set once,
      at creation. */
  predicate IsSyncKey(k: MetaKey) {
    k == SyncStatusKey || k == SyncedAtKey || k == SyncErrorKey || k == RemoteIdKey
  }

  /** `sprintf('%s - %s', $customer_name, $product_name)`: the customer's
      name, a spaced dash, then the product's name. */
  function EntryTitle(s: Submission): (t: string)
    ensures |t| == |s.customerName| + 3 + |s.productName|
    ensures t[..|s.customerName|] == s.customerName
    ensures t[|s.customerName|..|s.customerName| + 3] == " - "
    ensures t[|s.customerName| + 3..] == s.productName
  {
    s.customerName + " - " + s.productName
  }

  /** The meta a freshly created entry holds: the eight snapshot fields, the
      `pending` status and the creation time, written in this order. It holds
      exactly those ten keys, gives back the submission as its snapshot, and
      has no sync time, error or remote id yet. */
  function NewEntryMeta(s: Submission, createdAt: string): (r: map<MetaKey, MetaValue>)
    ensures forall k :: k in r <==> !IsSyncKey(k) || k == SyncStatusKey
    ensures SnapshotOf(r) == Some(s)
    ensures SyncStatusKey in r && r[SyncStatusKey] == Text(Pending)
    ensures CreatedAtKey in r && r[CreatedAtKey] == Text(createdAt)
  {
    map[][ProductIdKey := Num(s.productId)]
         [ProductNameKey := Text(s.productName)]
         [ProductSkuKey := Text(s.productSku)]
         [ProductPriceKey := Text(s.productPrice)]
         [ProductImageKey := Text(s.productImage)]
         [CustomerNameKey := Text(s.customerName)]
         [CustomerEmailKey := Text(s.customerEmail)]
         [CustomerPhoneKey := Text(s.customerPhone)]
         [SyncStatusKey := Text(Pending)]
         [CreatedAtKey := Text(createdAt)]
  }

  /** The snapshot a well-formed entry holds. */
  function SnapshotOf(meta: map<MetaKey, MetaValue>): Option<Submission> {
    if && ProductIdKey in meta && meta[ProductIdKey].Num?
       && ProductNameKey in meta && meta[ProductNameKey].Text?
       && ProductSkuKey in meta && meta[ProductSkuKey].Text?
       && ProductPriceKey in meta && meta[ProductPriceKey].Text?
       && ProductImageKey in meta && meta[ProductImageKey].Text?
       && CustomerNameKey in meta && meta[CustomerNameKey].Text?
       && CustomerEmailKey in meta && meta[CustomerEmailKey].Text?
       && CustomerPhoneKey in meta && meta[CustomerPhoneKey].Text?
    then Some(Submission(
      meta[ProductIdKey].n, meta[ProductNameKey].s, meta[ProductSkuKey].s, meta[ProductPriceKey].s,
      meta[ProductImageKey].s, meta[CustomerNameKey].s, meta[CustomerEmailKey].s, meta[CustomerPhoneKey].s))
    else None
  }

  /** An entry as the plugin leaves it: the full snapshot, a creation time, a
      status among pending, synced and error, a sync time when synced and an
      error message when in error. */
  predicate WellFormed(meta: map<MetaKey, MetaValue>) {
    && SnapshotOf(meta).Some?
    && CreatedAtKey in meta
    && SyncStatusKey in meta
    && meta[SyncStatusKey] in {Text(Pending), Text(Synced), Text(Failed)}
    && (meta[SyncStatusKey] == Text(Synced) ==> SyncedAtKey in meta)
    && (meta[SyncStatusKey] == Text(Failed) ==> SyncErrorKey in meta)
  }

  /** A freshly created entry is well formed. */
  lemma NewEntryWellFormed(s: Submission, createdAt: string)
    ensures WellFormed(NewEntryMeta(s, createdAt))
  {
  }

  /** A new entry is found by the duplicate query for its own pair. */
  lemma NewEntryMatches(title: string, s: Submission, createdAt: string)
    ensures Matches(Post(title, NewEntryMeta(s, createdAt)), s.productId, s.customerEmail)
  {
  }

  /** The meta query of the duplicate check: `_product_id` equals the product
      id and `_customer_email` equals the email, exactly. */
  predicate Matches(post: Post, productId: nat, email: string) {
    && ProductIdKey in post.meta && post.meta[ProductIdKey] == Num(productId)
    && CustomerEmailKey in post.meta && post.meta[CustomerEmailKey] == Text(email)
  }

  predicate HasEntry(posts: map<nat, Post>, productId: nat, email: string) {
    exists id :: id in posts && Matches(posts[id], productId, email)
  }

  /** Two posts are entries for the same (product, email) pair. */
  predicate SameKey(a: Post, b: Post) {
    && ProductIdKey in a.meta && CustomerEmailKey in a.meta
    && ProductIdKey in b.meta && CustomerEmailKey in b.meta
    && a.meta[ProductIdKey] == b.meta[ProductIdKey]
    && a.meta[CustomerEmailKey] == b.meta[CustomerEmailKey]
  }

  /** Two posts carry the same product id and email meta, present or not. */
  predicate SameKeyAs(a: Post, b: Post) {
    && (ProductIdKey in a.meta <==> ProductIdKey in b.meta)
    && (CustomerEmailKey in a.meta <==> CustomerEmailKey in b.meta)
    && (ProductIdKey in a.meta ==> a.meta[ProductIdKey] == b.meta[ProductIdKey])
    && (CustomerEmailKey in a.meta ==> a.meta[CustomerEmailKey] == b.meta[CustomerEmailKey])
  }

  /** At most one entry per (product, email) pair. */
  predicate Unique(posts: map<nat, Post>) {
    forall i, j :: i in posts && j in posts && i != j ==> !SameKey(posts[i], posts[j])
  }

  /** The store invariant the intake pipeline maintains. */
  predicate StoreInvariant(posts: map<nat, Post>) {
    && Unique(posts)
    && forall id :: id in posts ==> WellFormed(posts[id].meta)
  }

  /** Adding an entry for a pair that has no entry yet keeps the store free
      of duplicates. */
  lemma AddFreshKeepsUnique(posts: map<nat, Post>, id: nat, post: Post, productId: nat, email: string)
    requires Unique(posts)
    requires id !in posts
    requires Matches(post, productId, email)
    requires !HasEntry(posts, productId, email)
    ensures Unique(posts[id := post])
  {
  }

  /** The posts after setting one meta key of one post. */
  function WithMeta(posts: map<nat, Post>, id: nat, key: MetaKey, value: MetaValue): (r: map<nat, Post>)
    requires id in posts
    ensures r.Keys == posts.Keys
    ensures r[id].title == posts[id].title && r[id].meta == posts[id].meta[key := value]
    ensures forall j :: j in posts && j != id ==> r[j] == posts[j]
  {
    posts[id := Post(posts[id].title, posts[id].meta[key := value])]
  }

  /** Successive meta writes on one post accumulate in its meta map. */
  lemma WithMetaOnPost(posts: map<nat, Post>, id: nat, title: string, meta: map<MetaKey, MetaValue>, key: MetaKey, value: MetaValue)
    ensures WithMeta(posts[id := Post(title, meta)], id, key, value) == posts[id := Post(title, meta[key := value])]
  {
  }

  /** A later write of a post replaces an earlier one. */
  lemma OverwritePost(posts: map<nat, Post>, id: nat, first: Post, second: Post)
    ensures posts[id := first][id := second] == posts[id := second]
  {
  }

  /** `wp_insert_post` and `update_post_meta` over the `vwl_entry` posts. */
  class Store {
    var posts: map<nat, Post>
    /** The last id handed out; ids are positive and never reused. */
    var lastId: nat

    ghost predicate Valid()
      reads this
    {
      forall id :: id in posts ==> 0 < id <= lastId
    }

    constructor ()
      ensures Valid() && posts == map[] && lastId == 0
    {
      posts := map[];
      lastId := 0;
    }

    /** `wp_insert_post` called without `$wp_error`: on success the id of a
        new post with the given title and no meta, an id no existing post
        has; when the database rejects the write (`dbFails`) it returns 0 and
        changes nothing. */
    method Insert(title: string, dbFails: bool) returns (id: nat)
      requires Valid()
      modifies this
      ensures Valid()
      ensures dbFails ==> id == 0 && posts == old(posts) && lastId == old(lastId)
      ensures !dbFails ==> && id == lastId && 0 < id && id !in old(posts)
                           && posts == old(posts)[id := Post(title, map[])]
    {
      if dbFails {
        return 0;
      }
      lastId := lastId + 1;
      posts := posts[lastId := Post(title, map[])];
      id := lastId;
    }

    /** `update_post_meta($id, $key, $value)`: sets one meta key of one post
        and nothing else; for post id 0 it writes nothing. */
    method UpdateMeta(id: nat, key: MetaKey, value: MetaValue)
      requires Valid() && (id == 0 || id in posts)
      modifies this
      ensures Valid() && lastId == old(lastId)
      ensures id == 0 ==> posts == old(posts)
      ensures id != 0 ==> posts == WithMeta(old(posts), id, key, value)
    {
      if id != 0 {
        posts := posts[id := Post(posts[id].title, posts[id].meta[key := value])];
      }
    }

    /** The duplicate query: an entry for the pair when there is one, and
        `None` only when no entry matches. */
    method FindEntry(productId: nat, email: string) returns (found: Option<nat>)
      ensures found.Some? ==> found.value in posts && Matches(posts[found.value], productId, email)
      ensures found.None? ==> !HasEntry(posts, productId, email)
    {
      if HasEntry(posts, productId, email) {
        var id :| id in posts && Matches(posts[id], productId, email);
        found := Some(id);
      } else {
        found := None;
      }
    }
  }
}
