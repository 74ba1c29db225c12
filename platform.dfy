/** The WordPress and PHP library functions the plugin calls but does not
    define. Their definitions are not part of this model, so each is an
    arbitrary total function supplied by the caller; every property proved
    about the plugin holds whatever they compute. */
module Platform {

  datatype Platform = Platform(
    /** `wp_verify_nonce($nonce, $action)`. */
    verifyNonce: (string, string) -> bool,
    /** `sanitize_text_field`. */
    sanitizeTextField: string -> string,
    /** `sanitize_email`. */
    sanitizeEmail: string -> string,
    /** `sanitize_title`. */
    sanitizeTitle: string -> string,
    /** `esc_url_raw`. */
    escUrlRaw: string -> string,
    /** `absint` applied to a posted string. */
    absint: string -> nat,
    /** `is_email`. */
    isEmail: string -> bool,
    /** `hash_hmac('sha256', $data, $key)`, lower-case hex. */
    hmacSha256: (string, string) -> string,
    /** `has_term($slug, 'product_cat', $productId)`. */
    hasTerm: (string, nat) -> bool
  )
}
