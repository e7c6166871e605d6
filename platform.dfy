/** The WordPress platform as the plugin sees it: PHP-style error values,
    HTTP requests and responses, and the foreign functions the plugin calls
    but does not define, kept uninterpreted as fields of `Host`. */
module Platform {

  datatype Option<+T> = None | Some(value: T)

  /** A `WP_Error`: a machine code and a human-readable message. */
  datatype WpError = WpError(code: string, message: string)

  /** A value or a `WP_Error`, the `is_wp_error` branching of the source. */
  datatype Result<+T> = Ok(value: T) | Err(error: WpError)

  /** An outbound request as handed to `wp_remote_get`. `streamTo` is the
      file the body is streamed into, when the request streams. */
  datatype HttpRequest = HttpRequest(
    url: string,
    headers: map<string, string>,
    timeout: nat,
    streamTo: Option<string>)

  /** What `wp_remote_get` gives back: a transport-level `WP_Error`, or a
      response with its status code (after the `(int)` cast) and body. */
  datatype HttpResponse =
    | TransportError(error: WpError)
    | Response(code: int, body: string)

  /** The result of `wp_parse_url`: a missing component is the empty string. */
  datatype UrlParts = UrlParts(host: string, path: string)

  /** WordPress functions and request-scoped values that the plugin uses
      but does not define. */
  datatype Host = Host(
    parseUrl: string -> UrlParts,             // wp_parse_url
    escUrlRaw: string -> string,              // esc_url_raw
    sanitizeTextField: string -> string,      // sanitize_text_field
    sanitizeTitle: string -> string,          // sanitize_title
    versionGreater: (string, string) -> bool, // version_compare( $a, $b, '>' )
    wpVersion: string,                        // get_bloginfo( 'version' )
    homeUrl: string,                          // home_url()
    pluginFile: string,                       // plugin_basename( __FILE__ )
    installedVersion: Option<string>,         // get_plugin_data( __FILE__ )['Version']
    currentUserId: nat)                       // get_current_user_id()
  {
    /** The `User-Agent` header value the plugin sends on every GitHub request. */
    function UserAgent(): string {
      "WordPress/" + wpVersion + "; " + homeUrl
    }
  }
}
