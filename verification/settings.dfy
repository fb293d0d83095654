/**
 * The relay's configuration. The running program reads three environment
 * variables once at start-up; here they form one immutable record that every
 * handler receives as a parameter.
 */
module Settings {

  /** Base of the platform's Graph API that enrichment requests go to. */
  const GraphBase: string := "https://graph.facebook.com/v21.0"

  /** The field selection every enrichment request asks for. */
  const GraphFields: string := "id,status,title,description,permalink_url,creation_time"

  /** The verify token used when `FB_VERIFY_TOKEN` is not set in the environment. */
  const DefaultVerifyToken: string := "your-verify-token"

  /**
   * `verifyToken` is the shared handshake secret, `pageAccessToken` the Graph
   * API credential (empty when unset) and `forwardUrl` the automation endpoint
   * payloads are posted to (empty when unset).
   */
  datatype Config = Config(verifyToken: string, pageAccessToken: string, forwardUrl: string)
}
