/**
 * The payload types the service parses response bodies into. Their fields
 * are whatever the JSON deserialiser fills in; the model never looks inside.
 */
module Models {

  /** The answer to a pushed authorisation request (`request_uri`, `expires_in`). */
  type PushedAuthorisation

  /** A token endpoint answer. */
  type Token

  /** A token introspection answer. */
  type Introspection

  /** A user-info answer. */
  type UserInfo
}
