/**
 * The `Dictionary<string, string>` of extra form fields each private-key-JWT
 * call fills with successive `Add` calls, and the record of the arguments
 * handed to `SendPrivateKeyJwtRequest`.
 */
module Forms {
  import opened Wrappers
  import opened Http

  /**
   * A form-field dictionary. The model keeps the entries in insertion
   * order; nothing in the service depends on that order.
   */
  class FormFields {
    var entries: seq<NameValue>

    /** A dictionary never holds one key twice. */
    ghost predicate Valid()
      reads this
    {
      DistinctNames(entries)
    }

    /** The empty dictionary `new Dictionary<string, string>()`. */
    constructor ()
      ensures Valid()
      ensures entries == []
    {
      entries := [];
    }

    /**
     * `Dictionary.Add`. It throws `ArgumentException` when the key is already
     * present; the model makes "the key is absent" the caller's obligation,
     * so every verified call site is one whose `Add` cannot throw.
     */
    method Add(name: string, value: string)
      requires Valid()
      requires name !in Names(entries)
      modifies this
      ensures Valid()
      ensures entries == old(entries) + [NameValue(name, value)]
    {
      AppendKeepsNamesDistinct(entries, NameValue(name, value));
      entries := entries + [NameValue(name, value)];
    }
  }

  /**
   * The arguments of one `SendPrivateKeyJwtRequest` call: the client it is
   * sent on, the endpoint, the client id and signing certificate used for
   * the client assertion, the scope, the grant type when the caller passes
   * one (`None`: the sender's own default applies) and the extra form fields.
   */
  datatype PrivateKeyJwtRequest = PrivateKeyJwtRequest(
    channel: HttpChannel,
    endpoint: string,
    clientId: string,
    signingCertificate: Certificate,
    scope: string,
    grantType: Option<string>,
    additionalFormFields: seq<NameValue>)

  /** The sender and the server behind it, taken as given. */
  type PrivateKeyJwtSender = PrivateKeyJwtRequest -> HttpResponse
}
