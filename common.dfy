/** Shared vocabulary of the ledger model: optional request fields, the kinds of
    answer a handler gives, and the object-storage upload seen from outside. */
module Common {

  /** Row identifiers. Fresh ones come from the ledger's identifier oracle,
      which stands for `uuidv4`. */
  type Id = nat

  datatype Option<+T> = None | Some(value: T)

  /** The status a handler answers with: success (201/200) with a payload,
      400, 404 or 500. Response bodies and messages are not modelled. */
  datatype Response<+T> = Ok(value: T) | BadRequest | NotFound | Internal

  /** What handing a file to object storage gives back: a URL, or a thrown
      error. */
  datatype Upload = Uploaded(url: string) | UploadFailed

  /** A request text field that JavaScript treats as truthy: present and not
      the empty string. */
  predicate GivenText(s: Option<string>)
  {
    s.Some? && s.value != ""
  }

  /** A request number field that JavaScript treats as truthy: present and
      not zero. */
  predicate GivenNumber(x: Option<real>)
  {
    x.Some? && x.value != 0.0
  }

  /** The `x ?? 0` default for a number that may be null. */
  function OrZero(x: Option<real>): real
  {
    if x.Some? then x.value else 0.0
  }
}
