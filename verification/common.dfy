/** Values shared by every part of the model: optional values, the error
    outcomes that stand for the Python exceptions the library raises, and
    Python's truthiness of an optional string. */
module Common {

  datatype Option<+T> = None | Some(value: T)

  /** The failed `assert` statements of the library, one per message. */
  datatype Reason =
    | StreetPartTooLong           // a part of a two-line street address exceeds 44 characters
    | StreetTooLong               // a one-line street address exceeds 88 characters
    | StreetSplitTooLong          // the second half of a split street address exceeds 44 characters
    | CityTooLong                 // a city exceeds 40 characters
    | PostalCodeRequired(country: string)
    | SenderCompanyRequired
    | SenderPhoneRequired
    | SenderAddressRequired
    | SenderCityRequired
    | SenderProvinceRequired
    | DestinationPhoneRequired(service: string)
    | DestinationAddressRequired
    | DestinationProvinceRequired
    | CustomsItemsRequired
    | CostCentreTooLong
    | CustomerRefTooLong(number: nat)
    | ContractNumberRequired

  /** The exceptions of the library, as values. */
  datatype Error =
    | Invalid(reason: Reason)          // AssertionError
    | MissingElement(path: string)     // `find(path)` gave None and `.text` was read from it (AttributeError)
    | MissingAttribute(name: string)   // an attribute the object never received (AttributeError)
    | MissingKey(key: string)          // KeyError on a dictionary
    | IndexOutOfRange                  // IndexError
    | InvalidDecimal(text: string)     // decimal.InvalidOperation
    | WrongType(message: string)       // TypeError

  datatype Result<+T> = Success(value: T) | Failure(error: Error) {
    predicate IsFailure() {
      Failure?
    }

    function PropagateFailure<U>(): Result<U>
      requires Failure?
    {
      Failure(error)
    }

    function Extract(): T
      requires Success?
    {
      value
    }
  }

  /** Python truthiness of an optional string: None and "" are false. */
  predicate Truthy(s: Option<string>) {
    s.Some? && s.value != ""
  }

  /** Python `unicode(x)` for an optional string: None becomes "None". */
  function Unicode(s: Option<string>): string {
    match s
    case None => "None"
    case Some(v) => v
  }
}
