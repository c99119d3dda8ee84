/** Results and error kinds shared by every entity package.
    Each Go package (ngo, fundraiser, update) declares the same eight
    error-message variables; here they are one enumeration with one
    message function. */
module Outcomes {

  /** A value that may be absent: the outcome of decoding a request body. */
  datatype Option<+T> = None | Some(value: T)

  /** A Go `(*T, error)` pair: exactly one of the two is meaningful. */
  datatype Result<+T> = Ok(value: T) | Err(error: Error)

  datatype Error =
    | FailedToUnmarshalRecord
    | FailedToFetchRecord
    | InvalidUserData
    | CouldNotMarshalItem
    | CouldNotDeleteItem
    | CouldNotDynamoPutItem
    | UserAlreadyExists
    | UserDoesNotExist

  /** The text `errors.New` is given for each kind. */
  function Message(e: Error): string
  {
    match e
    case FailedToUnmarshalRecord => "failed to unmarshal record"
    case FailedToFetchRecord => "failed to fetch record"
    case InvalidUserData => "invalid user data"
    case CouldNotMarshalItem => "could not marshal item"
    case CouldNotDeleteItem => "could not delete item"
    case CouldNotDynamoPutItem => "could not dynamo put item error"
    case UserAlreadyExists => "user.User already exists"
    case UserDoesNotExist => "user.User does not exist"
  }

  /** A client reading only the message text can tell every error kind apart. */
  lemma MessageInjective(a: Error, b: Error)
    ensures Message(a) == Message(b) <==> a == b
  {
    if a != b {
      // The messages differ in length or in their first or eleventh character.
      var ma, mb := Message(a), Message(b);
      assert |ma| != |mb| || ma[0] != mb[0] || ma[10] != mb[10];
    }
  }
}
