/** Failure-carrying results shared by every module of the model.
    Python exceptions of the modelled code become `Err` values; the kind of
    exception is kept in `Fault` so that callers can tell the cases apart. */
module Outcomes {

  datatype Option<+T> = None | Some(value: T)

  /** The exceptions the modelled code can raise, one constructor per cause. */
  datatype Fault =
    | MissingArtifact                          // joblib.load of an absent or unreadable file
    | FeatureCount(got: nat, expected: nat)    // scikit-learn's fitted-width check on X
    | MissingKey(key: string)                  // KeyError on a dict lookup
    | NotNumeric(text: string)                 // float() / int() rejected its argument
    | NotText(key: string)                     // a text column held a number
    | UnseenLabel(value: string)               // LabelEncoder.transform of an unknown label
    | EmptySequence                            // max() or argmax() of an empty sequence
    | IndexOutOfRange(index: nat)              // IndexError
    | TooFewSamples(n: nat)                    // train_test_split left a side empty
    | Unstratifiable                           // a stratified split found a class too small to share
    | InvalidDate(text: string)                // a DateField lookup could not read the text as a date
    | SingleClass                              // LogisticRegression.fit saw only one class
    | NotUnique(value: string)                 // IntegrityError on a unique column

  datatype Result<+T> = Ok(value: T) | Err(fault: Fault) {

    predicate IsFailure() {
      Err?
    }

    function PropagateFailure<U>(): Result<U>
      requires Err?
    {
      Err(fault)
    }

    function Extract(): T
      requires Ok?
    {
      value
    }
  }

  /** Python's `x if x is not None else d` over an optional value. */
  function OrElse<T>(o: Option<T>, d: T): T {
    match o
    case Some(v) => v
    case None => d
  }
}
