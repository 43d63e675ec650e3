/** An optional value.  The library signals "no answer" in two ways that the model
    keeps apart from real answers: an empty result string, and a NaN produced by
    dividing zero by zero.  Both become `None`. */
module Maybe {

  datatype Option<+T> = None | Some(value: T)
}
