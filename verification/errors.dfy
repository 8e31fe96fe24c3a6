/**
 * The outcome of a Python call that may raise: the two built-in
 * exceptions the core can raise on well-typed input are `KeyError`
 * (a missing dictionary key) and `IndexError` (indexing past a string);
 * `ParseFailure` stands for whatever exception the markup parser raises
 * on the file at `path`.
 */
module Outcome {

  datatype Option<T> = None | Some(value: T)

  datatype PyError = KeyError(key: string) | IndexError | ParseFailure(path: string)

  datatype Result<T> = Ok(value: T) | Raise(error: PyError)
}
