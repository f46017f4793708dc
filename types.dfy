/** Values shared by every part of the model: Go's optional and error values, and the
    predicates of Go's `strings` package that the program uses. */
module Types {

  datatype Option<+T> = None | Some(value: T)

  /** A Go `(value, error)` pair where exactly one side is meaningful. */
  datatype Result<+T> = Ok(value: T) | Err(error: Error)

  /** A Go `error`. An `AwsError` is an `awserr.Error`: it carries the code that the
      fallback in `main` switches on. Every other error (one built by `fmt.Errorf`, one
      from `url.Parse`) is known to the program only by its text. */
  datatype Error =
    | AwsError(code: string, message: string)
    | GenericError(message: string)

  /** The code S3 gives an error about a key that names no object (`s3.ErrCodeNoSuchKey`). */
  const NoSuchKey: string := "NoSuchKey"

  /** `strings.HasPrefix` */
  predicate HasPrefix(s: string, prefix: string) {
    |prefix| <= |s| && s[..|prefix|] == prefix
  }

  /** `strings.HasSuffix` */
  predicate HasSuffix(s: string, suffix: string) {
    |suffix| <= |s| && s[|s| - |suffix|..] == suffix
  }

  /** `t` occurs somewhere inside `s`. */
  predicate Contains(s: string, t: string) {
    exists i :: 0 <= i <= |s| && HasPrefix(s[i..], t)
  }

  /** The text `%v` prints for an error: `awserr` formats its errors as "code: message". */
  function Text(e: Error): string {
    match e
    case AwsError(code, message) => code + ": " + message
    case GenericError(message) => message
  }

  /** The error is an `awserr.Error` whose `Code()` is `NoSuchKey`. */
  predicate IsNoSuchKey(e: Error) {
    e.AwsError? && e.code == NoSuchKey
  }
}
