/**
 * The Python vocabulary the other modules share: optional values, the
 * exceptions that cross function boundaries in the shell, and the two string
 * tests the source relies on (`str.startswith` and `in` on strings).
 */
module Python {

  datatype Option<+T> = None | Some(value: T)

  /** The exceptions that the core raises, catches or lets escape. */
  datatype Exc =
    | SystemExit(code: int)          // raised by argparse: 0 after `-h`, non-zero otherwise
    | CommandError(message: string)  // the application's recoverable error; `str(e)` is `message`
    | Builtin(kind: string)          // any other exception, by its class name

  /** The result of a call that either returns a value or raises. */
  datatype Returns<+T> = Returned(value: T) | Raised(exc: Exc)

  /** `s.startswith(prefix)` */
  predicate StartsWith(s: string, prefix: string) {
    |prefix| <= |s| && s[..|prefix|] == prefix
  }

  /** `sub in s` for two strings */
  predicate Contains(s: string, sub: string)
    decreases |s|
  {
    StartsWith(s, sub) || (s != [] && Contains(s[1..], sub))
  }
}
