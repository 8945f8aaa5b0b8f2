/** Shared result types, and the two string helpers the source leans on. */
module Common {

  datatype Option<+T> = None | Some(value: T)

  datatype Result<+T, +E> = Ok(value: T) | Err(error: E)

  /** `a or b`, on strings. */
  function FirstNonEmpty(a: string, b: string): string {
    if a != "" then a else b
  }

  /** The ASCII letters of a string in lower case. */
  function Lower(s: string): string {
    seq(|s|, i requires 0 <= i < |s| => if 'A' <= s[i] <= 'Z' then (s[i] as int + 32) as char else s[i])
  }
}
