/** Result and option types shared by every module of the model. */
module Common {

  datatype Option<+T> = None | Some(value: T)

  /** A call that returns, or raises the named error. */
  datatype Result<+T> = Ok(value: T) | Err(error: string)

  /** Names and operations: a lower-case letter, then at most 127 lower-case letters, digits and _.:- */
  predicate IsName(s: string) {
    && 1 <= |s| <= 128 && 'a' <= s[0] <= 'z'
    && forall i :: 0 <= i < |s| ==> 'a' <= s[i] <= 'z' || '0' <= s[i] <= '9' || s[i] in "_.:-"
  }

  predicate IsLowerHex(c: char) {
    '0' <= c <= '9' || 'a' <= c <= 'f'
  }

  predicate IsLowerHexText(s: string, n: nat) {
    |s| == n && forall i :: 0 <= i < n ==> IsLowerHex(s[i])
  }

  /** The written form of a SHA-256 digest. */
  predicate IsSha256(s: string) {
    IsLowerHexText(s, 64)
  }

  /** The microseconds of the years 1 to 9999, which is all the instants a datetime can hold. */
  const CALENDAR := 3_652_059 * 86_400_000_000

  predicate InCalendar(instant: int) {
    0 <= instant < CALENDAR
  }
}
