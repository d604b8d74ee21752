/** Vocabulary shared by the client's modules: optional values, the ESP-IDF
    error codes the client returns, and the two C character classes that the
    JSON scanners consult (`isspace` and `strchr(" \"[]{}", c)`). */
module Common {

  datatype Option<T> = None | Some(value: T)

  /** `ESP_OK` and `ESP_FAIL` from `esp_err.h`. */
  const EspOk: int := 0
  const EspFail: int := -1

  /** HTTP status codes the client branches on (RFC 9110 sections 15.3.1,
      15.3.5, 15.5.2 and 15.5.4). */
  const StatusOk: int := 200
  const StatusNoContent: int := 204
  const StatusUnauthorized: int := 401
  const StatusForbidden: int := 403

  /** `isspace` in the C locale: space, tab, line feed, vertical tab, form
      feed and carriage return. */
  predicate IsSpace(c: char) {
    c == ' ' || c == '\t' || c == '\n' || c == '\r' || c == '\U{000B}' || c == '\U{000C}'
  }

  /** Whether `strchr(" \"[]{}", c)` returns non-NULL. `strchr` also finds the
      string's terminating NUL, so the NUL character counts as structural. */
  predicate Structural(c: char) {
    c == ' ' || c == '"' || c == '[' || c == ']' || c == '{' || c == '}' || c == '\0'
  }

  /** `n` copies of `x`. */
  function Repeat<T>(x: T, n: nat): (r: seq<T>)
    ensures |r| == n && forall k :: 0 <= k < n ==> r[k] == x
  {
    if n == 0 then [] else Repeat(x, n - 1) + [x]
  }
}
