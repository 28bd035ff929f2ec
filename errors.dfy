/**
 * Raised Python exceptions and the short form the request ledger stores for them
 * (extract_core_error_message, main.py).
 */
module Errors {
  import opened Wrappers

  /** A raised exception, seen through `type(e).__name__` and `str(e)`. */
  datatype PyException = PyException(typeName: string, message: string)

  function ValueError(message: string): PyException {
    PyException("ValueError", message)
  }

  function OverflowError(message: string): PyException {
    PyException("OverflowError", message)
  }

  /** `f"{type(e).__name__}: {str(e)}"`: the type name, then `": "`, then the message. */
  function CoreErrorMessage(e: PyException): (m: string)
    ensures |m| == |e.typeName| + 2 + |e.message|
    ensures m[..|e.typeName|] == e.typeName && m[|e.typeName| + 2..] == e.message
  {
    e.typeName + ": " + e.message
  }

  /** Index of the first occurrence of `c` in `s`, or -1. */
  function FirstIndexOf(s: string, c: char): (i: int)
    ensures -1 <= i < |s|
    ensures i == -1 ==> c !in s
    ensures 0 <= i ==> s[i] == c && c !in s[..i]
  {
    if s == [] then -1
    else if s[0] == c then 0
    else
      var j := FirstIndexOf(s[1..], c);
      if j < 0 then -1
      else
        assert s[..j + 1] == [s[0]] + s[1..][..j];
        j + 1
  }

  /** Reads a stored error message back: the text before the first ": " is the type name. */
  function ParseCoreError(m: string): Option<PyException> {
    var i := FirstIndexOf(m, ':');
    if 0 <= i && i + 1 < |m| && m[i + 1] == ' ' then Some(PyException(m[..i], m[i + 2..]))
    else None
  }

  /**
   * A Python class name is an identifier, so it holds no ':'; for such names the stored
   * message determines the exception's type name and message exactly.
   */
  lemma {:induction false} CoreErrorRoundTrip(e: PyException)
    requires ':' !in e.typeName
    ensures ParseCoreError(CoreErrorMessage(e)) == Some(e)
  {
    var m := CoreErrorMessage(e);
    var n := |e.typeName|;
    assert m[..n] == e.typeName;
    assert m[n] == ':' && m[n + 1] == ' ';
    assert m[n + 2..] == e.message;
    FirstIndexOfAt(m, ':', n);
  }

  lemma {:induction false} FirstIndexOfAt(s: string, c: char, k: nat)
    requires k < |s| && s[k] == c && c !in s[..k]
    ensures FirstIndexOf(s, c) == k
  {
    if k > 0 {
      assert s[0] in s[..k];
      assert s[1..][..k - 1] == s[1..k] && s[1..k] <= s[..k][1..];
      FirstIndexOfAt(s[1..], c, k - 1);
    }
  }
}
