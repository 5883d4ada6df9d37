/** Small value wrappers shared by every module of the model. */
module Common {

  /** A value that may be absent: Python's `None` versus a present value. */
  datatype Option<+T> = None | Some(value: T) {
    function GetOr(default: T): T {
      match this
      case Some(v) => v
      case None => default
    }
  }

  /** The outcome of an operation that can raise: a value, or the error raised. */
  datatype Result<+T, +E> = Ok(value: T) | Err(error: E)

  /** Python's `sub in s` on strings: `sub` occurs as a contiguous substring of `s`. */
  predicate Contains(s: string, sub: string) {
    exists i | 0 <= i <= |s| - |sub| :: OccursAt(s, sub, i)
  }

  /** `sub` occurs in `s` starting at index `i`. */
  predicate OccursAt(s: string, sub: string, i: int) {
    0 <= i <= |s| - |sub| && s[i..i + |sub|] == sub
  }

  lemma ContainsPrefix(sub: string, rest: string)
    ensures Contains(sub + rest, sub)
  {
    assert (sub + rest)[0..|sub|] == sub;
    assert OccursAt(sub + rest, sub, 0);
  }

  lemma ContainsSuffix(head: string, s: string, sub: string)
    requires Contains(s, sub)
    ensures Contains(head + s, sub)
  {
    var k :| 0 <= k <= |s| - |sub| && OccursAt(s, sub, k);
    assert (head + s)[|head| + k..|head| + k + |sub|] == s[k..k + |sub|];
    assert OccursAt(head + s, sub, |head| + k);
  }
}
