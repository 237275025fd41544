/** Small shared vocabulary: nullable values and C#'s null-or-empty test on strings. */
module Base {

  /** A value that may be absent; stands for a C# reference that may be null. */
  datatype Option<+T> = None | Some(value: T)

  /** `string.IsNullOrEmpty` on a nullable string. */
  predicate IsNullOrEmpty(s: Option<string>)
  {
    s.None? || s.value == []
  }

  /** `s.Length` in C#: the number of UTF-16 code units of `s`. A character
      outside the Basic Multilingual Plane is a surrogate pair, two units. */
  function Utf16Length(s: string): (n: nat)
    ensures |s| <= n <= 2 * |s|
    ensures n == |s| <==> forall i :: 0 <= i < |s| ==> s[i] as int <= 0xFFFF
  {
    if s == [] then 0
    else
      var prev := s[..|s| - 1];
      assert forall i :: 0 <= i < |prev| ==> prev[i] == s[i];
      Utf16Length(prev) + (if s[|s| - 1] as int > 0xFFFF then 2 else 1)
  }

  /** The UTF-16 length of a concatenation is the sum of the lengths, so the
      count is fixed by what each single character contributes. */
  lemma {:induction false} Utf16LengthAppend(a: string, b: string)
    ensures Utf16Length(a + b) == Utf16Length(a) + Utf16Length(b)
  {
    if b == [] {
      assert a + b == a;
    } else {
      var b' := b[..|b| - 1];
      Utf16LengthAppend(a, b');
      assert (a + b)[..|a + b| - 1] == a + b';
      assert (a + b)[|a + b| - 1] == b[|b| - 1];
    }
  }

  /** A single character outside the Basic Multilingual Plane (U+1F3AE) has
      length 2 in C#, while a BMP character such as 'x' has length 1. */
  lemma Utf16LengthExample()
    ensures Utf16Length("\U{1F3AE}") == 2
    ensures Utf16Length("x\U{1F3AE}") == 3
  {
    assert "x\U{1F3AE}"[..1] == "x";
  }

  /** Concatenation regroups freely; stated once so that long proofs about
      concatenated text need not rediscover it. */
  lemma AppendAssoc<T>(a: seq<T>, b: seq<T>, c: seq<T>)
    ensures (a + b) + c == a + (b + c)
  {
  }

  /** The null-coalescing `s ?? ""`. */
  function OrEmpty(s: Option<string>): string
  {
    if s.Some? then s.value else ""
  }
}
