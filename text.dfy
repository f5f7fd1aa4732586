/** Characters and the C-string conventions shared by the settings parser and printer. */
module Text {

  datatype Option<T> = None | Some(value: T)

  /** The C string terminator. */
  const NUL: char := 0 as char

  /** The character at index i of a NUL-terminated buffer holding s. */
  function Peek(s: string, i: nat): char
  {
    if i < |s| then s[i] else NUL
  }

  /** The buffer s holds m starting at index i. */
  predicate StartsWith(s: string, i: nat, m: string)
  {
    i + |m| <= |s| && s[i..i + |m|] == m
  }

  /** A buffer that holds a + b at i holds a at i and b right after it. */
  lemma StartsWithSplit(s: string, i: nat, a: string, b: string)
    requires StartsWith(s, i, a + b)
    ensures StartsWith(s, i, a) && StartsWith(s, i + |a|, b)
  {
    assert s[i..i + |a|] == s[i..i + |a + b|][..|a|];
    assert s[i + |a|..i + |a| + |b|] == s[i..i + |a + b|][|a|..];
  }

  /** A buffer that holds a line feed and `key=value` holds the line feed, the key and '=' and, right after, the value. */
  lemma LineSplit(s: string, i: nat, key: string, value: string)
    requires StartsWith(s, i, "\n" + (key + "=" + value))
    ensures StartsWith(s, i, "\n" + key + "=") && StartsWith(s, i + 2 + |key|, value)
  {
    assert "\n" + (key + "=" + value) == "\n" + key + "=" + value;
    StartsWithSplit(s, i, "\n" + key + "=", value);
  }

  /** What a buffer that holds v at i shows at i + k. */
  lemma PeekInside(s: string, i: nat, v: string, k: nat)
    requires StartsWith(s, i, v) && k < |v|
    ensures Peek(s, i + k) == v[k]
  {
    assert s[i..i + |v|][k] == s[i + k];
  }

  /** A buffer that differs from m at offset k does not hold m at i. */
  lemma MismatchMisses(s: string, i: nat, m: string, k: nat)
    requires k < |m| && Peek(s, i + k) != m[k]
    ensures !StartsWith(s, i, m)
  {
    if StartsWith(s, i, m) {
      PeekInside(s, i, m, k);
    }
  }

  predicate IsDigit(ch: char)
  {
    '0' <= ch <= '9'
  }

  /** Some position at or after k that both strings have holds different characters in them. */
  predicate Clash(a: string, b: string, k: nat)
    decreases |a| - k
  {
    k < |a| && k < |b| && (a[k] != b[k] || Clash(a, b, k + 1))
  }

  lemma {:induction false} ClashWitness(a: string, b: string, k: nat) returns (j: nat)
    requires Clash(a, b, k)
    ensures k <= j < |a| && j < |b| && a[j] != b[j]
    decreases |a| - k
  {
    if a[k] != b[k] {
      j := k;
    } else {
      j := ClashWitness(a, b, k + 1);
    }
  }

  /** A literal that clashes with b does not match a buffer that holds b at i. */
  lemma ClashMisses(a: string, b: string, s: string, i: nat)
    requires Clash(a, b, 0) && StartsWith(s, i, b)
    ensures !StartsWith(s, i, a)
  {
    var j := ClashWitness(a, b, 0);
    PeekInside(s, i, b, j);
    if StartsWith(s, i, a) {
      PeekInside(s, i, a, j);
    }
  }

  /** keys[0..i] all clash with `target`; unrolled one entry at a time on literal tables. */
  predicate ClashesBelow(keys: seq<string>, target: string, i: nat)
    requires i <= |keys|
    decreases i
  {
    i == 0 || (Clash(keys[i - 1], target, 0) && ClashesBelow(keys, target, i - 1))
  }

  lemma {:induction false} ClashesBelowAll(keys: seq<string>, target: string, i: nat)
    requires i <= |keys| && ClashesBelow(keys, target, i)
    ensures forall k | 0 <= k < i :: Clash(keys[k], target, 0)
  {
    if i > 0 {
      ClashesBelowAll(keys, target, i - 1);
    }
  }
}
