/** Small helpers over strings shared by the other modules. */
module Strings {

  datatype Option<+T> = None | Some(value: T)

  /** The position of the first occurrence of `c` in `s`. */
  function IndexOf(s: string, c: char): (k: nat)
    requires c in s
    ensures k < |s| && s[k] == c
    ensures forall j :: 0 <= j < k ==> s[j] != c
  {
    if s[0] == c then 0 else IndexOf(s[1..], c) + 1
  }

  /** What follows `prefix` in `s`, or None when `s` does not start with it. */
  function StripPrefix(s: string, prefix: string): (r: Option<string>)
    ensures r.Some? <==> prefix <= s
    ensures r.Some? ==> prefix + r.value == s
  {
    if prefix <= s then Some(s[|prefix|..]) else None
  }

  lemma StripPrefixJoin(prefix: string, rest: string)
    ensures StripPrefix(prefix + rest, prefix) == Some(rest)
  {
    assert (prefix + rest)[|prefix|..] == rest;
  }

  /** Splits `s` at its first `sep`: the part before it and the part after it. */
  function SplitOnce(s: string, sep: char): (r: Option<(string, string)>)
    ensures r.Some? <==> sep in s
    ensures r.Some? ==> r.value.0 + [sep] + r.value.1 == s && sep !in r.value.0
  {
    if sep in s then
      var k := IndexOf(s, sep);
      assert s == s[..k] + [sep] + s[k + 1..];
      Some((s[..k], s[k + 1..]))
    else None
  }

  lemma {:induction false} SplitOnceJoin(a: string, sep: char, b: string)
    requires sep !in a
    ensures SplitOnce(a + [sep] + b, sep) == Some((a, b))
  {
    var s := a + [sep] + b;
    assert s[|a|] == sep;
    var k := IndexOf(s, sep);
    assert k == |a|;
    assert s[..k] == a;
    assert s[k + 1..] == b;
  }
}
