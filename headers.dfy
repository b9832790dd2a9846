/** `_get_header`: a case-insensitive lookup in the webhook's header dictionary. */
module Headers {
  import opened Common

  /** The header dictionary, as its `items()` in iteration order. */
  type HeaderMap = seq<(string, string)>

  /** `str.lower()` on one character, for the ASCII letters. */
  function LowerChar(c: char): char {
    if 'A' <= c <= 'Z' then (c as int + 32) as char else c
  }

  function Lower(s: string): string {
    seq(|s|, i requires 0 <= i < |s| => LowerChar(s[i]))
  }

  /** `k.lower() == key.lower()`. */
  predicate SameKey(k: string, key: string) {
    Lower(k) == Lower(key)
  }

  /** Reference definition of the search: the value under the first key that equals
      `key` ignoring case, or "" when none does. */
  function Lookup(hs: HeaderMap, key: string): string {
    if hs == [] then ""
    else if SameKey(hs[0].0, key) then hs[0].1
    else Lookup(hs[1..], key)
  }

  /** `_get_header(headers, key)`, where `None` stands for a `None` header dictionary. */
  function HeaderValue(headers: Option<HeaderMap>, key: string): string {
    if headers == None || headers == Some([]) then "" else Lookup(headers.value, key)
  }

  /** Entry `i` is the first one whose key matches. */
  predicate IsFirstMatch(hs: HeaderMap, key: string, i: int) {
    0 <= i < |hs| && SameKey(hs[i].0, key) && forall j :: 0 <= j < i ==> !SameKey(hs[j].0, key)
  }

  lemma {:induction false} LookupFindsFirstMatch(hs: HeaderMap, key: string, i: int)
    requires IsFirstMatch(hs, key, i)
    ensures Lookup(hs, key) == hs[i].1
  {
    if i > 0 {
      assert IsFirstMatch(hs[1..], key, i - 1) by {
        forall j | 0 <= j < i - 1 ensures !SameKey(hs[1..][j].0, key) {
          assert hs[1..][j] == hs[j + 1];
        }
      }
      LookupFindsFirstMatch(hs[1..], key, i - 1);
    }
  }

  lemma {:induction false} LookupWithoutMatch(hs: HeaderMap, key: string)
    requires forall j :: 0 <= j < |hs| ==> !SameKey(hs[j].0, key)
    ensures Lookup(hs, key) == ""
  {
    if hs != [] {
      LookupWithoutMatch(hs[1..], key);
    }
  }

  /** The source's loop over `headers.items()` with its early return. */
  method GetHeader(headers: Option<HeaderMap>, key: string) returns (v: string)
    ensures v == HeaderValue(headers, key)
  {
    if headers == None || headers == Some([]) {
      return "";
    }
    var hs := headers.value;
    var i := 0;
    while i < |hs|
      invariant 0 <= i <= |hs|
      invariant Lookup(hs[i..], key) == Lookup(hs, key)
    {
      var (k, value) := hs[i];
      if Lower(k) == Lower(key) {
        return value;
      }
      i := i + 1;
    }
    return "";
  }
}
