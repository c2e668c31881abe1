/**
 The two JavaScript string methods the service worker relies on,
 `String.prototype.startsWith` and `String.prototype.includes`, on
 strings modelled as sequences of characters.
 */
module JsString {

  /** `s.startsWith(prefix)`: compares character by character. */
  function StartsWith(s: string, prefix: string): (r: bool)
    ensures r <==> prefix <= s
  {
    if prefix == [] then true
    else if s == [] then false
    else s[0] == prefix[0] && StartsWith(s[1..], prefix[1..])
  }

  /** `needle` occurs in `s` starting at position `i`. */
  ghost predicate OccursAt(s: string, needle: string, i: int)
  {
    0 <= i <= |s| && needle <= s[i..]
  }

  /** `s.includes(needle)`: tries every start position from left to right. */
  function Includes(s: string, needle: string): bool
    decreases |s|
  {
    if StartsWith(s, needle) then true
    else if s == [] then false
    else Includes(s[1..], needle)
  }

  /** `includes` holds exactly when the needle occurs at some position. */
  lemma {:induction false} IncludesIff(s: string, needle: string)
    ensures Includes(s, needle) <==> exists i :: OccursAt(s, needle, i)
    decreases |s|
  {
    assert s[0..] == s;
    if StartsWith(s, needle) {
      assert OccursAt(s, needle, 0);
    } else if s == [] {
      assert forall i :: OccursAt(s, needle, i) ==> i == 0;
    } else {
      IncludesIff(s[1..], needle);
      if Includes(s[1..], needle) {
        var j :| OccursAt(s[1..], needle, j);
        assert s[1..][j..] == s[j + 1..];
        assert OccursAt(s, needle, j + 1);
      } else {
        forall i | OccursAt(s, needle, i) ensures OccursAt(s[1..], needle, i - 1) {
          assert s[1..][i - 1..] == s[i..];
        }
      }
    }
  }

  /** A needle whose first character the string lacks never occurs in it. */
  lemma FirstCharAbsent(s: string, needle: string)
    requires needle != [] && needle[0] !in s
    ensures !Includes(s, needle)
  {
    IncludesIff(s, needle);
  }

  /** Joining two strings that lack the needle gives one that lacks it, when
      the second starts with a character the needle does not contain: no
      occurrence can straddle the join. */
  lemma ConcatExcludes(a: string, b: string, needle: string)
    requires !Includes(a, needle) && !Includes(b, needle)
    requires b != [] && b[0] !in needle
    ensures !Includes(a + b, needle)
  {
    IncludesIff(a, needle);
    IncludesIff(b, needle);
    IncludesIff(a + b, needle);
    var s, n := a + b, |needle|;
    forall i | 0 <= i <= |s| ensures !(needle <= s[i..]) {
      if |s| - i >= n {
        if i + n <= |a| {
          assert s[i..][..n] == a[i..][..n];
          assert !OccursAt(a, needle, i);
        } else if i >= |a| {
          assert s[i..] == b[i - |a|..];
          assert !OccursAt(b, needle, i - |a|);
        } else {
          assert s[i..][|a| - i] == b[0];
          assert needle[|a| - i] in needle;
        }
      }
    }
  }
}
