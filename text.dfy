/** The string operations the searches use, on ASCII text. */
module Text {

  /** `c.toLowerCase()` for ASCII characters. */
  function LowerChar(c: char): char {
    if 'A' <= c <= 'Z' then (c as int + 32) as char else c
  }

  /** `s.toLowerCase()` for ASCII text. */
  function ToLower(s: string): (r: string)
    ensures |r| == |s|
    ensures forall i :: 0 <= i < |s| ==> r[i] == LowerChar(s[i])
  {
    seq(|s|, i requires 0 <= i < |s| => LowerChar(s[i]))
  }

  /** `s.includes(sub)`: `sub` occurs in `s` as a contiguous block. */
  predicate Includes(s: string, sub: string)
    decreases |s|
  {
    |sub| <= |s| && (s[..|sub|] == sub || Includes(s[1..], sub))
  }

  /** `sub` occurs in `s` starting at position `i`. */
  predicate OccursAt(s: string, sub: string, i: int) {
    0 <= i <= |s| - |sub| && s[i..i + |sub|] == sub
  }

  /** `Includes` holds exactly when `sub` occurs at some position of `s`. */
  lemma {:induction false} IncludesIff(s: string, sub: string)
    ensures Includes(s, sub) <==> exists i :: OccursAt(s, sub, i)
  {
    if |sub| <= |s| {
      if s[..|sub|] != sub {
        IncludesIff(s[1..], sub);
        if Includes(s[1..], sub) {
          var i :| OccursAt(s[1..], sub, i);
          assert s[i + 1..i + 1 + |sub|] == sub;
          assert OccursAt(s, sub, i + 1);
        } else {
          forall i | OccursAt(s, sub, i) ensures false {
            if i > 0 {
              TailSlice(s, i, |sub|);
              assert OccursAt(s[1..], sub, i - 1);
            }
          }
        }
      } else {
        assert OccursAt(s, sub, 0);
      }
    }
  }

  /** A block of `s` past its first character is the same block of `s[1..]`, one position earlier. */
  lemma TailSlice(s: string, i: int, n: int)
    requires 1 <= i && 0 <= n && i + n <= |s|
    ensures s[1..][i - 1..i - 1 + n] == s[i..i + n]
  {
    var t := s[1..][i - 1..i - 1 + n];
    assert |t| == n;
    forall k | 0 <= k < n ensures t[k] == s[i + k] {
    }
  }

  /** The empty string occurs in every string, so an empty query matches everything. */
  lemma EmptyIncluded(s: string)
    ensures Includes(s, "")
  {
    IncludesIff(s, "");
    assert OccursAt(s, "", 0);
  }

  /** Case-insensitive substring test: `s.toLowerCase().includes(q.toLowerCase())`. */
  predicate ContainsIgnoringCase(s: string, q: string) {
    Includes(ToLower(s), ToLower(q))
  }

  /** An empty query is contained in every text. */
  lemma EmptyQueryMatches(s: string)
    ensures ContainsIgnoringCase(s, "")
  {
    EmptyIncluded(ToLower(s));
  }

  /** JavaScript's `s || fallback` on a string: the empty string is the only falsy one. */
  function OrElse(s: string, fallback: string): (r: string)
    ensures s != "" ==> r == s
    ensures s == "" ==> r == fallback
  {
    if s == "" then fallback else s
  }
}
