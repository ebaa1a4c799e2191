/** The string operations the catalog relies on: lower- and upper-casing
    (restricted to ASCII letters) and substring containment, the behaviour
    of JavaScript's `toLowerCase`, `toUpperCase` and `includes`. */
module Text {

  /** Lower-casing of one character: ASCII 'A'..'Z' map to 'a'..'z', every
      other character is left as it is. */
  function Lower(ch: char): (r: char)
    ensures 'A' <= ch <= 'Z' ==> 'a' <= r <= 'z' && r as int - ch as int == 32
    ensures !('A' <= ch <= 'Z') ==> r == ch
  {
    if 'A' <= ch <= 'Z' then (ch as int + 32) as char else ch
  }

  /** Upper-casing of one character: ASCII 'a'..'z' map to 'A'..'Z'. */
  function Upper(ch: char): (r: char)
    ensures 'a' <= ch <= 'z' ==> 'A' <= r <= 'Z' && ch as int - r as int == 32
    ensures !('a' <= ch <= 'z') ==> r == ch
  {
    if 'a' <= ch <= 'z' then (ch as int - 32) as char else ch
  }

  /** `s.toLowerCase()`, character by character. */
  function LowerStr(s: string): (r: string)
    ensures |r| == |s|
    ensures forall i :: 0 <= i < |s| ==> r[i] == Lower(s[i])
  {
    seq(|s|, i requires 0 <= i < |s| => Lower(s[i]))
  }

  /** `s.toUpperCase()`, character by character. */
  function UpperStr(s: string): (r: string)
    ensures |r| == |s|
    ensures forall i :: 0 <= i < |s| ==> r[i] == Upper(s[i])
  {
    seq(|s|, i requires 0 <= i < |s| => Upper(s[i]))
  }

  /** A lowered string contains no upper-case ASCII letter, and lowering it
      again changes nothing. */
  lemma LowerStrIdempotent(s: string)
    ensures forall i :: 0 <= i < |LowerStr(s)| ==> !('A' <= LowerStr(s)[i] <= 'Z')
    ensures LowerStr(LowerStr(s)) == LowerStr(s)
  {
    var t := LowerStr(s);
    assert forall i :: 0 <= i < |t| ==> LowerStr(t)[i] == t[i];
  }

  /** Upper-casing first does not change what lowering gives: the
      comparison the search makes ignores case in both directions. */
  lemma LowerOfUpper(s: string)
    ensures LowerStr(UpperStr(s)) == LowerStr(s)
  {
    var u := UpperStr(s);
    forall i | 0 <= i < |s|
      ensures LowerStr(u)[i] == LowerStr(s)[i]
    {
      assert LowerStr(u)[i] == Lower(Upper(s[i]));
    }
  }

  /** Reference meaning of containment: `q` occurs in `s` at position `k`. */
  ghost predicate OccursAt(q: string, s: string, k: int)
  {
    0 <= k <= |s| && q <= s[k..]
  }

  /** Reference meaning of containment: `q` occurs somewhere in `s`. */
  ghost predicate Occurs(q: string, s: string)
  {
    exists k :: OccursAt(q, s, k)
  }

  /** `s.includes(q)`: tries every start position from the left. It
      answers exactly the substring question, in both directions. */
  function Includes(s: string, q: string): (r: bool)
    ensures r <==> Occurs(q, s)
    decreases |s|
  {
    if |q| > |s| then false
    else if q <= s then assert OccursAt(q, s, 0); true
    else OccursPastHead(s, q); Includes(s[1..], q)
  }

  /** When `q` is not a prefix of `s`, it occurs in `s` exactly when it occurs
      in the tail of `s`. */
  lemma OccursPastHead(s: string, q: string)
    requires s != [] && !(q <= s)
    ensures Occurs(q, s) <==> Occurs(q, s[1..])
  {
    if Occurs(q, s[1..]) {
      var k :| OccursAt(q, s[1..], k);
      assert s[1..][k..] == s[k + 1..];
      assert OccursAt(q, s, k + 1);
    }
    if Occurs(q, s) {
      var k :| OccursAt(q, s, k);
      assert k != 0;
      assert s[1..][k - 1..] == s[k..];
      assert OccursAt(q, s[1..], k - 1);
    }
  }

  /** Every string contains the empty string and itself. */
  lemma IncludesEmptyAndSelf(s: string)
    ensures Includes(s, "")
    ensures Includes(s, s)
  {
  }

  /** A non-empty query whose first character appears nowhere in `s` is not
      contained in `s`. */
  lemma NotIncludedWithoutFirstChar(s: string, q: string)
    requires q != [] && q[0] !in s
    ensures !Includes(s, q)
  {
    forall k | 0 <= k <= |s|
      ensures !OccursAt(q, s, k)
    {
      if k < |s| {
        assert s[k..][0] == s[k];
      }
    }
  }
}
