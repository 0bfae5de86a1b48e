/**
 * The string operations the search boxes and forms rely on: JavaScript's
 * `toLowerCase` (restricted to ASCII), `String.prototype.includes`, and the
 * truthiness of a nullable string.
 */
module Text {
  import opened Options

  /** JavaScript truthiness of a `string | null`: present and non-empty. */
  predicate Truthy(v: Option<string>): (b: bool)
    ensures b <==> v != None && v != Some("")
  {
    v.Some? && v.value != ""
  }

  predicate IsUpper(c: char) {
    'A' <= c <= 'Z'
  }

  function LowerChar(c: char): char {
    if IsUpper(c) then (c as int + 32) as char else c
  }

  /** `s.toLowerCase()` on ASCII letters; every other character is kept. */
  function Lower(s: string): (r: string)
    ensures |r| == |s|
    ensures forall i :: 0 <= i < |s| ==> r[i] == LowerChar(s[i])
  {
    if s == [] then [] else [LowerChar(s[0])] + Lower(s[1..])
  }

  lemma LowerLowers(s: string)
    ensures forall i :: 0 <= i < |s| ==> !IsUpper(Lower(s)[i])
    ensures Lower(Lower(s)) == Lower(s)
  {
  }

  /** `sub` occurs in `s` starting at index `i`. */
  predicate OccursAt(s: string, sub: string, i: int) {
    0 <= i && i + |sub| <= |s| && s[i..i + |sub|] == sub
  }

  /** `s.includes(sub)`: scan every start position, as the JavaScript engine does. */
  function Includes(s: string, sub: string): (r: bool)
    ensures sub <= s ==> r
    ensures r ==> |sub| <= |s|
    decreases |s|
  {
    if sub <= s then true
    else if s == [] then false
    else Includes(s[1..], sub)
  }

  /** The scan agrees with the reference definition: some start position matches. */
  lemma {:induction false} IncludesIff(s: string, sub: string)
    ensures Includes(s, sub) <==> exists i :: OccursAt(s, sub, i)
    decreases |s|
  {
    if sub <= s {
      assert OccursAt(s, sub, 0);
    } else if s == [] {
      assert forall i :: !OccursAt(s, sub, i);
    } else {
      IncludesIff(s[1..], sub);
      OccursInTail(s, sub);
    }
  }

  /** Past a failed first position, the occurrences are those of the tail, shifted by one. */
  lemma OccursInTail(s: string, sub: string)
    requires s != [] && !(sub <= s)
    ensures (exists i :: OccursAt(s[1..], sub, i)) <==> (exists i :: OccursAt(s, sub, i))
  {
    forall i | OccursAt(s[1..], sub, i) ensures OccursAt(s, sub, i + 1) {
      assert s[1..][i..i + |sub|] == s[i + 1..i + 1 + |sub|];
    }
    forall i | OccursAt(s, sub, i) ensures OccursAt(s[1..], sub, i - 1) {
      assert i != 0;
      assert s[1..][i - 1..i - 1 + |sub|] == s[i..i + |sub|];
    }
  }

  /** Every string includes the empty string and itself. */
  lemma IncludesTrivial(s: string)
    ensures Includes(s, "") && Includes(s, s)
  {
  }

  /** A string includes nothing that holds a character it lacks. */
  lemma MissingCharExcludes(s: string, sub: string, c: char)
    requires c in sub && c !in s
    ensures !Includes(s, sub)
  {
    var k :| 0 <= k < |sub| && sub[k] == c;
    forall i | 0 <= i && i + |sub| <= |s| ensures !OccursAt(s, sub, i) {
      assert s[i..i + |sub|][k] == s[i + k] != c;
    }
    IncludesIff(s, sub);
  }

  /** `s.toLowerCase().includes(sub.toLowerCase())`. */
  predicate IncludesIgnoringCase(s: string, sub: string) {
    Includes(Lower(s), Lower(sub))
  }

  /** A case-sensitive match is also a case-insensitive one. */
  lemma IncludesIgnoringCaseOf(s: string, sub: string)
    requires Includes(s, sub)
    ensures IncludesIgnoringCase(s, sub)
  {
    IncludesIff(s, sub);
    var i :| OccursAt(s, sub, i);
    assert Lower(s)[i..i + |sub|] == Lower(sub);
    IncludesIff(Lower(s), Lower(sub));
    assert OccursAt(Lower(s), Lower(sub), i);
  }

  /** Searching is insensitive to the case of either side. */
  lemma IncludesIgnoringCaseIsCaseBlind(s: string, sub: string)
    ensures IncludesIgnoringCase(Lower(s), sub) == IncludesIgnoringCase(s, sub)
    ensures IncludesIgnoringCase(s, Lower(sub)) == IncludesIgnoringCase(s, sub)
  {
    LowerLowers(s);
    LowerLowers(sub);
  }

  /** Lowering never introduces a character that is not a lower-case letter. */
  lemma LowerKeepsAbsentChar(s: string, c: char)
    requires !('a' <= c <= 'z')
    requires c !in s
    ensures c !in Lower(s)
  {
    forall i | 0 <= i < |s| ensures Lower(s)[i] != c {
      assert s[i] != c;
    }
  }
}
