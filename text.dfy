/** ASCII text helpers shared by the command matchers, the filters and the
    voice lookups: lower-casing, substring search and the digit-only parse
    used to compare response times. */
module Text {
  import opened Optional

  /** ASCII lower-casing of one character; every other character is kept. */
  function LowerChar(c: char): (d: char)
    ensures 'A' <= c <= 'Z' ==> 'a' <= d <= 'z' && d as int == c as int + 32
    ensures !('A' <= c <= 'Z') ==> d == c
  {
    if 'A' <= c <= 'Z' then (c as int + 32) as char else c
  }

  /** String.prototype.toLowerCase, restricted to ASCII letters. */
  function Lower(s: string): (r: string)
    ensures |r| == |s|
    ensures forall i :: 0 <= i < |s| ==> r[i] == LowerChar(s[i])
  {
    if s == [] then [] else [LowerChar(s[0])] + Lower(s[1..])
  }

  predicate IsUpper(c: char) { 'A' <= c <= 'Z' }

  /** `s` holds `sub` at position `i`. */
  predicate OccursAt(s: string, sub: string, i: int)
  {
    0 <= i && i + |sub| <= |s| && s[i..i + |sub|] == sub
  }

  /** String.prototype.includes: a left-to-right search for `sub`. */
  function Contains(s: string, sub: string): bool
    decreases |s|
  {
    if |sub| > |s| then false
    else if s[..|sub|] == sub then true
    else Contains(s[1..], sub)
  }

  /** The search finds `sub` exactly when some position holds it. */
  lemma {:induction false} ContainsIff(s: string, sub: string)
    ensures Contains(s, sub) <==> exists i :: OccursAt(s, sub, i)
    decreases |s|
  {
    if |sub| > |s| {
      assert forall i :: !OccursAt(s, sub, i);
    } else if s[..|sub|] == sub {
      assert OccursAt(s, sub, 0);
    } else {
      ContainsIff(s[1..], sub);
      assert !OccursAt(s, sub, 0) by { assert s[0..|sub|] == s[..|sub|]; }
      forall i | OccursAt(s[1..], sub, i) ensures OccursAt(s, sub, i + 1) {
        assert s[1..][i..i + |sub|] == s[i + 1..i + 1 + |sub|];
      }
      forall i | 1 <= i && OccursAt(s, sub, i) ensures OccursAt(s[1..], sub, i - 1) {
        assert s[1..][i - 1..i - 1 + |sub|] == s[i..i + |sub|];
      }
    }
  }

  /** A string that holds `longer`, which itself holds `sub`, holds `sub`
      (a name holding "female" holds "male"). */
  lemma ContainsTransitive(s: string, longer: string, sub: string)
    requires Contains(s, longer) && Contains(longer, sub)
    ensures Contains(s, sub)
  {
    ContainsIff(s, longer);
    ContainsIff(longer, sub);
    var i :| OccursAt(s, longer, i);
    var j :| OccursAt(longer, sub, j);
    assert s[i..i + |longer|] == longer;
    forall k | 0 <= k < |sub| ensures s[i + j + k] == sub[k] {
      assert longer[j + k] == sub[k];
      assert s[i..i + |longer|][j + k] == s[i + j + k];
    }
    assert s[i + j..i + j + |sub|] == sub;
    assert OccursAt(s, sub, i + j);
    ContainsIff(s, sub);
  }

  predicate IsDigit(c: char) { '0' <= c <= '9' }

  /** `s.replace(/[^\d]/g, '')`: the decimal digits of `s`, in order. */
  function DigitsOnly(s: string): (r: string)
    ensures forall i :: 0 <= i < |r| ==> IsDigit(r[i])
    ensures |r| <= |s|
  {
    if s == [] then []
    else (if IsDigit(s[0]) then [s[0]] else []) + DigitsOnly(s[1..])
  }

  /** The value of a non-empty string of decimal digits. */
  function DecimalValue(digits: string): nat
    requires forall i :: 0 <= i < |digits| ==> IsDigit(digits[i])
  {
    if digits == [] then 0
    else
      var last := digits[|digits| - 1];
      assert IsDigit(last);
      10 * DecimalValue(digits[..|digits| - 1]) + (last as int - '0' as int)
  }

  /** `parseInt(s.replace(/[^\d]/g, ''))`: None stands for NaN, which
      parseInt gives when `s` holds no digit at all. */
  function ParseDigits(s: string): (r: Option<nat>)
    ensures r.None? <==> DigitsOnly(s) == []
  {
    var d := DigitsOnly(s);
    if d == [] then None else Some(DecimalValue(d))
  }

  // ---------------------------------------------------------------------
  // Ordered keyword tables

  /** Some word of `words` occurs in `m`. */
  predicate AnyContains(m: string, words: seq<string>)
  {
    words != [] && (Contains(m, words[0]) || AnyContains(m, words[1..]))
  }

  /** The first entry of an ordered keyword table one of whose keywords
      occurs in `m`: the meaning of an if-chain of `includes` tests. */
  function FirstHit(table: seq<(string, seq<string>)>, m: string): (r: Option<string>)
    ensures r.None? <==> forall i :: 0 <= i < |table| ==> !AnyContains(m, table[i].1)
  {
    if table == [] then None
    else if AnyContains(m, table[0].1) then Some(table[0].0)
    else
      var rest := FirstHit(table[1..], m);
      assert forall i :: 1 <= i < |table| ==> table[i] == table[1..][i - 1];
      rest
  }

  lemma AnyContainsPair(m: string, a: string, b: string)
    ensures AnyContains(m, [a, b]) <==> Contains(m, a) || Contains(m, b)
  {
    assert [a, b][0] == a && [a, b][1..] == [b];
    assert [b][0] == b && [b][1..] == [];
    assert AnyContains(m, [b]) <==> Contains(m, b);
  }

  lemma FirstHitStep(table: seq<(string, seq<string>)>, m: string)
    requires table != []
    ensures FirstHit(table, m) ==
      if AnyContains(m, table[0].1) then Some(table[0].0) else FirstHit(table[1..], m)
  {
  }

}
