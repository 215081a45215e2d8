/** The string built-ins the baseline parser uses, restricted to ASCII:
    String.prototype.toLowerCase, String.prototype.includes, the first
    match of the regular expression /\d+/ and parseInt on that match. */
module Text {
  import opened Values

  predicate IsDigit(c: char) {
    '0' <= c <= '9'
  }

  predicate IsUpper(c: char) {
    'A' <= c <= 'Z'
  }

  function LowerChar(c: char): (r: char)
    ensures IsUpper(c) ==> !IsUpper(r) && r as int == c as int + 32
    ensures !IsUpper(c) ==> r == c
  {
    if IsUpper(c) then (c as int + 32) as char else c
  }

  /** toLowerCase on ASCII letters; every other character is kept. */
  function ToLower(s: string): (r: string)
    ensures |r| == |s|
    ensures forall i :: 0 <= i < |s| ==> r[i] == LowerChar(s[i])
  {
    if s == [] then [] else [LowerChar(s[0])] + ToLower(s[1..])
  }

  /** Lower-casing twice is lower-casing once, and digits are untouched. */
  lemma ToLowerIdempotent(s: string)
    ensures ToLower(ToLower(s)) == ToLower(s)
    ensures forall i :: 0 <= i < |s| ==> (IsDigit(ToLower(s)[i]) <==> IsDigit(s[i]))
  {
  }

  /** `t` occurs in `s` starting at position `k`. */
  predicate OccursAt(s: string, t: string, k: int) {
    0 <= k && k + |t| <= |s| && s[k..k + |t|] == t
  }

  /** String.prototype.includes, by scanning the start positions left to right. */
  function Contains(s: string, t: string): (r: bool)
    ensures t == [] ==> r
    ensures r ==> |t| <= |s|
    decreases |s|
  {
    if |s| < |t| then false
    else if s[..|t|] == t then true
    else Contains(s[1..], t)
  }

  /** The scan agrees with the definition of a substring: some start
      position holds an occurrence of `t`. */
  lemma {:induction false} ContainsIff(s: string, t: string)
    ensures Contains(s, t) <==> exists k :: OccursAt(s, t, k)
    decreases |s|
  {
    if |s| < |t| {
      assert forall k :: !OccursAt(s, t, k);
    } else if s[..|t|] == t {
      assert OccursAt(s, t, 0);
    } else {
      ContainsIff(s[1..], t);
      if Contains(s[1..], t) {
        var k :| OccursAt(s[1..], t, k);
        assert s[k + 1..k + 1 + |t|] == s[1..][k..k + |t|];
        assert OccursAt(s, t, k + 1);
      }
      if exists k :: OccursAt(s, t, k) {
        var k :| OccursAt(s, t, k);
        assert k != 0;
        assert s[1..][k - 1..k - 1 + |t|] == s[k..k + |t|];
        assert OccursAt(s[1..], t, k - 1);
      }
    }
  }

  /** A text lacking one of the characters of `t` does not contain `t`. */
  lemma MissingCharNotContained(s: string, t: string, q: nat)
    requires q < |t|
    requires forall i :: 0 <= i < |s| ==> s[i] != t[q]
    ensures !Contains(s, t)
  {
    ContainsIff(s, t);
    forall k ensures !OccursAt(s, t, k) {
      if 0 <= k && k + |t| <= |s| {
        assert s[k..k + |t|][q] == s[k + q];
      }
    }
  }

  /** Length of the maximal run of digits at the start of `s`. */
  function DigitRunLength(s: string): (n: nat)
    ensures n <= |s|
    ensures forall p :: 0 <= p < n ==> IsDigit(s[p])
    ensures n == |s| || !IsDigit(s[n])
  {
    if s != [] && IsDigit(s[0]) then 1 + DigitRunLength(s[1..]) else 0
  }

  /** The span [i, j) of the first match of /\d+/ in `s`: the leftmost
      digit and the longest run of digits that starts there. */
  function FirstDigitRun(s: string): (r: Option<(nat, nat)>)
    ensures r.None? <==> forall p :: 0 <= p < |s| ==> !IsDigit(s[p])
    ensures r.Some? ==>
      var (i, j) := r.value;
      && i < j <= |s|
      && (forall p :: 0 <= p < i ==> !IsDigit(s[p]))
      && (forall p :: i <= p < j ==> IsDigit(s[p]))
      && (j == |s| || !IsDigit(s[j]))
  {
    if s == [] then None
    else if IsDigit(s[0]) then Some((0, DigitRunLength(s)))
    else match FirstDigitRun(s[1..])
      case None => None
      case Some((i, j)) =>
        assert forall p :: 1 <= p < i + 1 ==> s[p] == s[1..][p - 1];
        assert forall p :: i + 1 <= p < j + 1 ==> s[p] == s[1..][p - 1];
        Some((i + 1, j + 1))
  }

  /** The span the regular expression matches is the only one with the
      properties stated on FirstDigitRun. */
  lemma FirstDigitRunIs(s: string, i: nat, j: nat)
    requires i < j <= |s|
    requires forall p :: 0 <= p < i ==> !IsDigit(s[p])
    requires forall p :: i <= p < j ==> IsDigit(s[p])
    requires j == |s| || !IsDigit(s[j])
    ensures FirstDigitRun(s) == Some((i, j))
  {
    assert IsDigit(s[i]);
    var (i', j') := FirstDigitRun(s).value;
    assert IsDigit(s[i']) && IsDigit(s[j' - 1]) && IsDigit(s[j - 1]);
  }

  function DigitValue(c: char): nat
    requires IsDigit(c)
  {
    c as int - '0' as int
  }

  function Pow10(n: nat): (r: nat)
    ensures r > 0
  {
    if n == 0 then 1 else 10 * Pow10(n - 1)
  }

  /** parseInt on a string of decimal digits, read left to right: each
      further digit multiplies the value so far by ten. The value has
      no more digits than the text. */
  function DigitsValue(s: string): (r: nat)
    requires forall p :: 0 <= p < |s| ==> IsDigit(s[p])
    ensures r < Pow10(|s|)
  {
    if s == [] then 0 else 10 * DigitsValue(s[..|s| - 1]) + DigitValue(s[|s| - 1])
  }

  lemma ShiftWeight(v: nat, p: nat)
    ensures 10 * (v * p) == v * (10 * p)
  {
  }

  /** Read from the other end, the leading digit carries the weight
      10^(number of digits after it); in particular leading zeros do not
      change the value. */
  lemma {:induction false} DigitsValueLeading(d: char, s: string)
    requires IsDigit(d) && forall p :: 0 <= p < |s| ==> IsDigit(s[p])
    ensures DigitsValue([d] + s) == DigitValue(d) * Pow10(|s|) + DigitsValue(s)
    decreases |s|
  {
    if s == [] {
      assert [d] + s == [d];
      assert [d][..0] == [];
    } else {
      var init := s[..|s| - 1];
      var last := s[|s| - 1];
      assert ([d] + s)[..|s|] == [d] + init;
      assert ([d] + s)[|s|] == last;
      DigitsValueLeading(d, init);
      var v, p := DigitValue(d), Pow10(|init|);
      assert DigitsValue([d] + s) == 10 * DigitsValue([d] + init) + DigitValue(last);
      assert DigitsValue(s) == 10 * DigitsValue(init) + DigitValue(last);
      assert Pow10(|s|) == 10 * p;
      ShiftWeight(v, p);
    }
  }

  /** parseInt on two digits. */
  lemma TwoDigitsValue(a: char, b: char)
    requires IsDigit(a) && IsDigit(b)
    ensures DigitsValue([a, b]) == 10 * DigitValue(a) + DigitValue(b)
  {
    assert [a][..0] == [];
    assert DigitsValue([a]) == DigitValue(a);
    assert [a, b][..1] == [a];
  }

  /** `parseInt(s.match(/\d+/)[0])`, or None when `s` holds no digit. */
  function FirstNumber(s: string): (r: Option<nat>)
    ensures r.None? <==> forall p :: 0 <= p < |s| ==> !IsDigit(s[p])
  {
    match FirstDigitRun(s)
    case None => None
    case Some((i, j)) => Some(DigitsValue(s[i..j]))
  }
}
