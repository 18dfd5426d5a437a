/** Client-side identifiers for new products: every existing id is read as a
    decimal number, the largest (or 0) plus one is written back as a string. */
module Ids {
  import opened Records

  predicate IsDigit(c: char) { '0' <= c <= '9' }

  predicate AllDigits(s: string) { forall i :: 0 <= i < |s| ==> IsDigit(s[i]) }

  /** A non-empty string of decimal digits, the ids this model reads. */
  predicate IsNumeral(s: string) { |s| > 0 && AllDigits(s) }

  /** Every product id in the list is a decimal numeral. */
  predicate NumericIds(ps: seq<Product>) {
    forall i :: 0 <= i < |ps| ==> IsNumeral(ps[i].id)
  }

  function DigitValue(c: char): (d: nat)
    requires IsDigit(c)
    ensures d < 10
  {
    c as int - '0' as int
  }

  function DigitChar(d: nat): (c: char)
    requires d < 10
    ensures IsDigit(c) && DigitValue(c) == d
  {
    ('0' as int + d) as char
  }

  /** The value `parseInt` gives a non-empty string of decimal digits (leading zeros
      allowed); the empty string gives 0 only as the recursion's base. */
  function ParseDecimal(s: string): (n: nat)
    requires AllDigits(s)
    ensures n < Pow10(|s|)
  {
    if s == [] then 0 else 10 * ParseDecimal(s[..|s| - 1]) + DigitValue(s[|s| - 1])
  }

  /** The decimal string `Number.prototype.toString` gives a natural number. */
  function ShowDecimal(n: nat): (s: string)
    ensures IsNumeral(s)
    ensures |s| > 1 ==> s[0] != '0'
  {
    if n < 10 then [DigitChar(n)] else ShowDecimal(n / 10) + [DigitChar(n % 10)]
  }

  /** Reading back what ShowDecimal wrote gives the number again. */
  lemma {:induction false} ParseShow(n: nat)
    ensures ParseDecimal(ShowDecimal(n)) == n
  {
    var s := ShowDecimal(n);
    if n >= 10 {
      ParseShow(n / 10);
      assert s[..|s| - 1] == ShowDecimal(n / 10);
    }
  }

  /** A numeral without a leading zero has a value of at least 10^(length - 1). */
  lemma {:induction false} ParseDecimalPrefixBound(s: string)
    requires AllDigits(s) && |s| > 0 && s[0] != '0'
    ensures ParseDecimal(s) >= Pow10(|s| - 1)
  {
    if |s| > 1 {
      var t := s[..|s| - 1];
      assert t[0] == s[0];
      ParseDecimalPrefixBound(t);
    } else {
      assert DigitValue(s[0]) >= 1;
    }
  }

  function Pow10(k: nat): (p: nat)
    ensures p >= 1
  {
    if k == 0 then 1 else 10 * Pow10(k - 1)
  }

  /** Writing out the value of a numeral without leading zeros gives the numeral back. */
  lemma {:induction false} ShowParse(s: string)
    requires IsNumeral(s) && (|s| > 1 ==> s[0] != '0')
    ensures ShowDecimal(ParseDecimal(s)) == s
  {
    var n := ParseDecimal(s);
    var c := s[|s| - 1];
    if |s| == 1 {
      assert s[..0] == [];
      assert DigitChar(DigitValue(c)) == c;
    } else {
      var t := s[..|s| - 1];
      assert t[0] == s[0];
      ParseDecimalPrefixBound(t);
      ShowParse(t);
      assert n / 10 == ParseDecimal(t) && n % 10 == DigitValue(c);
      assert DigitChar(DigitValue(c)) == c;
      assert s == t + [c];
    }
  }

  /** The largest id as a number, with 0 as the floor: `Math.max(...ids, 0)`. */
  function MaxParsedId(ps: seq<Product>): (m: nat)
    requires NumericIds(ps)
    ensures forall i :: 0 <= i < |ps| ==> ParseDecimal(ps[i].id) <= m
    ensures m == 0 || exists i :: 0 <= i < |ps| && ParseDecimal(ps[i].id) == m
  {
    if ps == [] then 0
    else
      var rest := MaxParsedId(ps[..|ps| - 1]);
      var last := ParseDecimal(ps[|ps| - 1].id);
      assert forall i :: 0 <= i < |ps| - 1 ==> ps[..|ps| - 1][i] == ps[i];
      if last <= rest then rest else last
  }

  /** The id a create attaches to its payload: one more than every id in use. */
  function NextId(ps: seq<Product>): (id: string)
    requires NumericIds(ps)
    ensures IsNumeral(id) && (|id| > 1 ==> id[0] != '0')
    ensures ParseDecimal(id) == MaxParsedId(ps) + 1
    ensures forall i :: 0 <= i < |ps| ==> ParseDecimal(ps[i].id) < ParseDecimal(id)
    ensures ParseDecimal(id) == 1 || exists i :: 0 <= i < |ps| && ParseDecimal(ps[i].id) + 1 == ParseDecimal(id)
  {
    var m := MaxParsedId(ps);
    ParseShow(m + 1);
    ShowDecimal(m + 1)
  }

  /** The new id differs, as a string, from every id already in the list. */
  lemma NextIdFresh(ps: seq<Product>)
    requires NumericIds(ps)
    ensures forall i :: 0 <= i < |ps| ==> ps[i].id != NextId(ps)
  {
    var id := NextId(ps);
    forall i | 0 <= i < |ps| ensures ps[i].id != id {
      assert ParseDecimal(ps[i].id) < ParseDecimal(id);
    }
  }

  /** On an empty list the new id is "1". */
  lemma NextIdOfEmpty()
    ensures NextId([]) == "1"
  {
  }
}
