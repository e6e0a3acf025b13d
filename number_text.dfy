/** Text renderings of natural numbers as JavaScript's `Number.prototype.toString(radix)`
    produces them for non-negative integers: digits '0'..'9' then 'a'..'z', most
    significant digit first, no leading zeros. The chat ids and message ids are built
    from these renderings. */
module NumberText {

  /** A digit value of radix 36 or smaller. */
  type Digit = d: nat | d < 36

  /** The characters `toString(36)` can produce. */
  predicate IsBase36Char(c: char) {
    '0' <= c <= '9' || 'a' <= c <= 'z'
  }

  /** The character JavaScript writes for one digit value. */
  function DigitChar(d: Digit): (c: char)
    ensures IsBase36Char(c)
    ensures d < 10 <==> '0' <= c <= '9'
  {
    if d < 10 then (48 + d) as char else (87 + d) as char
  }

  /** The value of a digit character; the inverse of DigitChar. */
  function DigitValue(c: char): (d: Digit)
    requires IsBase36Char(c)
    ensures DigitChar(d) == c
  {
    if c <= '9' then (c as int - 48) else (c as int - 87)
  }

  /** Euclidean division facts for the radices used here. */
  lemma DivMod(n: nat, radix: nat)
    requires 2 <= radix <= 36
    ensures (n / radix) * radix + n % radix == n
    ensures 0 <= n % radix < radix
    ensures n >= radix ==> 0 < n / radix < n
  {
  }

  /** `n.toString(radix)` for a natural number n. */
  function ToRadix(n: nat, radix: nat): (s: string)
    requires 2 <= radix <= 36
    ensures |s| > 0
    ensures forall i :: 0 <= i < |s| ==> IsBase36Char(s[i]) && DigitValue(s[i]) < radix
    decreases n
  {
    if n < radix then [DigitChar(n)]
    else
      DivMod(n, radix);
      ToRadix(n / radix, radix) + [DigitChar(n % radix)]
  }

  /** The number a string of digits of the given radix denotes (reference inverse of ToRadix). */
  function FromRadix(s: string, radix: nat): nat
    requires 2 <= radix <= 36
    requires forall i :: 0 <= i < |s| ==> IsBase36Char(s[i])
    decreases |s|
  {
    if s == [] then 0
    else FromRadix(s[..|s| - 1], radix) * radix + DigitValue(s[|s| - 1])
  }

  /** Reading back a rendering gives the number that was rendered. */
  lemma {:induction false} FromRadixToRadix(n: nat, radix: nat)
    requires 2 <= radix <= 36
    ensures FromRadix(ToRadix(n, radix), radix) == n
  {
    var s := ToRadix(n, radix);
    if n < radix {
      assert s[..|s| - 1] == [];
    } else {
      var q := n / radix;
      DivMod(n, radix);
      assert s[..|s| - 1] == ToRadix(q, radix);
      FromRadixToRadix(q, radix);
      assert DigitValue(s[|s| - 1]) == n % radix;
    }
  }

  /** Two different numbers never render to the same text, so ids built from
      distinct clock readings or distinct positions are distinct. */
  lemma ToRadixInjective(a: nat, b: nat, radix: nat)
    requires 2 <= radix <= 36
    ensures a != b ==> ToRadix(a, radix) != ToRadix(b, radix)
  {
    FromRadixToRadix(a, radix);
    FromRadixToRadix(b, radix);
  }

  /** The text of a sequence of digits, one character per digit. */
  function DigitsText(ds: seq<Digit>): (s: string)
    ensures |s| == |ds|
    ensures forall i :: 0 <= i < |s| ==> IsBase36Char(s[i]) && DigitValue(s[i]) == ds[i]
  {
    seq(|ds|, i requires 0 <= i < |ds| => DigitChar(ds[i]))
  }
}
