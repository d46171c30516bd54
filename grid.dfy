/**
 * The tile grid of the pyramid: 2^z x 2^z tiles at zoom z, and the file name
 * "{x}_{y}_{z}.png" each tile is written to.
 */
module Grid {

  /** 2^n, the Python expressions 2 ** n and 1 << n. */
  function Pow2(n: nat): (r: nat)
    ensures r >= 1
  {
    if n == 0 then 1 else 2 * Pow2(n - 1)
  }

  /** A tile of the pyramid: column x, row y, zoom level z. */
  datatype TileId = TileId(x: nat, y: nat, z: nat)

  /** The tile belongs to the 2^z x 2^z grid of zoom z. */
  predicate InGrid(t: TileId, z: nat) {
    t.z == z && t.x < Pow2(z) && t.y < Pow2(z)
  }

  /** No tile occurs twice, so no file is written twice. */
  predicate Distinct(ids: seq<TileId>) {
    forall i, j :: 0 <= i < j < |ids| ==> ids[i] != ids[j]
  }

  lemma DistinctConcat(a: seq<TileId>, b: seq<TileId>)
    requires Distinct(a) && Distinct(b)
    requires forall t :: t in b ==> t !in a
    ensures Distinct(a + b)
  {
    forall i, j | 0 <= i < j < |a + b| ensures (a + b)[i] != (a + b)[j] {
      if i < |a| && j >= |a| {
        assert (a + b)[j] in b;
      }
    }
  }

  // ---------------------------------------------------------------------------
  // Tile file names
  // ---------------------------------------------------------------------------

  predicate IsDigit(c: char) {
    '0' <= c <= '9'
  }

  function DigitChar(d: nat): (c: char)
    requires d < 10
    ensures IsDigit(c)
  {
    ['0', '1', '2', '3', '4', '5', '6', '7', '8', '9'][d]
  }

  function DigitValue(c: char): (d: nat)
    requires IsDigit(c)
    ensures d < 10 && DigitChar(d) == c
  {
    (c as int - '0' as int) as nat
  }

  /** The decimal numeral of n, without leading zeros, as str(n) writes it. */
  function Decimal(n: nat): (s: string)
    ensures |s| >= 1
    ensures forall i :: 0 <= i < |s| ==> IsDigit(s[i])
  {
    if n < 10 then [DigitChar(n)] else Decimal(n / 10) + [DigitChar(n % 10)]
  }

  /** The value of a string of digits. */
  function DecimalValue(s: string): nat
    requires forall i :: 0 <= i < |s| ==> IsDigit(s[i])
  {
    if |s| == 0 then 0 else 10 * DecimalValue(s[..|s| - 1]) + DigitValue(s[|s| - 1])
  }

  /** Reading a numeral back gives the number: the numeral determines the number. */
  lemma {:induction false} DecimalRoundTrip(n: nat)
    ensures DecimalValue(Decimal(n)) == n
  {
    var s := Decimal(n);
    if n >= 10 {
      DecimalRoundTrip(n / 10);
      assert s[..|s| - 1] == Decimal(n / 10);
      assert DigitValue(DigitChar(n % 10)) == n % 10 by {
        var d := DigitValue(DigitChar(n % 10));
        DigitCharInjective(d, n % 10);
      }
    } else {
      DigitCharInjective(DigitValue(s[0]), n);
    }
  }

  lemma DigitCharInjective(a: nat, b: nat)
    requires a < 10 && b < 10 && DigitChar(a) == DigitChar(b)
    ensures a == b
  {
  }

  /**
   * The file name of a tile, '{}_{}_{}.png'.format(x, y, z): at least three
   * digits and two separators before the ".png" extension.
   */
  function TileName(t: TileId): (r: string)
    ensures |r| >= 9 && r[|r| - 4..] == ".png"
  {
    var stem := Decimal(t.x) + "_" + Decimal(t.y) + "_" + Decimal(t.z);
    assert (stem + ".png")[|stem|..] == ".png";
    stem + ".png"
  }

  /** Two equal strings that end in '_' and a digit string split at the same place. */
  lemma SplitAtLastSeparator(p: string, a: string, q: string, b: string)
    requires forall i :: 0 <= i < |a| ==> IsDigit(a[i])
    requires forall i :: 0 <= i < |b| ==> IsDigit(b[i])
    requires p + "_" + a == q + "_" + b
    ensures p == q && a == b
  {
    var s := p + "_" + a;
    assert s[|p|] == '_';
    assert s[|q|] == '_';
    assert |p| == |q|;
    assert p == s[..|p|] == q;
    assert a == s[|p| + 1..] == b;
  }

  lemma DecimalInjective(a: nat, b: nat)
    requires Decimal(a) == Decimal(b)
    ensures a == b
  {
    DecimalRoundTrip(a);
    DecimalRoundTrip(b);
  }

  /** A digit string followed by ".png" determines the digit string. */
  lemma StripSuffix(a: string, b: string)
    requires a + ".png" == b + ".png"
    ensures a == b
  {
    assert a == (a + ".png")[..|a|];
    assert b == (b + ".png")[..|b|];
  }

  /** Distinct tiles get distinct file names, so no tile overwrites another. */
  lemma TileNameInjective(s: TileId, t: TileId)
    requires TileName(s) == TileName(t)
    ensures s == t
  {
    StripSuffix(Decimal(s.x) + "_" + Decimal(s.y) + "_" + Decimal(s.z),
                Decimal(t.x) + "_" + Decimal(t.y) + "_" + Decimal(t.z));
    SplitAtLastSeparator(Decimal(s.x) + "_" + Decimal(s.y), Decimal(s.z),
                         Decimal(t.x) + "_" + Decimal(t.y), Decimal(t.z));
    SplitAtLastSeparator(Decimal(s.x), Decimal(s.y), Decimal(t.x), Decimal(t.y));
    DecimalInjective(s.x, t.x);
    DecimalInjective(s.y, t.y);
    DecimalInjective(s.z, t.z);
  }

  /** Distinct tiles are saved under distinct file names. */
  lemma SavedNamesDistinct(ids: seq<TileId>, i: nat, j: nat)
    requires Distinct(ids) && i < j < |ids|
    ensures TileName(ids[i]) != TileName(ids[j])
  {
    if TileName(ids[i]) == TileName(ids[j]) {
      TileNameInjective(ids[i], ids[j]);
    }
  }
}
