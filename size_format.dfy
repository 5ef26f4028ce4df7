/** The size formatter `getHumanReadableSize` (main.go:229-241): a byte count is shown in the
    largest binary unit among B, KiB, MiB, GiB and TiB whose size it reaches. */
module SizeFormat {
  import opened Results
  import opened Decimal

  datatype Unit = B | KiB | MiB | GiB | TiB

  /** Position of a unit in increasing order of size. */
  function Rank(u: Unit): nat {
    match u
    case B => 0
    case KiB => 1
    case MiB => 2
    case GiB => 3
    case TiB => 4
  }

  /** Number of bytes in one unit: 1024 raised to the unit's rank. */
  function Scale(u: Unit): (s: nat)
    ensures s == Pow1024(Rank(u))
  {
    match u
    case B => 1
    case KiB => 1024
    case MiB => 1024 * 1024
    case GiB => 1024 * 1024 * 1024
    case TiB => 1024 * 1024 * 1024 * 1024
  }

  function Pow1024(k: nat): (p: nat)
    ensures p >= 1
  {
    if k == 0 then 1 else 1024 * Pow1024(k - 1)
  }

  function Suffix(u: Unit): string {
    match u
    case B => "B"
    case KiB => "KiB"
    case MiB => "MiB"
    case GiB => "GiB"
    case TiB => "TiB"
  }

  /** The unit the if-chain of main.go:230-240 picks: strict less-than at every power of 1024.
      It is the largest unit whose scale the size reaches; anything below 1024 (a negative
      int64 too) stays in bytes, and TiB has no upper bound. */
  function SelectUnit(size: int): (u: Unit)
    ensures u != B ==> Scale(u) <= size
    ensures u != TiB ==> size < 1024 * Scale(u)
  {
    if size < 1024 then B
    else if size < 1024 * 1024 then KiB
    else if size < 1024 * 1024 * 1024 then MiB
    else if size < 1024 * 1024 * 1024 * 1024 then GiB
    else TiB
  }

  /** The two bounds in SelectUnit's contract single out one unit for every size. */
  lemma SelectUnitUnique(size: int, u: Unit)
    requires u != B ==> Scale(u) <= size
    requires u != TiB ==> size < 1024 * Scale(u)
    ensures SelectUnit(size) == u
  {
  }

  /** The unit never gets smaller as the size grows. */
  lemma SelectUnitMonotone(a: int, b: int)
    requires a <= b
    ensures Rank(SelectUnit(a)) <= Rank(SelectUnit(b))
  {
  }

  /** Each unit covers exactly the half-open range [1024^k, 1024^(k+1)). */
  lemma SelectUnitRanges(size: int)
    ensures SelectUnit(size) == B <==> size < 1024
    ensures SelectUnit(size) == KiB <==> 1024 <= size < 1024 * 1024
    ensures SelectUnit(size) == MiB <==> 1024 * 1024 <= size < 1024 * 1024 * 1024
    ensures SelectUnit(size) == GiB <==> 1024 * 1024 * 1024 <= size < 1024 * 1024 * 1024 * 1024
    ensures SelectUnit(size) == TiB <==> 1024 * 1024 * 1024 * 1024 <= size
  {
  }

  /** What the formatter produces. Sizes under 1024 are rendered exactly with `%d`; the others
      carry the exact quotient `size / 1024^k` that `%.2f` then rounds to two decimals. */
  datatype HumanSize = Exact(text: string) | Scaled(quotient: real, unit: Unit)

  function HumanReadableSize(size: Int64): (h: HumanSize)
    ensures h.Exact? <==> size < 1024
    ensures h.Exact? ==> |h.text| >= 3 && h.text[|h.text| - 2..] == " " + Suffix(B)
    ensures h.Exact? ==> ParseInt(h.text[..|h.text| - 2]) == Some(size as int)
    ensures h.Exact? ==> IsCanonicalInt(h.text[..|h.text| - 2])
    ensures h.Scaled? ==> h.unit == SelectUnit(size)
    ensures h.Scaled? ==> h.quotient * (Scale(h.unit) as real) == size as real
    ensures h.Scaled? ==> 1.0 <= h.quotient && (h.unit != TiB ==> h.quotient < 1024.0)
  {
    if size < 1024 then
      IntToStringRoundTrip(size);
      var digits := IntToString(size);
      var text := digits + " " + Suffix(B);
      assert text[..|text| - 2] == digits;
      Exact(text)
    else
      var u := SelectUnit(size);
      Scaled(size as real / Scale(u) as real, u)
  }

  /** The boundary cases: strict less-than at each threshold. */
  lemma Boundaries()
    ensures HumanReadableSize(0) == Exact("0 B")
    ensures HumanReadableSize(1023) == Exact("1023 B")
    ensures HumanReadableSize(1024) == Scaled(1.0, KiB)
    ensures HumanReadableSize(1048575).unit == KiB
    ensures HumanReadableSize(1048576) == Scaled(1.0, MiB)
    ensures HumanReadableSize(5 * 1048576) == Scaled(5.0, MiB)
    ensures HumanReadableSize(1024 * 1024 * 1024 * 1024 - 1).unit == GiB
    ensures HumanReadableSize(0x7FFF_FFFF_FFFF_FFFF).unit == TiB
  {
    assert NatToString(1023) == NatToString(102) + ['3'];
    assert NatToString(102) == NatToString(10) + ['2'];
    assert NatToString(10) == NatToString(1) + ['0'];
  }
}
