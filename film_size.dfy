/** MVFilmSize: the size of a film or download, in bytes, with a progress
    counter and the cached text the tables show ("512", "12 von 512"). */
module FilmSize {
  import opened Wrappers

  // ---------------------------------------------------------------------
  // Java `long`

  const LONG_MIN: int := -0x8000_0000_0000_0000
  const LONG_MAX: int := 0x7FFF_FFFF_FFFF_FFFF
  const LONG_MODULUS: int := 0x1_0000_0000_0000_0000

  type Long = x: int | LONG_MIN <= x <= LONG_MAX

  /** Two's-complement wrap-around of a mathematical integer into a `long`. */
  function WrapLong(x: int): (r: Long)
    ensures LONG_MIN <= x <= LONG_MAX ==> r == x
  {
    (x - LONG_MIN) % LONG_MODULUS + LONG_MIN
  }

  lemma {:induction false} WrapLongShift(x: int, k: int)
    ensures WrapLong(x + k * LONG_MODULUS) == WrapLong(x)
  {
    var y := x - LONG_MIN;
    var q := y / LONG_MODULUS;
    var r := y % LONG_MODULUS;
    assert y == q * LONG_MODULUS + r && 0 <= r < LONG_MODULUS;
    assert y + k * LONG_MODULUS == (q + k) * LONG_MODULUS + r;
    assert (y + k * LONG_MODULUS) / LONG_MODULUS == q + k;
  }

  /** Java evaluates `v * 1000 * 1000` as two wrapping multiplications; the
      result is the single product wrapped once. */
  lemma {:induction false} WrapLongMultiply(a: int, b: int)
    ensures WrapLong(WrapLong(a) * b) == WrapLong(a * b)
  {
    var y := a - LONG_MIN;
    var q := y / LONG_MODULUS;
    assert WrapLong(a) == a - q * LONG_MODULUS;
    assert WrapLong(a) * b == a * b + (-q * b) * LONG_MODULUS;
    WrapLongShift(a * b, -q * b);
  }

  // ---------------------------------------------------------------------
  // Decimal text: String.valueOf(long) and Long.valueOf(String)

  predicate IsDigit(c: char)
  {
    '0' <= c <= '9'
  }

  predicate AllDigits(s: string)
  {
    forall i :: 0 <= i < |s| ==> IsDigit(s[i])
  }

  function DigitChar(d: nat): char
    requires d < 10
  {
    ('0' as int + d) as char
  }

  /** The value of a string of decimal digits, most significant first. */
  function DigitsValue(s: string): nat
    requires AllDigits(s)
  {
    if s == [] then 0 else DigitsValue(s[..|s| - 1]) * 10 + (s[|s| - 1] as int - '0' as int)
  }

  /** The decimal text of a natural number, without leading zeros. */
  function NatToString(n: nat): (s: string)
    ensures |s| >= 1 && AllDigits(s)
    ensures s[0] == '0' ==> n == 0
  {
    if n < 10 then [DigitChar(n)] else NatToString(n / 10) + [DigitChar(n % 10)]
  }

  lemma {:induction false} NatToStringValue(n: nat)
    ensures DigitsValue(NatToString(n)) == n
  {
    if n >= 10 {
      NatToStringValue(n / 10);
      var s := NatToString(n);
      assert s[..|s| - 1] == NatToString(n / 10);
    }
  }

  /** String.valueOf(long): a minus sign for negative values. */
  function LongToString(x: Long): string
  {
    if x < 0 then "-" + NatToString(-(x as int)) else NatToString(x)
  }

  /** Long.valueOf(String), parsing base 10: an optional sign, then at least
      one digit, and a value that fits a `long`; anything else is rejected. */
  function ParseLong(s: string): (r: Option<Long>)
    ensures r.Some? ==> s != [] && AllDigits(s[1..]) && (IsDigit(s[0]) || (|s| >= 2 && (s[0] == '-' || s[0] == '+')))
    ensures s != [] && AllDigits(s) ==>
              r == if DigitsValue(s) <= LONG_MAX then Some(DigitsValue(s)) else None
    ensures |s| >= 2 && s[0] == '-' && AllDigits(s[1..]) ==>
              r == if DigitsValue(s[1..]) <= -LONG_MIN then Some(0 - DigitsValue(s[1..])) else None
  {
    if s == [] then None
    else
      var digits := if s[0] == '-' || s[0] == '+' then s[1..] else s;
      if digits == [] || !AllDigits(digits) then None
      else
        var magnitude: int := DigitsValue(digits);
        var v := if s[0] == '-' then -magnitude else magnitude;
        if LONG_MIN <= v <= LONG_MAX then Some(v) else None
  }

  lemma LongToStringParses(x: Long)
    ensures ParseLong(LongToString(x)) == Some(x)
  {
    if x < 0 {
      NatToStringValue(-(x as int));
      assert ("-" + NatToString(-(x as int)))[1..] == NatToString(-(x as int));
    } else {
      NatToStringValue(x);
    }
  }

  /** A sign in front of a digit string: "+" changes nothing, "-" negates. */
  lemma {:induction false} SignedParse(t: string)
    requires t != [] && AllDigits(t)
    ensures ParseLong("+" + t) == ParseLong(t)
    ensures ParseLong(t).Some? ==> ParseLong("-" + t) == Some(-ParseLong(t).value)
  {
    assert ("+" + t)[1..] == t;
    assert ("-" + t)[1..] == t;
  }

  // ---------------------------------------------------------------------
  // getGroesse: whole megabytes, decimal

  const MEGABYTE: int := 1000 * 1000

  function Max(a: int, b: int): int
  {
    if a < b then b else a
  }

  /** The text of a size in whole megabytes, rounded down but at least "1"
      for any positive size, and empty for a size that is not positive. */
  function GetGroesse(l: Long): (r: string)
    ensures l <= 0 <==> r == ""
    ensures l > 0 ==> ParseLong(r) == Some(Max(1, l / MEGABYTE))
    ensures l > 0 ==> AllDigits(r) && r[0] != '0'
  {
    if l > MEGABYTE then
      NatToStringValue(l / MEGABYTE);
      NatToString(l / MEGABYTE)
    else if l > 0 then
      "1"
    else
      ""
  }

  /** The text setString shows for a progress and a total. */
  function Rendered(aktSize: Long, size: Long): string
  {
    if aktSize <= 0 then
      if size != 0 then GetGroesse(size) else ""
    else
      GetGroesse(aktSize) + " von " + GetGroesse(size)
  }

  /** Without progress only the total is shown, and only when positive; with
      progress both are shown, the progress first. */
  lemma RenderedShape(aktSize: Long, size: Long)
    ensures Rendered(aktSize, size) == "" <==> aktSize <= 0 && size <= 0
    ensures aktSize <= 0 && size > 0 ==>
              ParseLong(Rendered(aktSize, size)) == Some(Max(1, size / MEGABYTE))
    ensures aktSize > 0 ==>
              var text := Rendered(aktSize, size);
              var progress := GetGroesse(aktSize);
              && ParseLong(progress) == Some(Max(1, aktSize / MEGABYTE))
              && text[..|progress|] == progress
              && text[|progress|..] == " von " + GetGroesse(size)
  {
    if aktSize > 0 {
      var progress := GetGroesse(aktSize);
      var text := progress + " von " + GetGroesse(size);
      assert Rendered(aktSize, size) == text;
      assert text[..|progress|] == progress;
      assert text[|progress|..] == " von " + GetGroesse(size);
      assert |text| > 0;
    } else if size > 0 {
      assert Rendered(aktSize, size) == GetGroesse(size);
    } else {
      assert Rendered(aktSize, size) == "";
    }
  }

  /** Long.compare: the sign of the difference, as -1, 0 or 1. */
  function CompareLongs(x: Long, y: Long): (c: int)
    ensures c == -1 <==> x < y
    ensures c == 0 <==> x == y
    ensures c == 1 <==> x > y
  {
    if x < y then -1 else if x == y then 0 else 1
  }

  class MVFilmSize {
    /** bytes downloaded so far; -1 while no download runs */
    var aktSizeL: Long
    /** total size in bytes */
    var sizeL: Long
    /** the text the tables show */
    var sizeStr: string

    constructor ()
      ensures aktSizeL == -1 && sizeL == 0 && sizeStr == ""
    {
      aktSizeL := -1;
      sizeL := 0;
      sizeStr := "";
    }

    /** Orders sizes by their total alone. */
    function CompareTo(other: MVFilmSize): (c: int)
      reads this, other
      ensures c == -1 <==> sizeL < other.sizeL
      ensures c == 0 <==> sizeL == other.sizeL
      ensures c == 1 <==> sizeL > other.sizeL
    {
      CompareLongs(sizeL, other.sizeL)
    }

    function ToString(): (s: string)
      reads this
      ensures s == sizeStr
    {
      sizeStr
    }

    /** Recomputes the text from the two sizes. */
    method SetString()
      modifies this`sizeStr
      ensures sizeStr == Rendered(aktSizeL, sizeL)
    {
      if aktSizeL <= 0 {
        if sizeL != 0 {
          sizeStr := GetGroesse(sizeL);
        } else {
          sizeStr := "";
        }
      } else {
        sizeStr := GetGroesse(aktSizeL) + " von " + GetGroesse(sizeL);
      }
    }

    /** setSize(String): the film list gives sizes in megabytes.  The empty
        text clears everything; a number is taken as megabytes and the text
        kept as given; anything else clears the total and the text. */
    method SetSizeText(size: string)
      modifies this
      ensures size == "" ==> aktSizeL == -1 && sizeL == 0 && sizeStr == ""
      ensures size != "" && ParseLong(size).Some? ==>
                && aktSizeL == old(aktSizeL)
                && sizeL == WrapLong(ParseLong(size).value * MEGABYTE)
                && sizeStr == size
      ensures size != "" && ParseLong(size).None? ==>
                aktSizeL == old(aktSizeL) && sizeL == 0 && sizeStr == ""
    {
      if size == "" {
        aktSizeL := -1;
        sizeL := 0;
        sizeStr := "";
      } else {
        match ParseLong(size)
        case Some(v) =>
          sizeL := v;
          WrapLongMultiply(v * 1000, 1000);
          WrapLongMultiply(v, 1000);
          sizeL := WrapLong(WrapLong(sizeL * 1000) * 1000);
          sizeStr := size;
        case None =>
          sizeL := 0;
          sizeStr := "";
      }
    }

    method Reset()
      modifies this
      ensures aktSizeL == -1 && sizeL == old(sizeL)
      ensures sizeStr == Rendered(-1, sizeL)
    {
      aktSizeL := -1;
      SetString();
    }

    /** setSize(long) */
    method SetSize(l: Long)
      modifies this
      ensures sizeL == l && aktSizeL == old(aktSizeL)
      ensures sizeStr == Rendered(aktSizeL, l)
    {
      sizeL := l;
      SetString();
    }

    method SetAktSize(l: Long)
      modifies this
      ensures aktSizeL == l && sizeL == old(sizeL)
      ensures sizeStr == Rendered(l, sizeL)
    {
      aktSizeL := l;
      SetString();
    }

    /** `aktSizeL += l`, wrapping like Java's `long`. */
    method AddAktSize(l: Long)
      modifies this
      ensures aktSizeL == WrapLong(old(aktSizeL) + l) && sizeL == old(sizeL)
      ensures sizeStr == Rendered(aktSizeL, sizeL)
    {
      aktSizeL := WrapLong(aktSizeL + l);
      SetString();
    }
  }

  /** Long.compare is a total order: antisymmetric and transitive. */
  lemma CompareToIsTotalOrder(a: MVFilmSize, b: MVFilmSize, c: MVFilmSize)
    ensures a.CompareTo(b) == -b.CompareTo(a)
    ensures a.CompareTo(b) <= 0 && b.CompareTo(c) <= 0 ==> a.CompareTo(c) <= 0
  {
  }

  /** A size of up to 9223372036854 megabytes fits a `long` exactly. */
  lemma MegabytesFit(v: int)
    requires -(LONG_MAX / MEGABYTE) <= v <= LONG_MAX / MEGABYTE
    ensures WrapLong(v * MEGABYTE) == v * MEGABYTE
  {
  }

  /** The text setSize(String) keeps for a canonical positive number of
      megabytes is the text setString would compute while no download runs. */
  lemma {:induction false} KeptTextMatchesRendering(v: nat, aktSize: Long)
    requires 1 <= v <= LONG_MAX / MEGABYTE && aktSize <= 0
    ensures ParseLong(NatToString(v)) == Some(v)
    ensures Rendered(aktSize, WrapLong(v * MEGABYTE)) == NatToString(v)
  {
    NatToStringValue(v);
    assert LongToString(v) == NatToString(v);
    LongToStringParses(v);
    MegabytesFit(v);
    var size := v * MEGABYTE;
    assert size / MEGABYTE == v;
    if v == 1 {
      assert GetGroesse(size) == "1" == NatToString(v);
    } else {
      assert size > MEGABYTE;
      assert GetGroesse(size) == NatToString(v);
    }
  }
}
