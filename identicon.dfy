/**
 * utils.py's `identicon`: four cells drawn from the MD5 digest of a number.
 * Cell i shows the colour block when bit i of the digest is set, white
 * otherwise; the block is chosen by the digest shifted right by five bits.
 */
module Identicon {

  /** The white square and the eight coloured squares of the palette. */
  datatype Glyph = White | Red | Orange | Yellow | Green | Blue | Purple | Brown | Black

  const Blocks: seq<Glyph> := [Red, Orange, Yellow, Green, Blue, Purple, Brown, Black]

  /** `h >> k`, as the repeated `divmod(div, 2)` computes it. */
  function Shr(h: nat, k: nat): nat
  {
    if k == 0 then h else Shr(h, k - 1) / 2
  }

  predicate Bit(h: nat, i: nat)
  {
    Shr(h, i) % 2 == 1
  }

  /** `blocks[(h >> 5) % len(blocks)]`. */
  function BlockOf(h: nat): Glyph
  {
    Blocks[Shr(h, 5) % |Blocks|]
  }

  /** `str(mod)` for a remainder of division by two. */
  function BitChar(m: nat): char
  {
    if m == 1 then '1' else '0'
  }

  /** The string of the low `n` bits of `h`, least significant first, as the loop appends them. */
  function LowBits(h: nat, n: nat): string
  {
    if n == 0 then "" else LowBits(h, n - 1) + [BitChar(Shr(h, n - 1) % 2)]
  }

  /**
   * `icon.replace("0", white).replace("1", block)` on a string of binary
   * digits; the white square contains no digit, so the second replacement
   * only ever meets the digits left by the first.
   */
  function Paint(bits: string, block: Glyph): seq<Glyph>
    requires forall k | 0 <= k < |bits| :: bits[k] in "01"
  {
    if bits == [] then [] else [if bits[0] == '0' then White else block] + Paint(bits[1..], block)
  }

  lemma {:induction false} LowBitsAt(h: nat, n: nat)
    ensures |LowBits(h, n)| == n
    ensures forall k | 0 <= k < n :: LowBits(h, n)[k] == BitChar(Shr(h, k) % 2)
  {
    if n > 0 {
      LowBitsAt(h, n - 1);
    }
  }

  lemma {:induction false} PaintAt(bits: string, block: Glyph)
    requires forall k | 0 <= k < |bits| :: bits[k] in "01"
    ensures |Paint(bits, block)| == |bits|
    ensures forall k | 0 <= k < |bits| :: Paint(bits, block)[k] == if bits[k] == '0' then White else block
  {
    if bits != [] {
      PaintAt(bits[1..], block);
    }
  }

  /** The icon of digest `h`. */
  function IconOf(h: nat): (icon: seq<Glyph>)
    ensures |icon| == 4
    ensures forall i | 0 <= i < 4 :: icon[i] == if Bit(h, i) then BlockOf(h) else White
  {
    LowBitsAt(h, 4);
    PaintAt(LowBits(h, 4), BlockOf(h));
    Paint(LowBits(h, 4), BlockOf(h))
  }

  /**
   * `identicon(n)`, with the MD5 digest of `str(n)` read as an integer given
   * by `digest`. The loop records bits 0 to 3; the bit it extracts last
   * (bit 4) is dropped.
   */
  method Identicon(n: int, digest: int -> nat) returns (icon: seq<Glyph>)
    ensures icon == IconOf(digest(n))
  {
    var h := digest(n);
    var div, mod := h / 2, h % 2;
    var bits := "";
    for i := 0 to 4
      invariant div == Shr(h, i + 1) && mod == Shr(h, i) % 2
      invariant bits == LowBits(h, i)
    {
      bits := bits + [BitChar(mod)];
      div, mod := div / 2, div % 2;
    }
    var block := Blocks[div % |Blocks|];
    LowBitsAt(h, 4);
    icon := Paint(bits, block);
  }

  /** Every coloured cell of an icon shows the same block, and that block is never white. */
  lemma OneBlockPerIcon(h: nat)
    ensures BlockOf(h) != White
    ensures forall i | 0 <= i < 4 :: IconOf(h)[i] in {White, BlockOf(h)}
  {
  }

  /**
   * Two digests give the same icon exactly when they agree on bits 0 to 3 and,
   * unless all four are clear, on the block.
   */
  lemma SameIcon(h1: nat, h2: nat)
    ensures IconOf(h1) == IconOf(h2) <==>
      && (forall i | 0 <= i < 4 :: Bit(h1, i) == Bit(h2, i))
      && ((forall i | 0 <= i < 4 :: !Bit(h1, i)) || BlockOf(h1) == BlockOf(h2))
  {
    var a, b := IconOf(h1), IconOf(h2);
    if a == b {
      forall i | 0 <= i < 4 ensures Bit(h1, i) == Bit(h2, i) {
        assert a[i] == b[i];
      }
      if i :| 0 <= i < 4 && Bit(h1, i) {
        assert a[i] == b[i];
      }
    } else {
      var i :| 0 <= i < 4 && a[i] != b[i];
    }
  }

  /** Adding 16 to a digest whose bit 4 is clear shifts right exactly as expected up to bit 4. */
  lemma {:induction false} ShrPlus16(h: nat, k: nat)
    requires k <= 4
    ensures Shr(h + 16, k) == Shr(h, k) + [16, 8, 4, 2, 1][k]
  {
    if k > 0 {
      ShrPlus16(h, k - 1);
    }
  }

  /** Bit 4 of the digest never shows: flipping it leaves the icon as it was. */
  lemma Bit4Ignored(h: nat)
    requires !Bit(h, 4)
    ensures IconOf(h + 16) == IconOf(h)
  {
    forall i | 0 <= i < 4 ensures Bit(h + 16, i) == Bit(h, i) {
      ShrPlus16(h, i);
    }
    ShrPlus16(h, 4);
    assert Shr(h + 16, 5) == Shr(h, 5);
  }
}
