/** `createMask`: turning a w-by-h image into a flat 0/1 feature vector, row
    after row. The colour read of the image library is abstracted as `nonBlack`,
    true when the pixel at (x, y) has a non-zero red, green or blue component. */
module Mask {

  /** Position of pixel (x, y) in the flat vector of a w-wide image. */
  function Index(w: nat, x: nat, y: nat): nat {
    y * w + x
  }

  /** Value of entry k of a w-wide mask: 1 for a non-black pixel, except that the
      scan starts at 1 in both directions, so row 0 and column 0 stay 0. */
  function MaskEntry(w: nat, k: nat, nonBlack: (int, int) -> bool): real
    requires w > 0
  {
    if k % w >= 1 && k / w >= 1 && nonBlack(k % w, k / w) then 1.0 else 0.0
  }

  /** The mask of a w-by-h image: w * h entries, each 0 or 1. */
  function Mask(w: nat, h: nat, nonBlack: (int, int) -> bool): (m: seq<real>)
    ensures |m| == w * h
    ensures forall k :: 0 <= k < |m| ==> m[k] == 0.0 || m[k] == 1.0
  {
    if w == 0 then [] else seq(w * h, k requires 0 <= k => MaskEntry(w, k, nonBlack))
  }

  /** A positive multiple of w is at least w. */
  lemma MulAtLeast(d: int, w: int)
    requires d >= 1 && w >= 0
    ensures d * w >= w
  {
    assert d * w == (d - 1) * w + w;
    assert (d - 1) * w >= 0;
  }

  /** The only multiple of a positive w strictly between -w and w is 0. */
  lemma ZeroMultiple(d: int, w: int)
    requires w > 0 && -w < d * w < w
    ensures d == 0
  {
    if d > 0 {
      MulAtLeast(d, w);
    } else if d < 0 {
      MulAtLeast(-d, w);
    }
  }

  /** Row and column of a position are recovered from it by division. */
  lemma IndexDivMod(w: nat, x: nat, y: nat)
    requires x < w
    ensures Index(w, x, y) / w == y && Index(w, x, y) % w == x
  {
    var k := Index(w, x, y);
    var q, s := k / w, k % w;
    assert q * w + s == y * w + x;
    assert (q - y) * w == x - s;
    ZeroMultiple(q - y, w);
  }

  /** A position inside a w-by-h image lies inside the mask. */
  lemma IndexInRange(w: nat, h: nat, x: nat, y: nat)
    requires x < w && y < h
    ensures Index(w, x, y) < w * h
  {
    assert y * w + x < (y + 1) * w;
    assert (y + 1) * w <= h * w;
  }

  /** Every entry of a w-by-h mask lies in one of its h rows. */
  lemma RowInRange(w: nat, h: nat, k: nat)
    requires k < w * h
    ensures w > 0 && k / w < h
  {
    var q := k / w;
    assert q * w <= k;
    if q >= h {
      MulAtLeast(q - h + 1, w);
    }
  }

  /** Entry (x, y) of the mask is 1 exactly when x >= 1, y >= 1 and the pixel is
      non-black, and 0 otherwise. */
  lemma MaskAt(w: nat, h: nat, nonBlack: (int, int) -> bool, x: nat, y: nat)
    requires x < w && y < h
    ensures Index(w, x, y) < |Mask(w, h, nonBlack)|
    ensures Mask(w, h, nonBlack)[Index(w, x, y)] ==
              if 1 <= x && 1 <= y && nonBlack(x, y) then 1.0 else 0.0
  {
    IndexInRange(w, h, x, y);
    IndexDivMod(w, x, y);
  }

  /** Every entry in row 0 or column 0 of the mask is 0, whatever the image. */
  lemma MaskBorder(w: nat, h: nat, nonBlack: (int, int) -> bool)
    ensures forall x :: 0 <= x < w && 0 < h ==> Mask(w, h, nonBlack)[Index(w, x, 0)] == 0.0
    ensures forall y :: 0 <= y < h && 0 < w ==> Mask(w, h, nonBlack)[Index(w, 0, y)] == 0.0
  {
    forall x | 0 <= x < w && 0 < h
      ensures Index(w, x, 0) < |Mask(w, h, nonBlack)| && Mask(w, h, nonBlack)[Index(w, x, 0)] == 0.0
    {
      MaskAt(w, h, nonBlack, x, 0);
    }
    forall y | 0 <= y < h && 0 < w
      ensures Index(w, 0, y) < |Mask(w, h, nonBlack)| && Mask(w, h, nonBlack)[Index(w, 0, y)] == 0.0
    {
      MaskAt(w, h, nonBlack, 0, y);
    }
  }

  /** Value of entry k while the scan is at pixel (x, y): entries already
      scanned hold their mask value, the others still hold the initial 0. */
  ghost function Scanned(w: nat, k: nat, x: nat, y: nat, nonBlack: (int, int) -> bool): real
    requires w > 0
  {
    if k / w < y || (k / w == y && k % w < x) then MaskEntry(w, k, nonBlack) else 0.0
  }

  /** Scanning pixel (x, y) gives entry y * w + x its mask value and leaves every
      other entry as it was. */
  lemma ScanPixel(w: nat, k: nat, x: nat, y: nat, nonBlack: (int, int) -> bool)
    requires 1 <= x < w && 1 <= y
    ensures Scanned(w, k, x + 1, y, nonBlack) ==
              if k == Index(w, x, y) then (if nonBlack(x, y) then 1.0 else 0.0)
              else Scanned(w, k, x, y, nonBlack)
  {
    IndexDivMod(w, x, y);
    if k != Index(w, x, y) {
      assert k == (k / w) * w + k % w;
    }
  }

  /** Column 0 is never scanned, and its entries are 0 in the mask anyway. */
  lemma ScanRowStart(w: nat, k: nat, y: nat, nonBlack: (int, int) -> bool)
    requires w > 0
    ensures Scanned(w, k, 1, y, nonBlack) == Scanned(w, k, 0, y, nonBlack)
  {
  }

  /** Having scanned a whole row is having scanned up to the start of the next. */
  lemma ScanRowEnd(w: nat, k: nat, y: nat, nonBlack: (int, int) -> bool)
    requires w > 0
    ensures Scanned(w, k, w, y, nonBlack) == Scanned(w, k, 0, y + 1, nonBlack)
  {
  }

  /** `createMask`: a zero-filled vector of w * h entries, with the pixels of
      rows 1..h-1 and columns 1..w-1 tested in row order. */
  method CreateMask(w: nat, h: nat, nonBlack: (int, int) -> bool) returns (sprite: seq<real>)
    ensures sprite == Mask(w, h, nonBlack)
  {
    var a := new real[w * h](_ => 0.0);
    var y := 1;
    while y < h
      invariant 1 <= y && (y <= h || h == 0)
      invariant forall k :: 0 <= k < a.Length ==> w > 0 && a[k] == Scanned(w, k, 0, y, nonBlack)
    {
      forall k | 0 <= k < a.Length
        ensures a[k] == Scanned(w, k, 1, y, nonBlack)
      {
        ScanRowStart(w, k, y, nonBlack);
      }
      var x := 1;
      while x < w
        invariant 1 <= x && (x <= w || w == 0)
        invariant forall k :: 0 <= k < a.Length ==> w > 0 && a[k] == Scanned(w, k, x, y, nonBlack)
      {
        IndexInRange(w, h, x, y);
        if nonBlack(x, y) {
          a[y * w + x] := 1.0;
        }
        forall k | 0 <= k < a.Length
          ensures a[k] == Scanned(w, k, x + 1, y, nonBlack)
        {
          ScanPixel(w, k, x, y, nonBlack);
        }
        x := x + 1;
      }
      forall k | 0 <= k < a.Length
        ensures a[k] == Scanned(w, k, 0, y + 1, nonBlack)
      {
        ScanRowEnd(w, k, y, nonBlack);
      }
      y := y + 1;
    }
    forall k | 0 <= k < a.Length
      ensures a[k] == Mask(w, h, nonBlack)[k]
    {
      RowInRange(w, h, k);
    }
    sprite := a[..];
  }
}
