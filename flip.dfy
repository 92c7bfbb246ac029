/** The client's in-place vertical flip of a decoded image. Pixels are
    addressed `img[x, y]` relative to the image's bounds, so row `y` of the
    array is row `Min.Y + y` of the image. */
module Image {

  /** `s` back to front. */
  function Reversed<T>(s: seq<T>): (r: seq<T>)
    ensures |r| == |s|
    ensures forall i :: 0 <= i < |s| ==> r[i] == s[|s| - 1 - i]
  {
    if |s| == 0 then [] else Reversed(s[1..]) + [s[0]]
  }

  /** Reversing twice gives the original back. */
  lemma ReversedTwice<T>(s: seq<T>)
    ensures Reversed(Reversed(s)) == s
  {
  }

  /** Reversing keeps every element with its multiplicity. */
  lemma {:induction false} ReversedMultiset<T>(s: seq<T>)
    ensures multiset(Reversed(s)) == multiset(s)
    decreases |s|
  {
    if |s| > 0 {
      ReversedMultiset(s[1..]);
      assert s == [s[0]] + s[1..];
    }
  }

  /** Column `x` of the image, top row first. */
  function Column<C>(img: array2<C>, x: int): seq<C>
    requires 0 <= x < img.Length0
    reads img
  {
    seq(img.Length1, y requires 0 <= y < img.Length1 reads img => img[x, y])
  }

  /** Flips an image whose bounds start at row 0: row `y` and row
      `height - 1 - y` trade places in every column; with an odd height the
      middle row stays. */
  method FlipY<C>(img: array2<C>)
    modifies img
    ensures forall x, y :: 0 <= x < img.Length0 && 0 <= y < img.Length1 ==> img[x, y] == old(img[x, img.Length1 - 1 - y])
    ensures forall x :: 0 <= x < img.Length0 ==> Column(img, x) == Reversed(old(Column(img, x)))
  {
    var h := img.Length1;
    var midY := h / 2;
    var x := 0;
    while x < img.Length0
      invariant 0 <= x <= img.Length0
      invariant forall x', y :: 0 <= x' < x && 0 <= y < h ==> img[x', y] == old(img[x', h - 1 - y])
      invariant forall x', y :: x <= x' < img.Length0 && 0 <= y < h ==> img[x', y] == old(img[x', y])
    {
      var y1 := 0;
      while y1 < midY
        invariant 0 <= y1 <= midY
        invariant forall x', y :: 0 <= x' < x && 0 <= y < h ==> img[x', y] == old(img[x', h - 1 - y])
        invariant forall x', y :: x < x' < img.Length0 && 0 <= y < h ==> img[x', y] == old(img[x', y])
        invariant forall y :: (0 <= y < y1 || h - 1 - y1 < y < h) ==> img[x, y] == old(img[x, h - 1 - y])
        invariant forall y :: y1 <= y <= h - 1 - y1 ==> img[x, y] == old(img[x, y])
      {
        var y2 := h - y1 - 1;
        var c1 := img[x, y1];
        var c2 := img[x, y2];
        img[x, y1] := c2;
        img[x, y2] := c1;
        y1 := y1 + 1;
      }
      x := x + 1;
    }
    forall x | 0 <= x < img.Length0
      ensures Column(img, x) == Reversed(old(Column(img, x)))
    {
      FlipColumn(old(Column(img, x)), Column(img, x));
    }
  }

  /** Column by column, the flip reverses the image, so each column keeps
      its colours and flipping twice restores the image. */
  lemma FlipColumn<C>(before: seq<C>, after: seq<C>)
    requires |after| == |before|
    requires forall y :: 0 <= y < |after| ==> after[y] == before[|before| - 1 - y]
    ensures after == Reversed(before)
    ensures multiset(after) == multiset(before)
    ensures Reversed(after) == before
  {
    ReversedMultiset(before);
    ReversedTwice(before);
  }

  /** Rows swapped, as written, for an image of height `h` whose bounds
      start at row `minY >= 0`: the loop runs over absolute rows
      `minY <= y1 < h / 2` (half the height, not the middle row), pairing
      each with absolute row `minY + h - 1 - y1`. */
  function SwappedPairs(h: nat, minY: nat): nat
  {
    if h / 2 > minY then h / 2 - minY else 0
  }

  /** Row `r` (relative to the bounds) is one the as-written loop swaps. */
  predicate SwappedRow(h: nat, minY: nat, r: int)
  {
    var k := SwappedPairs(h, minY);
    0 <= r < k || h - minY - k <= r <= h - 1 - minY
  }

  /** Where row `r` (relative to the bounds) of the as-written result comes from. */
  function AsWrittenSource(h: nat, minY: nat, r: int): int
  {
    if SwappedRow(h, minY, r) then h - 1 - minY - r else r
  }

  /** The flip as written, for bounds starting at row `minY`: each pixel ends
      up taken from row AsWrittenSource of the same column. */
  method FlipYAsWritten<C>(img: array2<C>, minY: nat)
    modifies img
    ensures forall y :: 0 <= y < img.Length1 ==> 0 <= AsWrittenSource(img.Length1, minY, y) < img.Length1
    ensures forall x, y :: 0 <= x < img.Length0 && 0 <= y < img.Length1 ==>
              img[x, y] == old(img[x, AsWrittenSource(img.Length1, minY, y)])
  {
    var h: nat := img.Length1;
    var x := 0;
    while x < img.Length0
      invariant 0 <= x <= img.Length0
      invariant forall x', y :: 0 <= x' < x && 0 <= y < h && SwappedRow(h, minY, y) ==>
                  img[x', y] == old(img[x', h - 1 - minY - y])
      invariant forall x', y :: 0 <= x' < x && 0 <= y < h && !SwappedRow(h, minY, y) ==>
                  img[x', y] == old(img[x', y])
      invariant forall x', y :: x <= x' < img.Length0 && 0 <= y < h ==> img[x', y] == old(img[x', y])
    {
      FlipColumnAsWritten(img, x, minY);
      x := x + 1;
    }
    forall x, y | 0 <= x < img.Length0 && 0 <= y < img.Length1
      ensures 0 <= AsWrittenSource(img.Length1, minY, y) < img.Length1
      ensures img[x, y] == old(img[x, AsWrittenSource(img.Length1, minY, y)])
    {
      assert h == img.Length1;
    }
  }

  /** The inner loop as written, on column `x`: relative rows `y1 - minY`
      and `h - 1 - y1` trade places for absolute rows `minY <= y1 < h / 2`. */
  method FlipColumnAsWritten<C>(img: array2<C>, x: nat, minY: nat)
    requires x < img.Length0
    modifies img
    ensures forall y :: 0 <= y < img.Length1 && SwappedRow(img.Length1, minY, y) ==>
              img[x, y] == old(img[x, img.Length1 - 1 - minY - y])
    ensures forall y :: 0 <= y < img.Length1 && !SwappedRow(img.Length1, minY, y) ==>
              img[x, y] == old(img[x, y])
    ensures forall x', y :: 0 <= x' < img.Length0 && x' != x && 0 <= y < img.Length1 ==>
              img[x', y] == old(img[x', y])
  {
    var h: nat := img.Length1;
    var midY := h / 2;
    var k := SwappedPairs(h, minY);
    var y1 := minY;
    while y1 < midY
      invariant minY <= y1 && (y1 <= midY || y1 == minY)
      invariant forall y :: (0 <= y < y1 - minY || h - 1 - y1 < y <= h - 1 - minY) ==> img[x, y] == old(img[x, h - 1 - minY - y])
      invariant forall y :: 0 <= y < h && !(0 <= y < y1 - minY || h - 1 - y1 < y <= h - 1 - minY) ==> img[x, y] == old(img[x, y])
      invariant forall x', y :: 0 <= x' < img.Length0 && x' != x && 0 <= y < h ==> img[x', y] == old(img[x', y])
    {
      var r1 := y1 - minY;
      var r2 := (minY + h) - y1 - 1 - minY;
      var c1 := img[x, r1];
      var c2 := img[x, r2];
      img[x, r1] := c2;
      img[x, r2] := c1;
      y1 := y1 + 1;
    }
    assert y1 - minY == k;
  }

  /** For bounds starting at row 0, the as-written flip is the flip. */
  lemma AsWrittenAtOrigin(h: nat, r: int)
    requires 0 <= r < h
    ensures AsWrittenSource(h, 0, r) == h - 1 - r
  {
  }

  /** For a 4-row image whose bounds start at row 1, the as-written loop
      swaps only rows 0 and 2 (relative), so the top row receives the third
      row instead of the bottom one. */
  lemma AsWrittenMisflips()
    ensures AsWrittenSource(4, 1, 0) == 2 && 4 - 1 - 0 == 3
    ensures AsWrittenSource(4, 1, 1) == 1 && AsWrittenSource(4, 1, 3) == 3
  {
  }
}
