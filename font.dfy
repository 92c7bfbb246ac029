/** Text rendering on the client: each character of a string becomes one
    textured quad (four vertices, two triangles) whose texture range
    selects the character's cell in a one-row glyph atlas. */
module Font {
  /** The atlas holds the printable ASCII characters [FontFirst, FontPastEnd). */
  const FontFirst: int := 32
  const FontPastEnd: int := 127
  const FontCount: int := FontPastEnd - FontFirst

  /** Index arithmetic is on unsigned 32-bit integers. */
  const Uint32Modulus: int := 0x1_0000_0000

  /** A Unicode code point, as produced by ranging over a UTF-8 string. */
  type Rune = r: int | 0 <= r < 0x11_0000

  /** Number of bytes of the UTF-8 encoding of `r`. */
  function RuneLen(r: Rune): (n: int)
    ensures 1 <= n <= 4
    ensures n == 1 <==> r < 0x80
  {
    if r < 0x80 then 1 else if r < 0x800 then 2 else if r < 0x1_0000 then 3 else 4
  }

  /** Number of bytes of the UTF-8 encoding of `s`. */
  function ByteLen(s: seq<Rune>): (n: nat)
    ensures |s| <= n
  {
    if |s| == 0 then 0 else ByteLen(s[..|s| - 1]) + RuneLen(s[|s| - 1])
  }

  predicate Ascii(s: seq<Rune>)
  {
    forall k :: 0 <= k < |s| ==> s[k] < 0x80
  }

  /** For ASCII text byte offsets and character positions coincide. */
  lemma {:induction false} ByteLenAscii(s: seq<Rune>)
    requires Ascii(s)
    ensures ByteLen(s) == |s|
  {
    if |s| > 0 {
      assert Ascii(s[..|s| - 1]);
      ByteLenAscii(s[..|s| - 1]);
    }
  }

  /** Wrap-around to unsigned 32 bits. */
  function U32(x: int): (r: int)
    ensures 0 <= r < Uint32Modulus
    ensures 0 <= x < Uint32Modulus ==> r == x
  {
    x % Uint32Modulus
  }

  /** Texture coordinate of the left edge of atlas cell `c`: c units of 1/FontCount. */
  function TexS(c: int): real
  {
    c as real * (1.0 / FontCount as real)
  }

  /** The quad of a character `b` at byte offset `i`: four vertices of
      (x, y, z, s, t), top-left, bottom-left, bottom-right, top-right. */
  function Quad(i: int, b: Rune): seq<real>
  {
    var x1 := i as real;
    var x2 := x1 + 1.0;
    var s1 := TexS(b - FontFirst);
    var s2 := TexS(b - FontFirst + 1);
    [ x1, 1.0, 0.0, s1, 1.0,
      x1, 0.0, 0.0, s1, 0.0,
      x2, 0.0, 0.0, s2, 0.0,
      x2, 1.0, 0.0, s2, 1.0 ]
  }

  /** The two triangles of the quad at byte offset `i`, as vertex indices. */
  function QuadIndices(i: int): seq<int>
  {
    var j := U32(4 * U32(i));
    [U32(j), U32(j + 1), U32(j + 2), U32(j + 2), U32(j + 3), U32(j)]
  }

  /** The two triangles (j, j+1, j+2) and (j+2, j+3, j) over vertices j .. j+3. */
  function Triangles(j: int): seq<int>
  {
    [j, j + 1, j + 2, j + 2, j + 3, j]
  }

  /** The vertex array written for `s`. */
  function VerticesOf(s: seq<Rune>): seq<real>
  {
    if |s| == 0 then []
    else VerticesOf(s[..|s| - 1]) + Quad(ByteLen(s[..|s| - 1]), s[|s| - 1])
  }

  /** The index array written for `s`. */
  function IndicesOf(s: seq<Rune>): seq<int>
  {
    if |s| == 0 then []
    else IndicesOf(s[..|s| - 1]) + QuadIndices(ByteLen(s[..|s| - 1]))
  }

  /** Five floats per vertex, four vertices and six indices per character. */
  lemma {:induction false} WriteSizes(s: seq<Rune>)
    ensures |VerticesOf(s)| == 20 * |s|
    ensures |IndicesOf(s)| == 6 * |s|
  {
    if |s| > 0 {
      WriteSizes(s[..|s| - 1]);
    }
  }

  /** A window of a concatenation that lies in one of its parts. */
  lemma SliceOfConcat<T>(a: seq<T>, b: seq<T>, lo: nat, hi: nat)
    requires lo <= hi <= |a| + |b|
    ensures hi <= |a| ==> (a + b)[lo..hi] == a[lo..hi]
    ensures lo == |a| ==> (a + b)[lo..hi] == b[..hi - lo]
  {
    if hi <= |a| {
      assert forall t :: lo <= t < hi ==> (a + b)[t] == a[t];
    }
    if lo == |a| {
      assert forall t :: lo <= t < hi ==> (a + b)[t] == b[t - lo];
    }
  }

  /** The vertex array of a prefix of the text is a prefix of the vertex array. */
  lemma {:induction false} VerticesPrefix(s: seq<Rune>, m: nat)
    requires m <= |s|
    ensures VerticesOf(s[..m]) <= VerticesOf(s)
    decreases |s|
  {
    if m < |s| {
      var init := s[..|s| - 1];
      assert s[..m] == init[..m];
      VerticesPrefix(init, m);
      assert VerticesOf(s) == VerticesOf(init) + Quad(ByteLen(init), s[|s| - 1]);
    } else {
      assert s[..m] == s;
    }
  }

  /** For ASCII text, character `k` owns floats [20k, 20k+20): its quad. */
  lemma VerticesAt(s: seq<Rune>, k: nat)
    requires Ascii(s) && k < |s|
    ensures |VerticesOf(s)| == 20 * |s|
    ensures VerticesOf(s)[20 * k .. 20 * k + 20] == Quad(k, s[k])
  {
    var pre := s[..k + 1];
    assert Ascii(pre) && |pre| == k + 1 && pre[k] == s[k];
    VerticesLast(pre, k);
    VerticesPrefix(s, k + 1);
    WriteSizes(s);
    PrefixSlice(VerticesOf(pre), VerticesOf(s), 20 * k, 20 * k + 20);
  }

  /** A window inside a prefix is the same window of the whole sequence. */
  lemma PrefixSlice<T>(a: seq<T>, b: seq<T>, lo: nat, hi: nat)
    requires a <= b && lo <= hi <= |a|
    ensures b[lo..hi] == a[lo..hi]
  {
    assert forall t :: lo <= t < hi ==> b[t] == a[t];
  }

  /** For ASCII text the last character, `k`, has its quad at the end of the vertex array. */
  lemma VerticesLast(s: seq<Rune>, k: nat)
    requires Ascii(s) && |s| == k + 1
    ensures |VerticesOf(s)| == 20 * k + 20
    ensures VerticesOf(s)[20 * k .. 20 * k + 20] == Quad(k, s[k])
  {
    var init := s[..k];
    WriteSizes(s);
    WriteSizes(init);
    assert Ascii(init);
    ByteLenAscii(init);
    var q := Quad(k, s[k]);
    assert |q| == 20;
    assert VerticesOf(s) == VerticesOf(init) + q;
    SliceOfConcat(VerticesOf(init), q, 20 * k, 20 * k + 20);
    assert q[..20] == q;
  }

  /** Character `k` of ASCII text is drawn over x in [k, k+1], y in [0, 1], at z = 0. */
  lemma GlyphCell(s: seq<Rune>, k: nat)
    requires Ascii(s) && k < |s|
    ensures |VerticesOf(s)| == 20 * |s|
    ensures var q := VerticesOf(s)[20 * k .. 20 * k + 20];
      q[0] == q[5] == k as real && q[10] == q[15] == (k + 1) as real &&
      q[1] == q[16] == 1.0 && q[6] == q[11] == 0.0 &&
      q[2] == q[7] == q[12] == q[17] == 0.0
  {
    VerticesAt(s, k);
    QuadCell(k, s[k]);
  }

  /** The quad at offset `i` is the unit square [i, i+1] x [0, 1] in the z = 0 plane. */
  lemma QuadCell(i: int, b: Rune)
    ensures var q := Quad(i, b);
      |q| == 20 &&
      q[0] == q[5] == i as real && q[10] == q[15] == (i + 1) as real &&
      q[1] == q[16] == 1.0 && q[6] == q[11] == 0.0 &&
      q[2] == q[7] == q[12] == q[17] == 0.0
  {
  }

  /** A character of the atlas gets a texture range [s1, s2] of width
      1/FontCount inside [0, 1]. */
  lemma TexRange(i: int, b: Rune)
    requires FontFirst <= b < FontPastEnd
    ensures var q := Quad(i, b);
      0.0 <= q[3] < q[13] <= 1.0 && q[3] == q[8] && q[13] == q[18] &&
      q[13] - q[3] == 1.0 / FontCount as real
  {
    var c := b - FontFirst;
    assert TexS(c + 1) - TexS(c) == 1.0 / FontCount as real;
    assert TexS(c + 1) <= TexS(FontCount);
  }

  /** For ASCII text, character `k` owns indices [6k, 6k+6): its two triangles
      over vertices 4k .. 4k+3. */
  lemma {:induction false} IndicesAt(s: seq<Rune>, k: nat)
    requires Ascii(s) && k < |s| && 4 * |s| <= Uint32Modulus
    ensures |IndicesOf(s)| == 6 * |s|
    ensures IndicesOf(s)[6 * k .. 6 * k + 6] == Triangles(4 * k)
  {
    var n := |s|;
    WriteSizes(s);
    if k < n - 1 {
      var init := s[..n - 1];
      WriteSizes(init);
      assert Ascii(init);
      assert IndicesOf(s) == IndicesOf(init) + QuadIndices(ByteLen(init));
      SliceOfConcat(IndicesOf(init), QuadIndices(ByteLen(init)), 6 * k, 6 * k + 6);
      IndicesAt(init, k);
    } else {
      IndicesLast(s);
    }
  }

  /** The last character's indices of ASCII text. */
  lemma IndicesLast(s: seq<Rune>)
    requires Ascii(s) && 0 < |s| && 4 * |s| <= Uint32Modulus
    ensures |IndicesOf(s)| == 6 * |s|
    ensures var k := |s| - 1;
      IndicesOf(s)[6 * k .. 6 * k + 6] == Triangles(4 * k)
  {
    var k := |s| - 1;
    assert Ascii(s[..k]);
    ByteLenAscii(s[..k]);
    LastQuadIndices(s);
    QuadIndicesNoWrap(k);
  }

  /** The last six indices are the quad indices at the last character's byte offset. */
  lemma LastQuadIndices(s: seq<Rune>)
    requires 0 < |s|
    ensures |IndicesOf(s)| == 6 * |s|
    ensures var k := |s| - 1;
      IndicesOf(s)[6 * k .. 6 * k + 6] == QuadIndices(ByteLen(s[..k]))
  {
    var k := |s| - 1;
    var init := s[..k];
    var q := QuadIndices(ByteLen(init));
    WriteSizes(s);
    WriteSizes(init);
    assert IndicesOf(s) == IndicesOf(init) + q;
    SliceOfConcat(IndicesOf(init), q, 6 * k, 6 * k + 6);
    assert q[..6] == q;
  }

  /** Away from the 32-bit limit the quad's indices do not wrap. */
  lemma QuadIndicesNoWrap(i: nat)
    requires 4 * i + 4 <= Uint32Modulus
    ensures QuadIndices(i) == Triangles(4 * i)
  {
  }

  /** For ASCII text every index names one of the 4|s| vertices written. */
  lemma IndicesInRange(s: seq<Rune>)
    requires Ascii(s) && 4 * |s| <= Uint32Modulus
    ensures forall x :: x in IndicesOf(s) ==> 0 <= x < 4 * |s|
  {
    WriteSizes(s);
    forall x | x in IndicesOf(s)
      ensures 0 <= x < 4 * |s|
    {
      var p :| 0 <= p < |IndicesOf(s)| && IndicesOf(s)[p] == x;
      var k, t := SplitSix(p, |s|);
      IndexAt(s, k, t);
    }
  }

  /** Position `p` among `6n` splits into character `k < n` and slot `t < 6`. */
  lemma SplitSix(p: nat, n: nat) returns (k: nat, t: nat)
    requires p < 6 * n
    ensures p == 6 * k + t && t < 6 && k < n
  {
    k, t := p / 6, p % 6;
  }

  /** Index `t` of character `k`'s six lies among its four vertices. */
  lemma IndexAt(s: seq<Rune>, k: nat, t: nat)
    requires Ascii(s) && k < |s| && t < 6 && 4 * |s| <= Uint32Modulus
    ensures 6 * k + t < |IndicesOf(s)|
    ensures 4 * k <= IndicesOf(s)[6 * k + t] <= 4 * k + 3
  {
    IndicesAt(s, k);
    assert IndicesOf(s)[6 * k + t] == IndicesOf(s)[6 * k .. 6 * k + 6][t];
  }

  /** Without the ASCII condition the indices can overrun: for "éa" the
      second quad is placed at byte offset 2 and names vertex 10 of only 8. */
  lemma NonAsciiOverrun()
    ensures var s: seq<Rune> := [0xE9, 0x61];
      |VerticesOf(s)| / 5 == 8 && 10 in IndicesOf(s)
  {
    var s: seq<Rune> := [0xE9, 0x61];
    WriteSizes(s);
    assert s[..1] == [0xE9];
    assert [0xE9][..0] == [];
    assert ByteLen(s[..1]) == 2;
    assert IndicesOf(s)[8] == 10;
  }

  /** The text object: how many indices to draw and the contents of its
      vertex and index buffers. */
  class FontAtlas {
    var elemCount: int
    var vertices: seq<real>
    var elements: seq<int>

    constructor()
      ensures elemCount == 0 && vertices == [] && elements == []
    {
      elemCount := 0;
      vertices := [];
      elements := [];
    }

    /** Replace the displayed text by `s`. */
    method Write(s: seq<Rune>)
      modifies this
      ensures vertices == VerticesOf(s) && elements == IndicesOf(s)
      ensures elemCount == |elements| == 6 * |s|
    {
      var v: seq<real> := [];
      var e: seq<int> := [];
      var k := 0;
      var i := 0;
      while k < |s|
        invariant 0 <= k <= |s|
        invariant i == ByteLen(s[..k])
        invariant v == VerticesOf(s[..k]) && e == IndicesOf(s[..k])
      {
        var b := s[k];
        assert s[..k + 1][..k] == s[..k] && s[..k + 1][k] == b;
        v := v + Quad(i, b);
        e := e + QuadIndices(i);
        i := i + RuneLen(b);
        k := k + 1;
      }
      assert s[..k] == s;
      WriteSizes(s);
      elemCount := |e|;
      vertices := v;
      elements := e;
    }
  }

  /** The glyph string rendered into the atlas: every character of the
      atlas once, in ascending order. */
  method GlyphString() returns (str: seq<int>)
    ensures |str| == FontCount
    ensures forall k :: 0 <= k < |str| ==> str[k] == FontFirst + k
  {
    str := [];
    var i := FontFirst;
    while i < FontPastEnd
      invariant FontFirst <= i <= FontPastEnd
      invariant |str| == i - FontFirst
      invariant forall k :: 0 <= k < |str| ==> str[k] == FontFirst + k
    {
      str := str + [i % 256];
      i := i + 1;
    }
  }
}
