/** The integer part of the UV-sphere mesh that a point light is drawn with
    (Window/light.cpp, Light::Init): how many vertices and faces the sphere
    has, which vertex slot each latitude/longitude pair lands in, and the
    index list that stitches the top cap, the middle bands and the bottom
    cap into triangles.

    The source builds the sphere with the literal sizes LatLines = 10 and
    LongLines = 10; the generators below take the two sizes as parameters
    and are proved with unbounded integers for every LatLines >= 3 and
    LongLines >= 1. At 10 by 10 none of the source's signed or unsigned
    counters and products can wrap around. Vertex positions are floating point
    and are not modelled; a vertex slot only records which vertex of the
    sphere it holds. */
module SphereMesh {

  /** `a` copies of `b` added up. Ring arithmetic is written with it so
      that the proofs about whole rings stay linear; TimesIsMul ties it to
      the product the source computes. */
  function Times(a: nat, b: nat): nat
  {
    if a == 0 then 0 else Times(a - 1, b) + b
  }

  lemma {:induction false} TimesIsMul(a: nat, b: nat)
    ensures Times(a, b) == a * b
  {
    if a > 0 {
      TimesIsMul(a - 1, b);
      assert (a - 1) * b + b == a * b;
    }
  }

  lemma {:induction false} TimesMono(a: nat, a': nat, b: nat)
    requires a <= a'
    ensures Times(a, b) <= Times(a', b)
  {
    if a < a' {
      TimesMono(a, a' - 1, b);
    }
  }

  /** Vertex count: LatLines - 2 rings of LongLines vertices, plus the two poles. */
  function NumVertices(latLines: nat, longLines: nat): nat
    requires latLines >= 2
  {
    Times(latLines - 2, longLines) + 2
  }

  /** Face count: two triangles per quad in each of the LatLines - 3 bands
      between rings, plus a fan of LongLines triangles at each pole. */
  function NumFaces(latLines: nat, longLines: nat): nat
    requires latLines >= 3
  {
    Times(latLines - 3, longLines) * 2 + longLines * 2
  }

  /** The two counts are the products the source computes. */
  lemma CountsMatchSource(latLines: nat, longLines: nat)
    requires latLines >= 3
    ensures NumVertices(latLines, longLines) == (latLines - 2) * longLines + 2
    ensures NumFaces(latLines, longLines) == (latLines - 3) * longLines * 2 + longLines * 2
  {
    TimesIsMul(latLines - 2, longLines);
    TimesIsMul(latLines - 3, longLines);
  }

  /** The sphere has two faces per ring vertex, and room for a fan of
      LongLines vertices around each pole. */
  lemma CountsByRings(latLines: nat, longLines: nat)
    requires latLines >= 3
    ensures NumFaces(latLines, longLines) == 2 * Times(latLines - 2, longLines)
    ensures longLines + 2 <= NumVertices(latLines, longLines)
  {
    assert Times(latLines - 2, longLines) == Times(latLines - 3, longLines) + longLines;
    TimesMono(1, latLines - 2, longLines);
  }

  /** Slot of the vertex on ring `i`, longitude `j`: i * LongLines + j + 1. */
  function RingSlot(longLines: nat, i: nat, j: nat): nat
  {
    Times(i, longLines) + j + 1
  }

  /** Distinct (ring, longitude) pairs land in distinct vertex slots. */
  lemma {:induction false} RingSlotInjective(longLines: nat, i: nat, j: nat, i': nat, j': nat)
    requires j < longLines && j' < longLines
    requires RingSlot(longLines, i, j) == RingSlot(longLines, i', j')
    ensures i == i' && j == j'
  {
    if i < i' {
      TimesMono(i + 1, i', longLines);
      assert false;
    } else if i' < i {
      TimesMono(i' + 1, i, longLines);
      assert false;
    }
  }

  /** The slots of the first `rings` rings lie in 1 .. rings * LongLines. */
  lemma {:induction false} RingSlotBetweenPoles(rings: nat, longLines: nat, i: nat, j: nat)
    requires i < rings && j < longLines
    ensures 1 <= RingSlot(longLines, i, j) <= Times(rings, longLines)
  {
    TimesMono(i + 1, rings, longLines);
  }

  /** What one slot of the vertex array holds. `Unwritten` is a slot that
      nobody has written. */
  datatype VertexSlot = Unwritten | NorthPole | Ring(ring: nat, longitude: nat) | SouthPole

  /** Slot `p` holds the ring vertex, among the first `rings` rings, whose slot is `p`. */
  ghost predicate RingVertexAt(v: seq<VertexSlot>, rings: nat, longLines: nat, p: nat)
    requires p < |v|
  {
    v[p].Ring? && v[p].ring < rings && v[p].longitude < longLines &&
    RingSlot(longLines, v[p].ring, v[p].longitude) == p
  }

  /** If every slot between the poles holds the ring vertex whose slot it
      is, then every ring vertex sits in its own slot. */
  lemma RingSlotsFilled(v: seq<VertexSlot>, rings: nat, longLines: nat)
    requires |v| == Times(rings, longLines) + 2
    requires forall p :: 0 < p < |v| - 1 ==> RingVertexAt(v, rings, longLines, p)
    ensures forall i, j :: 0 <= i < rings && 0 <= j < longLines ==>
              RingSlot(longLines, i, j) < |v| - 1 && v[RingSlot(longLines, i, j)] == Ring(i, j)
  {
    forall i, j | 0 <= i < rings && 0 <= j < longLines
      ensures RingSlot(longLines, i, j) < |v| - 1 && v[RingSlot(longLines, i, j)] == Ring(i, j)
    {
      var p := RingSlot(longLines, i, j);
      RingSlotBetweenPoles(rings, longLines, i, j);
      assert RingVertexAt(v, rings, longLines, p);
      RingSlotInjective(longLines, i, j, v[p].ring, v[p].longitude);
    }
  }

  /** Fills the vertex array as the source does: the north pole at slot 0,
      ring `i`, longitude `j` at slot i * LongLines + j + 1, and the south
      pole at the last slot. Afterwards every slot between the poles holds
      the ring vertex whose slot it is and every ring vertex sits in its
      own slot, so the ring slots cover that range exactly, each once. */
  method LayoutSphereVertices(latLines: nat, longLines: nat) returns (vertices: array<VertexSlot>)
    requires latLines >= 3
    ensures fresh(vertices)
    ensures vertices.Length == NumVertices(latLines, longLines)
    ensures vertices[0] == NorthPole && vertices[vertices.Length - 1] == SouthPole
    ensures forall i, j :: 0 <= i < latLines - 2 && 0 <= j < longLines ==>
              RingSlot(longLines, i, j) < vertices.Length - 1 && vertices[RingSlot(longLines, i, j)] == Ring(i, j)
    ensures forall p :: 0 < p < vertices.Length - 1 ==>
              vertices[p].Ring? && vertices[p].ring < latLines - 2 && vertices[p].longitude < longLines &&
              RingSlot(longLines, vertices[p].ring, vertices[p].longitude) == p
  {
    var numVertices := NumVertices(latLines, longLines);
    CountsByRings(latLines, longLines);
    vertices := new VertexSlot[numVertices];
    vertices[0] := NorthPole;
    var i := 0;
    ghost var rowStart := 0;
    while i < latLines - 2
      invariant 0 <= i <= latLines - 2
      invariant rowStart == Times(i, longLines)
      invariant rowStart + 2 <= numVertices
      invariant vertices[0] == NorthPole
      invariant forall p :: 0 < p < rowStart + 1 ==> RingVertexAt(vertices[..], i, longLines, p)
    {
      TimesMono(i + 1, latLines - 2, longLines);
      TimesIsMul(i, longLines);
      assert rowStart + longLines + 2 <= numVertices;
      ghost var rings := i + 1;
      forall p | 0 < p < rowStart + 1 ensures RingVertexAt(vertices[..], rings, longLines, p) {
        assert RingVertexAt(vertices[..], i, longLines, p);
      }
      var j := 0;
      while j < longLines
        invariant 0 <= j <= longLines
        invariant vertices[0] == NorthPole
        invariant forall p :: 0 < p < rowStart + j + 1 ==> RingVertexAt(vertices[..], rings, longLines, p)
      {
        ghost var before := vertices[..];
        vertices[i * longLines + j + 1] := Ring(i, j);
        forall p | 0 < p < rowStart + j + 2
          ensures RingVertexAt(vertices[..], rings, longLines, p)
        {
          if p < rowStart + j + 1 {
            assert RingVertexAt(before, rings, longLines, p);
          }
        }
        j := j + 1;
      }
      i := i + 1;
      rowStart := rowStart + longLines;
    }
    ghost var before := vertices[..];
    vertices[numVertices - 1] := SouthPole;
    forall p | 0 < p < numVertices - 1
      ensures RingVertexAt(vertices[..], i, longLines, p)
      ensures vertices[p].Ring? && vertices[p].ring < latLines - 2 && vertices[p].longitude < longLines &&
              RingSlot(longLines, vertices[p].ring, vertices[p].longitude) == p
    {
      assert RingVertexAt(before, i, longLines, p);
    }
    RingSlotsFilled(vertices[..], i, longLines);
  }

  // ----- The index list, as a specification -----

  /** Triangle `i` of the fan around the north pole (vertex 0). The last
      one closes the fan back to the first ring vertex. */
  function TopTriangle(longLines: nat, i: nat): seq<nat>
  {
    if i + 1 < longLines then [0, i + 1, i + 2] else [0, longLines, 1]
  }

  /** The first `n` triangles of the top fan. */
  function TopCap(longLines: nat, n: nat): seq<nat>
  {
    if n == 0 then [] else TopCap(longLines, n - 1) + TopTriangle(longLines, n - 1)
  }

  /** The two triangles of the quad between rings `i` and `i + 1` at
      longitude `j`; the last quad of a band wraps to longitude 0. */
  function BandQuad(longLines: nat, i: nat, j: nat): seq<nat>
  {
    var lo, hi := Times(i, longLines), Times(i + 1, longLines);
    if j + 1 < longLines then
      [lo + j + 1, lo + j + 2, hi + j + 1, hi + j + 1, lo + j + 2, hi + j + 2]
    else
      [lo + longLines, lo + 1, hi + longLines, hi + longLines, lo + 1, hi + 1]
  }

  /** The first `n` quads of band `i`. */
  function Band(longLines: nat, i: nat, n: nat): seq<nat>
  {
    if n == 0 then [] else Band(longLines, i, n - 1) + BandQuad(longLines, i, n - 1)
  }

  /** The first `n` complete bands. */
  function Bands(longLines: nat, n: nat): seq<nat>
  {
    if n == 0 then [] else Bands(longLines, n - 1) + Band(longLines, n - 1, longLines)
  }

  /** Triangle `i` of the fan around the south pole (the last vertex). */
  function BottomTriangle(longLines: nat, numVertices: nat, i: nat): seq<nat>
    requires i < longLines && longLines + 2 <= numVertices
  {
    if i + 1 < longLines then
      [numVertices - 1, (numVertices - 1) - (i + 1), (numVertices - 1) - (i + 2)]
    else
      [numVertices - 1, (numVertices - 1) - longLines, numVertices - 2]
  }

  /** The first `n` triangles of the bottom fan. */
  function BottomCap(longLines: nat, numVertices: nat, n: nat): seq<nat>
    requires n <= longLines && longLines + 2 <= numVertices
  {
    if n == 0 then [] else BottomCap(longLines, numVertices, n - 1) + BottomTriangle(longLines, numVertices, n - 1)
  }

  /** The whole index list: top cap, the LatLines - 3 middle bands, bottom cap. */
  function SphereIndices(latLines: nat, longLines: nat): seq<nat>
    requires latLines >= 3
  {
    CountsByRings(latLines, longLines);
    TopCap(longLines, longLines) + Bands(longLines, latLines - 3)
      + BottomCap(longLines, NumVertices(latLines, longLines), longLines)
  }

  // ----- Lengths -----

  lemma {:induction false} TopCapLength(longLines: nat, n: nat)
    ensures |TopCap(longLines, n)| == 3 * n
  {
    if n > 0 { TopCapLength(longLines, n - 1); }
  }

  lemma {:induction false} BandLength(longLines: nat, i: nat, n: nat)
    ensures |Band(longLines, i, n)| == 6 * n
  {
    if n > 0 { BandLength(longLines, i, n - 1); }
  }

  lemma {:induction false} BandsLength(longLines: nat, n: nat)
    ensures |Bands(longLines, n)| == 6 * Times(n, longLines)
  {
    if n > 0 {
      BandsLength(longLines, n - 1);
      BandLength(longLines, n - 1, longLines);
    }
  }

  lemma {:induction false} BottomCapLength(longLines: nat, numVertices: nat, n: nat)
    requires n <= longLines && longLines + 2 <= numVertices
    ensures |BottomCap(longLines, numVertices, n)| == 3 * n
  {
    if n > 0 { BottomCapLength(longLines, numVertices, n - 1); }
  }

  /** The index list has exactly three entries per face: LongLines
      triangles in each cap and 2 * LongLines in each of the LatLines - 3
      middle bands. */
  lemma SphereIndicesLength(latLines: nat, longLines: nat)
    requires latLines >= 3
    ensures |SphereIndices(latLines, longLines)| == 3 * NumFaces(latLines, longLines)
    ensures |TopCap(longLines, longLines)| == 3 * longLines
    ensures forall i :: |Band(longLines, i, longLines)| == 3 * (2 * longLines)
    ensures |Bands(longLines, latLines - 3)| == 3 * (2 * Times(latLines - 3, longLines))
    ensures longLines + 2 <= NumVertices(latLines, longLines)
    ensures |BottomCap(longLines, NumVertices(latLines, longLines), longLines)| == 3 * longLines
  {
    CountsByRings(latLines, longLines);
    TopCapLength(longLines, longLines);
    forall i ensures |Band(longLines, i, longLines)| == 3 * (2 * longLines) {
      BandLength(longLines, i, longLines);
    }
    BandsLength(longLines, latLines - 3);
    BottomCapLength(longLines, NumVertices(latLines, longLines), longLines);
  }

  // ----- Range of the indices -----

  ghost predicate AllBelow(s: seq<nat>, bound: nat)
  {
    forall p :: 0 <= p < |s| ==> s[p] < bound
  }

  lemma {:induction false} TopCapBelow(longLines: nat, n: nat)
    requires n <= longLines
    ensures AllBelow(TopCap(longLines, n), longLines + 1)
  {
    if n > 0 { TopCapBelow(longLines, n - 1); }
  }

  lemma {:induction false} BandBelow(longLines: nat, i: nat, n: nat)
    requires n <= longLines
    ensures AllBelow(Band(longLines, i, n), Times(i + 2, longLines) + 1)
  {
    if n > 0 {
      BandBelow(longLines, i, n - 1);
      assert Times(i + 2, longLines) == Times(i + 1, longLines) + longLines;
    }
  }

  lemma {:induction false} BandsBelow(longLines: nat, n: nat)
    ensures AllBelow(Bands(longLines, n), Times(n + 1, longLines) + 1)
  {
    if n > 0 {
      BandsBelow(longLines, n - 1);
      BandBelow(longLines, n - 1, longLines);
      TimesMono(n, n + 1, longLines);
    }
  }

  lemma {:induction false} BottomCapBelow(longLines: nat, numVertices: nat, n: nat)
    requires n <= longLines && longLines + 2 <= numVertices
    ensures AllBelow(BottomCap(longLines, numVertices, n), numVertices)
  {
    if n > 0 { BottomCapBelow(longLines, numVertices, n - 1); }
  }

  /** Every generated index names an existing vertex. */
  lemma SphereIndicesInRange(latLines: nat, longLines: nat)
    requires latLines >= 3
    ensures forall p :: 0 <= p < |SphereIndices(latLines, longLines)| ==>
              SphereIndices(latLines, longLines)[p] < NumVertices(latLines, longLines)
  {
    var numVertices := NumVertices(latLines, longLines);
    CountsByRings(latLines, longLines);
    TopCapBelow(longLines, longLines);
    BandsBelow(longLines, latLines - 3);
    BottomCapBelow(longLines, numVertices, longLines);
    var top, bands := TopCap(longLines, longLines), Bands(longLines, latLines - 3);
    var bottom := BottomCap(longLines, numVertices, longLines);
    assert SphereIndices(latLines, longLines) == top + bands + bottom;
    assert AllBelow(top + bands + bottom, numVertices);
  }

  // ----- The caps touch the poles -----

  lemma {:induction false} TopCapAtPole(longLines: nat, n: nat, t: nat)
    requires t < n
    ensures |TopCap(longLines, n)| == 3 * n
    ensures TopCap(longLines, n)[3 * t] == 0
  {
    TopCapLength(longLines, n);
    if t < n - 1 {
      TopCapAtPole(longLines, n - 1, t);
    }
  }

  lemma {:induction false} BottomCapAtPole(longLines: nat, numVertices: nat, n: nat, t: nat)
    requires t < n <= longLines && longLines + 2 <= numVertices
    ensures |BottomCap(longLines, numVertices, n)| == 3 * n
    ensures BottomCap(longLines, numVertices, n)[3 * t] == numVertices - 1
  {
    BottomCapLength(longLines, numVertices, n);
    if t < n - 1 {
      BottomCapAtPole(longLines, numVertices, n - 1, t);
    }
  }

  /** The first LongLines triangles (the top cap) all use vertex 0 and the
      last LongLines triangles (the bottom cap) all use the last vertex. */
  lemma CapsTouchPoles(latLines: nat, longLines: nat, t: nat)
    requires latLines >= 3 && t < longLines
    ensures |SphereIndices(latLines, longLines)| == 3 * NumFaces(latLines, longLines)
    ensures SphereIndices(latLines, longLines)[3 * t] == 0
    ensures SphereIndices(latLines, longLines)[3 * (NumFaces(latLines, longLines) - longLines) + 3 * t]
            == NumVertices(latLines, longLines) - 1
  {
    var numVertices := NumVertices(latLines, longLines);
    SphereIndicesLength(latLines, longLines);
    CountsByRings(latLines, longLines);
    TopCapAtPole(longLines, longLines, t);
    BottomCapAtPole(longLines, numVertices, longLines, t);
    var top, bands := TopCap(longLines, longLines), Bands(longLines, latLines - 3);
    var bottom := BottomCap(longLines, numVertices, longLines);
    var all := SphereIndices(latLines, longLines);
    assert all == (top + bands) + bottom;
    var offset := |top + bands|;
    assert offset == 3 * (NumFaces(latLines, longLines) - longLines);
    assert all[3 * t] == top[3 * t];
    assert all[offset + 3 * t] == bottom[3 * t];
  }

  // ----- The generator -----

  /** Fills the index array the way the source does, with a running
      position `k` advanced by 3 per cap triangle and by 6 per band quad.
      Every write stays inside the array of NumFaces * 3 entries, and the
      array ends up holding exactly the index list specified above. The
      three phases of the source's loop nest are the three methods below. */
  method BuildSphereIndices(latLines: nat, longLines: nat) returns (indices: array<nat>)
    requires latLines >= 3 && longLines >= 1
    ensures fresh(indices)
    ensures indices[..] == SphereIndices(latLines, longLines)
  {
    var numVertices := NumVertices(latLines, longLines);
    var numFaces := NumFaces(latLines, longLines);
    SphereIndicesLength(latLines, longLines);
    indices := new nat[numFaces * 3];
    var k := FillTopCap(indices, longLines);
    BandsLength(longLines, latLines - 3);
    k := FillBands(indices, latLines, longLines, k, TopCap(longLines, longLines));
    FillBottomCap(indices, numVertices, longLines, k, TopCap(longLines, longLines) + Bands(longLines, latLines - 3));
  }

  /** Writes one triangle at position `k`, after the `k` entries already
      in place. */
  method WriteTriangle(indices: array<nat>, k: nat, a: nat, b: nat, c: nat, ghost done: seq<nat>)
    requires k + 3 <= indices.Length && indices[..k] == done
    modifies indices
    ensures indices[..k + 3] == done + [a, b, c]
  {
    indices[k] := a;
    indices[k + 1] := b;
    indices[k + 2] := c;
    assert indices[..k + 3] == indices[..k] + [a, b, c];
  }

  /** The top-cap phase: LongLines triangles around vertex 0 from position 0. */
  method FillTopCap(indices: array<nat>, longLines: nat) returns (k: nat)
    requires longLines >= 1 && 3 * longLines <= indices.Length
    modifies indices
    ensures k == 3 * longLines
    ensures indices[..k] == TopCap(longLines, longLines)
  {
    k := 0;
    var i := 0;
    while i < longLines - 1
      invariant 0 <= i <= longLines - 1
      invariant k == 3 * i
      invariant indices[..k] == TopCap(longLines, i)
    {
      WriteTriangle(indices, k, 0, i + 1, i + 2, TopCap(longLines, i));
      k := k + 3;
      i := i + 1;
    }
    WriteTriangle(indices, k, 0, longLines, 1, TopCap(longLines, i));
    k := k + 3;
  }

  /** Bands(n + 1) is Bands(n) followed by band n. */
  lemma BandsStep(longLines: nat, n: nat, done: seq<nat>)
    ensures done + Bands(longLines, n) + Band(longLines, n, longLines) == done + Bands(longLines, n + 1)
  {
  }

  /** The middle-band phase: LatLines - 3 bands of LongLines quads each,
      written after the `k0` entries already in place. */
  method FillBands(indices: array<nat>, latLines: nat, longLines: nat, k0: nat, ghost done: seq<nat>) returns (k: nat)
    requires latLines >= 3 && longLines >= 1
    requires k0 + 6 * Times(latLines - 3, longLines) <= indices.Length
    requires indices[..k0] == done
    modifies indices
    ensures k == k0 + 6 * Times(latLines - 3, longLines)
    ensures indices[..k] == done + Bands(longLines, latLines - 3)
  {
    k := k0;
    var i := 0;
    while i < latLines - 3
      invariant 0 <= i <= latLines - 3
      invariant k == k0 + 6 * Times(i, longLines)
      invariant Times(i, longLines) <= Times(latLines - 3, longLines)
      invariant indices[..k] == done + Bands(longLines, i)
    {
      TimesMono(i + 1, latLines - 3, longLines);
      k := FillBand(indices, i, longLines, k, done + Bands(longLines, i));
      BandsStep(longLines, i, done);
      i := i + 1;
    }
  }

  /** Band(j + 1) is Band(j) followed by the inner quad at longitude `j`,
      in terms of the row starts `lo` and `hi` of rings `i` and `i + 1`. */
  lemma BandStep(longLines: nat, i: nat, j: nat, lo: nat, hi: nat, done: seq<nat>)
    requires lo == Times(i, longLines) && hi == Times(i + 1, longLines) && j + 1 < longLines
    ensures done + Band(longLines, i, j) + [lo + j + 1, lo + j + 2, hi + j + 1, hi + j + 1, lo + j + 2, hi + j + 2]
            == done + Band(longLines, i, j + 1)
  {
  }

  /** Band(LongLines) is Band(LongLines - 1) followed by the wrap-around quad. */
  lemma BandClose(longLines: nat, i: nat, lo: nat, hi: nat, done: seq<nat>)
    requires lo == Times(i, longLines) && hi == Times(i + 1, longLines) && longLines >= 1
    ensures done + Band(longLines, i, longLines - 1) + [lo + longLines, lo + 1, hi + longLines, hi + longLines, lo + 1, hi + 1]
            == done + Band(longLines, i, longLines)
  {
  }

  /** Writes the six entries of one quad at position `k`. */
  method WriteQuad(indices: array<nat>, k: nat, quad: seq<nat>, ghost done: seq<nat>)
    requires |quad| == 6 && k + 6 <= indices.Length && indices[..k] == done
    modifies indices
    ensures indices[..k + 6] == done + quad
  {
    WriteTriangle(indices, k, quad[0], quad[1], quad[2], done);
    WriteTriangle(indices, k + 3, quad[3], quad[4], quad[5], done + quad[..3]);
    assert done + quad[..3] + [quad[3], quad[4], quad[5]] == done + quad;
  }

  /** One middle band: the quads between rings `i` and `i + 1`. */
  method FillBand(indices: array<nat>, i: nat, longLines: nat, k0: nat, ghost done: seq<nat>) returns (k: nat)
    requires longLines >= 1
    requires k0 + 6 * longLines <= indices.Length
    requires indices[..k0] == done
    modifies indices
    ensures k == k0 + 6 * longLines
    ensures indices[..k] == done + Band(longLines, i, longLines)
  {
    // The source's products i * LongLines and (i + 1) * LongLines.
    var lo, hi := Times(i, longLines), Times(i + 1, longLines);
    k := k0;
    var j := 0;
    while j < longLines - 1
      invariant 0 <= j <= longLines - 1
      invariant k == k0 + 6 * j
      invariant indices[..k] == done + Band(longLines, i, j)
    {
      WriteQuad(indices, k, [lo + j + 1, lo + j + 2, hi + j + 1, hi + j + 1, lo + j + 2, hi + j + 2],
                done + Band(longLines, i, j));
      BandStep(longLines, i, j, lo, hi, done);
      k := k + 6;
      j := j + 1;
    }
    WriteQuad(indices, k, [lo + longLines, lo + 1, hi + longLines, hi + longLines, lo + 1, hi + 1],
              done + Band(longLines, i, j));
    BandClose(longLines, i, lo, hi, done);
    k := k + 6;
  }

  /** The bottom-cap phase: LongLines triangles around the last vertex,
      ending exactly at the end of the array (the source does not advance
      `k` after the last triangle). */
  method FillBottomCap(indices: array<nat>, numVertices: nat, longLines: nat, k0: nat, ghost done: seq<nat>)
    requires longLines >= 1 && longLines + 2 <= numVertices
    requires k0 + 3 * longLines == indices.Length
    requires indices[..k0] == done
    modifies indices
    ensures indices[..] == done + BottomCap(longLines, numVertices, longLines)
  {
    var k := k0;
    var i := 0;
    while i < longLines - 1
      invariant 0 <= i <= longLines - 1
      invariant k == k0 + 3 * i
      invariant indices[..k] == done + BottomCap(longLines, numVertices, i)
    {
      WriteTriangle(indices, k, numVertices - 1, (numVertices - 1) - (i + 1), (numVertices - 1) - (i + 2),
                    done + BottomCap(longLines, numVertices, i));
      k := k + 3;
      i := i + 1;
    }
    WriteTriangle(indices, k, numVertices - 1, (numVertices - 1) - longLines, numVertices - 2,
                  done + BottomCap(longLines, numVertices, i));
    assert indices[..] == indices[..k + 3];
  }
}
