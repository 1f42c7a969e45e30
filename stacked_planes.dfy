/**
 * The buffer bookkeeping of createStackedPlanesGeometry in js/main.js.
 *
 * The function builds `n` vertical planes of `heightSegments` quads each:
 * every plane has heightSegments + 1 rows of two vertices (left and right
 * edge), every quad two triangles.  It allocates three typed arrays from
 * n and heightSegments and fills them in nested loops with running offsets.
 *
 * The floating-point values written are kept symbolic: XLeft(i) stands for
 * the left edge x of plane i (xOffsetBase + i * (planeWidth + spacing)),
 * XRight(i) for its right edge, RowY(j) for planeHeight * (j / heightSegments
 * - 0.5); UStart(i) for plane i's random uvXOffset, UEnd(i) for uvXOffset + 1
 * and V(i, j) for j / heightSegments + uvYOffset.  Zero is the 0.0 a fresh
 * Float32Array holds.  The index buffer holds plain integers.
 *
 * Where plane i starts in the buffers is written as a running sum
 * (PlaneStart, IndexStart), as the loops compute it; StartsClosedForm gives
 * the products n * (heightSegments + 1) * 2 and n * heightSegments * 6 the
 * allocation uses.
 */
module StackedPlanes {

  datatype Coord = Zero | XLeft(plane: nat) | XRight(plane: nat) | RowY(row: nat)
  datatype UvCoord = UvZero | UStart(plane: nat) | UEnd(plane: nat) | V(plane: nat, row: nat)

  /** The vertex offset at the start of plane i: each plane before it has
      heightSegments + 1 rows of two vertices. */
  function PlaneStart(heightSegments: nat, i: nat): nat
  {
    if i == 0 then 0 else PlaneStart(heightSegments, i - 1) + 2 * (heightSegments + 1)
  }

  /** The index offset at the start of plane i: each plane before it has
      heightSegments quads of six indices. */
  function IndexStart(heightSegments: nat, i: nat): nat
  {
    if i == 0 then 0 else IndexStart(heightSegments, i - 1) + 6 * heightSegments
  }

  /** The running offsets are the products the buffer sizes are computed from. */
  lemma {:induction false} StartsClosedForm(heightSegments: nat, i: nat)
    ensures PlaneStart(heightSegments, i) == i * (heightSegments + 1) * 2
    ensures IndexStart(heightSegments, i) == i * heightSegments * 2 * 3
  {
    if i > 0 {
      StartsClosedForm(heightSegments, i - 1);
      assert i * (heightSegments + 1) == (i - 1) * (heightSegments + 1) + (heightSegments + 1);
      assert i * heightSegments == (i - 1) * heightSegments + heightSegments;
    }
  }

  /** Later planes start later in both the vertex and the index buffer. */
  lemma {:induction false} StartsMonotone(heightSegments: nat, i: nat, k: nat)
    requires i <= k
    ensures PlaneStart(heightSegments, i) <= PlaneStart(heightSegments, k)
    ensures IndexStart(heightSegments, i) <= IndexStart(heightSegments, k)
    decreases k
  {
    if i < k {
      StartsMonotone(heightSegments, i, k - 1);
    }
  }

  /** The two vertices of row j of plane i: (x, y, z) for the left, then the right edge. */
  function RowPositions(i: nat, j: nat): seq<Coord>
  {
    [XLeft(i), RowY(j), Zero, XRight(i), RowY(j), Zero]
  }

  /** The uv pairs of row j of plane i. */
  function RowUvs(i: nat, j: nat): seq<UvCoord>
  {
    [UStart(i), V(i, j), UEnd(i), V(i, j)]
  }

  /** The two triangles (a, b, c) and (c, b, d) of the quad whose first vertex is a. */
  function Quad(a: nat): seq<int>
  {
    [a, a + 1, a + 2, a + 2, a + 1, a + 3]
  }

  /** The positions written for the first `rows` rows of plane i. */
  function PlanePositions(i: nat, rows: nat): (s: seq<Coord>)
    ensures |s| == 6 * rows
  {
    if rows == 0 then [] else PlanePositions(i, rows - 1) + RowPositions(i, rows - 1)
  }

  /** The uvs written for the first `rows` rows of plane i. */
  function PlaneUvs(i: nat, rows: nat): (s: seq<UvCoord>)
    ensures |s| == 4 * rows
  {
    if rows == 0 then [] else PlaneUvs(i, rows - 1) + RowUvs(i, rows - 1)
  }

  /** The indices written for the first `rows` rows of the plane whose first
      vertex is `first`: a quad for every row but the top row of the plane. */
  function PlaneIndices(heightSegments: nat, first: nat, rows: nat): (s: seq<int>)
    ensures rows <= heightSegments ==> |s| == 6 * rows
    ensures rows > heightSegments ==> |s| == 6 * heightSegments
  {
    if rows == 0 then []
    else PlaneIndices(heightSegments, first, rows - 1)
         + (if rows - 1 < heightSegments then Quad(first + 2 * (rows - 1)) else [])
  }

  /** The whole position buffer for the first `planes` planes. */
  function StackedPositions(heightSegments: nat, planes: nat): seq<Coord>
  {
    if planes == 0 then []
    else StackedPositions(heightSegments, planes - 1) + PlanePositions(planes - 1, heightSegments + 1)
  }

  /** The whole uv buffer for the first `planes` planes. */
  function StackedUvs(heightSegments: nat, planes: nat): seq<UvCoord>
  {
    if planes == 0 then []
    else StackedUvs(heightSegments, planes - 1) + PlaneUvs(planes - 1, heightSegments + 1)
  }

  /** The whole index buffer for the first `planes` planes. */
  function StackedIndices(heightSegments: nat, planes: nat): seq<int>
  {
    if planes == 0 then []
    else StackedIndices(heightSegments, planes - 1)
         + PlaneIndices(heightSegments, PlaneStart(heightSegments, planes - 1), heightSegments + 1)
  }

  /** The buffers filled for the first `planes` planes end exactly at the
      running offsets: 3 floats per vertex, 2 uv floats per vertex and 6
      indices per quad. */
  lemma {:induction false} StackedLengths(heightSegments: nat, planes: nat)
    ensures |StackedPositions(heightSegments, planes)| == 3 * PlaneStart(heightSegments, planes)
    ensures |StackedUvs(heightSegments, planes)| == 2 * PlaneStart(heightSegments, planes)
    ensures |StackedIndices(heightSegments, planes)| == IndexStart(heightSegments, planes)
  {
    if planes > 0 {
      StackedLengths(heightSegments, planes - 1);
    }
  }

  /** The three buffers of n planes have exactly the lengths allocated for
      them: numVertices * 3, numVertices * 2 and numFaces * 3. */
  lemma BufferSizes(heightSegments: nat, n: nat)
    ensures |StackedPositions(heightSegments, n)| == n * (heightSegments + 1) * 2 * 3
    ensures |StackedUvs(heightSegments, n)| == n * (heightSegments + 1) * 2 * 2
    ensures |StackedIndices(heightSegments, n)| == n * heightSegments * 2 * 3
  {
    StackedLengths(heightSegments, n);
    StartsClosedForm(heightSegments, n);
  }

  lemma {:induction false} PlaneIndicesInRange(heightSegments: nat, first: nat, rows: nat)
    requires rows <= heightSegments + 1
    ensures forall k :: 0 <= k < |PlaneIndices(heightSegments, first, rows)| ==>
      first <= PlaneIndices(heightSegments, first, rows)[k] < first + 2 * (heightSegments + 1)
  {
    if rows > 0 {
      PlaneIndicesInRange(heightSegments, first, rows - 1);
    }
  }

  /** Every index written for the first `planes` planes names a vertex of
      those planes. */
  lemma {:induction false} IndicesInRange(heightSegments: nat, planes: nat)
    ensures forall k :: 0 <= k < |StackedIndices(heightSegments, planes)| ==>
      0 <= StackedIndices(heightSegments, planes)[k] < PlaneStart(heightSegments, planes)
  {
    if planes > 0 {
      IndicesInRange(heightSegments, planes - 1);
      PlaneIndicesInRange(heightSegments, PlaneStart(heightSegments, planes - 1), heightSegments + 1);
    }
  }

  /** Every index in the buffer is below numVertices = n * (heightSegments + 1) * 2. */
  lemma IndicesBelowVertexCount(heightSegments: nat, n: nat)
    ensures forall k :: 0 <= k < |StackedIndices(heightSegments, n)| ==>
      0 <= StackedIndices(heightSegments, n)[k] < n * (heightSegments + 1) * 2
  {
    IndicesInRange(heightSegments, n);
    StartsClosedForm(heightSegments, n);
  }

  lemma {:induction false} PlaneIndicesPrefix(heightSegments: nat, first: nat, r1: nat, r2: nat)
    requires r1 <= r2
    ensures PlaneIndices(heightSegments, first, r1) <= PlaneIndices(heightSegments, first, r2)
    decreases r2
  {
    if r1 < r2 {
      PlaneIndicesPrefix(heightSegments, first, r1, r2 - 1);
    }
  }

  lemma {:induction false} StackedIndicesPrefix(heightSegments: nat, p1: nat, p2: nat)
    requires p1 <= p2
    ensures StackedIndices(heightSegments, p1) <= StackedIndices(heightSegments, p2)
    decreases p2
  {
    if p1 < p2 {
      StackedIndicesPrefix(heightSegments, p1, p2 - 1);
    }
  }

  lemma {:induction false} PlanePositionsPrefix(i: nat, r1: nat, r2: nat)
    requires r1 <= r2
    ensures PlanePositions(i, r1) <= PlanePositions(i, r2)
    decreases r2
  {
    if r1 < r2 {
      PlanePositionsPrefix(i, r1, r2 - 1);
    }
  }

  lemma {:induction false} StackedPositionsPrefix(heightSegments: nat, p1: nat, p2: nat)
    requires p1 <= p2
    ensures StackedPositions(heightSegments, p1) <= StackedPositions(heightSegments, p2)
    decreases p2
  {
    if p1 < p2 {
      StackedPositionsPrefix(heightSegments, p1, p2 - 1);
    }
  }

  /** A piece that ends a prefix of `whole` sits right after the part before it. */
  lemma PieceOfPrefix<T>(whole: seq<T>, rows: seq<T>, piece: seq<T>)
    requires rows + piece <= whole
    ensures whole[|rows|..|rows| + |piece|] == piece
  {
    forall k | 0 <= k < |piece|
      ensures whole[|rows|..|rows| + |piece|][k] == piece[k]
    {
      assert whole[|rows| + k] == (rows + piece)[|rows| + k];
    }
  }

  /** A piece of a block that is a slice of s is itself a slice of s. */
  lemma PieceOfSlice<T>(s: seq<T>, lo: nat, hi: nat, block: seq<T>, k: nat, len: nat, piece: seq<T>)
    requires lo <= hi <= |s| && s[lo..hi] == block
    requires k + len <= |block| && block[k..k + len] == piece
    ensures lo + k + len <= |s| && s[lo + k..lo + k + len] == piece
  {
    forall x | 0 <= x < len
      ensures s[lo + k..lo + k + len][x] == piece[x]
    {
      assert piece[x] == block[k + x] == s[lo + k + x];
    }
  }

  /** Quad j of a plane is at offset 6 * j of the plane's indices. */
  lemma QuadInPlane(heightSegments: nat, first: nat, j: nat)
    requires j < heightSegments
    ensures PlaneIndices(heightSegments, first, heightSegments + 1)[6 * j..6 * j + 6] == Quad(first + 2 * j)
  {
    PlaneIndicesPrefix(heightSegments, first, j + 1, heightSegments + 1);
    PieceOfPrefix(PlaneIndices(heightSegments, first, heightSegments + 1),
                  PlaneIndices(heightSegments, first, j), Quad(first + 2 * j));
  }

  /** Plane i's indices start at IndexStart in the whole index buffer. */
  lemma PlaneInStackedIndices(heightSegments: nat, planes: nat, i: nat)
    requires i < planes
    ensures var at := IndexStart(heightSegments, i);
      && at + 6 * heightSegments <= |StackedIndices(heightSegments, planes)|
      && StackedIndices(heightSegments, planes)[at..at + 6 * heightSegments]
         == PlaneIndices(heightSegments, PlaneStart(heightSegments, i), heightSegments + 1)
  {
    StackedIndicesPrefix(heightSegments, i + 1, planes);
    StackedLengths(heightSegments, i);
    PieceOfPrefix(StackedIndices(heightSegments, planes), StackedIndices(heightSegments, i),
                  PlaneIndices(heightSegments, PlaneStart(heightSegments, i), heightSegments + 1));
  }

  /** Quad j of plane i sits at index offset IndexStart + 6 * j and is
      (a, b, c), (c, b, d) with a the vertex offset of row j of plane i. */
  lemma QuadAt(heightSegments: nat, planes: nat, i: nat, j: nat)
    requires i < planes && j < heightSegments
    ensures var at := IndexStart(heightSegments, i) + 6 * j;
      && at + 6 <= |StackedIndices(heightSegments, planes)|
      && StackedIndices(heightSegments, planes)[at..at + 6]
         == Quad(PlaneStart(heightSegments, i) + 2 * j)
  {
    var at := IndexStart(heightSegments, i);
    PlaneInStackedIndices(heightSegments, planes, i);
    QuadInPlane(heightSegments, PlaneStart(heightSegments, i), j);
    PieceOfSlice(StackedIndices(heightSegments, planes), at, at + 6 * heightSegments,
                 PlaneIndices(heightSegments, PlaneStart(heightSegments, i), heightSegments + 1),
                 6 * j, 6, Quad(PlaneStart(heightSegments, i) + 2 * j));
  }

  /** Row j of a plane is at offset 6 * j of the plane's positions. */
  lemma RowInPlane(heightSegments: nat, i: nat, j: nat)
    requires j <= heightSegments
    ensures PlanePositions(i, heightSegments + 1)[6 * j..6 * j + 6] == RowPositions(i, j)
  {
    PlanePositionsPrefix(i, j + 1, heightSegments + 1);
    PieceOfPrefix(PlanePositions(i, heightSegments + 1), PlanePositions(i, j), RowPositions(i, j));
  }

  /** Plane i's positions start at float offset 3 * PlaneStart in the whole
      position buffer. */
  lemma PlaneInStackedPositions(heightSegments: nat, planes: nat, i: nat)
    requires i < planes
    ensures var at := 3 * PlaneStart(heightSegments, i);
      && at + 6 * (heightSegments + 1) <= |StackedPositions(heightSegments, planes)|
      && StackedPositions(heightSegments, planes)[at..at + 6 * (heightSegments + 1)]
         == PlanePositions(i, heightSegments + 1)
  {
    StackedPositionsPrefix(heightSegments, i + 1, planes);
    StackedLengths(heightSegments, i);
    PieceOfPrefix(StackedPositions(heightSegments, planes), StackedPositions(heightSegments, i),
                  PlanePositions(i, heightSegments + 1));
  }

  /** Row j of plane i sits at float offset 3 * PlaneStart + 6 * j, that is
      at vertexOffset * 3 for the vertex offset of the row: the left and the
      right edge of the plane at row j, both at depth 0. */
  lemma RowAt(heightSegments: nat, planes: nat, i: nat, j: nat)
    requires i < planes && j <= heightSegments
    ensures var at := 3 * PlaneStart(heightSegments, i) + 6 * j;
      && at + 6 <= |StackedPositions(heightSegments, planes)|
      && StackedPositions(heightSegments, planes)[at..at + 6] == RowPositions(i, j)
  {
    var at := 3 * PlaneStart(heightSegments, i);
    PlaneInStackedPositions(heightSegments, planes, i);
    RowInPlane(heightSegments, i, j);
    PieceOfSlice(StackedPositions(heightSegments, planes), at, at + 6 * (heightSegments + 1),
                 PlanePositions(i, heightSegments + 1), 6 * j, 6, RowPositions(i, j));
  }

  lemma Regroup<T>(s: seq<T>, before: seq<T>, done: seq<T>, piece: seq<T>)
    requires s == (before + done) + piece
    ensures s == before + (done + piece)
  {
  }

  /** TypedArray.prototype.set: copy `values` into `a` starting at `offset`. */
  method SetAt<T>(a: array<T>, values: seq<T>, offset: nat)
    requires offset + |values| <= a.Length
    modifies a
    ensures a[..offset + |values|] == old(a[..offset]) + values
    ensures a[offset + |values|..] == old(a[offset + |values|..])
  {
    var k := 0;
    while k < |values|
      invariant 0 <= k <= |values|
      invariant a[..offset + k] == old(a[..offset]) + values[..k]
      invariant a[offset + k..] == old(a[offset + k..])
    {
      a[offset + k] := values[k];
      assert values[..k + 1] == values[..k] + [values[k]];
      k := k + 1;
    }
  }

  /** positions.set for row j of plane i: the buffer holds `before` and the
      plane's rows 0 .. j - 1, and afterwards rows 0 .. j as well. */
  method WriteRowPositions(positions: array<Coord>, i: nat, j: nat, vertexOffset: nat,
                           ghost before: seq<Coord>)
    requires 3 * vertexOffset + 6 <= positions.Length
    requires positions[..3 * vertexOffset] == before + PlanePositions(i, j)
    modifies positions
    ensures positions[..3 * (vertexOffset + 2)] == before + PlanePositions(i, j + 1)
  {
    SetAt(positions, RowPositions(i, j), vertexOffset * 3);
    Regroup(positions[..3 * vertexOffset + 6], before, PlanePositions(i, j), RowPositions(i, j));
  }

  /** uvs.set for row j of plane i. */
  method WriteRowUvs(uvs: array<UvCoord>, i: nat, j: nat, uvOffset: nat, ghost before: seq<UvCoord>)
    requires uvOffset + 4 <= uvs.Length
    requires uvs[..uvOffset] == before + PlaneUvs(i, j)
    modifies uvs
    ensures uvs[..uvOffset + 4] == before + PlaneUvs(i, j + 1)
  {
    SetAt(uvs, RowUvs(i, j), uvOffset);
    Regroup(uvs[..uvOffset + 4], before, PlaneUvs(i, j), RowUvs(i, j));
  }

  /** indices.set for the quad between rows j and j + 1 of the plane whose
      first vertex is `first`, with a = vertexOffset. */
  method WriteQuad(indices: array<int>, heightSegments: nat, ghost first: nat, j: nat,
                   vertexOffset: nat, indexOffset: nat, ghost before: seq<int>)
    requires j < heightSegments && vertexOffset == first + 2 * j
    requires indexOffset + 6 <= indices.Length
    requires indices[..indexOffset] == before + PlaneIndices(heightSegments, first, j)
    modifies indices
    ensures indices[..indexOffset + 6] == before + PlaneIndices(heightSegments, first, j + 1)
  {
    SetAt(indices, Quad(vertexOffset), indexOffset);
    Regroup(indices[..indexOffset + 6], before, PlaneIndices(heightSegments, first, j), Quad(vertexOffset));
  }

  method FillPlanePositions(positions: array<Coord>, heightSegments: nat, i: nat, vertexOffset0: nat)
    returns (vertexOffset: nat)
    requires 3 * vertexOffset0 + 6 * (heightSegments + 1) <= positions.Length
    modifies positions
    ensures vertexOffset == vertexOffset0 + 2 * (heightSegments + 1)
    ensures positions[..3 * vertexOffset]
         == old(positions[..3 * vertexOffset0]) + PlanePositions(i, heightSegments + 1)
  {
    ghost var before := positions[..3 * vertexOffset0];
    vertexOffset := vertexOffset0;
    var j := 0;
    while j <= heightSegments
      invariant 0 <= j <= heightSegments + 1
      invariant vertexOffset == vertexOffset0 + 2 * j
      invariant positions[..3 * vertexOffset] == before + PlanePositions(i, j)
    {
      WriteRowPositions(positions, i, j, vertexOffset, before);
      vertexOffset := vertexOffset + 2;
      j := j + 1;
    }
  }

  method FillPlaneUvs(uvs: array<UvCoord>, heightSegments: nat, i: nat, uvOffset0: nat)
    returns (uvOffset: nat)
    requires uvOffset0 + 4 * (heightSegments + 1) <= uvs.Length
    modifies uvs
    ensures uvOffset == uvOffset0 + 4 * (heightSegments + 1)
    ensures uvs[..uvOffset] == old(uvs[..uvOffset0]) + PlaneUvs(i, heightSegments + 1)
  {
    ghost var before := uvs[..uvOffset0];
    uvOffset := uvOffset0;
    var j := 0;
    while j <= heightSegments
      invariant 0 <= j <= heightSegments + 1
      invariant uvOffset == uvOffset0 + 4 * j
      invariant uvs[..uvOffset] == before + PlaneUvs(i, j)
    {
      WriteRowUvs(uvs, i, j, uvOffset, before);
      uvOffset := uvOffset + 4;
      j := j + 1;
    }
  }

  method FillPlaneIndices(indices: array<int>, heightSegments: nat, first: nat, indexOffset0: nat)
    returns (indexOffset: nat)
    requires indexOffset0 + 6 * heightSegments <= indices.Length
    modifies indices
    ensures indexOffset == indexOffset0 + 6 * heightSegments
    ensures indices[..indexOffset]
         == old(indices[..indexOffset0]) + PlaneIndices(heightSegments, first, heightSegments + 1)
  {
    ghost var before := indices[..indexOffset0];
    indexOffset := indexOffset0;
    var vertexOffset := first;
    var j := 0;
    while j <= heightSegments
      invariant 0 <= j <= heightSegments + 1
      invariant vertexOffset == first + 2 * j
      invariant indexOffset == indexOffset0 + 6 * (if j <= heightSegments then j else heightSegments)
      invariant indices[..indexOffset] == before + PlaneIndices(heightSegments, first, j)
    {
      if j < heightSegments {
        WriteQuad(indices, heightSegments, first, j, vertexOffset, indexOffset, before);
        indexOffset := indexOffset + 6;
      } else {
        assert PlaneIndices(heightSegments, first, j + 1) == PlaneIndices(heightSegments, first, j) + [];
      }
      vertexOffset := vertexOffset + 2;
      j := j + 1;
    }
  }

  /** createStackedPlanesGeometry's integer bookkeeping: allocate the three
      buffers from n and heightSegments and fill them plane by plane. */
  method CreateStackedPlanesGeometry(n: nat, heightSegments: nat)
    returns (positions: array<Coord>, indices: array<int>, uvs: array<UvCoord>)
    ensures positions.Length == n * (heightSegments + 1) * 2 * 3
    ensures uvs.Length == n * (heightSegments + 1) * 2 * 2
    ensures indices.Length == n * heightSegments * 2 * 3
    ensures positions[..] == StackedPositions(heightSegments, n)
    ensures uvs[..] == StackedUvs(heightSegments, n)
    ensures indices[..] == StackedIndices(heightSegments, n)
  {
    var numVertices := n * (heightSegments + 1) * 2;
    var numFaces := n * heightSegments * 2;
    positions := new Coord[numVertices * 3](_ => Zero);
    indices := new int[numFaces * 3](_ => 0);
    uvs := new UvCoord[numVertices * 2](_ => UvZero);
    StartsClosedForm(heightSegments, n);
    FillPlanes(positions, indices, uvs, n, heightSegments);
  }

  /** The outer loop of createStackedPlanesGeometry over the n planes. */
  method FillPlanes(positions: array<Coord>, indices: array<int>, uvs: array<UvCoord>,
                    n: nat, heightSegments: nat)
    requires positions.Length == 3 * PlaneStart(heightSegments, n)
    requires uvs.Length == 2 * PlaneStart(heightSegments, n)
    requires indices.Length == IndexStart(heightSegments, n)
    modifies positions, indices, uvs
    ensures positions[..] == StackedPositions(heightSegments, n)
    ensures uvs[..] == StackedUvs(heightSegments, n)
    ensures indices[..] == StackedIndices(heightSegments, n)
  {
    var H := heightSegments;
    var vertexOffset := 0;
    var indexOffset := 0;
    var uvOffset := 0;
    var i := 0;
    while i < n
      invariant 0 <= i <= n
      invariant vertexOffset == PlaneStart(H, i) && uvOffset == 2 * vertexOffset
      invariant indexOffset == IndexStart(H, i)
      invariant vertexOffset <= PlaneStart(H, n) && indexOffset <= IndexStart(H, n)
      invariant positions[..3 * vertexOffset] == StackedPositions(H, i)
      invariant uvs[..uvOffset] == StackedUvs(H, i)
      invariant indices[..indexOffset] == StackedIndices(H, i)
    {
      StartsMonotone(H, i + 1, n);
      var nextVertexOffset := FillPlanePositions(positions, H, i, vertexOffset);
      uvOffset := FillPlaneUvs(uvs, H, i, uvOffset);
      indexOffset := FillPlaneIndices(indices, H, vertexOffset, indexOffset);
      vertexOffset := nextVertexOffset;
      i := i + 1;
    }
    assert positions[..] == positions[..3 * vertexOffset];
    assert uvs[..] == uvs[..uvOffset];
    assert indices[..] == indices[..indexOffset];
  }
}
