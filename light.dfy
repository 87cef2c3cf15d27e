/** The point lights of the scene (Window/light.cpp, class Light): the
    list of light positions and colours, the sphere mesh every light is
    drawn with, and the instanced draw that renders one sphere per light.
    Device objects (shaders, layouts, constant buffers, rasterizer state)
    are not modelled; the two mesh buffers are modelled by their
    contents, and a device that fails to create an object is a parameter. */
module Lights {
  import opened SphereMesh
  import opened Commands

  /** A three component vector (XMFLOAT3); single-precision floats are
      modelled as reals. */
  datatype Float3 = Float3(x: real, y: real, z: real)

  /** One light: a position and a colour. */
  datatype PosColor = PosColor(pos: Float3, color: Float3)

  /** The five rand() results one population step consumes: three for the
      position and two for the colour. C++ leaves the evaluation order of
      constructor arguments open, so each draw is named after the
      component it ends up in. */
  datatype Draws = Draws(px: nat, py: nat, pz: nat, green: nat, blue: nat)

  /** A random position coordinate: rand() % 10 - 5, a whole number. */
  function Offset(r: nat): (c: real)
    ensures -5.0 <= c <= 4.0 && c == c.Floor as real
  {
    (r % 10 - 5) as real
  }

  /** A random colour channel: (rand() % 255) / 255. */
  function Shade(r: nat): (c: real)
    ensures 0.0 <= c < 1.0
  {
    (r % 255) as real / 255.0
  }

  /** The light one population step appends: a position with whole
      coordinates in [-5, 4] and a colour whose red channel is full and
      whose green and blue channels lie in [0, 1). */
  function RandomLight(d: Draws): (l: PosColor)
    ensures l.color.x == 1.0 && 0.0 <= l.color.y < 1.0 && 0.0 <= l.color.z < 1.0
    ensures -5.0 <= l.pos.x <= 4.0 && -5.0 <= l.pos.y <= 4.0 && -5.0 <= l.pos.z <= 4.0
  {
    PosColor(Float3(Offset(d.px), Offset(d.py), Offset(d.pz)), Float3(1.0, Shade(d.green), Shade(d.blue)))
  }

  /** The sphere's resolution, fixed in the source. */
  const LatLines: nat := 10
  const LongLines: nat := 10

  /** At the source's resolution the sphere has 82 vertices and 160
      faces, so its index buffer holds 480 entries. */
  lemma FixedResolutionCounts()
    ensures NumVertices(LatLines, LongLines) == 82
    ensures NumFaces(LatLines, LongLines) == 160
  {
    CountsMatchSource(LatLines, LongLines);
  }

  class Light {
    /** MAX_LIGHT: the capacity of the per-light constant buffers. */
    const maxLight: nat
    /** The sphere's latitude and longitude line counts (LatLines and
        LongLines of Init), fixed when the light object is made. */
    const latLines: nat
    const longLines: nat
    var posColorVector: seq<PosColor>
    var numSphereVertices: nat
    var numSphereFaces: nat
    /** Contents of the immutable vertex and index buffers; empty while
        no buffer exists. */
    var vertexBuffer: seq<VertexSlot>
    var indexBuffer: seq<nat>

    /** The capacity and the sphere's size are usable. */
    ghost predicate Configured()
    {
      0 < maxLight && latLines >= 3 && longLines >= 1
    }

    /** The list never holds more lights than the constant buffers have
        room for, and an index buffer that exists covers all faces and
        names only existing vertices. */
    ghost predicate Valid()
      reads this
    {
      Configured() && |posColorVector| <= maxLight &&
      (indexBuffer != [] ==>
         |indexBuffer| == 3 * numSphereFaces &&
         |vertexBuffer| == numSphereVertices &&
         forall p :: 0 <= p < |indexBuffer| ==> indexBuffer[p] < numSphereVertices)
    }

    /** A light object before Init: no lights, no buffers, both counts 0. */
    constructor(maxLight: nat)
      requires maxLight > 0
      ensures Valid()
      ensures this.maxLight == maxLight && latLines == LatLines && longLines == LongLines
      ensures posColorVector == []
      ensures numSphereVertices == 0 && numSphereFaces == 0
      ensures vertexBuffer == [] && indexBuffer == []
    {
      this.maxLight := maxLight;
      latLines, longLines := LatLines, LongLines;
      posColorVector := [];
      numSphereVertices, numSphereFaces := 0, 0;
      vertexBuffer, indexBuffer := [], [];
    }

    /** Appends MAX_LIGHT random lights (`draws(i)` are the rand() results
        of step i), computes the sphere's counts and builds its two
        buffers. When the device fails to create one of its objects
        (`deviceOk` false) everything is released again. */
    method Init(draws: nat -> Draws, deviceOk: bool) returns (ok: bool)
      requires Valid() && posColorVector == []
      modifies this
      ensures Valid()
      ensures ok == deviceOk
      ensures numSphereVertices == NumVertices(latLines, longLines)
      ensures numSphereFaces == NumFaces(latLines, longLines)
      ensures ok ==> |posColorVector| == maxLight &&
                     (forall i :: 0 <= i < maxLight ==> posColorVector[i] == RandomLight(draws(i)))
      ensures ok ==> |vertexBuffer| == numSphereVertices && vertexBuffer[0] == NorthPole &&
                     vertexBuffer[numSphereVertices - 1] == SouthPole
      ensures ok ==> forall i, j :: 0 <= i < latLines - 2 && 0 <= j < longLines ==>
                RingSlot(longLines, i, j) < numSphereVertices - 1 && vertexBuffer[RingSlot(longLines, i, j)] == Ring(i, j)
      ensures ok ==> forall p :: 0 < p < numSphereVertices - 1 ==>
                vertexBuffer[p].Ring? && vertexBuffer[p].ring < latLines - 2 && vertexBuffer[p].longitude < longLines &&
                RingSlot(longLines, vertexBuffer[p].ring, vertexBuffer[p].longitude) == p
      ensures ok ==> indexBuffer == SphereIndices(latLines, longLines)
      ensures !ok ==> posColorVector == [] && vertexBuffer == [] && indexBuffer == []
    {
      var i := 0;
      while i < maxLight
        invariant 0 <= i <= maxLight
        invariant |posColorVector| == i
        invariant forall m :: 0 <= m < i ==> posColorVector[m] == RandomLight(draws(m))
      {
        posColorVector := posColorVector + [RandomLight(draws(i))];
        i := i + 1;
      }
      var vertices, indices;
      numSphereVertices, numSphereFaces, vertices, indices := BuildSphere(latLines, longLines);
      if deviceOk {
        vertexBuffer, indexBuffer := vertices, indices;
      } else {
        Release();
      }
      ok := deviceOk;
    }

    /** The integer part of building the sphere: both counts, the vertex
        slot layout and the index list, for a sphere of the given size. */
    static method BuildSphere(latLines: nat, longLines: nat)
      returns (numVertices: nat, numFaces: nat, vertices: seq<VertexSlot>, indices: seq<nat>)
      requires latLines >= 3 && longLines >= 1
      ensures numVertices == NumVertices(latLines, longLines) && numFaces == NumFaces(latLines, longLines)
      ensures |vertices| == numVertices && vertices[0] == NorthPole && vertices[numVertices - 1] == SouthPole
      ensures forall i, j :: 0 <= i < latLines - 2 && 0 <= j < longLines ==>
                RingSlot(longLines, i, j) < numVertices - 1 && vertices[RingSlot(longLines, i, j)] == Ring(i, j)
      ensures forall p :: 0 < p < numVertices - 1 ==>
                vertices[p].Ring? && vertices[p].ring < latLines - 2 && vertices[p].longitude < longLines &&
                RingSlot(longLines, vertices[p].ring, vertices[p].longitude) == p
      ensures indices == SphereIndices(latLines, longLines) && |indices| == 3 * numFaces
      ensures forall p :: 0 <= p < |indices| ==> indices[p] < numVertices
    {
      numVertices := ((latLines - 2) * longLines) + 2;
      numFaces := ((latLines - 3) * longLines * 2) + (longLines * 2);
      CountsMatchSource(latLines, longLines);
      var vertexArray := LayoutSphereVertices(latLines, longLines);
      var indexArray := BuildSphereIndices(latLines, longLines);
      vertices, indices := vertexArray[..], indexArray[..];
      SphereIndicesLength(latLines, longLines);
      SphereIndicesInRange(latLines, longLines);
    }

    /** Releases the device objects and empties the light list; the
        counts are kept. */
    method Release()
      modifies this
      ensures posColorVector == [] && vertexBuffer == [] && indexBuffer == []
      ensures numSphereVertices == old(numSphereVertices) && numSphereFaces == old(numSphereFaces)
      ensures Configured() ==> Valid()
    {
      posColorVector := [];
      vertexBuffer := [];
      indexBuffer := [];
    }

    /** One instanced draw of the sphere: every index of the mesh, once
        per light in the list. */
    method Render() returns (cmd: Command)
      requires Valid()
      ensures cmd.DrawIndexedInstanced?
      ensures cmd.indexCountPerInstance == 3 * numSphereFaces
      ensures indexBuffer != [] ==> cmd.indexCountPerInstance == |indexBuffer|
      ensures cmd.instanceCount == |posColorVector| <= maxLight
    {
      cmd := DrawIndexedInstanced(numSphereFaces * 3, |posColorVector|);
    }
  }
}
