/** The instance, light and query bookkeeping of the scene
    (Window/scene.cpp, class Scene): the live cube count and its bounds,
    the light list as a bounded stack, the host culling pass and the
    visible-index upload, the per-frame reset of the indirect draw
    arguments and the culling dispatch, the choice of the cube draw, and
    the harvesting of the pipeline-statistics queries.

    Device calls become values: the frustum test is a predicate on the
    instance index, GetData is a function from query slot to what the
    query reports, uploaded buffers are fields holding what was uploaded,
    and the dispatch and draw calls are returned as commands. */
module Scenes {
  import opened Commands
  import opened Culling
  import opened QueryHarvest
  import opened Lights

  /** The indirect draw arguments uploaded before every culling dispatch:
      one cube's 36 indices per instance and no instances yet; the compute
      shader counts the visible instances into InstanceCount. */
  function ResetArgs(): (args: IndirectArgs)
    ensures args.indexCountPerInstance == CubeIndexCount && args.instanceCount == 0
    ensures args.startIndexLocation == 0 && args.baseVertexLocation == 0 && args.startInstanceLocation == 0
  {
    IndirectArgs(36, 0, 0, 0, 0)
  }

  /** The light CreateNewLight adds: at (0, 1, 0), white. */
  function NewLight(): PosColor
  {
    PosColor(Float3(0.0, 1.0, 0.0), Float3(1.0, 1.0, 1.0))
  }

  class Scene {
    /** MAX_CUBE and MAX_QUERY. */
    const maxCube: nat
    const maxQuery: nat
    const light: Light

    var cubesCount: nat
    /** Indices of the cubes that passed the host frustum test. */
    var cubeIndexies: seq<nat>
    /** numShapes of the culling parameters: the live cube count. */
    var cullNumShapes: Int4
    /** What the host path last uploaded to the visible-instance buffer. */
    var visibleIndexBuffer: seq<Int4>
    var curFrame: nat
    var lastCompletedFrame: nat
    var cubesCountGPU: int
    var isCullingOn: bool
    var computeCull: bool
    var isSpheresOn: bool

    ghost predicate Valid()
      reads this, light
    {
      0 < maxCube && 0 < maxQuery &&
      cubesCount <= maxCube &&
      lastCompletedFrame <= curFrame &&
      StrictlyIncreasing(cubeIndexies) &&
      |cubeIndexies| <= maxCube &&
      (forall p :: 0 <= p < |cubeIndexies| ==> cubeIndexies[p] < maxCube) &&
      light.Valid()
    }

    /** A scene with `cubesCount` live cubes, no frame rendered yet and no
        query outstanding. */
    constructor(maxCube: nat, maxQuery: nat, light: Light, cubesCount: nat,
                isCullingOn: bool, computeCull: bool, isSpheresOn: bool)
      requires 0 < maxQuery && 0 < maxCube && cubesCount <= maxCube && light.Valid()
      ensures Valid()
      ensures this.maxCube == maxCube && this.maxQuery == maxQuery && this.light == light
      ensures this.cubesCount == cubesCount && cubeIndexies == [] && visibleIndexBuffer == []
      ensures curFrame == 0 && lastCompletedFrame == 0 && cubesCountGPU == 0
      ensures this.isCullingOn == isCullingOn && this.computeCull == computeCull && this.isSpheresOn == isSpheresOn
    {
      this.maxCube, this.maxQuery, this.light := maxCube, maxQuery, light;
      this.cubesCount := cubesCount;
      cubeIndexies, visibleIndexBuffer := [], [];
      cullNumShapes := Int4(0, 0, 0, 0);
      curFrame, lastCompletedFrame, cubesCountGPU := 0, 0, 0;
      this.isCullingOn, this.computeCull, this.isSpheresOn := isCullingOn, computeCull, isSpheresOn;
    }

    /** One more live cube, unless MAX_CUBE are live already. */
    method CreateNewCube()
      requires Valid()
      modifies this`cubesCount
      ensures Valid()
      ensures cubesCount == if old(cubesCount) < maxCube then old(cubesCount) + 1 else old(cubesCount)
    {
      if cubesCount < maxCube {
        cubesCount := cubesCount + 1;
      }
    }

    /** One live cube fewer, unless there are none. */
    method DeleteCube()
      requires Valid()
      modifies this`cubesCount
      ensures Valid()
      ensures cubesCount == if old(cubesCount) > 0 then old(cubesCount) - 1 else old(cubesCount)
    {
      if cubesCount > 0 {
        cubesCount := cubesCount - 1;
      }
    }

    /** Pushes a white light at (0, 1, 0) onto the light list, unless it
        holds MAX_LIGHT lights already. */
    method CreateNewLight()
      requires Valid()
      modifies light`posColorVector
      ensures Valid()
      ensures light.posColorVector ==
              if |old(light.posColorVector)| < light.maxLight then old(light.posColorVector) + [NewLight()]
              else old(light.posColorVector)
    {
      var lightPosColorVector := light.posColorVector;
      if |lightPosColorVector| < light.maxLight {
        light.posColorVector := lightPosColorVector + [NewLight()];
      }
    }

    /** Pops the last light off the list, unless it is empty. */
    method DeleteLight()
      requires Valid()
      modifies light`posColorVector
      ensures Valid()
      ensures light.posColorVector ==
              if old(light.posColorVector) != [] then old(light.posColorVector)[..|old(light.posColorVector)| - 1]
              else old(light.posColorVector)
    {
      var lightPosColorVector := light.posColorVector;
      if lightPosColorVector != [] {
        light.posColorVector := lightPosColorVector[..|lightPosColorVector| - 1];
      }
    }

    /** The host culling pass: rebuilds the visible list from scratch and
        records the live count for the compute shader. */
    method CullOnHost(inFrustum: nat -> bool)
      requires Valid()
      modifies this`cubeIndexies, this`cullNumShapes
      ensures Valid()
      ensures cubeIndexies == VisibleIndices(cubesCount, inFrustum)
      ensures cullNumShapes == Int4(cubesCount, 0, 0, 0)
    {
      cubeIndexies := [];
      var i := 0;
      while i < cubesCount
        invariant 0 <= i <= cubesCount
        invariant cubeIndexies == VisibleIndices(i, inFrustum)
      {
        if inFrustum(i) {
          cubeIndexies := cubeIndexies + [i];
        }
        i := i + 1;
      }
      cullNumShapes := Int4(cubesCount, 0, 0, 0);
      VisibleIncreasing(cubesCount, inFrustum);
      VisibleBelow(cubesCount, inFrustum);
      VisibleLength(cubesCount, inFrustum);
    }

    /** The host path's upload of the visible list: a fresh buffer of
        MAX_CUBE slots whose first entries hold the visible indices, each
        in the x component. Slots past the visible list are left as they
        come (the source does not initialise them). */
    method UploadVisibleIndices()
      requires Valid()
      modifies this`visibleIndexBuffer
      ensures Valid()
      ensures |visibleIndexBuffer| == maxCube
      ensures forall k :: 0 <= k < |cubeIndexies| ==> visibleIndexBuffer[k] == Int4(cubeIndexies[k], 0, 0, 0)
    {
      var indexBuffer := new Int4[maxCube];
      var i := 0;
      while i < |cubeIndexies|
        invariant 0 <= i <= |cubeIndexies|
        invariant forall k :: 0 <= k < i ==> indexBuffer[k] == Int4(cubeIndexies[k], 0, 0, 0)
      {
        indexBuffer[i] := Int4(cubeIndexies[i], 0, 0, 0);
        i := i + 1;
      }
      visibleIndexBuffer := indexBuffer[..];
    }

    /** The bookkeeping part of one frame: host culling, the visible-list
        upload when the host path is selected, and the culling dispatch,
        returned as the commands issued in order: the reset indirect
        arguments, then the dispatch of ceil(count / 64) groups. */
    method Frame(inFrustum: nat -> bool) returns (issued: seq<Command>)
      requires Valid()
      modifies this`cubeIndexies, this`cullNumShapes, this`visibleIndexBuffer
      ensures Valid()
      ensures cubeIndexies == VisibleIndices(cubesCount, inFrustum)
      ensures forall x: nat :: x in cubeIndexies <==> x < cubesCount && inFrustum(x)
      ensures |cubeIndexies| <= cubesCount
      ensures cullNumShapes == Int4(cubesCount, 0, 0, 0)
      ensures !computeCull ==> |visibleIndexBuffer| == maxCube &&
                               forall k :: 0 <= k < |cubeIndexies| ==> visibleIndexBuffer[k] == Int4(cubeIndexies[k], 0, 0, 0)
      ensures computeCull ==> visibleIndexBuffer == old(visibleIndexBuffer)
      ensures issued == [UploadIndirectArgs(ResetArgs()), Dispatch(GroupCount(cubesCount))]
    {
      CullOnHost(inFrustum);
      forall x: nat ensures x in cubeIndexies <==> x < cubesCount && inFrustum(x) {
        VisibleMembership(cubesCount, inFrustum, x);
      }
      VisibleLength(cubesCount, inFrustum);
      if !computeCull {
        UploadVisibleIndices();
      }
      var args := IndirectArgs(36, 0, 0, 0, 0);
      var groupNumber := cubesCount / 64 + (if cubesCount % 64 != 0 then 1 else 0);
      issued := [UploadIndirectArgs(args), Dispatch(groupNumber)];
    }

    /** Consumes the outstanding queries in frame order, stopping at the
        first one whose data is not available; `poll(slot)` is what
        GetData reports for the query in `slot`. */
    method ReadQueries(poll: nat -> QueryData)
      requires Valid()
      modifies this`lastCompletedFrame, this`cubesCountGPU
      ensures Valid()
      ensures HarvestState(lastCompletedFrame, cubesCountGPU)
              == Harvest(old(lastCompletedFrame), curFrame, maxQuery, poll, old(cubesCountGPU))
    {
      while lastCompletedFrame < curFrame
        invariant lastCompletedFrame <= curFrame
        invariant Harvest(lastCompletedFrame, curFrame, maxQuery, poll, cubesCountGPU)
                  == Harvest(old(lastCompletedFrame), curFrame, maxQuery, poll, old(cubesCountGPU))
        decreases curFrame - lastCompletedFrame
      {
        var stats := poll(lastCompletedFrame % maxQuery);
        if stats.Ready? {
          cubesCountGPU := Int32Of(stats.iaPrimitives / 12);
          lastCompletedFrame := lastCompletedFrame + 1;
        } else {
          break;
        }
      }
    }

    /** The draw part of a frame. With culling off every one of the
        MAX_CUBE instance slots is drawn; with host culling the visible
        list is drawn; with compute culling the indirect draw is issued
        under the query of this frame's slot and the frame counter moves
        on. The queries are harvested afterwards on every path, and the
        light spheres are drawn when they are switched on. */
    method Render(poll: nat -> QueryData) returns (drawn: seq<Command>)
      requires Valid()
      modifies this`curFrame, this`lastCompletedFrame, this`cubesCountGPU
      ensures Valid()
      ensures |drawn| == if isSpheresOn then 2 else 1
      ensures !isCullingOn ==> drawn[0] == DrawIndexedInstanced(CubeIndexCount, maxCube) && curFrame == old(curFrame)
      ensures isCullingOn && !computeCull ==>
                drawn[0] == DrawIndexedInstanced(CubeIndexCount, |cubeIndexies|) && curFrame == old(curFrame)
      ensures isCullingOn && computeCull ==>
                drawn[0] == DrawIndexedInstancedIndirect(old(curFrame) % maxQuery) && curFrame == old(curFrame) + 1
      ensures HarvestState(lastCompletedFrame, cubesCountGPU)
              == Harvest(old(lastCompletedFrame), curFrame, maxQuery, poll, old(cubesCountGPU))
      ensures isSpheresOn ==>
                drawn[1] == DrawIndexedInstanced(3 * light.numSphereFaces, |light.posColorVector|)
    {
      var cubeDraw: Command;
      if isCullingOn {
        if computeCull {
          cubeDraw := DrawIndexedInstancedIndirect(curFrame % maxQuery);
          curFrame := curFrame + 1;
        } else {
          cubeDraw := DrawIndexedInstanced(36, |cubeIndexies|);
        }
      } else {
        cubeDraw := DrawIndexedInstanced(36, maxCube);
      }
      ReadQueries(poll);
      drawn := [cubeDraw];
      if isSpheresOn {
        var sphereDraw := light.Render();
        drawn := drawn + [sphereDraw];
      }
    }
  }
}
