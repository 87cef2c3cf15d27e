/** The integer records the scene hands to the graphics device: a four
    component integer vector, the argument record of an indirect indexed
    draw, and the commands whose integer operands the model keeps. */
module Commands {

  /** A four component signed integer vector (DirectXMath XMINT4). */
  datatype Int4 = Int4(x: int, y: int, z: int, w: int)

  /** The argument record of an indexed, instanced indirect draw
      (D3D11_DRAW_INDEXED_INSTANCED_INDIRECT_ARGS). */
  datatype IndirectArgs = IndirectArgs(
    indexCountPerInstance: nat,
    instanceCount: nat,
    startIndexLocation: nat,
    baseVertexLocation: int,
    startInstanceLocation: nat)

  /** Number of indices of one cube: 6 faces of 2 triangles. */
  const CubeIndexCount: nat := 36

  /** Commands issued to the device context, reduced to their operands. */
  datatype Command =
    | UploadIndirectArgs(args: IndirectArgs)
    | Dispatch(groupsX: nat)
    | DrawIndexedInstanced(indexCountPerInstance: nat, instanceCount: nat)
    | DrawIndexedInstancedIndirect(querySlot: nat)
}
