/** The calls RenderFrame makes for one frame. */
module Frame {
  import opened Resources
  import opened Direct3D

  /**
    One frame: clear the render target, bind the vertex buffer, choose
    triangle lists, draw the triangle and present without waiting.
   */
  function FrameTrace(rtView: Handle?, vBuffer: Handle?): (t: seq<Call>)
    ensures |t| == 5
    ensures t[0] == ClearRenderTargetView(rtView)
    ensures t[1].SetVertexBuffers? && t[1].buffer == vBuffer && t[1].startSlot == 0 && t[1].numBuffers == 1
    ensures t[1].stride == VertexSize() && t[1].offset == 0
    ensures t[2] == SetPrimitiveTopology(TriangleList)
    ensures t[3].Draw? && t[3].vertexCount == TRIANGLE_VERTICES && t[3].startVertexLocation == 0
    ensures t[3].vertexCount * t[1].stride == VertexBufferByteWidth()
    ensures t[4] == Present(0, 0)
  {
    [ClearRenderTargetView(rtView),
     SetVertexBuffers(0, 1, vBuffer, VertexSize(), 0),
     SetPrimitiveTopology(TriangleList),
     Draw(TRIANGLE_VERTICES, 0),
     Present(0, 0)]
  }
}
