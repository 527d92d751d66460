// The commands the renderer records into a frame's command buffer, as an abstract
// trace: which pipeline, pass, descriptor set and buffers are bound, and what is drawn.
module DrawEvents {
  import opened Common

  datatype DrawEvent =
    | BindPipeline(pipeline: nat)
    | BeginPass(renderPass: Handle, framebuffer: Handle)
    | SetDepthBias
    | BindDescriptorSet(layout: Handle, descriptorSet: Handle, dynamicOffset: nat)
    | BindVertexBuffer(buffer: Handle)
    | BindIndexBuffer(buffer: Handle)
    | DrawIndexed(indexCount: nat)
    | DrawUI
    | EndPass

  /** The records of a draw contain no pass, pipeline or descriptor commands. */
  predicate BuffersAndDraws(events: seq<DrawEvent>)
  {
    forall e :: e in events ==> e.BindVertexBuffer? || e.BindIndexBuffer? || e.DrawIndexed?
  }
}
