/**
 * The teardown order: the calls that release a swapchain and every rendering
 * resource that depends on its format and extent, as an explicit list of
 * tasks, each tagged with what it releases.
 */
module Teardown {
  import opened Vk
  import opened Driver

  /** The resources the renderer hands over for destruction together with the chain. */
  datatype Dependents = Dependents(
    commandPool: Handle,
    commandBuffers: seq<Handle>,
    framebuffers: seq<Handle>,
    renderPass: Handle,
    pipeline: Handle,
    pipelineLayout: Handle,
    imageViews: seq<Handle>)

  /** One destroy call of the given kind per handle, in list order. */
  function DestroyEach(kind: ObjectKind, handles: seq<Handle>): seq<Call>
  {
    if handles == [] then []
    else DestroyEach(kind, handles[..|handles| - 1]) + [DestroyObject(kind, handles[|handles| - 1])]
  }

  lemma {:induction false} DestroyEachAt(kind: ObjectKind, handles: seq<Handle>)
    ensures |DestroyEach(kind, handles)| == |handles|
    ensures forall i :: 0 <= i < |handles| ==> DestroyEach(kind, handles)[i] == DestroyObject(kind, handles[i])
  {
    if handles != [] {
      DestroyEachAt(kind, handles[..|handles| - 1]);
    }
  }

  /**
   * The calls a teardown issues, in order: free the command buffers, destroy
   * each framebuffer, the pipeline, its layout, the render pass, each image
   * view, and last the chain (which releases its own images).
   */
  function TeardownTrace(chain: Handle, res: Dependents): seq<Call>
  {
    [FreeCommandBuffers(res.commandPool, res.commandBuffers)]
    + DestroyEach(FramebufferObject, res.framebuffers)
    + [DestroyObject(PipelineObject, res.pipeline),
       DestroyObject(PipelineLayoutObject, res.pipelineLayout),
       DestroyObject(RenderPassObject, res.renderPass)]
    + DestroyEach(ImageViewObject, res.imageViews)
    + [DestroyObject(SwapchainObject, chain)]
  }

  /**
   * The step of the teardown order a call belongs to, 1 to 7; 0 for a call
   * that is no teardown step (in particular, destroying a chain image).
   */
  function TeardownStep(c: Call): nat
  {
    match c
    case FreeCommandBuffers(_, _) => 1
    case DestroyObject(kind, _) =>
      (match kind
       case FramebufferObject => 2
       case PipelineObject => 3
       case PipelineLayoutObject => 4
       case RenderPassObject => 5
       case ImageViewObject => 6
       case SwapchainObject => 7
       case ImageObject => 0)
    case _ => 0
  }

  /** Where each call stands in a teardown trace. */
  lemma TeardownLayout(chain: Handle, res: Dependents)
    ensures var t := TeardownTrace(chain, res);
      var nf := |res.framebuffers|;
      && |t| == nf + |res.imageViews| + 5
      && t[0] == FreeCommandBuffers(res.commandPool, res.commandBuffers)
      && (forall k :: 0 <= k < nf ==> t[1 + k] == DestroyObject(FramebufferObject, res.framebuffers[k]))
      && t[nf + 1] == DestroyObject(PipelineObject, res.pipeline)
      && t[nf + 2] == DestroyObject(PipelineLayoutObject, res.pipelineLayout)
      && t[nf + 3] == DestroyObject(RenderPassObject, res.renderPass)
      && (forall k :: 0 <= k < |res.imageViews| ==> t[nf + 4 + k] == DestroyObject(ImageViewObject, res.imageViews[k]))
      && t[|t| - 1] == DestroyObject(SwapchainObject, chain)
  {
    DestroyEachAt(FramebufferObject, res.framebuffers);
    DestroyEachAt(ImageViewObject, res.imageViews);
  }

  /** The step of position `i` in a trace over `nf` framebuffers and `nv` image views. */
  function StepAt(i: nat, nf: nat, nv: nat): nat
  {
    if i == 0 then 1
    else if i <= nf then 2
    else if i <= nf + 3 then i - nf + 2
    else if i <= nf + 3 + nv then 6
    else 7
  }

  lemma StepAtMonotone(i: nat, j: nat, nf: nat, nv: nat)
    requires i <= j
    ensures 1 <= StepAt(i, nf, nv) <= StepAt(j, nf, nv) <= 7
  {
  }

  lemma StepAtTrace(chain: Handle, res: Dependents, i: nat)
    requires i < |TeardownTrace(chain, res)|
    ensures TeardownStep(TeardownTrace(chain, res)[i]) == StepAt(i, |res.framebuffers|, |res.imageViews|)
  {
    TeardownLayout(chain, res);
    var nf := |res.framebuffers|;
    if 1 <= i <= nf {
      assert TeardownTrace(chain, res)[1 + (i - 1)] == DestroyObject(FramebufferObject, res.framebuffers[i - 1]);
    } else if nf + 4 <= i < nf + 4 + |res.imageViews| {
      assert TeardownTrace(chain, res)[nf + 4 + (i - nf - 4)] == DestroyObject(ImageViewObject, res.imageViews[i - nf - 4]);
    }
  }

  /**
   * A teardown trace holds nothing but the seven steps, never destroys a chain
   * image on its own, and never issues a call of a later step before one of an
   * earlier step.
   */
  lemma TeardownOrdered(chain: Handle, res: Dependents)
    ensures forall i :: 0 <= i < |TeardownTrace(chain, res)| ==> 1 <= TeardownStep(TeardownTrace(chain, res)[i]) <= 7
    ensures forall i, j :: 0 <= i < j < |TeardownTrace(chain, res)| ==>
      TeardownStep(TeardownTrace(chain, res)[i]) <= TeardownStep(TeardownTrace(chain, res)[j])
  {
    var t := TeardownTrace(chain, res);
    forall i | 0 <= i < |t|
      ensures 1 <= TeardownStep(t[i]) <= 7
    {
      StepAtTrace(chain, res, i);
      StepAtMonotone(i, i, |res.framebuffers|, |res.imageViews|);
    }
    forall i, j | 0 <= i < j < |t|
      ensures TeardownStep(t[i]) <= TeardownStep(t[j])
    {
      StepAtTrace(chain, res, i);
      StepAtTrace(chain, res, j);
      StepAtMonotone(i, j, |res.framebuffers|, |res.imageViews|);
    }
  }

  /** The chain is destroyed exactly once, by the last call. */
  lemma ChainDestroyedLast(chain: Handle, res: Dependents)
    ensures forall i :: 0 <= i < |TeardownTrace(chain, res)| ==>
      (TeardownStep(TeardownTrace(chain, res)[i]) == 7 <==> i == |TeardownTrace(chain, res)| - 1)
  {
    var t := TeardownTrace(chain, res);
    forall i | 0 <= i < |t|
      ensures TeardownStep(t[i]) == 7 <==> i == |t| - 1
    {
      StepAtTrace(chain, res, i);
      TeardownLayout(chain, res);
    }
  }
}
