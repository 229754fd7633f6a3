/** The fixed pipeline records the context builds: the render pass of
    `create_render_pass` and the shader groups of the ray-tracing pipeline. */
module Pipelines {
  import opened Wrappers
  import opened VkTypes

  /** VK_SUBPASS_EXTERNAL and VK_SHADER_UNUSED_NV, both ~0U. */
  const SubpassExternal: nat := 0xFFFF_FFFF
  const ShaderUnused: nat := 0xFFFF_FFFF

  datatype LoadOp = Load | Clear | LoadDontCare
  datatype StoreOp = Store | StoreDontCare
  datatype ImageLayout = UndefinedLayout | ColorAttachmentOptimal | DepthStencilAttachmentOptimal | PresentSrc
  datatype PipelineStage = ColorAttachmentOutput
  datatype Access = ColorAttachmentRead | ColorAttachmentWrite

  datatype AttachmentDescription = AttachmentDescription(
    format: Format, samples: nat, loadOp: LoadOp, storeOp: StoreOp,
    stencilLoadOp: LoadOp, stencilStoreOp: StoreOp,
    initialLayout: ImageLayout, finalLayout: ImageLayout)

  datatype AttachmentReference = AttachmentReference(attachment: nat, layout: ImageLayout)

  datatype SubpassDescription = SubpassDescription(colorAttachments: seq<AttachmentReference>, depthStencilAttachment: Option<AttachmentReference>)

  datatype SubpassDependency = SubpassDependency(
    srcSubpass: nat, dstSubpass: nat,
    srcStageMask: set<PipelineStage>, srcAccessMask: set<Access>,
    dstStageMask: set<PipelineStage>, dstAccessMask: set<Access>)

  datatype RenderPassCreateInfo = RenderPassCreateInfo(
    attachments: seq<AttachmentDescription>,
    subpasses: seq<SubpassDescription>,
    dependencies: seq<SubpassDependency>)

  /** The structural rules of a render pass: every attachment reference
      names an attachment, and every dependency ends in a subpass and starts
      either outside the render pass or at an earlier subpass. */
  predicate WellFormed(rp: RenderPassCreateInfo)
  {
    (forall s :: 0 <= s < |rp.subpasses| ==>
       (forall c :: 0 <= c < |rp.subpasses[s].colorAttachments| ==> rp.subpasses[s].colorAttachments[c].attachment < |rp.attachments|)
       && (rp.subpasses[s].depthStencilAttachment.Some? ==> rp.subpasses[s].depthStencilAttachment.value.attachment < |rp.attachments|))
    && (forall e :: 0 <= e < |rp.dependencies| ==>
          rp.dependencies[e].dstSubpass < |rp.subpasses|
          && (rp.dependencies[e].srcSubpass == SubpassExternal || rp.dependencies[e].srcSubpass < rp.dependencies[e].dstSubpass))
  }

  /** `create_render_pass`: a cleared colour attachment that is stored and
      ends ready for presentation, a cleared depth attachment that is not
      stored, one graphics subpass using both, and a dependency from outside
      the pass that makes the subpass's colour output wait for the previous
      colour output. */
  function CreateRenderPassInfo(imageFormat: Format, depthFormat: Format): (rp: RenderPassCreateInfo)
    ensures WellFormed(rp)
    ensures |rp.attachments| == 2 && |rp.subpasses| == 1 && |rp.dependencies| == 1
    ensures rp.attachments[0].format == imageFormat && rp.attachments[0].finalLayout == PresentSrc
    ensures rp.attachments[1].format == depthFormat && rp.attachments[1].finalLayout == DepthStencilAttachmentOptimal
    ensures rp.subpasses[0].colorAttachments == [AttachmentReference(0, ColorAttachmentOptimal)]
    ensures rp.subpasses[0].depthStencilAttachment == Some(AttachmentReference(1, DepthStencilAttachmentOptimal))
    ensures rp.dependencies[0].srcSubpass == SubpassExternal && rp.dependencies[0].dstSubpass == 0
  {
    var color := AttachmentDescription(imageFormat, 1, Clear, Store, LoadDontCare, StoreDontCare, UndefinedLayout, PresentSrc);
    var depth := AttachmentDescription(depthFormat, 1, Clear, StoreDontCare, LoadDontCare, StoreDontCare, UndefinedLayout, DepthStencilAttachmentOptimal);
    var subpass := SubpassDescription([AttachmentReference(0, ColorAttachmentOptimal)], Some(AttachmentReference(1, DepthStencilAttachmentOptimal)));
    var dependency := SubpassDependency(SubpassExternal, 0, {ColorAttachmentOutput}, {}, {ColorAttachmentOutput}, {ColorAttachmentRead, ColorAttachmentWrite});
    RenderPassCreateInfo([color, depth], [subpass], [dependency])
  }

  // ----- ray tracing -----

  datatype ShaderStage =
    | VertexStage | FragmentStage | ComputeStage
    | RaygenStage | AnyHitStage | ClosestHitStage | MissStage | IntersectionStage | CallableStage

  datatype ShaderStageCreateInfo = ShaderStageCreateInfo(stage: ShaderStage, shaderModule: Handle, entryPoint: string)

  datatype ShaderGroupType = General | TrianglesHitGroup | ProceduralHitGroup

  datatype ShaderGroup = ShaderGroup(groupType: ShaderGroupType, generalShader: nat, closestHitShader: nat, anyHitShader: nat, intersectionShader: nat)

  datatype RayTracingPipelineCreateInfo = RayTracingPipelineCreateInfo(
    stages: seq<ShaderStageCreateInfo>,
    groups: seq<ShaderGroup>,
    maxRecursionDepth: nat,
    layout: Handle)

  /** The three shader groups: ray generation from stage 0, a triangle hit
      group whose closest-hit shader is stage 1, and miss from stage 2. */
  const ShaderGroups: seq<ShaderGroup> := [
    ShaderGroup(General, 0, ShaderUnused, ShaderUnused, ShaderUnused),
    ShaderGroup(TrianglesHitGroup, ShaderUnused, 1, ShaderUnused, ShaderUnused),
    ShaderGroup(General, 2, ShaderUnused, ShaderUnused, ShaderUnused)
  ]

  predicate IsGeneralStage(s: ShaderStage)
  {
    s == RaygenStage || s == MissStage || s == CallableStage
  }

  /** `index` is unused or names a stage of kind `kind`. */
  predicate UnusedOrStage(stages: seq<ShaderStageCreateInfo>, index: nat, kind: ShaderStage)
  {
    index == ShaderUnused || (index < |stages| && stages[index].stage == kind)
  }

  /** The rules for a ray-tracing shader group: a general group names a ray
      generation, miss or callable stage and nothing else; a triangle hit
      group names no general and no intersection shader, and optional
      closest-hit and any-hit stages of those kinds. */
  predicate GroupValid(stages: seq<ShaderStageCreateInfo>, g: ShaderGroup)
  {
    match g.groupType
    case General =>
      g.generalShader < |stages| && IsGeneralStage(stages[g.generalShader].stage)
      && g.closestHitShader == ShaderUnused && g.anyHitShader == ShaderUnused && g.intersectionShader == ShaderUnused
    case TrianglesHitGroup =>
      g.generalShader == ShaderUnused && g.intersectionShader == ShaderUnused
      && UnusedOrStage(stages, g.closestHitShader, ClosestHitStage) && UnusedOrStage(stages, g.anyHitShader, AnyHitStage)
    case ProceduralHitGroup =>
      g.generalShader == ShaderUnused && g.intersectionShader < |stages| && stages[g.intersectionShader].stage == IntersectionStage
      && UnusedOrStage(stages, g.closestHitShader, ClosestHitStage) && UnusedOrStage(stages, g.anyHitShader, AnyHitStage)
  }

  /** `create_ray_tracing_pipeline`: one stage with entry point "main" per
      shader, in order, the three fixed groups and a recursion depth of 1. */
  function CreateRayTracingPipelineInfo(shaders: seq<(ShaderStage, Handle)>, layout: Handle): (info: RayTracingPipelineCreateInfo)
    ensures |info.stages| == |shaders|
    ensures forall k :: 0 <= k < |shaders| ==>
              info.stages[k] == ShaderStageCreateInfo(shaders[k].0, shaders[k].1, "main")
    ensures info.groups == ShaderGroups && info.maxRecursionDepth == 1 && info.layout == layout
  {
    RayTracingPipelineCreateInfo(
      seq(|shaders|, k requires 0 <= k < |shaders| => ShaderStageCreateInfo(shaders[k].0, shaders[k].1, "main")),
      ShaderGroups, 1, layout)
  }

  /** The fixed groups are valid exactly when the first shader is a ray
      generation, miss or callable shader, the second a closest-hit shader
      and the third again a ray generation, miss or callable shader. */
  lemma ShaderGroupsValidIff(shaders: seq<(ShaderStage, Handle)>, layout: Handle)
    ensures var info := CreateRayTracingPipelineInfo(shaders, layout);
            (forall g :: g in info.groups ==> GroupValid(info.stages, g))
            <==> |shaders| >= 3 && IsGeneralStage(shaders[0].0) && shaders[1].0 == ClosestHitStage && IsGeneralStage(shaders[2].0)
  {
    var info := CreateRayTracingPipelineInfo(shaders, layout);
    assert info.groups[0] in info.groups && info.groups[1] in info.groups && info.groups[2] in info.groups;
  }
}
