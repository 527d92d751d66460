// Sources/Scene.cpp, Scene::Render: the commands one frame records, as a trace of
// DrawEvents. The spot-shadow passes come first, one per mesh and spot map, then the
// four cascade passes, then the main pass with the opaque meshes, the skybox, two
// transparent sweeps and the UI. The lemmas state what the order guarantees: passes
// open and close in turn with every draw inside one, the passes use the framebuffers
// in a fixed order, and every dynamic offset is a multiple of the uniform-buffer
// alignment.
module SceneFrames {
  import opened Common
  import opened DrawEvents
  import opened SceneLayout

  /** The handles Render takes from the scene: the shadow and object render passes, the
      framebuffers, the six pipelines and the pipeline layouts. */
  datatype FrameTargets = FrameTargets(
    shadowPass: Handle,
    objectsPass: Handle,
    spotFramebuffers: seq<Handle>,
    cascadeFramebuffers: seq<Handle>,
    objectsFramebuffers: seq<Handle>,
    pipelines: seq<Handle>,
    cascadeLayout: Handle,
    objectsLayout: Handle,
    skyboxLayout: Handle)

  /** What Render reads of one mesh: the descriptor set of the mesh's own uniform
      description for the current image, and what the mesh records when asked for its
      transparent (0) and its opaque (1) draw. */
  datatype MeshFrame = MeshFrame(descriptorSet: Handle, transparentDraws: seq<DrawEvent>, opaqueDraws: seq<DrawEvent>)

  /** Everything one Render reads: the targets, the image index, the cascade and skybox
      descriptor sets, the per-mesh stride, the meshes and the skybox's draw. */
  datatype Frame = Frame(
    targets: FrameTargets,
    image: nat,
    cascadeSet: Handle,
    skyboxSet: Handle,
    stride: nat,
    meshes: seq<MeshFrame>,
    skyboxDraws: seq<DrawEvent>)

  /** Render's indices into the targets are inside them. */
  predicate Covers(f: Frame)
  {
    |f.targets.spotFramebuffers| >= SpotShadowCount && |f.targets.cascadeFramebuffers| >= CascadeCount &&
    f.image < |f.targets.objectsFramebuffers| && |f.targets.pipelines| >= 6
  }

  /** The meshes and the skybox only bind their buffers and draw. */
  predicate DrawsOnly(f: Frame)
  {
    BuffersAndDraws(f.skyboxDraws) &&
    forall m :: 0 <= m < |f.meshes| ==> BuffersAndDraws(f.meshes[m].transparentDraws) && BuffersAndDraws(f.meshes[m].opaqueDraws)
  }

  // ----------------------------------------------------------- the trace

  /** Mesh m in spot map s: both of the mesh's draws, read from its cascade-0 slot. */
  function SpotPass(f: Frame, m: nat, s: nat): seq<DrawEvent>
    requires Covers(f) && m < |f.meshes| && s < SpotShadowCount
  {
    [BeginPass(f.targets.shadowPass, f.targets.spotFramebuffers[s]), SetDepthBias,
     BindDescriptorSet(f.targets.cascadeLayout, f.cascadeSet, MainOffset(m, f.stride))] +
    f.meshes[m].transparentDraws + f.meshes[m].opaqueDraws + [EndPass]
  }

  /** The spot passes of mesh m, for the first n spot maps. */
  function SpotPassesOfMesh(f: Frame, m: nat, n: nat): seq<DrawEvent>
    requires Covers(f) && m < |f.meshes| && n <= SpotShadowCount
  {
    if n == 0 then [] else SpotPassesOfMesh(f, m, n - 1) + SpotPass(f, m, n - 1)
  }

  /** The spot passes of the first n meshes. */
  function SpotPasses(f: Frame, n: nat): seq<DrawEvent>
    requires Covers(f) && n <= |f.meshes|
  {
    if n == 0 then [] else SpotPasses(f, n - 1) + SpotPassesOfMesh(f, n - 1, SpotShadowCount)
  }

  /** The first n meshes of cascade pass c, each read from its slot for cascade c. */
  function CascadeMeshes(f: Frame, c: nat, n: nat): seq<DrawEvent>
    requires n <= |f.meshes|
  {
    if n == 0 then []
    else CascadeMeshes(f, c, n - 1) +
         [SetDepthBias, BindDescriptorSet(f.targets.cascadeLayout, f.cascadeSet, CascadeOffset(n - 1, c, f.stride))] +
         f.meshes[n - 1].transparentDraws + f.meshes[n - 1].opaqueDraws
  }

  /** Cascade pass c renders into cascade framebuffer c. */
  function CascadePass(f: Frame, c: nat): seq<DrawEvent>
    requires Covers(f) && c < CascadeCount
  {
    [BeginPass(f.targets.shadowPass, f.targets.cascadeFramebuffers[c])] + CascadeMeshes(f, c, |f.meshes|) + [EndPass]
  }

  function CascadePasses(f: Frame, n: nat): seq<DrawEvent>
    requires Covers(f) && n <= CascadeCount
  {
    if n == 0 then [] else CascadePasses(f, n - 1) + CascadePass(f, n - 1)
  }

  /** One sweep of the main pass over the first n meshes: each binds its own descriptor
      set at its cascade-0 slot, then records its opaque or its transparent draw. */
  function MeshSweep(f: Frame, n: nat, drawOpaque: bool): seq<DrawEvent>
    requires n <= |f.meshes|
  {
    if n == 0 then []
    else MeshSweep(f, n - 1, drawOpaque) +
         [BindDescriptorSet(f.targets.objectsLayout, f.meshes[n - 1].descriptorSet, MainOffset(n - 1, f.stride))] +
         (if drawOpaque then f.meshes[n - 1].opaqueDraws else f.meshes[n - 1].transparentDraws)
  }

  /** The main pass between its BeginPass and its EndPass: the opaque draws with pipeline
      0, the skybox with pipeline 1 at offset 0, the transparent draws with pipeline 2 and
      again with pipeline 3, then the UI. */
  function MainPassBody(f: Frame): seq<DrawEvent>
    requires Covers(f)
  {
    var t := f.targets;
    [BindPipeline(t.pipelines[0])] + MeshSweep(f, |f.meshes|, true) +
    [BindPipeline(t.pipelines[1]), BindDescriptorSet(t.skyboxLayout, f.skyboxSet, 0)] + f.skyboxDraws +
    [BindPipeline(t.pipelines[2])] + MeshSweep(f, |f.meshes|, false) +
    [BindPipeline(t.pipelines[3])] + MeshSweep(f, |f.meshes|, false) +
    [DrawUI]
  }

  /** The main pass, into the swapchain image's framebuffer. */
  function MainPass(f: Frame): seq<DrawEvent>
    requires Covers(f)
  {
    [BeginPass(f.targets.objectsPass, f.targets.objectsFramebuffers[f.image])] + MainPassBody(f) + [EndPass]
  }

  /** The whole frame: pipeline 5 and the spot passes, pipeline 4 and the cascade passes,
      then the main pass. */
  function FrameTrace(f: Frame): seq<DrawEvent>
    requires Covers(f)
  {
    [BindPipeline(f.targets.pipelines[5])] + SpotPasses(f, |f.meshes|) +
    [BindPipeline(f.targets.pipelines[4])] + CascadePasses(f, CascadeCount) +
    MainPass(f)
  }

  // ------------------------------------------------------ pass discipline

  /** The pass state after one command, or None when the command is out of place: a pass
      may not begin inside a pass nor end outside one, and draws need a pass. Binds and
      the depth bias are state commands, allowed anywhere. */
  function Step(inPass: bool, e: DrawEvent): Option<bool>
  {
    match e
    case BeginPass(_, _) => if inPass then None else Some(true)
    case EndPass => if inPass then Some(false) else None
    case DrawIndexed(_) => if inPass then Some(true) else None
    case DrawUI => if inPass then Some(true) else None
    case _ => Some(inPass)
  }

  /** The pass state after a run of commands, or None at the first misplaced one. */
  function Run(events: seq<DrawEvent>, inPass: bool): Option<bool>
  {
    if |events| == 0 then Some(inPass)
    else match Step(inPass, events[0])
      case None => None
      case Some(next) => Run(events[1..], next)
  }

  lemma {:induction false} RunAppend(a: seq<DrawEvent>, b: seq<DrawEvent>, inPass: bool)
    ensures Run(a + b, inPass) == match Run(a, inPass) case None => None case Some(s) => Run(b, s)
  {
    if |a| > 0 {
      assert (a + b)[0] == a[0];
      assert (a + b)[1..] == a[1..] + b;
      match Step(inPass, a[0])
      case None =>
      case Some(next) => RunAppend(a[1..], b, next);
    } else {
      assert a + b == b;
    }
  }

  lemma RunOne(e: DrawEvent, inPass: bool)
    ensures Run([e], inPass) == Step(inPass, e)
  {
    assert [e][1..] == [];
  }

  /** Two runs in a row. */
  lemma RunThrough(a: seq<DrawEvent>, b: seq<DrawEvent>, s: bool, t: bool, u: bool)
    requires Run(a, s) == Some(t) && Run(b, t) == Some(u)
    ensures Run(a + b, s) == Some(u)
  {
    RunAppend(a, b, s);
  }

  /** Binds and the depth bias, allowed in and out of a pass. */
  predicate StateCommands(events: seq<DrawEvent>)
  {
    forall e :: e in events ==>
      e.BindPipeline? || e.BindDescriptorSet? || e.SetDepthBias? || e.BindVertexBuffer? || e.BindIndexBuffer?
  }

  /** State commands keep the pass state. */
  lemma {:induction false} StateCommandsKeep(events: seq<DrawEvent>, inPass: bool)
    requires StateCommands(events)
    ensures Run(events, inPass) == Some(inPass)
  {
    if |events| > 0 {
      assert events[0] in events;
      assert forall e :: e in events[1..] ==> e in events;
      StateCommandsKeep(events[1..], inPass);
    }
  }

  /** A mesh's draw keeps an open pass open. */
  lemma {:induction false} DrawsKeepPassOpen(events: seq<DrawEvent>)
    requires BuffersAndDraws(events)
    ensures Run(events, true) == Some(true)
  {
    if |events| > 0 {
      assert events[0] in events;
      assert forall e :: e in events[1..] ==> e in events;
      DrawsKeepPassOpen(events[1..]);
    }
  }

  /** A pass that opens, records `body` and closes, from outside any pass. */
  lemma PassBalanced(begin: DrawEvent, body: seq<DrawEvent>)
    requires begin.BeginPass? && Run(body, true) == Some(true)
    ensures Run([begin] + body + [EndPass], false) == Some(false)
  {
    RunOne(begin, false);
    RunOne(EndPass, true);
    RunThrough([begin], body, false, true, true);
    RunThrough([begin] + body, [EndPass], false, true, false);
  }

  lemma SpotPassBalanced(f: Frame, m: nat, s: nat)
    requires Covers(f) && DrawsOnly(f) && m < |f.meshes| && s < SpotShadowCount
    ensures Run(SpotPass(f, m, s), false) == Some(false)
  {
    var binds := [SetDepthBias, BindDescriptorSet(f.targets.cascadeLayout, f.cascadeSet, MainOffset(m, f.stride))];
    StateCommandsKeep(binds, true);
    DrawsKeepPassOpen(f.meshes[m].transparentDraws);
    DrawsKeepPassOpen(f.meshes[m].opaqueDraws);
    RunThrough(binds, f.meshes[m].transparentDraws, true, true, true);
    RunThrough(binds + f.meshes[m].transparentDraws, f.meshes[m].opaqueDraws, true, true, true);
    var begin := BeginPass(f.targets.shadowPass, f.targets.spotFramebuffers[s]);
    PassBalanced(begin, binds + f.meshes[m].transparentDraws + f.meshes[m].opaqueDraws);
    assert SpotPass(f, m, s) == [begin] + (binds + f.meshes[m].transparentDraws + f.meshes[m].opaqueDraws) + [EndPass];
  }

  /** With one spot map, a mesh's spot passes are the one pass into map 0. */
  lemma SpotPassesOfMeshIsOne(f: Frame, m: nat)
    requires Covers(f) && m < |f.meshes|
    ensures SpotPassesOfMesh(f, m, SpotShadowCount) == SpotPass(f, m, 0)
  {
    assert SpotPassesOfMesh(f, m, 0) == [];
    assert SpotPassesOfMesh(f, m, 1) == [] + SpotPass(f, m, 0);
  }

  lemma {:induction false} SpotPassesBalanced(f: Frame, n: nat)
    requires Covers(f) && DrawsOnly(f) && n <= |f.meshes|
    ensures Run(SpotPasses(f, n), false) == Some(false)
  {
    if n > 0 {
      SpotPassesBalanced(f, n - 1);
      SpotPassesOfMeshIsOne(f, n - 1);
      SpotPassBalanced(f, n - 1, 0);
      RunThrough(SpotPasses(f, n - 1), SpotPass(f, n - 1, 0), false, false, false);
    }
  }

  lemma {:induction false} CascadeMeshesInPass(f: Frame, c: nat, n: nat)
    requires DrawsOnly(f) && n <= |f.meshes|
    ensures Run(CascadeMeshes(f, c, n), true) == Some(true)
  {
    if n > 0 {
      CascadeMeshesInPass(f, c, n - 1);
      var binds := [SetDepthBias, BindDescriptorSet(f.targets.cascadeLayout, f.cascadeSet, CascadeOffset(n - 1, c, f.stride))];
      StateCommandsKeep(binds, true);
      DrawsKeepPassOpen(f.meshes[n - 1].transparentDraws);
      DrawsKeepPassOpen(f.meshes[n - 1].opaqueDraws);
      RunThrough(CascadeMeshes(f, c, n - 1), binds, true, true, true);
      RunThrough(CascadeMeshes(f, c, n - 1) + binds, f.meshes[n - 1].transparentDraws, true, true, true);
      RunThrough(CascadeMeshes(f, c, n - 1) + binds + f.meshes[n - 1].transparentDraws, f.meshes[n - 1].opaqueDraws, true, true, true);
    }
  }

  lemma {:induction false} CascadePassesBalanced(f: Frame, n: nat)
    requires Covers(f) && DrawsOnly(f) && n <= CascadeCount
    ensures Run(CascadePasses(f, n), false) == Some(false)
  {
    if n > 0 {
      CascadePassesBalanced(f, n - 1);
      CascadeMeshesInPass(f, n - 1, |f.meshes|);
      PassBalanced(BeginPass(f.targets.shadowPass, f.targets.cascadeFramebuffers[n - 1]), CascadeMeshes(f, n - 1, |f.meshes|));
      RunThrough(CascadePasses(f, n - 1), CascadePass(f, n - 1), false, false, false);
    }
  }

  lemma {:induction false} MeshSweepInPass(f: Frame, n: nat, drawOpaque: bool)
    requires DrawsOnly(f) && n <= |f.meshes|
    ensures Run(MeshSweep(f, n, drawOpaque), true) == Some(true)
  {
    if n > 0 {
      MeshSweepInPass(f, n - 1, drawOpaque);
      var bind := [BindDescriptorSet(f.targets.objectsLayout, f.meshes[n - 1].descriptorSet, MainOffset(n - 1, f.stride))];
      StateCommandsKeep(bind, true);
      var draws := if drawOpaque then f.meshes[n - 1].opaqueDraws else f.meshes[n - 1].transparentDraws;
      DrawsKeepPassOpen(draws);
      RunThrough(MeshSweep(f, n - 1, drawOpaque), bind, true, true, true);
      RunThrough(MeshSweep(f, n - 1, drawOpaque) + bind, draws, true, true, true);
    }
  }

  lemma MainPassBalanced(f: Frame)
    requires Covers(f) && DrawsOnly(f)
    ensures Run(MainPass(f), false) == Some(false)
  {
    var t := f.targets;
    var m := |f.meshes|;
    var skyboxBinds := [BindPipeline(t.pipelines[1]), BindDescriptorSet(t.skyboxLayout, f.skyboxSet, 0)];
    StateCommandsKeep([BindPipeline(t.pipelines[0])], true);
    StateCommandsKeep(skyboxBinds, true);
    StateCommandsKeep([BindPipeline(t.pipelines[2])], true);
    StateCommandsKeep([BindPipeline(t.pipelines[3])], true);
    RunOne(DrawUI, true);
    MeshSweepInPass(f, m, true);
    MeshSweepInPass(f, m, false);
    DrawsKeepPassOpen(f.skyboxDraws);
    var p0 := [BindPipeline(t.pipelines[0])];
    var p1 := p0 + MeshSweep(f, m, true);
    RunThrough(p0, MeshSweep(f, m, true), true, true, true);
    var p2 := p1 + skyboxBinds;
    RunThrough(p1, skyboxBinds, true, true, true);
    var p3 := p2 + f.skyboxDraws;
    RunThrough(p2, f.skyboxDraws, true, true, true);
    var p4 := p3 + [BindPipeline(t.pipelines[2])];
    RunThrough(p3, [BindPipeline(t.pipelines[2])], true, true, true);
    var p5 := p4 + MeshSweep(f, m, false);
    RunThrough(p4, MeshSweep(f, m, false), true, true, true);
    var p6 := p5 + [BindPipeline(t.pipelines[3])];
    RunThrough(p5, [BindPipeline(t.pipelines[3])], true, true, true);
    var p7 := p6 + MeshSweep(f, m, false);
    RunThrough(p6, MeshSweep(f, m, false), true, true, true);
    RunThrough(p7, [DrawUI], true, true, true);
    assert MainPassBody(f) == p7 + [DrawUI];
    PassBalanced(BeginPass(t.objectsPass, t.objectsFramebuffers[f.image]), MainPassBody(f));
  }

  /** Render leaves no pass open, never begins a pass inside another, and records every
      draw inside a pass. */
  lemma FramePassesBalanced(f: Frame)
    requires Covers(f) && DrawsOnly(f)
    ensures Run(FrameTrace(f), false) == Some(false)
  {
    var t := f.targets;
    StateCommandsKeep([BindPipeline(t.pipelines[5])], false);
    StateCommandsKeep([BindPipeline(t.pipelines[4])], false);
    SpotPassesBalanced(f, |f.meshes|);
    CascadePassesBalanced(f, CascadeCount);
    MainPassBalanced(f);
    var p1 := [BindPipeline(t.pipelines[5])] + SpotPasses(f, |f.meshes|);
    RunThrough([BindPipeline(t.pipelines[5])], SpotPasses(f, |f.meshes|), false, false, false);
    var p2 := p1 + [BindPipeline(t.pipelines[4])];
    RunThrough(p1, [BindPipeline(t.pipelines[4])], false, false, false);
    var p3 := p2 + CascadePasses(f, CascadeCount);
    RunThrough(p2, CascadePasses(f, CascadeCount), false, false, false);
    RunThrough(p3, MainPass(f), false, false, false);
  }

  // ------------------------------------------------------ framebuffer order

  /** The framebuffers of the passes a trace begins, in order. */
  function Begun(events: seq<DrawEvent>): seq<Handle>
  {
    if |events| == 0 then []
    else (if events[0].BeginPass? then [events[0].framebuffer] else []) + Begun(events[1..])
  }

  lemma {:induction false} BegunAppend(a: seq<DrawEvent>, b: seq<DrawEvent>)
    ensures Begun(a + b) == Begun(a) + Begun(b)
  {
    if |a| > 0 {
      assert (a + b)[0] == a[0];
      assert (a + b)[1..] == a[1..] + b;
      BegunAppend(a[1..], b);
    } else {
      assert a + b == b;
    }
  }

  /** No pass begins among state commands and draws. */
  lemma {:induction false} NoneBegun(events: seq<DrawEvent>)
    requires forall e :: e in events ==> !e.BeginPass?
    ensures Begun(events) == []
  {
    if |events| > 0 {
      assert events[0] in events;
      assert forall e :: e in events[1..] ==> e in events;
      NoneBegun(events[1..]);
    }
  }

  /** The framebuffer of a pass that opens, records `body` without opening another, and
      closes. */
  lemma PassBegun(begin: DrawEvent, body: seq<DrawEvent>)
    requires begin.BeginPass? && forall e :: e in body ==> !e.BeginPass?
    ensures Begun([begin] + body + [EndPass]) == [begin.framebuffer]
  {
    NoneBegun(body);
    NoneBegun([EndPass]);
    assert Begun([begin]) == [begin.framebuffer] by {
      assert [begin][1..] == [];
    }
    BegunAppend([begin], body);
    BegunAppend([begin] + body, [EndPass]);
  }

  lemma {:induction false} SpotPassesBegun(f: Frame, n: nat)
    requires Covers(f) && DrawsOnly(f) && n <= |f.meshes|
    ensures Begun(SpotPasses(f, n)) == seq(n, _ => f.targets.spotFramebuffers[0])
  {
    if n > 0 {
      SpotPassesBegun(f, n - 1);
      var m := n - 1;
      var body := [SetDepthBias, BindDescriptorSet(f.targets.cascadeLayout, f.cascadeSet, MainOffset(m, f.stride))] +
                  f.meshes[m].transparentDraws + f.meshes[m].opaqueDraws;
      var begin := BeginPass(f.targets.shadowPass, f.targets.spotFramebuffers[0]);
      SpotPassesOfMeshIsOne(f, m);
      assert SpotPass(f, m, 0) == [begin] + body + [EndPass];
      PassBegun(begin, body);
      BegunAppend(SpotPasses(f, m), SpotPass(f, m, 0));
      assert seq(n, _ => begin.framebuffer) == seq(m, _ => begin.framebuffer) + [begin.framebuffer];
    }
  }

  lemma {:induction false} CascadeMeshesNoBegin(f: Frame, c: nat, n: nat)
    requires DrawsOnly(f) && n <= |f.meshes|
    ensures forall e :: e in CascadeMeshes(f, c, n) ==> !e.BeginPass?
  {
    if n > 0 {
      CascadeMeshesNoBegin(f, c, n - 1);
    }
  }

  lemma {:induction false} MeshSweepNoBegin(f: Frame, n: nat, drawOpaque: bool)
    requires DrawsOnly(f) && n <= |f.meshes|
    ensures forall e :: e in MeshSweep(f, n, drawOpaque) ==> !e.BeginPass?
  {
    if n > 0 {
      MeshSweepNoBegin(f, n - 1, drawOpaque);
    }
  }

  lemma {:induction false} CascadePassesBegun(f: Frame, n: nat)
    requires Covers(f) && DrawsOnly(f) && n <= CascadeCount
    ensures Begun(CascadePasses(f, n)) == f.targets.cascadeFramebuffers[..n]
  {
    if n > 0 {
      CascadePassesBegun(f, n - 1);
      CascadeMeshesNoBegin(f, n - 1, |f.meshes|);
      PassBegun(BeginPass(f.targets.shadowPass, f.targets.cascadeFramebuffers[n - 1]), CascadeMeshes(f, n - 1, |f.meshes|));
      BegunAppend(CascadePasses(f, n - 1), CascadePass(f, n - 1));
      assert f.targets.cascadeFramebuffers[..n] == f.targets.cascadeFramebuffers[..n - 1] + [f.targets.cascadeFramebuffers[n - 1]];
    }
  }

  lemma MainPassBegun(f: Frame)
    requires Covers(f) && DrawsOnly(f)
    ensures Begun(MainPass(f)) == [f.targets.objectsFramebuffers[f.image]]
  {
    MeshSweepNoBegin(f, |f.meshes|, true);
    MeshSweepNoBegin(f, |f.meshes|, false);
    PassBegun(BeginPass(f.targets.objectsPass, f.targets.objectsFramebuffers[f.image]), MainPassBody(f));
  }

  /** The frame begins one pass per mesh in spot framebuffer 0, then the four cascade
      framebuffers in order, then the image's objects framebuffer: M + 5 passes. */
  lemma FramebufferOrder(f: Frame)
    requires Covers(f) && DrawsOnly(f)
    ensures Begun(FrameTrace(f)) ==
              seq(|f.meshes|, _ => f.targets.spotFramebuffers[0]) +
              f.targets.cascadeFramebuffers[..CascadeCount] +
              [f.targets.objectsFramebuffers[f.image]]
    ensures |Begun(FrameTrace(f))| == |f.meshes| * SpotShadowCount + CascadeCount + 1
  {
    var t := f.targets;
    var m := |f.meshes|;
    SpotPassesBegun(f, m);
    CascadePassesBegun(f, CascadeCount);
    MainPassBegun(f);
    NoneBegun([BindPipeline(t.pipelines[5])]);
    NoneBegun([BindPipeline(t.pipelines[4])]);
    BegunAppend([BindPipeline(t.pipelines[5])], SpotPasses(f, m));
    var p1 := [BindPipeline(t.pipelines[5])] + SpotPasses(f, m);
    BegunAppend(p1, [BindPipeline(t.pipelines[4])]);
    var p2 := p1 + [BindPipeline(t.pipelines[4])];
    BegunAppend(p2, CascadePasses(f, CascadeCount));
    BegunAppend(p2 + CascadePasses(f, CascadeCount), MainPass(f));
  }

  // ------------------------------------------------------ dynamic offsets

  /** Every descriptor bind of the trace uses a dynamic offset that is a multiple of
      `alignment`. */
  predicate DynamicOffsetsAligned(events: seq<DrawEvent>, alignment: nat)
    requires alignment >= 1
  {
    forall e :: e in events && e.BindDescriptorSet? ==> e.dynamicOffset % alignment == 0
  }

  lemma {:induction false} CascadeMeshesAligned(f: Frame, c: nat, n: nat, alignment: nat)
    requires DrawsOnly(f) && n <= |f.meshes|
    requires alignment >= 1 && U32Modulus % alignment == 0 && f.stride % alignment == 0
    ensures DynamicOffsetsAligned(CascadeMeshes(f, c, n), alignment)
  {
    if n > 0 {
      CascadeMeshesAligned(f, c, n - 1, alignment);
      OffsetsAligned(n - 1, c, f.stride, alignment);
    }
  }

  lemma {:induction false} MeshSweepAligned(f: Frame, n: nat, drawOpaque: bool, alignment: nat)
    requires DrawsOnly(f) && n <= |f.meshes|
    requires alignment >= 1 && U32Modulus % alignment == 0 && f.stride % alignment == 0
    ensures DynamicOffsetsAligned(MeshSweep(f, n, drawOpaque), alignment)
  {
    if n > 0 {
      MeshSweepAligned(f, n - 1, drawOpaque, alignment);
      OffsetsAligned(n - 1, 0, f.stride, alignment);
    }
  }

  lemma {:induction false} SpotPassesAligned(f: Frame, n: nat, alignment: nat)
    requires Covers(f) && DrawsOnly(f) && n <= |f.meshes|
    requires alignment >= 1 && U32Modulus % alignment == 0 && f.stride % alignment == 0
    ensures DynamicOffsetsAligned(SpotPasses(f, n), alignment)
  {
    if n > 0 {
      SpotPassesAligned(f, n - 1, alignment);
      OffsetsAligned(n - 1, 0, f.stride, alignment);
      assert SpotPassesOfMesh(f, n - 1, 1) == [] + SpotPass(f, n - 1, 0);
    }
  }

  lemma {:induction false} CascadePassesAligned(f: Frame, n: nat, alignment: nat)
    requires Covers(f) && DrawsOnly(f) && n <= CascadeCount
    requires alignment >= 1 && U32Modulus % alignment == 0 && f.stride % alignment == 0
    ensures DynamicOffsetsAligned(CascadePasses(f, n), alignment)
  {
    if n > 0 {
      CascadePassesAligned(f, n - 1, alignment);
      CascadeMeshesAligned(f, n - 1, |f.meshes|, alignment);
    }
  }

  /** With a stride that is a multiple of the alignment (StrideRoundsUp), every dynamic
      offset of the frame is one too, as vkCmdBindDescriptorSets requires. */
  lemma FrameOffsetsAligned(f: Frame, alignment: nat)
    requires Covers(f) && DrawsOnly(f)
    requires alignment >= 1 && U32Modulus % alignment == 0 && f.stride % alignment == 0
    ensures DynamicOffsetsAligned(FrameTrace(f), alignment)
  {
    SpotPassesAligned(f, |f.meshes|, alignment);
    CascadePassesAligned(f, CascadeCount, alignment);
    MeshSweepAligned(f, |f.meshes|, true, alignment);
    MeshSweepAligned(f, |f.meshes|, false, alignment);
  }

  // ------------------------------------------------------ recording loops

  /** The spot-shadow loop: for each mesh, for each spot map, one pass. */
  method RecordSpotPasses(f: Frame) returns (events: seq<DrawEvent>)
    requires Covers(f)
    ensures events == SpotPasses(f, |f.meshes|)
  {
    events := [];
    var meshIndex := 0;
    while meshIndex < |f.meshes|
      invariant 0 <= meshIndex <= |f.meshes|
      invariant events == SpotPasses(f, meshIndex)
    {
      var spotLightIndex := 0;
      while spotLightIndex < SpotShadowCount
        invariant 0 <= spotLightIndex <= SpotShadowCount
        invariant events == SpotPasses(f, meshIndex) + SpotPassesOfMesh(f, meshIndex, spotLightIndex)
      {
        events := events + SpotPass(f, meshIndex, spotLightIndex);
        spotLightIndex := spotLightIndex + 1;
      }
      meshIndex := meshIndex + 1;
    }
  }

  /** The cascade loop: for each cascade a pass over all meshes. */
  method RecordCascadePasses(f: Frame) returns (events: seq<DrawEvent>)
    requires Covers(f)
    ensures events == CascadePasses(f, CascadeCount)
  {
    events := [];
    var cascadeIndex := 0;
    while cascadeIndex < CascadeCount
      invariant 0 <= cascadeIndex <= CascadeCount
      invariant events == CascadePasses(f, cascadeIndex)
    {
      var pass := RecordCascadePass(f, cascadeIndex);
      events := events + pass;
      cascadeIndex := cascadeIndex + 1;
    }
  }

  /** One cascade pass: the shadow pass into cascade framebuffer c, then for each mesh the
      depth bias, its slot for cascade c, and its transparent and opaque draws. */
  method RecordCascadePass(f: Frame, c: nat) returns (events: seq<DrawEvent>)
    requires Covers(f) && c < CascadeCount
    ensures events == CascadePass(f, c)
  {
    var begin := BeginPass(f.targets.shadowPass, f.targets.cascadeFramebuffers[c]);
    var draws := [];
    var meshIndex := 0;
    while meshIndex < |f.meshes|
      invariant 0 <= meshIndex <= |f.meshes|
      invariant draws == CascadeMeshes(f, c, meshIndex)
    {
      var mesh := f.meshes[meshIndex];
      draws := draws + [SetDepthBias, BindDescriptorSet(f.targets.cascadeLayout, f.cascadeSet, CascadeOffset(meshIndex, c, f.stride))] +
               mesh.transparentDraws + mesh.opaqueDraws;
      meshIndex := meshIndex + 1;
    }
    events := [begin] + draws + [EndPass];
  }

  /** One sweep of the main pass over all meshes. */
  method RecordMeshSweep(f: Frame, drawOpaque: bool) returns (events: seq<DrawEvent>)
    ensures events == MeshSweep(f, |f.meshes|, drawOpaque)
  {
    events := [];
    var meshIndex := 0;
    while meshIndex < |f.meshes|
      invariant 0 <= meshIndex <= |f.meshes|
      invariant events == MeshSweep(f, meshIndex, drawOpaque)
    {
      var mesh := f.meshes[meshIndex];
      events := events + [BindDescriptorSet(f.targets.objectsLayout, mesh.descriptorSet, MainOffset(meshIndex, f.stride))] +
                (if drawOpaque then mesh.opaqueDraws else mesh.transparentDraws);
      meshIndex := meshIndex + 1;
    }
  }

  /** Scene::Render on a frame's inputs. */
  method RecordFrame(f: Frame) returns (events: seq<DrawEvent>)
    requires Covers(f)
    ensures events == FrameTrace(f)
  {
    var t := f.targets;
    var spot := RecordSpotPasses(f);
    var cascades := RecordCascadePasses(f);
    var opaqueSweep := RecordMeshSweep(f, true);
    var transparentSweep := RecordMeshSweep(f, false);
    var secondSweep := RecordMeshSweep(f, false);
    var body := [BindPipeline(t.pipelines[0])] + opaqueSweep +
                [BindPipeline(t.pipelines[1]), BindDescriptorSet(t.skyboxLayout, f.skyboxSet, 0)] + f.skyboxDraws +
                [BindPipeline(t.pipelines[2])] + transparentSweep +
                [BindPipeline(t.pipelines[3])] + secondSweep +
                [DrawUI];
    var main := [BeginPass(t.objectsPass, t.objectsFramebuffers[f.image])] + body + [EndPass];
    assert main == MainPass(f);
    events := [BindPipeline(t.pipelines[5])] + spot + [BindPipeline(t.pipelines[4])] + cascades + main;
  }
}
