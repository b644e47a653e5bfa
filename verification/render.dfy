/**
 * One frame's draw: the commands `Draw` records into a command buffer and
 * submits, as a trace. The graphics library executes them; here only their
 * order and their arguments are modelled.
 */
module Render {
  import opened Layout
  import opened Setup
  import opened Scheduler

  datatype Filter = Nearest | Linear

  datatype Cmd =
    | AcquireCommandBuffer
    | BeginRenderPass(area: Rect, clearColors: seq<Color>)
    | BindGraphicsPipeline
    | PushFragmentShaderParams(block: Uniforms)
    | BindVertexBuffers(firstBinding: nat, bindingCount: nat, offsets: seq<nat>)
    | BindFragmentSamplers(textures: seq<TextureId>, samplers: seq<SamplerId>)
    | DrawPrimitives(vertexStart: nat, primitiveCount: nat, vertexParamOffset: nat, fragmentParamOffset: nat)
    | EndRenderPass
    | QueuePresent(region: Rect, filter: Filter)
    | Submit

  /** Number of distinct kinds of command. */
  const CmdKinds: nat := 10

  /**
   * Position of a command's kind in the frame protocol: a frame acquires a
   * buffer, opens the render pass, binds pipeline, uniforms, vertices and
   * samplers, draws, closes the pass, presents and submits, in that order.
   */
  function Rank(c: Cmd): (k: nat)
    ensures k < CmdKinds
  {
    match c
    case AcquireCommandBuffer => 0
    case BeginRenderPass(_, _) => 1
    case BindGraphicsPipeline => 2
    case PushFragmentShaderParams(_) => 3
    case BindVertexBuffers(_, _, _) => 4
    case BindFragmentSamplers(_, _) => 5
    case DrawPrimitives(_, _, _, _) => 6
    case EndRenderPass => 7
    case QueuePresent(_, _) => 8
    case Submit => 9
  }

  /** Every command of `tr` comes strictly later in the protocol than the ones before it. */
  predicate InProtocolOrder(tr: seq<Cmd>)
  {
    forall i, j :: 0 <= i < j < |tr| ==> Rank(tr[i]) < Rank(tr[j])
  }

  /** Number of commands of the same kind as `c` in `tr`. */
  function CountKind(tr: seq<Cmd>, c: Cmd): (n: nat)
  {
    if |tr| == 0 then 0
    else (if Rank(tr[0]) == Rank(c) then 1 else 0) + CountKind(tr[1..], c)
  }

  /**
   * The uniform block as it stands when a frame is drawn: start-up fixed the
   * padding and the resolution, and `Update` has been advancing the time.
   */
  function FrameUniforms(s: Setup, c: Clock): (u: Uniforms)
    ensures u.time == c.uniformTime
    ensures u.(time := s.uniforms.time) == s.uniforms
  {
    s.uniforms.(time := c.uniformTime)
  }

  /** The loop's first clock after start-up: the time uniform begins where `Initialize` left it. */
  function LoopStart(s: Setup, ticks: Machine.UInt64): (c: Clock)
    ensures AccumulatorDrained(c) && !c.quit && c.t == 0.0
    ensures c.uniformTime == s.uniforms.time && c.currentTicks == ticks
  {
    Start(ticks, s.uniforms.time)
  }

  /**
   * The frame `Draw` records, given the start-up state, the loop state whose
   * time uniform it pushes, and the offset the device returns for the pushed
   * uniforms.
   */
  function Draw(s: Setup, c: Clock, fragmentParamOffset: nat): (tr: seq<Cmd>)
    ensures |tr| == CmdKinds && InProtocolOrder(tr)
    ensures tr[0] == AcquireCommandBuffer && tr[|tr| - 1] == Submit
    ensures forall i :: 0 <= i < |tr| && tr[i].BeginRenderPass? ==>
              tr[i].area == s.renderArea && tr[i].clearColors == [s.clearColor]
    ensures forall i :: 0 <= i < |tr| && tr[i].PushFragmentShaderParams? ==>
              tr[i].block.time == c.uniformTime && tr[i].block.padding == s.uniforms.padding
              && tr[i].block.resolutionX == s.uniforms.resolutionX && tr[i].block.resolutionY == s.uniforms.resolutionY
    ensures forall i :: 0 <= i < |tr| && tr[i].BindVertexBuffers? ==>
              tr[i].firstBinding == 0 && tr[i].bindingCount == 1 && tr[i].offsets == s.vertexBufferOffsets
    ensures forall i :: 0 <= i < |tr| && tr[i].BindFragmentSamplers? ==>
              tr[i].textures == s.sampleTextures && tr[i].samplers == s.sampleSamplers
    ensures forall i :: 0 <= i < |tr| && tr[i].DrawPrimitives? ==>
              tr[i].vertexStart == 0 && tr[i].primitiveCount == 1
              && tr[i].vertexParamOffset == 0 && tr[i].fragmentParamOffset == fragmentParamOffset
    ensures forall i :: 0 <= i < |tr| && tr[i].QueuePresent? ==> tr[i].region == s.flip && tr[i].filter == Nearest
  {
    [ AcquireCommandBuffer,
      BeginRenderPass(s.renderArea, [s.clearColor]),
      BindGraphicsPipeline,
      PushFragmentShaderParams(FrameUniforms(s, c)),
      BindVertexBuffers(0, 1, s.vertexBufferOffsets),
      BindFragmentSamplers(s.sampleTextures, s.sampleSamplers),
      DrawPrimitives(0, 1, 0, fragmentParamOffset),
      EndRenderPass,
      QueuePresent(s.flip, Nearest),
      Submit ]
  }

  lemma {:induction false} RankAtLeastIndex(tr: seq<Cmd>, i: nat)
    requires InProtocolOrder(tr) && i < |tr|
    ensures i <= Rank(tr[i])
  {
    if i > 0 {
      RankAtLeastIndex(tr, i - 1);
    }
  }

  lemma {:induction false} RankAtMostLast(tr: seq<Cmd>, i: nat)
    requires InProtocolOrder(tr) && i < |tr|
    ensures Rank(tr[i]) + (|tr| - 1 - i) <= Rank(tr[|tr| - 1])
    decreases |tr| - i
  {
    if i < |tr| - 1 {
      RankAtMostLast(tr, i + 1);
    }
  }

  /**
   * The protocol order fixes the frame completely: a trace with one command
   * per kind in protocol order has every kind exactly at its rank, hence
   * contains each kind exactly once and ends with `Submit`.
   */
  lemma ProtocolFixesOrder(tr: seq<Cmd>)
    requires |tr| == CmdKinds && InProtocolOrder(tr)
    ensures forall i :: 0 <= i < |tr| ==> Rank(tr[i]) == i
    ensures tr[|tr| - 1] == Submit
  {
    forall i | 0 <= i < |tr|
      ensures Rank(tr[i]) == i
    {
      RankAtLeastIndex(tr, i);
      RankAtMostLast(tr, i);
    }
  }

  lemma {:induction false} CountKindOrdered(tr: seq<Cmd>, c: Cmd)
    requires InProtocolOrder(tr)
    ensures CountKind(tr, c) <= 1
    ensures CountKind(tr, c) == 1 <==> exists i :: 0 <= i < |tr| && Rank(tr[i]) == Rank(c)
  {
    if |tr| > 0 {
      assert InProtocolOrder(tr[1..]) by {
        forall i, j | 0 <= i < j < |tr[1..]|
          ensures Rank(tr[1..][i]) < Rank(tr[1..][j])
        {
          assert tr[1..][i] == tr[i + 1] && tr[1..][j] == tr[j + 1];
        }
      }
      CountKindOrdered(tr[1..], c);
      if Rank(tr[0]) == Rank(c) {
        forall i | 1 <= i < |tr|
          ensures Rank(tr[i]) != Rank(c)
        {
        }
      }
      if exists i :: 0 <= i < |tr| && Rank(tr[i]) == Rank(c) {
        var i :| 0 <= i < |tr| && Rank(tr[i]) == Rank(c);
        if i > 0 {
          assert tr[1..][i - 1] == tr[i];
        }
      }
      if exists i :: 0 <= i < |tr[1..]| && Rank(tr[1..][i]) == Rank(c) {
        var i :| 0 <= i < |tr[1..]| && Rank(tr[1..][i]) == Rank(c);
        assert tr[1..][i] == tr[i + 1];
      }
    }
  }

  /** Every frame `Draw` records contains each kind of command exactly once. */
  lemma DrawEmitsEachCommandOnce(s: Setup, clock: Clock, fragmentParamOffset: nat, c: Cmd)
    ensures CountKind(Draw(s, clock, fragmentParamOffset), c) == 1
  {
    var tr := Draw(s, clock, fragmentParamOffset);
    ProtocolFixesOrder(tr);
    CountKindOrdered(tr, c);
    assert Rank(tr[Rank(c)]) == Rank(c);
  }

  /**
   * Drawing after a successful start-up binds one vertex buffer at offset 0,
   * two texture/sampler pairs, pushes one 16-byte uniform block, and draws
   * one primitive of the start-up topology whose vertices are exactly those
   * in the vertex buffer.
   */
  lemma DrawAfterInitialize(sdlInitStatus: int, width: Machine.UInt32, height: Machine.UInt32,
                            clock: Clock, fragmentParamOffset: nat)
    requires 0 <= sdlInitStatus
    ensures Initialize(sdlInitStatus, width, height).Some?
    ensures var s := Initialize(sdlInitStatus, width, height).value;
      var tr := Draw(s, clock, fragmentParamOffset);
      && tr[4] == BindVertexBuffers(0, 1, [0])
      && |tr[5].textures| == |tr[5].samplers| == s.fragmentSamplerBindings == 2
      && UniformBlockBytes(tr[3].block) == 16
      && s.primitiveType == TriangleList
      && tr[6].vertexStart == 0
      && VerticesPerPrimitive(s.primitiveType) * tr[6].primitiveCount == |s.vertices|
      && VerticesPerPrimitive(s.primitiveType) * tr[6].primitiveCount * s.vertexBinding.stride == s.vertexBufferSize
  {
    ResourcesAgreeWithLayout(sdlInitStatus, width, height);
    UniformBlockSize(Draw(Initialize(sdlInitStatus, width, height).value, clock, fragmentParamOffset)[3].block);
  }

  /**
   * Every frame drawn while the loop runs from start-up shows the simulated
   * time: the pushed block's time is `t`, which is the number of steps so far
   * times `Dt`, and its resolution is the viewport's size.
   */
  lemma FrameShowsSimulatedTime(sdlInitStatus: int, width: Machine.UInt32, height: Machine.UInt32,
                                ticks: Machine.UInt64, polls: seq<Poll>, frequency: Machine.UInt64,
                                fragmentParamOffset: nat)
    requires 0 <= sdlInitStatus && 0 < frequency
    ensures Initialize(sdlInitStatus, width, height).Some?
    ensures var s := Initialize(sdlInitStatus, width, height).value;
      var r := Run(LoopStart(s, ticks), polls, frequency);
      var tr := Draw(s, r.clock, fragmentParamOffset);
      forall i :: 0 <= i < |tr| && tr[i].PushFragmentShaderParams? ==>
        && tr[i].block.time == r.clock.t == r.updates as real * Dt
        && tr[i].block.resolutionX == s.viewport.w && tr[i].block.resolutionY == s.viewport.h
  {
    TargetsHaveWindowSize(sdlInitStatus, width, height);
    RunFromStart(ticks, polls, frequency);
  }
}
