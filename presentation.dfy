/**
 * The render system, `Render` (src/render.rs) and its `run`
 * (src/systems.rs): it takes an encoder from the ring, records one frame's
 * commands into it, and sends it on. The encoder is modelled by the list of
 * commands recorded into it during the call; GPU resources (targets, buffers,
 * pipeline state) are not modelled, only the values written to them.
 */
module Presentation {
  import opened Wrappers
  import opened Components
  import opened Ecs
  import opened EncoderPipe

  const CLEAR_COLOR: seq<real> := [0.1, 0.2, 0.3, 1.0]
  const CLEAR_DEPTH: real := 1.0
  /** Size of the instance buffer, and so the most entities drawn per frame. */
  const MAX_INSTANCE_COUNT: nat := 1000 * 1000

  /** One element of the instance buffer. */
  datatype Instance = Instance(translate: Vec3)

  /** The projection-view matrix; its entries are never inspected here. */
  datatype Mat4 = Mat4(rows: seq<seq<real>>)

  /** The constant buffer's contents. */
  datatype Locals = Locals(transform: Mat4)

  /** The encoder operations `run` uses, with the values they are given. */
  datatype Command =
    | ClearColor(color: seq<real>)
    | ClearDepth(depth: real)
    | UpdateConstantBuffer(locals: Locals)
    | UpdateBuffer(data: seq<Instance>, offset: nat)
    | Draw(instances: Option<(nat, nat)>, transform: Mat4)

  /** `min(n, MAX_INSTANCE_COUNT)`: the number of entities drawn out of `n`. */
  function InstanceCount(n: nat): (c: nat)
    ensures c <= n && c <= MAX_INSTANCE_COUNT
    ensures c == n || c == MAX_INSTANCE_COUNT
  {
    if n < MAX_INSTANCE_COUNT then n else MAX_INSTANCE_COUNT
  }

  /** `v` holds one instance per position, in the same order, translated to it. */
  ghost predicate IsBatch(v: seq<Instance>, ps: seq<Pos>) {
    |v| == |ps| && forall i :: 0 <= i < |v| ==> v[i].translate == ps[i].v
  }

  /** The loop of `run` that pushes one instance per joined position. */
  method BuildBatch(ps: seq<Pos>) returns (v: seq<Instance>)
    ensures IsBatch(v, ps)
  {
    v := [];
    for i := 0 to |ps|
      invariant IsBatch(v, ps[..i])
    {
      v := v + [Instance(ps[i].v)];
    }
    assert ps[..|ps|] == ps;
  }

  class Render {
    /** The ring whose render side this system holds. */
    const encoder: Ring
    /** The projection-view matrix, fixed at creation. */
    var proview: Mat4
    /** The pipeline data's `transform` global. */
    var dataTransform: Mat4
    /** The draw slice's instance range: (count, base). */
    var sliceInstances: Option<(nat, nat)>

    constructor (ring: Ring, m: Mat4)
      ensures encoder == ring && proview == m
      ensures dataTransform == m && sliceInstances == None
    {
      encoder := ring;
      proview := m;
      dataTransform := m;
      sliceInstances := None;
    }

    /**
     * `Render::run`: exactly one receive from the render side of the ring and
     * one send of the same encoder back into it. In between, the encoder gets,
     * in order: a colour clear with `CLEAR_COLOR`, a depth clear with 1.0, the
     * constant buffer set to `proview`, the instance buffer filled with the
     * batch of the first `min(#entities, MAX_INSTANCE_COUNT)` positions in join
     * order, and one draw of that many instances. `proview` is not changed and
     * both transforms are set to it.
     */
    method Run(w: World) returns (enc: EncoderId, recorded: seq<Command>)
      requires w.Valid() && encoder.Valid()
      requires encoder.renderHeld == None && encoder.Queue(encoder.renderSide.rx) != []
      modifies this, encoder
      ensures encoder.Valid()
      ensures enc == old(encoder.Queue(encoder.renderSide.rx))[0]
      ensures encoder.Queue(encoder.renderSide.rx) == old(encoder.Queue(encoder.renderSide.rx))[1..]
      ensures encoder.Queue(encoder.renderSide.tx) == old(encoder.Queue(encoder.renderSide.tx)) + [enc]
      ensures encoder.renderHeld == None && encoder.mainHeld == old(encoder.mainHeld)
      ensures encoder.rendered == old(encoder.rendered) + [enc]
      ensures proview == old(proview)
      ensures var count := InstanceCount(w.pos.Length);
        && dataTransform == proview
        && sliceInstances == Some((count, 0))
        && |recorded| == 5
        && recorded[0] == ClearColor(CLEAR_COLOR)
        && recorded[1] == ClearDepth(CLEAR_DEPTH)
        && recorded[2] == UpdateConstantBuffer(Locals(proview))
        && recorded[3].UpdateBuffer? && recorded[3].offset == 0
        && IsBatch(recorded[3].data, w.pos[..count])
        && |recorded[3].data| <= MAX_INSTANCE_COUNT
        && recorded[4] == Draw(Some((count, 0)), proview)
    {
      var poss := w.pos[..];
      var e := encoder.Acquire(RenderSide);
      var log := [ClearColor(CLEAR_COLOR), ClearDepth(CLEAR_DEPTH)];
      var v := BuildBatch(poss);
      var count := InstanceCount(|v|);
      var m := proview;
      var locals := Locals(m);
      dataTransform := m;
      sliceInstances := Some((count, 0));
      log := log + [UpdateConstantBuffer(locals)];
      log := log + [UpdateBuffer(v[..count], 0)];
      log := log + [Draw(sliceInstances, dataTransform)];
      enc := encoder.Release(RenderSide);
      recorded := log;
    }
  }
}
