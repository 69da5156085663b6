/**
 * One pass of the main loop of src/render.rs: poll the window events (quit
 * check and camera input), update the camera, run the systems, take back an
 * encoder from the render side and return it to the ring, and feed the
 * frame's time to the frame statistics.
 *
 * The planner runs the mover before the render system (priority 20 before
 * 10); the thread pool that runs them is not modelled, so the systems are run
 * one after the other.
 */
module MainLoop {
  import opened Wrappers
  import opened Components
  import opened Ecs
  import opened Camera
  import opened EncoderPipe
  import Mover
  import opened Presentation
  import opened FrameStats

  /** The events that end the loop: Escape, pressed or released, and closing the window. */
  predicate IsQuit(e: Event) {
    e == Closed || (e.KeyboardInput? && e.key == Some(Escape))
  }

  /**
   * A quit event is still handled, but it writes no key slot and no zoom:
   * Escape has no slot and closing is neither key input nor wheel.
   */
  lemma QuitWritesNothing(c: CamState, e: Event)
    requires IsQuit(e)
    ensures Handled(c, e).keys == c.keys
    ensures Handled(c, e).zoomDelta == (if c.frameReset then 0 else c.zoomDelta)
  {
  }

  /**
   * The event loop of one frame: every event, quit events included, goes to
   * the camera controller in order, and the loop keeps running exactly when
   * none of the events is a quit event.
   */
  method PollEvents(cam: CameraController, events: seq<Event>) returns (running: bool)
    requires cam.Valid()
    modifies cam, cam.wasdqe
    ensures cam.Valid() && cam.wasdqe == old(cam.wasdqe)
    ensures cam.State() == HandledAll(old(cam.State()), events)
    ensures running <==> forall k :: 0 <= k < |events| ==> !IsQuit(events[k])
  {
    running := true;
    for i := 0 to |events|
      invariant cam.Valid() && cam.wasdqe == old(cam.wasdqe)
      invariant cam.State() == HandledAll(old(cam.State()), events[..i])
      invariant running <==> forall k :: 0 <= k < i ==> !IsQuit(events[k])
    {
      if IsQuit(events[i]) {
        running := false;
      }
      cam.Handle(events[i]);
      assert events[..i + 1][..i] == events[..i];
    }
    assert events[..|events|] == events;
  }

  /**
   * The main side's part of the handoff: receive the encoder the render side
   * sent, flush it, and send it back towards the render side.
   */
  method ReturnEncoder(ring: Ring) returns (e: EncoderId)
    requires ring.Valid() && ring.mainHeld == None
    requires ring.Queue(ring.mainSide.rx) != []
    modifies ring
    ensures ring.Valid() && ring.mainHeld == None && ring.renderHeld == old(ring.renderHeld)
    ensures e == old(ring.Queue(ring.mainSide.rx))[0]
    ensures ring.Queue(ring.mainSide.rx) == old(ring.Queue(ring.mainSide.rx))[1..]
    ensures ring.Queue(ring.mainSide.tx) == old(ring.Queue(ring.mainSide.tx)) + [e]
    ensures ring.rendered == old(ring.rendered)
  {
    e := ring.Acquire(MainSide);
    var _ := ring.Release(MainSide);
  }

  /**
   * One frame. Starting between frames, every step finds what it receives
   * waiting (nothing blocks) and the frame ends between frames again, with
   * the render side having recorded into the encoder at the head of the ring
   * and that encoder moved to the back: successive frames alternate between
   * the two encoders.
   */
  method Tick(
    cam: CameraController, w: World, render: Render, fps: Fps,
    events: seq<Event>, dist: seq<real>, elapsed: U32)
    returns (running: bool, enc: EncoderId, recorded: seq<Command>, report: Option<Report>)
    requires cam.Valid() && w.Valid() && fps.Valid()
    requires render.encoder.Valid() && render.encoder.Idle()
    requires |dist| == w.pos.Length
    requires forall k :: 0 <= k < |dist| ==> Mover.IsDistance(w.pos[k].v, w.moveTo[k].target, dist[k])
    modifies cam, cam.wasdqe, w.pos, render, render.encoder, fps
    ensures running <==> forall k :: 0 <= k < |events| ==> !IsQuit(events[k])
    ensures cam.Valid() && cam.wasdqe == old(cam.wasdqe)
    ensures cam.State() == Updated(HandledAll(old(cam.State()), events))
    ensures w.Valid() && w.moveTo == old(w.moveTo)
    ensures forall k :: 0 <= k < w.pos.Length ==>
      w.pos[k] == Pos(Mover.Step(old(w.pos[k]).v, w.moveTo[k], dist[k]))
    ensures render.encoder.Valid() && render.encoder.Idle()
    ensures enc == old(render.encoder.first)[0]
    ensures render.encoder.first == [old(render.encoder.first)[1], old(render.encoder.first)[0]]
    ensures render.encoder.rendered == old(render.encoder.rendered) + [enc]
    ensures render.proview == old(render.proview)
    ensures render.dataTransform == render.proview
    ensures render.sliceInstances == Some((InstanceCount(w.pos.Length), 0))
    ensures var count := InstanceCount(w.pos.Length);
      && |recorded| == 5
      && recorded[0] == ClearColor(CLEAR_COLOR)
      && recorded[1] == ClearDepth(CLEAR_DEPTH)
      && recorded[2] == UpdateConstantBuffer(Locals(render.proview))
      && recorded[3].UpdateBuffer? && recorded[3].offset == 0
      && IsBatch(recorded[3].data, w.pos[..count])
      && recorded[4] == Draw(Some((count, 0)), render.proview)
    ensures fps.Valid()
    ensures old(fps.msAccum) + elapsed < REPORT_MS ==>
      && report == None
      && fps.history == old(fps.history) + [elapsed]
      && fps.msAccum == old(fps.msAccum) + elapsed
    ensures old(fps.msAccum) + elapsed >= REPORT_MS ==>
      && report.Some? && Describes(report.value, old(fps.history) + [elapsed])
      && fps.msAccum == 0 && fps.history == []
  {
    running := PollEvents(cam, events);
    cam.Update();
    Mover.Run(w, dist);
    var ring := render.encoder;
    enc, recorded := render.Run(w);
    var _ := ReturnEncoder(ring);
    report := fps.Frame(elapsed);
  }
}
