/** What the orbit camera's input handling guarantees over any run of frames. */
module CameraProperties {
  import opened Camera

  /** A distance within [3, 20] stays there, whatever the scroll input. */
  lemma {:induction false} DistanceStaysInRange(o: Orbit, cfg: OrbitSettings, inputs: seq<FrameInput>)
    requires MinDistance <= o.distance <= MaxDistance
    ensures MinDistance <= Run(o, cfg, inputs).distance <= MaxDistance
    decreases |inputs|
  {
    if inputs != [] {
      DistanceStaysInRange(Updated(o, cfg, inputs[0]), cfg, inputs[1..]);
    }
  }

  /**
   * With bounds in order, a vertical angle within them stays within them,
   * whatever the drag input.
   */
  lemma {:induction false} VerticalAngleStaysInRange(o: Orbit, cfg: OrbitSettings, inputs: seq<FrameInput>)
    requires cfg.minYAngle <= o.y <= cfg.maxYAngle
    ensures cfg.minYAngle <= Run(o, cfg, inputs).y <= cfg.maxYAngle
    decreases |inputs|
  {
    if inputs != [] {
      VerticalAngleStaysInRange(Updated(o, cfg, inputs[0]), cfg, inputs[1..]);
    }
  }

  /**
   * The horizontal angle is never clamped: it moves by exactly the held
   * horizontal mouse movement times the rotation speed.
   */
  lemma {:induction false} HorizontalAngleFollowsDrag(o: Orbit, cfg: OrbitSettings, inputs: seq<FrameInput>)
    ensures Run(o, cfg, inputs).x == o.x + HeldDx(inputs) * cfg.rotationSpeed
    decreases |inputs|
  {
    if inputs != [] {
      var i, rest := inputs[0], inputs[1..];
      var d := if i.buttonHeld then i.dx else 0.0;
      assert Updated(o, cfg, i).x == o.x + d * cfg.rotationSpeed;
      HorizontalAngleFollowsDrag(Updated(o, cfg, i), cfg, rest);
      assert (d + HeldDx(rest)) * cfg.rotationSpeed == d * cfg.rotationSpeed + HeldDx(rest) * cfg.rotationSpeed;
    }
  }

  /** Frames without the button held leave both angles where they were. */
  lemma {:induction false} AnglesStillWithoutButton(o: Orbit, cfg: OrbitSettings, inputs: seq<FrameInput>)
    requires forall k :: 0 <= k < |inputs| ==> !inputs[k].buttonHeld
    ensures Run(o, cfg, inputs).x == o.x && Run(o, cfg, inputs).y == o.y
    decreases |inputs|
  {
    if inputs != [] {
      var rest := inputs[1..];
      assert forall k :: 0 <= k < |rest| ==> !rest[k].buttonHeld by {
        forall k | 0 <= k < |rest| ensures !rest[k].buttonHeld {
          assert rest[k] == inputs[k + 1];
        }
      }
      AnglesStillWithoutButton(Updated(o, cfg, inputs[0]), cfg, rest);
    }
  }

  /**
   * The camera as the script declares it: starting at distance 10 and
   * vertical angle 30 with bounds [10, 80], the distance stays in [3, 20] and
   * the vertical angle in [10, 80] over any run of frames.
   */
  lemma DefaultCameraStaysInRange(inputs: seq<FrameInput>)
    ensures MinDistance <= Run(InitialOrbit, DefaultSettings, inputs).distance <= MaxDistance
    ensures DefaultSettings.minYAngle <= Run(InitialOrbit, DefaultSettings, inputs).y <= DefaultSettings.maxYAngle
  {
    DistanceStaysInRange(InitialOrbit, DefaultSettings, inputs);
    VerticalAngleStaysInRange(InitialOrbit, DefaultSettings, inputs);
  }
}
