/** The keyboard handling of the demo: `processInput`, polled once per frame,
    and `key_callback`, called by GLFW for every key event. Between them they
    drive the window-close request, the abduction latch, the flashlight, the
    bloom switch (debounced with `bloomKeyPressed`), and the ImGui overlay with
    its effect on the cursor and on mouse-look. */
module Input {

  /** GLFW's key and action codes and cursor modes. */
  const KEY_F1: int := 290
  const PRESS: int := 1
  const CURSOR_NORMAL: int := 0x34001
  const CURSOR_DISABLED: int := 0x34003

  /** What `glfwGetKey` reports for the keys `processInput` acts on in one
      frame: true for `GLFW_PRESS`, false for `GLFW_RELEASE`. */
  datatype Keys = Keys(escape: bool, x: bool, f: bool, space: bool)

  /** Every flag the two handlers read or write: the window's close request and
      cursor mode, the four program-state flags, and the two bloom globals. */
  datatype Flags = Flags(
    shouldClose: bool, cursorMode: int,
    imGuiEnabled: bool, abduct: bool, flashlight: bool, cameraMouse: bool,
    bloom: bool, bloomKeyPressed: bool)

  /** The flags when the render loop starts: the `ProgramState` defaults, bloom
      on, and the cursor captured for mouse-look. */
  const Startup := Flags(false, CURSOR_DISABLED, false, false, false, true, true, false)

  /** The cursor mode matches the overlay: free while ImGui is shown, captured otherwise. */
  predicate CursorMatchesOverlay(v: Flags) {
    v.cursorMode == (if v.imGuiEnabled then CURSOR_NORMAL else CURSOR_DISABLED)
  }

  /** One call of `processInput`. */
  function Poll(v: Flags, k: Keys): (r: Flags)
    // the overlay, mouse-look and the cursor are the key callback's business
    ensures r.imGuiEnabled == v.imGuiEnabled && r.cameraMouse == v.cameraMouse && r.cursorMode == v.cursorMode
    // the debounce flag follows SPACE, and while it is set SPACE cannot flip bloom
    ensures r.bloomKeyPressed == k.space
    ensures v.bloomKeyPressed ==> r.bloom == v.bloom
    // a close request and an abduction are never withdrawn
    ensures (v.shouldClose ==> r.shouldClose) && (v.abduct ==> r.abduct)
  {
    v.(shouldClose := v.shouldClose || k.escape,
       abduct := v.abduct || k.x,
       flashlight := if k.f then !v.flashlight else v.flashlight,
       bloom := if k.space && !v.bloomKeyPressed then !v.bloom else v.bloom,
       bloomKeyPressed := k.space)
  }

  /** One call of `key_callback`. */
  function OnKey(v: Flags, key: int, action: int): (r: Flags)
    // only a press of F1 does anything, and it flips the overlay
    ensures !(key == KEY_F1 && action == PRESS) ==> r == v
    ensures key == KEY_F1 && action == PRESS ==> r.imGuiEnabled == !v.imGuiEnabled
    // showing the overlay frees the cursor and stops mouse-look
    ensures !v.imGuiEnabled && r.imGuiEnabled ==> !r.cameraMouse && r.cursorMode == CURSOR_NORMAL
    // hiding it captures the cursor again but does not restore mouse-look
    ensures v.imGuiEnabled && !r.imGuiEnabled ==> r.cameraMouse == v.cameraMouse && r.cursorMode == CURSOR_DISABLED
    // nothing polled by `processInput` changes
    ensures r.shouldClose == v.shouldClose && r.abduct == v.abduct && r.flashlight == v.flashlight
    ensures r.bloom == v.bloom && r.bloomKeyPressed == v.bloomKeyPressed
    ensures CursorMatchesOverlay(v) ==> CursorMatchesOverlay(r)
  {
    if key == KEY_F1 && action == PRESS then
      if !v.imGuiEnabled then v.(imGuiEnabled := true, cameraMouse := false, cursorMode := CURSOR_NORMAL)
      else v.(imGuiEnabled := false, cursorMode := CURSOR_DISABLED)
    else v
  }

  /** The flags after `processInput` has polled the frames `ks` in order. */
  function Frames(v: Flags, ks: seq<Keys>): Flags {
    if ks == [] then v else Poll(Frames(v, ks[..|ks| - 1]), ks[|ks| - 1])
  }

  /** Whether SPACE was down in the last of the frames `ks` (`held` before any). */
  function LastSpace(held: bool, ks: seq<Keys>): bool {
    if ks == [] then held else ks[|ks| - 1].space
  }

  /** Frames in which SPACE is down but was not down the frame before. */
  function SpacePresses(held: bool, ks: seq<Keys>): nat {
    if ks == [] then 0
    else SpacePresses(held, ks[..|ks| - 1]) + (if ks[|ks| - 1].space && !LastSpace(held, ks[..|ks| - 1]) then 1 else 0)
  }

  /** Frames in which F is down. */
  function FPresses(ks: seq<Keys>): nat {
    if ks == [] then 0 else FPresses(ks[..|ks| - 1]) + (if ks[|ks| - 1].f then 1 else 0)
  }

  /** `processInput` never touches the overlay, mouse-look or the cursor, and
      leaves the debounce flag equal to the last frame's SPACE. */
  lemma {:induction false} FramesKeepOverlay(v: Flags, ks: seq<Keys>)
    ensures var r := Frames(v, ks);
      r.imGuiEnabled == v.imGuiEnabled && r.cameraMouse == v.cameraMouse && r.cursorMode == v.cursorMode &&
      r.bloomKeyPressed == LastSpace(v.bloomKeyPressed, ks)
  {
    if ks != [] {
      FramesKeepOverlay(v, ks[..|ks| - 1]);
    }
  }

  /** Bloom is flipped once per press of SPACE, however long each press is held:
      its value is the start value flipped by the parity of the presses. */
  lemma {:induction false} BloomFollowsPresses(v: Flags, ks: seq<Keys>)
    ensures Frames(v, ks).bloom == (v.bloom != (SpacePresses(v.bloomKeyPressed, ks) % 2 == 1))
  {
    if ks != [] {
      var init := ks[..|ks| - 1];
      BloomFollowsPresses(v, init);
      FramesKeepOverlay(v, init);
    }
  }

  /** Holding SPACE down over any number of frames counts as one press at most:
      none if it was already down, one otherwise. */
  lemma {:induction false} HeldSpaceIsOnePress(held: bool, ks: seq<Keys>)
    requires ks != [] && forall i :: 0 <= i < |ks| ==> ks[i].space
    ensures SpacePresses(held, ks) == (if held then 0 else 1)
  {
    var init := ks[..|ks| - 1];
    if init != [] {
      HeldSpaceIsOnePress(held, init);
    }
  }

  /** So holding SPACE flips bloom at most once, and only when it was not already held. */
  lemma HoldingSpaceFlipsBloomAtMostOnce(v: Flags, ks: seq<Keys>)
    requires ks != [] && forall i :: 0 <= i < |ks| ==> ks[i].space
    ensures Frames(v, ks).bloom == (v.bloom != !v.bloomKeyPressed)
    ensures Frames(v, ks).bloomKeyPressed
  {
    BloomFollowsPresses(v, ks);
    HeldSpaceIsOnePress(v.bloomKeyPressed, ks);
    FramesKeepOverlay(v, ks);
  }

  /** A second flip needs a release in between: pressed in two successive frames,
      SPACE flips bloom once; pressed, released, pressed, it flips twice. */
  lemma NextFlipNeedsRelease(v: Flags, down: Keys, up: Keys)
    requires !v.bloomKeyPressed && down.space && !up.space
    ensures Poll(Poll(v, down), down).bloom == !v.bloom
    ensures Poll(Poll(Poll(v, down), up), down).bloom == v.bloom
  {
  }

  /** The abduction flag, once X has been seen, stays set: it is set exactly when
      it was set at the start or X was down in some frame. */
  lemma {:induction false} AbductionLatches(v: Flags, ks: seq<Keys>)
    ensures Frames(v, ks).abduct <==> v.abduct || exists i :: 0 <= i < |ks| && ks[i].x
  {
    if ks != [] {
      var init := ks[..|ks| - 1];
      AbductionLatches(v, init);
      if exists i :: 0 <= i < |init| && init[i].x {
        var i :| 0 <= i < |init| && init[i].x;
        assert ks[i].x;
      }
      if exists i :: 0 <= i < |ks| && ks[i].x {
        var i :| 0 <= i < |ks| && ks[i].x;
        if i < |init| {
          assert init[i].x;
        }
      }
    }
  }

  /** Likewise the close request: set exactly when ESC was down in some frame. */
  lemma {:induction false} CloseRequestLatches(v: Flags, ks: seq<Keys>)
    ensures Frames(v, ks).shouldClose <==> v.shouldClose || exists i :: 0 <= i < |ks| && ks[i].escape
  {
    if ks != [] {
      var init := ks[..|ks| - 1];
      CloseRequestLatches(v, init);
      if exists i :: 0 <= i < |init| && init[i].escape {
        var i :| 0 <= i < |init| && init[i].escape;
        assert ks[i].escape;
      }
      if exists i :: 0 <= i < |ks| && ks[i].escape {
        var i :| 0 <= i < |ks| && ks[i].escape;
        if i < |init| {
          assert init[i].escape;
        }
      }
    }
  }

  /** F has no debounce: the flashlight flips in every frame F is down, so it is on
      when the start value is flipped by the parity of those frames. */
  lemma {:induction false} FlashlightFollowsFrames(v: Flags, ks: seq<Keys>)
    ensures Frames(v, ks).flashlight == (v.flashlight != (FPresses(ks) % 2 == 1))
  {
    if ks != [] {
      FlashlightFollowsFrames(v, ks[..|ks| - 1]);
    }
  }

  /** Pressing F1 twice hides or shows the overlay again and returns the cursor
      to its mode, but leaves mouse-look off: only the ImGui checkbox turns it back on. */
  lemma F1TwiceRestoresOverlayNotMouseLook(v: Flags)
    requires CursorMatchesOverlay(v)
    ensures var r := OnKey(OnKey(v, KEY_F1, PRESS), KEY_F1, PRESS);
      r.imGuiEnabled == v.imGuiEnabled && r.cursorMode == v.cursorMode && !r.cameraMouse
  {
  }

  /** Once F1 has shown the overlay, no number of polled frames turns mouse-look back on. */
  lemma MouseLookStaysOff(v: Flags, ks: seq<Keys>)
    requires !v.imGuiEnabled
    ensures !Frames(OnKey(v, KEY_F1, PRESS), ks).cameraMouse
  {
    FramesKeepOverlay(OnKey(v, KEY_F1, PRESS), ks);
  }

  /** The flags start with the cursor matching the overlay, and both handlers keep it so. */
  lemma {:induction false} CursorAlwaysMatchesOverlay(v: Flags, ks: seq<Keys>, key: int, action: int)
    requires CursorMatchesOverlay(v)
    ensures CursorMatchesOverlay(Startup)
    ensures CursorMatchesOverlay(Frames(v, ks)) && CursorMatchesOverlay(OnKey(v, key, action))
  {
    FramesKeepOverlay(v, ks);
  }

  /** `ProgramState`: the flags the demo keeps in its program-state object. */
  class ProgramState {
    var imGuiEnabled: bool
    var abduct: bool
    var flashlight: bool
    var cameraMouseMovementUpdateEnabled: bool

    constructor ()
      ensures !imGuiEnabled && !abduct && !flashlight && cameraMouseMovementUpdateEnabled
    {
      imGuiEnabled, abduct, flashlight := false, false, false;
      cameraMouseMovementUpdateEnabled := true;
    }
  }

  /** The parts of the GLFW window the handlers change. */
  class Window {
    var shouldClose: bool
    var cursorMode: int

    constructor ()
      ensures !shouldClose && cursorMode == CURSOR_NORMAL
    {
      shouldClose, cursorMode := false, CURSOR_NORMAL;
    }
  }

  /** The handlers and the state they share: the program state, the window, and
      the two file-scope bloom globals. */
  class Controls {
    const programState: ProgramState
    const window: Window
    var bloom: bool
    var bloomKeyPressed: bool

    function View(): Flags
      reads this, programState, window
    {
      Flags(window.shouldClose, window.cursorMode,
            programState.imGuiEnabled, programState.abduct, programState.flashlight,
            programState.cameraMouseMovementUpdateEnabled,
            bloom, bloomKeyPressed)
    }

    /** The start-up of `main` as far as the flags go: default program state
        (nothing is loaded from file), bloom on, and the cursor captured, the overlay
        starting hidden. */
    constructor ()
      ensures View() == Startup && fresh(programState) && fresh(window)
    {
      programState := new ProgramState();
      window := new Window();
      bloom, bloomKeyPressed := true, false;
      new;
      window.cursorMode := CURSOR_DISABLED;
    }

    /** `processInput` for a frame in which the keys are as `keys` says. */
    method ProcessInput(keys: Keys)
      modifies this, programState, window
      ensures View() == Poll(old(View()), keys)
    {
      if keys.escape {
        window.shouldClose := true;
      }
      if keys.x {
        programState.abduct := true;
      }
      if keys.f {
        if programState.flashlight {
          programState.flashlight := false;
        } else {
          programState.flashlight := true;
        }
      }
      if keys.space && !bloomKeyPressed {
        bloom := !bloom;
        bloomKeyPressed := true;
      }
      if !keys.space {
        bloomKeyPressed := false;
      }
    }

    /** `key_callback` for event (`key`, `action`). */
    method KeyCallback(key: int, action: int)
      modifies programState, window
      ensures View() == OnKey(old(View()), key, action)
    {
      if key == KEY_F1 && action == PRESS {
        programState.imGuiEnabled := !programState.imGuiEnabled;
        if programState.imGuiEnabled {
          programState.cameraMouseMovementUpdateEnabled := false;
          window.cursorMode := CURSOR_NORMAL;
        } else {
          window.cursorMode := CURSOR_DISABLED;
        }
      }
    }
  }
}
