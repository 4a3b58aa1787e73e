/**
 * The GLFW window backend of src/window_glfw.rs: the per-frame input
 * bookkeeping of `Window::refresh` and the DPI lookup `get_env_dpi`.
 *
 * `refresh` first clears the per-frame lists, then handles the batch of
 * events GLFW delivers (a parameter here), then, when a size event arrived,
 * sets the GL viewport and, on platforms where GLFW scales automatically,
 * recomputes the DPI factor. `f32` values are reals; the environment is a map
 * and the float parser a parameter.
 */
module WindowGlfw {
  import opened Wrappers
  import opened Seqs

  /** GLFW's `Key`, as an opaque number. */
  type Key = nat

  datatype Action = Press | Release | Repeat

  datatype MouseButton = Button1 | Button2 | Button3 | Button4 | Button5 | Button6 | Button7 | Button8

  /** The backend-independent mouse button of the UI layer. */
  datatype Mouse = Left | Right | Middle | Other(n: nat)

  /** The window events `refresh` looks at; every other event is `OtherEvent`. */
  datatype WindowEvent =
    | KeyEvent(key: Key, action: Action)
    | Char(c: char)
    | MouseButtonEvent(button: MouseButton, mouseAction: Action)
    | CursorPos(x: real, y: real)
    | CursorEnter(entered: bool)
    | Scroll(dx: real, dy: real)
    | FileDrop(paths: seq<string>)
    | Size(width: int, height: int)
    | FramebufferSize(fbWidth: int, fbHeight: int)
    | OtherEvent

  // ---------------------------------------------------------------------------
  // Mouse buttons

  /** The button mapping of `refresh`: buttons 1 to 3 are named, 4 to 8 keep their number. */
  function ButtonToMouse(b: MouseButton): (m: Mouse)
    ensures MouseToButton(m) == Some(b)
  {
    match b
    case Button1 => Left
    case Button2 => Right
    case Button3 => Middle
    case Button4 => Other(4)
    case Button5 => Other(5)
    case Button6 => Other(6)
    case Button7 => Other(7)
    case Button8 => Other(8)
  }

  /** The GLFW button a UI mouse button came from, if any. */
  function MouseToButton(m: Mouse): Option<MouseButton>
  {
    match m
    case Left => Some(Button1)
    case Right => Some(Button2)
    case Middle => Some(Button3)
    case Other(n) =>
      if n == 4 then Some(Button4)
      else if n == 5 then Some(Button5)
      else if n == 6 then Some(Button6)
      else if n == 7 then Some(Button7)
      else if n == 8 then Some(Button8)
      else None
  }

  /**
   * The mapping loses nothing: every button round-trips, so two buttons never
   * map to the same mouse button, and only `Other(4)` to `Other(8)` arise.
   */
  lemma ButtonMappingIsInvertible(b: MouseButton, b2: MouseButton)
    ensures MouseToButton(ButtonToMouse(b)) == Some(b)
    ensures ButtonToMouse(b) == ButtonToMouse(b2) ==> b == b2
    ensures ButtonToMouse(b).Other? ==> 4 <= ButtonToMouse(b).n <= 8
  {
  }

  /** Every mouse button that something maps back to is the image of that button. */
  lemma MouseToButtonIsPartialInverse(m: Mouse)
    ensures MouseToButton(m).Some? ==> ButtonToMouse(MouseToButton(m).value) == m
    ensures MouseToButton(m).None? <==> m.Other? && !(4 <= m.n <= 8)
  {
  }

  // ---------------------------------------------------------------------------
  // Numbers

  /** `f32` division with a zero divisor mapped to 0 (the source would give inf or NaN). */
  function Div(a: real, b: real): real
  {
    if b == 0.0 then 0.0 else a / b
  }

  function Max(a: real, b: real): real
  {
    if a >= b then a else b
  }

  const I32_MIN: int := -0x8000_0000
  const I32_MAX: int := 0x7FFF_FFFF

  /** Rust's `f32 as i32`: truncation toward zero, saturating at the bounds of `i32`. */
  function TruncateToI32(r: real): (v: int)
    ensures I32_MIN <= v <= I32_MAX
    ensures r >= I32_MAX as real ==> v == I32_MAX
    ensures r <= I32_MIN as real ==> v == I32_MIN
    ensures 0.0 <= r < I32_MAX as real ==> v == r.Floor
    ensures I32_MIN as real < r < 0.0 ==> (v - 1) as real < r <= v as real
  {
    if r >= I32_MAX as real then I32_MAX
    else if r <= I32_MIN as real then I32_MIN
    else if r >= 0.0 then r.Floor
    else -((-r).Floor)
  }

  // ---------------------------------------------------------------------------
  // The input state and one event

  /** A pair of `f32` values: cursor coordinates or scroll deltas. */
  datatype Vec2 = Vec2(x: real, y: real)

  /** A scroll event's deltas scaled by the scroll length: GLFW reports notches, the UI wants pixels. */
  function Scaled(length: real, d: Vec2): Vec2
  {
    Vec2(length * d.x, length * d.y)
  }

  /** Window and framebuffer sizes and the DPI factor. */
  datatype Sizes = Sizes(width: real, height: real, dpiFactor: real, fbWidth: real, fbHeight: real)

  /** The key lists and this frame's typed characters. */
  datatype KeyState = KeyState(held: seq<Key>, pressed: seq<Key>, released: seq<Key>, typedChars: seq<char>)

  /** The mouse fields. */
  datatype MouseState = MouseState(
    inside: bool, coords: Vec2, scroll: Vec2, scrollLength: real,
    held: seq<Mouse>, pressed: seq<Mouse>, released: seq<Mouse>)

  /** The fields `refresh` reads or writes, as one value. */
  datatype InputState = InputState(sizes: Sizes, keys: KeyState, mouse: MouseState, droppedFiles: seq<string>)

  /** The resets at the top of `refresh`: this frame's keys, characters, scroll and dropped files. */
  function StartFrame(s: InputState): (r: InputState)
    ensures r.keys.pressed == [] && r.keys.released == [] && r.keys.typedChars == []
    ensures r.mouse.scroll == Vec2(0.0, 0.0) && r.droppedFiles == []
    ensures r.keys.held == s.keys.held && r.mouse.held == s.mouse.held
    ensures r.mouse.pressed == s.mouse.pressed && r.mouse.released == s.mouse.released
    ensures r.sizes == s.sizes && r.mouse.scrollLength == s.mouse.scrollLength
    ensures r.mouse.inside == s.mouse.inside && r.mouse.coords == s.mouse.coords
  {
    s.(keys := s.keys.(pressed := [], released := [], typedChars := []),
       mouse := s.mouse.(scroll := Vec2(0.0, 0.0)),
       droppedFiles := [])
  }

  /** A key event: a press appends to both lists, a release reports the key and drops its first held copy. */
  function KeyStep(k: KeyState, key: Key, action: Action): KeyState
  {
    match action
    case Press => k.(pressed := k.pressed + [key], held := k.held + [key])
    case Release => k.(released := k.released + [key], held := RemoveFirst(k.held, key))
    case Repeat => k
  }

  /** A mouse-button event, after mapping the button: the same rules as keys, on the mouse lists. */
  function ButtonStep(m: MouseState, button: Mouse, action: Action): MouseState
  {
    match action
    case Press => m.(pressed := m.pressed + [button], held := m.held + [button])
    case Release => m.(released := m.released + [button], held := RemoveFirst(m.held, button))
    case Repeat => m
  }

  /**
   * One event of the batch. `hidpiAuto` is the platform constant saying GLFW
   * already reports sizes in pixels (Windows and macOS).
   */
  function Step(s: InputState, e: WindowEvent, hidpiAuto: bool): InputState
  {
    match e
    case KeyEvent(key, action) => s.(keys := KeyStep(s.keys, key, action))
    case Char(c) => s.(keys := s.keys.(typedChars := s.keys.typedChars + [c]))
    case MouseButtonEvent(button, action) => s.(mouse := ButtonStep(s.mouse, ButtonToMouse(button), action))
    case CursorPos(x, y) => s.(mouse := s.mouse.(coords := Vec2(Div(x, s.sizes.dpiFactor), Div(y, s.sizes.dpiFactor))))
    case CursorEnter(entered) => s.(mouse := s.mouse.(inside := entered))
    case Scroll(dx, dy) => s.(mouse := s.mouse.(scroll := Scaled(s.mouse.scrollLength, Vec2(dx, dy))))
    case FileDrop(paths) => s.(droppedFiles := paths)
    case Size(w, h) =>
      if hidpiAuto then s.(sizes := s.sizes.(width := w as real, height := h as real))
      else s.(sizes := s.sizes.(width := Div(w as real, s.sizes.dpiFactor), height := Div(h as real, s.sizes.dpiFactor)))
    case FramebufferSize(w, h) => s.(sizes := s.sizes.(fbWidth := w as real, fbHeight := h as real))
    case OtherEvent => s
  }

  /** The events of the batch handled in order. */
  function ApplyEvents(s: InputState, events: seq<WindowEvent>, hidpiAuto: bool): InputState
  {
    if events == [] then s
    else Step(ApplyEvents(s, events[..|events| - 1], hidpiAuto), events[|events| - 1], hidpiAuto)
  }

  /** Handling one more event of the batch extends `ApplyEvents` and `AnyResize` by that event. */
  lemma ApplyEventsStep(s: InputState, events: seq<WindowEvent>, n: nat, hidpiAuto: bool, before: InputState, after: InputState)
    requires n < |events|
    requires before == ApplyEvents(s, events[..n], hidpiAuto) && after == Step(before, events[n], hidpiAuto)
    ensures after == ApplyEvents(s, events[..n + 1], hidpiAuto)
    ensures AnyResize(events[..n + 1]) == (AnyResize(events[..n]) || events[n].Size? || events[n].FramebufferSize?)
  {
    assert events[..n + 1][..n] == events[..n];
  }

  /** Whether the batch holds a size event of either kind: it sets `refresh`'s resize flag. */
  function AnyResize(events: seq<WindowEvent>): (r: bool)
    ensures r <==> exists i :: 0 <= i < |events| && (events[i].Size? || events[i].FramebufferSize?)
  {
    if events == [] then false
    else
      var e := events[|events| - 1];
      AnyResize(events[..|events| - 1]) || e.Size? || e.FramebufferSize?
  }

  /** After the events: on a resize with automatic HiDPI, the DPI factor is the larger framebuffer-to-window ratio. */
  function FinishFrame(s: InputState, resize: bool, hidpiAuto: bool): InputState
  {
    if resize && hidpiAuto then
      s.(sizes := s.sizes.(dpiFactor := Max(Div(s.sizes.fbWidth, s.sizes.width), Div(s.sizes.fbHeight, s.sizes.height))))
    else s
  }

  /** The state `refresh` leaves behind. */
  function AfterRefresh(s: InputState, events: seq<WindowEvent>, hidpiAuto: bool): InputState
  {
    FinishFrame(ApplyEvents(StartFrame(s), events, hidpiAuto), AnyResize(events), hidpiAuto)
  }

  // ---------------------------------------------------------------------------
  // What a frame's batch leaves behind

  /** The keys pressed in `events`, in order. */
  function PressedKeysIn(events: seq<WindowEvent>): seq<Key>
  {
    if events == [] then []
    else
      var e := events[|events| - 1];
      PressedKeysIn(events[..|events| - 1]) + (if e.KeyEvent? && e.action == Press then [e.key] else [])
  }

  /** The keys released in `events`, in order. */
  function ReleasedKeysIn(events: seq<WindowEvent>): seq<Key>
  {
    if events == [] then []
    else
      var e := events[|events| - 1];
      ReleasedKeysIn(events[..|events| - 1]) + (if e.KeyEvent? && e.action == Release then [e.key] else [])
  }

  /** The characters typed in `events`, in order. */
  function CharsIn(events: seq<WindowEvent>): seq<char>
  {
    if events == [] then []
    else
      var e := events[|events| - 1];
      CharsIn(events[..|events| - 1]) + (if e.Char? then [e.c] else [])
  }

  /** The mouse buttons pressed in `events`, mapped, in order. */
  function MousePressesIn(events: seq<WindowEvent>): seq<Mouse>
  {
    if events == [] then []
    else
      var e := events[|events| - 1];
      MousePressesIn(events[..|events| - 1])
      + (if e.MouseButtonEvent? && e.mouseAction == Press then [ButtonToMouse(e.button)] else [])
  }

  /** The mouse buttons released in `events`, mapped, in order. */
  function MouseReleasesIn(events: seq<WindowEvent>): seq<Mouse>
  {
    if events == [] then []
    else
      var e := events[|events| - 1];
      MouseReleasesIn(events[..|events| - 1])
      + (if e.MouseButtonEvent? && e.mouseAction == Release then [ButtonToMouse(e.button)] else [])
  }

  /** The deltas of the last scroll event of the batch, if any. */
  function LastScroll(events: seq<WindowEvent>): (r: Option<Vec2>)
    ensures r.None? <==> forall i :: 0 <= i < |events| ==> !events[i].Scroll?
  {
    if events == [] then None
    else
      var e := events[|events| - 1];
      if e.Scroll? then Some(Vec2(e.dx, e.dy)) else LastScroll(events[..|events| - 1])
  }

  /** The paths of the last file-drop event of the batch, if any. */
  function LastFileDrop(events: seq<WindowEvent>): (r: Option<seq<string>>)
    ensures r.None? <==> forall i :: 0 <= i < |events| ==> !events[i].FileDrop?
  {
    if events == [] then None
    else
      var e := events[|events| - 1];
      if e.FileDrop? then Some(e.paths) else LastFileDrop(events[..|events| - 1])
  }

  /** `LastScroll` names a scroll event after which the batch scrolls no more. */
  lemma {:induction false} LastScrollIsLast(events: seq<WindowEvent>)
    requires LastScroll(events).Some?
    ensures exists i :: 0 <= i < |events| && events[i] == Scroll(LastScroll(events).value.x, LastScroll(events).value.y)
                        && forall j :: i < j < |events| ==> !events[j].Scroll?
  {
    var n := |events| - 1;
    if events[n].Scroll? {
      assert events[n] == Scroll(LastScroll(events).value.x, LastScroll(events).value.y);
    } else {
      var prefix := events[..n];
      LastScrollIsLast(prefix);
      var i :| 0 <= i < |prefix| && prefix[i] == Scroll(LastScroll(prefix).value.x, LastScroll(prefix).value.y)
               && forall j :: i < j < |prefix| ==> !prefix[j].Scroll?;
      assert events[i] == prefix[i];
      assert forall j :: i < j < |events| ==> !events[j].Scroll? by {
        forall j | i < j < |events| ensures !events[j].Scroll? {
          if j < n { assert events[j] == prefix[j]; }
        }
      }
    }
  }

  /** `LastFileDrop` names a drop event after which the batch drops no more files. */
  lemma {:induction false} LastFileDropIsLast(events: seq<WindowEvent>)
    requires LastFileDrop(events).Some?
    ensures exists i :: 0 <= i < |events| && events[i] == FileDrop(LastFileDrop(events).value)
                        && forall j :: i < j < |events| ==> !events[j].FileDrop?
  {
    var n := |events| - 1;
    if events[n].FileDrop? {
      assert events[n] == FileDrop(LastFileDrop(events).value);
    } else {
      var prefix := events[..n];
      LastFileDropIsLast(prefix);
      var i :| 0 <= i < |prefix| && prefix[i] == FileDrop(LastFileDrop(prefix).value)
               && forall j :: i < j < |prefix| ==> !prefix[j].FileDrop?;
      assert events[i] == prefix[i];
      assert forall j :: i < j < |events| ==> !events[j].FileDrop? by {
        forall j | i < j < |events| ensures !events[j].FileDrop? {
          if j < n { assert events[j] == prefix[j]; }
        }
      }
    }
  }

  /** What one event adds to the per-frame lists, and what it does to the scroll and dropped files. */
  lemma StepFrameFields(s: InputState, e: WindowEvent, hidpiAuto: bool)
    ensures var r := Step(s, e, hidpiAuto);
      && r.keys.pressed == s.keys.pressed + (if e.KeyEvent? && e.action == Press then [e.key] else [])
      && r.keys.released == s.keys.released + (if e.KeyEvent? && e.action == Release then [e.key] else [])
      && r.keys.typedChars == s.keys.typedChars + (if e.Char? then [e.c] else [])
      && r.mouse.pressed == s.mouse.pressed
         + (if e.MouseButtonEvent? && e.mouseAction == Press then [ButtonToMouse(e.button)] else [])
      && r.mouse.released == s.mouse.released
         + (if e.MouseButtonEvent? && e.mouseAction == Release then [ButtonToMouse(e.button)] else [])
      && r.mouse.scrollLength == s.mouse.scrollLength
      && r.mouse.scroll == (if e.Scroll? then Scaled(s.mouse.scrollLength, Vec2(e.dx, e.dy)) else s.mouse.scroll)
      && r.droppedFiles == (if e.FileDrop? then e.paths else s.droppedFiles)
  {
  }

  /**
   * The per-frame lists hold exactly this batch's presses, releases and
   * characters, in arrival order, because `refresh` cleared them first; the
   * mouse-pressed and mouse-released lists are not cleared and so accumulate
   * across frames.
   */
  lemma {:induction false} FrameListsAreThisBatch(s: InputState, events: seq<WindowEvent>, hidpiAuto: bool)
    ensures var r := ApplyEvents(StartFrame(s), events, hidpiAuto);
      && r.keys.pressed == PressedKeysIn(events)
      && r.keys.released == ReleasedKeysIn(events)
      && r.keys.typedChars == CharsIn(events)
      && r.mouse.pressed == s.mouse.pressed + MousePressesIn(events)
      && r.mouse.released == s.mouse.released + MouseReleasesIn(events)
  {
    if events != [] {
      var prefix := events[..|events| - 1];
      FrameListsAreThisBatch(s, prefix, hidpiAuto);
      StepFrameFields(ApplyEvents(StartFrame(s), prefix, hidpiAuto), events[|events| - 1], hidpiAuto);
    }
  }

  /** Scrolling is not summed: the last scroll event of the batch, scaled, wins; none leaves (0, 0). */
  lemma {:induction false} LastScrollWins(s: InputState, events: seq<WindowEvent>, hidpiAuto: bool)
    ensures var r := ApplyEvents(StartFrame(s), events, hidpiAuto);
      && r.mouse.scrollLength == s.mouse.scrollLength
      && r.mouse.scroll == match LastScroll(events)
         case None => Vec2(0.0, 0.0)
         case Some(d) => Scaled(s.mouse.scrollLength, d)
  {
    if events != [] {
      var prefix := events[..|events| - 1];
      var e := events[|events| - 1];
      LastScrollWins(s, prefix, hidpiAuto);
      StepFrameFields(ApplyEvents(StartFrame(s), prefix, hidpiAuto), e, hidpiAuto);
      if e.Scroll? {
        assert LastScroll(events) == Some(Vec2(e.dx, e.dy));
      } else {
        assert LastScroll(events) == LastScroll(prefix);
      }
    }
  }

  /** Dropped files are replaced, not appended: the last drop of the batch wins; none leaves no files. */
  lemma {:induction false} LastFileDropWins(s: InputState, events: seq<WindowEvent>, hidpiAuto: bool)
    ensures ApplyEvents(StartFrame(s), events, hidpiAuto).droppedFiles
         == match LastFileDrop(events) case None => [] case Some(paths) => paths
  {
    if events != [] {
      var prefix := events[..|events| - 1];
      LastFileDropWins(s, prefix, hidpiAuto);
      StepFrameFields(ApplyEvents(StartFrame(s), prefix, hidpiAuto), events[|events| - 1], hidpiAuto);
    }
  }

  /** A key press appends to both key lists, with no duplicate check; a button press does the same on the mouse lists. */
  lemma PressAppendsTwice(s: InputState, key: Key, button: MouseButton, hidpiAuto: bool)
    ensures var r := Step(s, KeyEvent(key, Press), hidpiAuto);
      && r.keys.pressed == s.keys.pressed + [key] && r.keys.held == s.keys.held + [key]
      && r.keys.released == s.keys.released && r.keys.typedChars == s.keys.typedChars
      && r.mouse == s.mouse && r.droppedFiles == s.droppedFiles && r.sizes == s.sizes
      && (key in s.keys.held ==> multiset(r.keys.held)[key] == multiset(s.keys.held)[key] + 1)
    ensures var m := ButtonToMouse(button);
      var r := Step(s, MouseButtonEvent(button, Press), hidpiAuto);
      && r.mouse.pressed == s.mouse.pressed + [m] && r.mouse.held == s.mouse.held + [m]
      && r.mouse.released == s.mouse.released && r.keys == s.keys
      && r.mouse.inside == s.mouse.inside && r.mouse.coords == s.mouse.coords
      && r.mouse.scroll == s.mouse.scroll && r.mouse.scrollLength == s.mouse.scrollLength
      && r.droppedFiles == s.droppedFiles && r.sizes == s.sizes
      && (m in s.mouse.held ==> multiset(r.mouse.held)[m] == multiset(s.mouse.held)[m] + 1)
  {
  }

  /**
   * A release reports the key and drops exactly its first copy from the held
   * list, keeping the other held keys in order; with none held, nothing is
   * dropped. Mouse buttons follow the same rule.
   */
  lemma {:induction false} ReleaseDropsFirstHeld<T>(held: seq<T>, released: seq<T>, x: T,
                                                        heldAfter: seq<T>, releasedAfter: seq<T>)
    requires heldAfter == RemoveFirst(held, x) && releasedAfter == released + [x]
    ensures releasedAfter[|released|] == x && releasedAfter[..|released|] == released
    ensures multiset(held) == multiset(heldAfter) + (if x in held then multiset{x} else multiset{})
    ensures forall i :: 0 <= i < |held| && held[i] == x && x !in held[..i] ==> heldAfter == held[..i] + held[i + 1..]
    ensures x !in held ==> heldAfter == held
  {
    RemoveFirstMultiset(held, x);
    if x !in held {
      RemoveFirstAbsent(held, x);
    }
    forall i | 0 <= i < |held| && held[i] == x && x !in held[..i]
      ensures heldAfter == held[..i] + held[i + 1..]
    {
      RemoveFirstAt(held, x, i);
    }
  }

  /** Key and button releases are both instances of `ReleaseDropsFirstHeld`. */
  lemma ReleasesDropFirstHeld(s: InputState, key: Key, button: MouseButton, hidpiAuto: bool)
    ensures var r := Step(s, KeyEvent(key, Release), hidpiAuto).keys;
      && multiset(s.keys.held) == multiset(r.held) + (if key in s.keys.held then multiset{key} else multiset{})
      && (key !in s.keys.held ==> r.held == s.keys.held)
      && (forall i :: 0 <= i < |s.keys.held| && s.keys.held[i] == key && key !in s.keys.held[..i] ==>
            r.held == s.keys.held[..i] + s.keys.held[i + 1..])
      && r.released == s.keys.released + [key]
    ensures var m := ButtonToMouse(button);
      var r := Step(s, MouseButtonEvent(button, Release), hidpiAuto).mouse;
      && multiset(s.mouse.held) == multiset(r.held) + (if m in s.mouse.held then multiset{m} else multiset{})
      && (m !in s.mouse.held ==> r.held == s.mouse.held)
      && (forall i :: 0 <= i < |s.mouse.held| && s.mouse.held[i] == m && m !in s.mouse.held[..i] ==>
            r.held == s.mouse.held[..i] + s.mouse.held[i + 1..])
      && r.released == s.mouse.released + [m]
  {
    var k := Step(s, KeyEvent(key, Release), hidpiAuto).keys;
    ReleaseDropsFirstHeld(s.keys.held, s.keys.released, key, k.held, k.released);
    var m := Step(s, MouseButtonEvent(button, Release), hidpiAuto).mouse;
    ReleaseDropsFirstHeld(s.mouse.held, s.mouse.released, ButtonToMouse(button), m.held, m.released);
  }

  /** Without a size event the window and framebuffer sizes and the DPI factor stay put. */
  lemma NoResizeKeepsGeometry(s: InputState, events: seq<WindowEvent>, hidpiAuto: bool)
    requires !AnyResize(events)
    ensures AfterRefresh(s, events, hidpiAuto).sizes == s.sizes
  {
    NoResizeKeepsSizes(StartFrame(s), events, hidpiAuto);
  }

  lemma {:induction false} NoResizeKeepsSizes(s: InputState, events: seq<WindowEvent>, hidpiAuto: bool)
    requires !AnyResize(events)
    ensures ApplyEvents(s, events, hidpiAuto).sizes == s.sizes
  {
    if events != [] {
      assert !AnyResize(events[..|events| - 1]);
      NoResizeKeepsSizes(s, events[..|events| - 1], hidpiAuto);
    }
  }

  /** Events never touch the DPI factor: only the end of `refresh` may recompute it. */
  lemma {:induction false} EventsKeepDpi(s: InputState, events: seq<WindowEvent>, hidpiAuto: bool)
    ensures ApplyEvents(s, events, hidpiAuto).sizes.dpiFactor == s.sizes.dpiFactor
  {
    if events != [] {
      EventsKeepDpi(s, events[..|events| - 1], hidpiAuto);
    }
  }

  /**
   * The DPI factor changes only on a resize with automatic HiDPI, and then it
   * is the larger of the horizontal and vertical framebuffer-to-window ratios
   * of the new sizes; otherwise it is the one the frame started with.
   */
  lemma DpiUpdateOnlyOnAutoResize(s: InputState, events: seq<WindowEvent>, hidpiAuto: bool)
    ensures var r := AfterRefresh(s, events, hidpiAuto).sizes;
      && (hidpiAuto && AnyResize(events) ==>
            && r.dpiFactor >= Div(r.fbWidth, r.width) && r.dpiFactor >= Div(r.fbHeight, r.height)
            && (r.dpiFactor == Div(r.fbWidth, r.width) || r.dpiFactor == Div(r.fbHeight, r.height)))
      && (!(hidpiAuto && AnyResize(events)) ==> r.dpiFactor == s.sizes.dpiFactor)
  {
    EventsKeepDpi(StartFrame(s), events, hidpiAuto);
  }

  // ---------------------------------------------------------------------------
  // get_env_dpi

  /** The variables `get_env_dpi` consults, in priority order. */
  const DPI_VARS: seq<string> := ["QT_AUTO_SCREEN_SCALE_FACTOR", "QT_SCALE_FACTOR", "GDK_SCALE", "ELM_SCALE"]

  /** A variable's value when it is set, parses, and is positive. */
  function DpiVar(env: map<string, string>, parse: string -> Option<real>, name: string): (r: Option<real>)
    ensures r.Some? ==> r.value > 0.0
    ensures r.Some? ==> name in env && parse(env[name]) == r
    ensures r.None? ==> name !in env || parse(env[name]).None? || parse(env[name]).value <= 0.0
  {
    if name in env && parse(env[name]).Some? && parse(env[name]).value > 0.0 then parse(env[name]) else None
  }

  /** `get_env_dpi`: the first usable variable, else 1.0. */
  function GetEnvDpi(env: map<string, string>, parse: string -> Option<real>): (dpi: real)
    ensures dpi > 0.0
  {
    var qtAuto := DpiVar(env, parse, "QT_AUTO_SCREEN_SCALE_FACTOR");
    if qtAuto.Some? then qtAuto.value
    else
      var qt := DpiVar(env, parse, "QT_SCALE_FACTOR");
      if qt.Some? then qt.value
      else
        var gdk := DpiVar(env, parse, "GDK_SCALE");
        if gdk.Some? then gdk.value
        else
          var elm := DpiVar(env, parse, "ELM_SCALE");
          if elm.Some? then elm.value
          else 1.0
  }

  /**
   * The priority chain: the result is the value of the first variable in
   * `DPI_VARS` that is usable, and 1.0 exactly when none is.
   */
  lemma GetEnvDpiIsFirstUsable(env: map<string, string>, parse: string -> Option<real>)
    ensures forall i :: 0 <= i < |DPI_VARS| && DpiVar(env, parse, DPI_VARS[i]).Some?
                        && (forall j :: 0 <= j < i ==> DpiVar(env, parse, DPI_VARS[j]).None?)
                        ==> GetEnvDpi(env, parse) == DpiVar(env, parse, DPI_VARS[i]).value
    ensures (forall i :: 0 <= i < |DPI_VARS| ==> DpiVar(env, parse, DPI_VARS[i]).None?)
            ==> GetEnvDpi(env, parse) == 1.0
  {
    forall i | 0 <= i < |DPI_VARS| && DpiVar(env, parse, DPI_VARS[i]).Some?
               && (forall j :: 0 <= j < i ==> DpiVar(env, parse, DPI_VARS[j]).None?)
      ensures GetEnvDpi(env, parse) == DpiVar(env, parse, DPI_VARS[i]).value
    {
      if i >= 1 { assert DpiVar(env, parse, DPI_VARS[0]).None?; }
      if i >= 2 { assert DpiVar(env, parse, DPI_VARS[1]).None?; }
      if i >= 3 { assert DpiVar(env, parse, DPI_VARS[2]).None?; }
    }
    if forall i :: 0 <= i < |DPI_VARS| ==> DpiVar(env, parse, DPI_VARS[i]).None? {
      assert DpiVar(env, parse, DPI_VARS[0]).None? && DpiVar(env, parse, DPI_VARS[1]).None?;
      assert DpiVar(env, parse, DPI_VARS[2]).None? && DpiVar(env, parse, DPI_VARS[3]).None?;
    }
  }

  // ---------------------------------------------------------------------------
  // The window

  /** The settings `Window::create` reads. */
  datatype WindowSettings = WindowSettings(width: real, height: real)

  class Window {
    /** `HIDPI_AUTO`: true on Windows and macOS, where GLFW reports sizes in pixels. */
    const hidpiAuto: bool

    /** `width`, `height`, `dpi_factor`, `fb_width` and `fb_height`. */
    var sizes: Sizes
    var opengl21: bool
    /** `held_keys`, `pressed_keys`, `released_keys` and `typed_chars`. */
    var keys: KeyState
    /** `mouse_inside`, `mouse_coords`, `mouse_scroll`, `mouse_scroll_length` and the three button lists. */
    var mouse: MouseState
    var droppedFiles: seq<string>
    var hoveredFiles: seq<string>

    /** The fields `refresh` touches, as one value. */
    function State(): InputState
      reads this
    {
      InputState(sizes, keys, mouse, droppedFiles)
    }

    /**
     * The fields set by `Window::create`: without automatic HiDPI the DPI
     * factor comes from the environment and divides the requested size; the
     * framebuffer starts at the window size; the legacy flag is false; no
     * input yet, a scroll length of 36.
     */
    constructor (settings: WindowSettings, hidpiAuto: bool, env: map<string, string>, parse: string -> Option<real>)
      ensures this.hidpiAuto == hidpiAuto
      ensures sizes.dpiFactor == if hidpiAuto then 1.0 else GetEnvDpi(env, parse)
      ensures sizes.width == settings.width / sizes.dpiFactor && sizes.height == settings.height / sizes.dpiFactor
      ensures sizes.fbWidth == sizes.width && sizes.fbHeight == sizes.height && !opengl21
      ensures keys == KeyState([], [], [], [])
      ensures mouse == MouseState(false, Vec2(0.0, 0.0), Vec2(0.0, 0.0), 36.0, [], [], [])
      ensures droppedFiles == [] && hoveredFiles == []
    {
      this.hidpiAuto := hidpiAuto;
      var w, h := settings.width, settings.height;
      var dpi: real;
      if !hidpiAuto {
        dpi := GetEnvDpi(env, parse);
        w := w / dpi;
        h := h / dpi;
      } else {
        dpi := 1.0;
      }
      sizes := Sizes(w, h, dpi, w, h);
      opengl21 := false;
      keys := KeyState([], [], [], []);
      mouse := MouseState(false, Vec2(0.0, 0.0), Vec2(0.0, 0.0), 36.0, [], [], []);
      droppedFiles, hoveredFiles := [], [];
    }

    /** The key arm of `refresh`'s event match. */
    method HandleKey(key: Key, action: Action)
      modifies this
      ensures State() == Step(old(State()), KeyEvent(key, action), hidpiAuto)
      ensures opengl21 == old(opengl21) && hoveredFiles == old(hoveredFiles)
    {
      match action {
        case Press =>
          keys := keys.(pressed := keys.pressed + [key], held := keys.held + [key]);
        case Release =>
          var held := RemoveFirstMatch(keys.held, key);
          keys := keys.(released := keys.released + [key], held := held);
        case Repeat =>
      }
    }

    /** The mouse-button arm of `refresh`'s event match. */
    method HandleMouseButton(button: MouseButton, action: Action)
      modifies this
      ensures State() == Step(old(State()), MouseButtonEvent(button, action), hidpiAuto)
      ensures opengl21 == old(opengl21) && hoveredFiles == old(hoveredFiles)
    {
      var m := ButtonToMouse(button);
      match action {
        case Press =>
          mouse := mouse.(pressed := mouse.pressed + [m], held := mouse.held + [m]);
        case Release =>
          var held := RemoveFirstMatch(mouse.held, m);
          mouse := mouse.(released := mouse.released + [m], held := held);
        case Repeat =>
      }
    }

    /** One arm of `refresh`'s event match, on the fields; reports whether it was a size event. */
    method HandleEvent(e: WindowEvent) returns (resize: bool)
      modifies this
      ensures State() == Step(old(State()), e, hidpiAuto)
      ensures resize <==> e.Size? || e.FramebufferSize?
      ensures opengl21 == old(opengl21) && hoveredFiles == old(hoveredFiles)
    {
      resize := false;
      match e {
        case KeyEvent(key, action) =>
          HandleKey(key, action);
        case Char(c) =>
          keys := keys.(typedChars := keys.typedChars + [c]);
        case MouseButtonEvent(button, action) =>
          HandleMouseButton(button, action);
        case CursorPos(x, y) =>
          mouse := mouse.(coords := Vec2(Div(x, sizes.dpiFactor), Div(y, sizes.dpiFactor)));
        case CursorEnter(entered) =>
          mouse := mouse.(inside := entered);
        case Scroll(dx, dy) =>
          mouse := mouse.(scroll := Scaled(mouse.scrollLength, Vec2(dx, dy)));
        case FileDrop(paths) =>
          droppedFiles := paths;
        case Size(w, h) =>
          if hidpiAuto {
            sizes := sizes.(width := w as real, height := h as real);
          } else {
            sizes := sizes.(width := Div(w as real, sizes.dpiFactor), height := Div(h as real, sizes.dpiFactor));
          }
          resize := true;
        case FramebufferSize(w, h) =>
          sizes := sizes.(fbWidth := w as real, fbHeight := h as real);
          resize := true;
        case OtherEvent =>
      }
    }

    /** The resets at the top of `refresh`. */
    method StartRefresh()
      modifies this
      ensures State() == StartFrame(old(State()))
      ensures opengl21 == old(opengl21) && hoveredFiles == old(hoveredFiles)
    {
      keys := keys.(pressed := [], released := [], typedChars := []);
      mouse := mouse.(scroll := Vec2(0.0, 0.0));
      droppedFiles := [];
    }

    /** The event loop of `refresh`; reports whether a size event arrived. */
    method HandleEvents(events: seq<WindowEvent>) returns (resize: bool)
      modifies this
      ensures State() == ApplyEvents(old(State()), events, hidpiAuto)
      ensures resize == AnyResize(events)
      ensures opengl21 == old(opengl21) && hoveredFiles == old(hoveredFiles)
    {
      ghost var start, legacy, hovered := State(), opengl21, hoveredFiles;
      resize := false;
      var n := 0;
      while n < |events|
        invariant n <= |events|
        invariant State() == ApplyEvents(start, events[..n], hidpiAuto)
        invariant resize == AnyResize(events[..n])
        invariant opengl21 == legacy && hoveredFiles == hovered
      {
        ghost var before := State();
        var resized := HandleEvent(events[n]);
        ApplyEventsStep(start, events, n, hidpiAuto, before, State());
        resize := resize || resized;
        n := n + 1;
      }
      assert events[..n] == events;
    }

    /** After the events: on a resize, the new viewport and, with automatic HiDPI, the new DPI factor. */
    method FinishRefresh(resize: bool) returns (viewport: Option<(int, int)>)
      modifies this
      ensures State() == FinishFrame(old(State()), resize, hidpiAuto)
      ensures viewport.Some? <==> resize
      ensures viewport.Some? ==> viewport.value.0 == TruncateToI32(sizes.fbWidth) && viewport.value.1 == TruncateToI32(sizes.fbHeight)
      ensures opengl21 == old(opengl21) && hoveredFiles == old(hoveredFiles)
    {
      viewport := None;
      if resize {
        viewport := Some((TruncateToI32(sizes.fbWidth), TruncateToI32(sizes.fbHeight)));
        if hidpiAuto {
          var dpiFactorHorizontal := Div(sizes.fbWidth, sizes.width);
          var dpiFactorVertical := Div(sizes.fbHeight, sizes.height);
          sizes := sizes.(dpiFactor := Max(dpiFactorHorizontal, dpiFactorVertical));
        }
      }
    }

    /**
     * `refresh`: clear the per-frame lists, handle the batch, then apply the
     * resize. The window's close flag is a parameter; `running` is its negation.
     * On a resize `viewport` is the size handed to `glViewport`.
     */
    method Refresh(events: seq<WindowEvent>, shouldClose: bool) returns (running: bool, viewport: Option<(int, int)>)
      modifies this
      ensures State() == AfterRefresh(old(State()), events, hidpiAuto)
      ensures viewport.Some? <==> AnyResize(events)
      ensures viewport.Some? ==> viewport.value.0 == TruncateToI32(sizes.fbWidth) && viewport.value.1 == TruncateToI32(sizes.fbHeight)
      ensures running == !shouldClose
      ensures opengl21 == old(opengl21) && hoveredFiles == old(hoveredFiles)
    {
      StartRefresh();
      var resize := HandleEvents(events);
      viewport := FinishRefresh(resize);
      running := !shouldClose;
    }
  }
}
