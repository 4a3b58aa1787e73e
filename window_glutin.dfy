/**
 * The glutin window backend of src/window_glutin.rs: what `Window::refresh`
 * does with one batch of polled events. Keyboard events become `(key, state)`
 * inputs that drive the three key lists; a close request clears the running
 * flag; the last resize of the batch sets the logical size and the DPI factor.
 *
 * The event pump is a parameter (the batch of events `poll_events` delivers),
 * and so is the HiDPI factor the window reports.
 */
module WindowGlutin {
  import opened Wrappers
  import opened Seqs

  /** glutin's `VirtualKeyCode`, as an opaque number. */
  type VirtualKeyCode = nat

  datatype ElementState = Pressed | Released

  datatype LogicalSize = LogicalSize(width: real, height: real)

  /** A keyboard event; keys glutin cannot name carry no virtual keycode. */
  datatype KeyboardInput = KeyboardInput(state: ElementState, virtualKeycode: Option<VirtualKeyCode>)

  /** The window events `refresh` looks at; every other event is `OtherEvent`. */
  datatype WindowEvent =
    | CloseRequested
    | Resized(size: LogicalSize)
    | KeyboardInputEvent(input: KeyboardInput)
    | OtherEvent

  /** One collected key input: the key and whether it went down or up. */
  datatype KeyInput = KeyInput(key: VirtualKeyCode, state: ElementState)

  // ---------------------------------------------------------------------------
  // Event collection

  /** The key inputs of a batch, in order: keyboard events with a virtual keycode. */
  function CollectKeyInputs(events: seq<WindowEvent>): (inputs: seq<KeyInput>)
    ensures |inputs| <= |events|
  {
    if events == [] then []
    else
      var e := events[|events| - 1];
      CollectKeyInputs(events[..|events| - 1])
      + (if e.KeyboardInputEvent? && e.input.virtualKeycode.Some?
         then [KeyInput(e.input.virtualKeycode.value, e.input.state)]
         else [])
  }

  /** Collection keeps the order of the batch: collecting two batches is collecting each. */
  lemma {:induction false} CollectKeyInputsAppend(a: seq<WindowEvent>, b: seq<WindowEvent>)
    ensures CollectKeyInputs(a + b) == CollectKeyInputs(a) + CollectKeyInputs(b)
  {
    if b == [] {
      assert a + b == a;
    } else {
      assert (a + b)[..|a + b| - 1] == a + b[..|b| - 1];
      CollectKeyInputsAppend(a, b[..|b| - 1]);
    }
  }

  /**
   * Every collected input comes from a keyboard event of the batch with that
   * key and state; a keyboard event without a keycode yields nothing.
   */
  lemma {:induction false} CollectedInputsComeFromKeyboardEvents(events: seq<WindowEvent>)
    ensures forall x :: x in CollectKeyInputs(events) ==>
      KeyboardInputEvent(KeyboardInput(x.state, Some(x.key))) in events
    ensures forall s :: CollectKeyInputs([KeyboardInputEvent(KeyboardInput(s, None))]) == []
  {
    if events != [] {
      var init := events[..|events| - 1];
      CollectedInputsComeFromKeyboardEvents(init);
      assert forall e :: e in init ==> e in events;
    }
    forall s: ElementState
      ensures CollectKeyInputs([KeyboardInputEvent(KeyboardInput(s, None))]) == []
    {
      assert [KeyboardInputEvent(KeyboardInput(s, None))][..0] == [];
    }
  }

  /**
   * A single event yields exactly its key input when it is a keyboard event
   * with a virtual keycode, and nothing otherwise; with
   * `CollectKeyInputsAppend` this fixes the collection of any batch.
   */
  lemma CollectOneEvent(e: WindowEvent)
    ensures CollectKeyInputs([e]) ==
      if e.KeyboardInputEvent? && e.input.virtualKeycode.Some?
      then [KeyInput(e.input.virtualKeycode.value, e.input.state)]
      else []
  {
    assert [e][..0] == [];
  }

  /** Every keyboard event of the batch that carries a keycode is collected. */
  lemma {:induction false} KeyboardEventsAreCollected(events: seq<WindowEvent>)
    ensures forall i :: 0 <= i < |events| && events[i].KeyboardInputEvent? && events[i].input.virtualKeycode.Some? ==>
      KeyInput(events[i].input.virtualKeycode.value, events[i].input.state) in CollectKeyInputs(events)
  {
    if events != [] {
      var init := events[..|events| - 1];
      KeyboardEventsAreCollected(init);
      forall i | 0 <= i < |init| ensures events[i] == init[i] { }
    }
  }

  /** The logical size of the last `Resized` event of the batch, if any. */
  function LastResized(events: seq<WindowEvent>): (r: Option<LogicalSize>)
    ensures r.None? <==> forall i :: 0 <= i < |events| ==> !events[i].Resized?
  {
    if events == [] then None
    else if events[|events| - 1].Resized? then Some(events[|events| - 1].size)
    else LastResized(events[..|events| - 1])
  }

  /** `LastResized` is the size of a `Resized` event that no later `Resized` event overrides. */
  lemma {:induction false} LastResizedIsLast(events: seq<WindowEvent>)
    requires LastResized(events).Some?
    ensures exists i :: 0 <= i < |events| && events[i] == Resized(LastResized(events).value)
                        && forall j :: i < j < |events| ==> !events[j].Resized?
  {
    var n := |events| - 1;
    if events[n].Resized? {
      assert events[n] == Resized(LastResized(events).value);
    } else {
      var prefix := events[..n];
      LastResizedIsLast(prefix);
      var i :| 0 <= i < |prefix| && prefix[i] == Resized(LastResized(prefix).value)
               && forall j :: i < j < |prefix| ==> !prefix[j].Resized?;
      assert events[i] == prefix[i];
      assert forall j :: i < j < |events| ==> !events[j].Resized? by {
        forall j | i < j < |events| ensures !events[j].Resized? {
          if j < n { assert events[j] == prefix[j]; }
        }
      }
    }
  }

  // ---------------------------------------------------------------------------
  // Key bookkeeping

  /** The three key lists of the window. */
  datatype Keys = Keys(pressed: seq<VirtualKeyCode>, justPressed: seq<VirtualKeyCode>, released: seq<VirtualKeyCode>)

  /**
   * One turn of the keyboard loop: a press of a key not held appends it to
   * the just-pressed and held lists, a press of a held key does nothing; a
   * release appends the key to the released list and drops its first
   * occurrence from the held list.
   */
  function ApplyKeyInput(k: Keys, input: KeyInput): Keys
  {
    match input.state
    case Pressed =>
      if input.key in k.pressed then k
      else Keys(k.pressed + [input.key], k.justPressed + [input.key], k.released)
    case Released =>
      Keys(RemoveFirst(k.pressed, input.key), k.justPressed, k.released + [input.key])
  }

  /** The keyboard loop over `inputs`, in order. */
  function ApplyKeyInputs(k: Keys, inputs: seq<KeyInput>): Keys
  {
    if inputs == [] then k
    else ApplyKeyInput(ApplyKeyInputs(k, inputs[..|inputs| - 1]), inputs[|inputs| - 1])
  }

  /**
   * Pressing a key makes it held; a key not held before is appended to the end
   * of both the held and the just-pressed lists, and a press of a held key
   * changes nothing.
   */
  lemma PressHoldsKey(k: Keys, key: VirtualKeyCode)
    ensures var r := ApplyKeyInput(k, KeyInput(key, Pressed));
      && key in r.pressed
      && r.released == k.released
      && (key in k.pressed <==> r == k)
      && (key !in k.pressed <==> r.justPressed == k.justPressed + [key])
      && (key !in k.pressed ==> r.pressed == k.pressed + [key])
  {
  }

  /**
   * Releasing a key reports it, and takes exactly one copy of it off the held
   * list when there is one; the other held keys keep their order. A
   * duplicate-free held list no longer contains the key.
   */
  lemma ReleaseDropsFirstCopy(k: Keys, key: VirtualKeyCode)
    ensures var r := ApplyKeyInput(k, KeyInput(key, Released));
      && r.released == k.released + [key]
      && r.justPressed == k.justPressed
      && multiset(k.pressed) == multiset(r.pressed) + (if key in k.pressed then multiset{key} else multiset{})
      && (key !in k.pressed ==> r.pressed == k.pressed)
      && (forall i :: 0 <= i < |k.pressed| && k.pressed[i] == key && key !in k.pressed[..i] ==>
            r.pressed == k.pressed[..i] + k.pressed[i + 1..])
      && (NoDuplicates(k.pressed) ==> key !in r.pressed)
  {
    RemoveFirstMultiset(k.pressed, key);
    if key !in k.pressed {
      RemoveFirstAbsent(k.pressed, key);
    }
    forall i | 0 <= i < |k.pressed| && k.pressed[i] == key && key !in k.pressed[..i]
      ensures RemoveFirst(k.pressed, key) == k.pressed[..i] + k.pressed[i + 1..]
    {
      RemoveFirstAt(k.pressed, key, i);
    }
    if NoDuplicates(k.pressed) {
      RemoveFirstNoDuplicates(k.pressed, key);
    }
  }

  /** The held list never gains a duplicate, so a release really lets go of the key. */
  lemma {:induction false} HeldKeysStayUnique(k: Keys, inputs: seq<KeyInput>)
    requires NoDuplicates(k.pressed)
    ensures NoDuplicates(ApplyKeyInputs(k, inputs).pressed)
  {
    if inputs != [] {
      var before := ApplyKeyInputs(k, inputs[..|inputs| - 1]);
      HeldKeysStayUnique(k, inputs[..|inputs| - 1]);
      var input := inputs[|inputs| - 1];
      if input.state == Released {
        RemoveFirstNoDuplicates(before.pressed, input.key);
      }
    }
  }

  /** The keys released in `inputs`, in order. */
  function ReleasedIn(inputs: seq<KeyInput>): seq<VirtualKeyCode>
  {
    if inputs == [] then []
    else
      var x := inputs[|inputs| - 1];
      ReleasedIn(inputs[..|inputs| - 1]) + (if x.state == Released then [x.key] else [])
  }

  /**
   * The "this frame" lists are only ever appended to: the released list gains
   * every released key in order, and the just-pressed list keeps everything it
   * held; nothing in `refresh` clears either.
   */
  lemma {:induction false} FrameListsOnlyGrow(k: Keys, inputs: seq<KeyInput>)
    ensures ApplyKeyInputs(k, inputs).released == k.released + ReleasedIn(inputs)
    ensures var r := ApplyKeyInputs(k, inputs);
      |r.justPressed| >= |k.justPressed| && r.justPressed[..|k.justPressed|] == k.justPressed
  {
    if inputs != [] {
      var init := inputs[..|inputs| - 1];
      FrameListsOnlyGrow(k, init);
      var before := ApplyKeyInputs(k, init);
      var r := ApplyKeyInputs(k, inputs);
      assert r.justPressed[..|before.justPressed|] == before.justPressed;
      assert before.justPressed[..|k.justPressed|] == k.justPressed;
    }
  }

  // ---------------------------------------------------------------------------
  // The window

  class Window {
    var width: real
    var height: real
    var dpiFactor: real
    var opengl21: bool
    var pressedKeys: seq<VirtualKeyCode>
    var justPressedKeys: seq<VirtualKeyCode>
    var releasedKeys: seq<VirtualKeyCode>

    /** The held-key list never holds a key twice: a press of a held key is ignored. */
    ghost predicate Valid()
      reads this
    {
      NoDuplicates(pressedKeys)
    }

    /** The key lists as one value. */
    function KeyLists(): Keys
      reads this
    {
      Keys(pressedKeys, justPressedKeys, releasedKeys)
    }

    /** The fields set by `Window::create`: the requested size, DPI 1, no keys. */
    constructor (settingsWidth: real, settingsHeight: real, opengl21: bool)
      ensures width == settingsWidth && height == settingsHeight && dpiFactor == 1.0
      ensures this.opengl21 == opengl21
      ensures pressedKeys == [] && justPressedKeys == [] && releasedKeys == []
      ensures Valid()
    {
      width := settingsWidth;
      height := settingsHeight;
      dpiFactor := 1.0;
      this.opengl21 := opengl21;
      pressedKeys := [];
      justPressedKeys := [];
      releasedKeys := [];
    }

    /** One turn of the keyboard loop, on the fields. */
    method HandleKeyInput(input: KeyInput)
      modifies this
      ensures KeyLists() == ApplyKeyInput(old(KeyLists()), input)
      ensures width == old(width) && height == old(height) && dpiFactor == old(dpiFactor)
      ensures opengl21 == old(opengl21)
    {
      match input.state {
        case Pressed =>
          var i := FindFirst(pressedKeys, input.key);
          var alreadyPressed := i < |pressedKeys|;
          if !alreadyPressed {
            justPressedKeys := justPressedKeys + [input.key];
            pressedKeys := pressedKeys + [input.key];
          }
        case Released =>
          releasedKeys := releasedKeys + [input.key];
          pressedKeys := RemoveFirstMatch(pressedKeys, input.key);
      }
    }

    /** The keyboard loop of `refresh`: the collected inputs handled in order. */
    method HandleKeyInputs(keyInputs: seq<KeyInput>)
      modifies this
      ensures KeyLists() == ApplyKeyInputs(old(KeyLists()), keyInputs)
      ensures width == old(width) && height == old(height) && dpiFactor == old(dpiFactor)
      ensures opengl21 == old(opengl21)
    {
      ghost var start, w, h, dpi, legacy := KeyLists(), width, height, dpiFactor, opengl21;
      var j := 0;
      while j < |keyInputs|
        invariant j <= |keyInputs|
        invariant KeyLists() == ApplyKeyInputs(start, keyInputs[..j])
        invariant width == w && height == h && dpiFactor == dpi && opengl21 == legacy
      {
        assert keyInputs[..j + 1][..j] == keyInputs[..j];
        HandleKeyInput(keyInputs[j]);
        j := j + 1;
      }
      assert keyInputs[..j] == keyInputs;
    }

    /**
     * `refresh`: collect the batch's key inputs, close request and last
     * resize; apply the key inputs in order; then apply the last resize,
     * taking the DPI factor the window reports. Returns false exactly when the
     * batch held a close request.
     */
    method Refresh(events: seq<WindowEvent>, hidpiFactor: real) returns (running: bool)
      requires Valid()
      modifies this
      ensures Valid()
      ensures running <==> CloseRequested !in events
      ensures KeyLists() == ApplyKeyInputs(old(KeyLists()), CollectKeyInputs(events))
      ensures match LastResized(events)
        case None => width == old(width) && height == old(height) && dpiFactor == old(dpiFactor)
        case Some(size) => width == size.width && height == size.height && dpiFactor == hidpiFactor
      ensures opengl21 == old(opengl21)
    {
      var resizedLogicalSize, keyInputs;
      running, resizedLogicalSize, keyInputs := PollEvents(events);
      ghost var before := KeyLists();
      HandleKeyInputs(keyInputs);
      HeldKeysStayUnique(before, keyInputs);
      if resizedLogicalSize.Some? {
        var logicalSize := resizedLogicalSize.value;
        width, height, dpiFactor := logicalSize.width, logicalSize.height, hidpiFactor;
      }
    }
  }

  /**
   * The event callback of `refresh`: a close request clears the running flag,
   * a resize overwrites the pending size, and a keyboard input with a key code
   * is queued for the keyboard loop.
   */
  method PollEvents(events: seq<WindowEvent>) returns (running: bool, resized: Option<LogicalSize>, keyInputs: seq<KeyInput>)
    ensures running <==> CloseRequested !in events
    ensures resized == LastResized(events)
    ensures keyInputs == CollectKeyInputs(events)
  {
    running := true;
    resized := None;
    keyInputs := [];
    var n := 0;
    while n < |events|
      invariant n <= |events|
      invariant running <==> CloseRequested !in events[..n]
      invariant resized == LastResized(events[..n])
      invariant keyInputs == CollectKeyInputs(events[..n])
    {
      assert events[..n + 1][..n] == events[..n];
      match events[n] {
        case CloseRequested => running := false;
        case Resized(size) => resized := Some(size);
        case KeyboardInputEvent(input) =>
          if input.virtualKeycode.Some? {
            keyInputs := keyInputs + [KeyInput(input.virtualKeycode.value, input.state)];
          }
        case OtherEvent =>
      }
      assert events[..n + 1] == events[..n] + [events[n]];
      n := n + 1;
    }
    assert events[..n] == events;
  }
}
