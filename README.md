# fae: draw-call batching and window input bookkeeping, in Dafny

This project models three sequential parts of the `fae` UI rendering crate.

- **The renderer** (`src/renderer.rs`, files `renderer.dfy`, `geometry.dfy`, `gl_errors.dfy`).
  - `DrawState` is a class. It holds an append-only registry of draw calls and the legacy (`opengl21`) flag.
  - Each draw call owns a shader program, a texture, a vertex buffer (plus a vertex-array object outside legacy mode) and a CPU-side queue of 6-vertex quads.
  - The OpenGL context is an append-only trace of the commands the renderer issues. GL object names come from one counter shared by all object kinds, so every `Gen*` call hands out a fresh name.
  - Registration is modelled: `initialize_renderer` pushes the UI and text built-ins, and `create_draw_call` pushes sprite draw calls.
  - Queueing is modelled: `draw_quad` and `draw_rotated_quad`.
  - The frame loop of `render` is modelled with its buffer-capacity policy.
  - So are `get_texture`, `gl_error_to_string` and the drain loop of `print_gl_errors`.
- **The glutin backend** (`src/window_glutin.rs`, file `window_glutin.dfy`). `Window::refresh` is modelled on one batch of polled events:
  - the event callback: close request, last resize, and key inputs that carry a key code;
  - the keyboard loop over `pressed_keys`, `just_pressed_keys` and `released_keys`;
  - the resize of the logical size and DPI factor.
- **The GLFW backend** (`src/window_glfw.rs`, file `window_glfw.dfy`). `Window::refresh` is modelled on one batch of events:
  - the per-frame resets;
  - key and mouse-button held lists, and the button mapping;
  - typed characters, cursor and scroll state, and dropped files;
  - window and framebuffer sizes, the resize flag, the viewport, and the DPI recomputation under `HIDPI_AUTO`.
  - Also modelled: the `get_env_dpi` priority chain and the fields `Window::create` sets.
- **Shared helpers** (`seqs.dfy`, `wrappers.dfy`). These hold the "scan for the first match, then `Vec::remove` it" idiom, the no-duplicates invariant, and `Option`.

**How the model is specified.**
- Each stateful operation is a method, on its class where the source has one. Its `ensures` ties the new state to a specification function of the old state: `FlushedCalls`, `RenderCommands`, `ApplyKeyInputs`, `AfterRefresh` and others.
- The properties the source promises are proved as lemmas about those functions.
- Specification functions recurse from the end of a sequence, mirroring loops that append.

**Modelling choices.**
- `f32` values are `real`.
- The rotation's cosine and sine, the decoded image's size, the glyph-cache size, the environment, the float parser, the HiDPI factor and the window's close flag are all parameters.

**Where the code and its documentation disagree, the model follows the code.**
- **Upload policy.** `render` updates the buffer in place only when the payload is *strictly* smaller than the allocated size (`src/renderer.rs:473`). A payload of exactly the allocated size therefore reallocates the buffer at the same size. `Renderer.EqualPayloadReallocates` states this.
- **Glutin "this frame" lists.** In the glutin backend, `just_pressed_keys` and `released_keys` are documented as "this frame". Nothing in `refresh` clears them, so the model lets them grow, and `WindowGlutin.FrameListsOnlyGrow` states it.
- **GLFW mouse lists.** Likewise, the GLFW `mouse_pressed` and `mouse_released` lists are not cleared by `refresh`. `WindowGlfw.FrameListsAreThisBatch` states that both keep earlier frames' entries and gain this batch's.
- **GLFW legacy flag.** GLFW's `Window::create` always sets `opengl21` to false, even when it falls back to a 2.1 context.

## Model

| member | source | states |
|---|---|---|
| Seqs.RemoveFirst | src/window_glfw.rs:243-248 | the list without its first copy of the key: one entry shorter when the key occurs, the same length otherwise; `RemoveFirstAt`, `RemoveFirstAbsent` and `RemoveFirstMultiset` state the rest |
| Seqs.FindFirst | src/window_glutin.rs:163-169 | the loop-and-break scan returns the index of the first occurrence of the key, or the length when it is absent |
| Seqs.RemoveFirstMatch | src/window_glutin.rs:178-183 | scanning for the first match and removing it at that index is `RemoveFirst` |
| Seqs.RemoveFirstAt | src/window_glfw.rs:243-248 | removing at the first matching index leaves the prefix and the suffix around it |
| Seqs.RemoveFirstAbsent | src/window_glfw.rs:243-248 | when no entry matches, the list is unchanged |
| Seqs.RemoveFirstMultiset | src/window_glfw.rs:243-248 | exactly one copy of the key leaves when there is one; every other entry stays |
| Seqs.RemoveFirstNoDuplicates | src/window_glutin.rs:178-183 | removal keeps a duplicate-free list duplicate-free and removes the key entirely |
| Geometry.AxisAlignedQuad | src/renderer.rs:379-398 | vertex `i` sits at corner `Winding[i]` (TL, TR, BR, TL, BR, BL) of `coords`, with the same corner of `texcoords`, depth `z` and the colour |
| Geometry.RotatedQuad | src/renderer.rs:404-437 | vertex 3 repeats vertex 0 and vertex 4 repeats vertex 2; each vertex is the rotated corner `Winding[i]`, with the unrotated texcoords, `z` and the colour |
| Geometry.QuadsHaveUniformDepthAndColor | src/renderer.rs:429-436 | every vertex of both quad kinds carries the same depth and tint |
| Geometry.RotationByZeroIsAxisAligned | src/renderer.rs:412-424 | a rotation with cosine 1 and sine 0 yields exactly the `draw_quad` quad |
| Geometry.RotationKeepsCentroid | src/renderer.rs:417-424 | the four rotated corners average to the rectangle's centre |
| Geometry.RotationKeepsSideLengths | src/renderer.rs:414-424 | when cos² + sin² = 1, the rotated top and left edges keep the rectangle's width and height |
| GlErrors.GlErrorToString | src/renderer.rs:518-531 | codes 0x0500 to 0x0507 and 0x0531 get their GL names; every other code gets "unknown error" |
| GlErrors.GlErrorNamesIdentifyCodes | src/renderer.rs:518-531 | a known code never prints as "unknown error", and no two known codes share a name |
| GlErrors.ReportedErrors | src/renderer.rs:510-516 | the reported errors are the prefix of the queue before the first `NO_ERROR` |
| GlErrors.PrintGlErrors | src/renderer.rs:510-516 | the drain loop prints one line per reported error, in queue order, with the error's name and the context |
| Renderer.VertexSource | src/renderer.rs:62-78 | built-in slot `i` uses the UI shader at 0 and the text shader at 1, from the legacy directory exactly when `opengl21` |
| Renderer.FragmentSource | src/renderer.rs:62-78 | the same rule for the fragment shader |
| Renderer.NewAttributes | src/renderer.rs:261-288 | fresh attributes have an empty queue and capacity 0; `vao` is 0 exactly in legacy mode; vbo, and outside legacy mode vao, are new names |
| Renderer.AttributeSetupOnlyWhenModern | src/renderer.rs:261-281 | a vertex array is generated, and the attributes are enabled, exactly when not in legacy mode |
| Renderer.NewDrawCall | src/renderer.rs:105-117 | none of its own; it is the definition of the draw call one turn of the loop builds, program then attributes then texture from consecutive names, and `Renderer.NewDrawCallIsFresh` states its properties |
| Renderer.NewDrawCallCommands | src/renderer.rs:105-111 | none of its own; it is the definition of the GL commands `create_program`, `create_attributes` and `create_texture` issue, in that order |
| Renderer.NewDrawCallIsFresh | src/renderer.rs:110-117 | a new draw call's names are all newly handed out; its queue is empty and its capacity 0 |
| Renderer.BuiltInCalls | src/renderer.rs:104-118 | the loop creates one draw call per slot, `n` in all; slot `k` is the draw call built from slot `k`'s shader files with the names right after slot `k - 1`'s |
| Renderer.BuiltInCallsAreUiThenText | src/renderer.rs:104-118 | slot 0 is the UI shader pair and slot 1 the text pair; both are legacy exactly when `opengl21`; their textures differ; their queues are empty |
| Renderer.PushQuad | src/renderer.rs:389-397 | exactly one quad is appended to draw call `i`'s queue; every other draw call, and every handle and capacity, is unchanged |
| Renderer.Upload | src/renderer.rs:470-482 | in-place update exactly when payload < capacity, keeping the capacity; otherwise reallocation; the new capacity is the maximum of the two |
| Renderer.FlushedCall | src/renderer.rs:450-500 | the queue is emptied and the handles kept; the capacity never shrinks and covers the uploaded payload; an empty draw call is untouched |
| Renderer.FlushedCalls | src/renderer.rs:450-500 | `render` keeps the registry's length, and draw call `i` afterwards is draw call `i` flushed, for every `i` |
| Renderer.FlushedCallsKeepNames | src/renderer.rs:450-500 | the registry stays valid: every name stays below the counter and the textures of different draw calls stay distinct |
| Renderer.RenderEmptiesEveryQueue | src/renderer.rs:450-500 | after `render` every queue is empty and every handle kept; no capacity shrinks; each uploaded payload fits its buffer |
| Renderer.CallCommands | src/renderer.rs:451-498 | none of its own; it is the definition of one draw call's commands in `render`: nothing for an empty queue, else bind, upload, draw and unbind; `Renderer.CallDrawsOnce`, `Renderer.CallUploadsOnce` and `Renderer.CallBracketsDraw` state its properties |
| Renderer.RenderCommands | src/renderer.rs:450-500 | none of its own; it is the definition of the frame's commands, the calls' commands in registry order; `Renderer.RenderDrawsInRegistryOrder` states its property |
| Renderer.CallDrawsOnce | src/renderer.rs:451-492 | an empty draw call issues no command; a non-empty one issues exactly one draw of 6 × len vertices |
| Renderer.CallUploadsOnce | src/renderer.rs:470-482 | a non-empty draw call issues exactly one upload, the one the policy picks |
| Renderer.CallBracketsDraw | src/renderer.rs:455-498 | the draw call first uses its program; legacy mode enables attributes right before the draw and disables them right after; modern mode binds the vertex array and never touches attributes |
| Renderer.NonEmptyUploads | src/renderer.rs:451-482 | none of its own; it is the definition of the upload the policy picks for each non-empty draw call, in registry order, and `Renderer.RenderDrawsInRegistryOrder` states its property |
| Renderer.RenderDrawsInRegistryOrder | src/renderer.rs:450-502 | the frame's draws are exactly one per non-empty draw call, of 6 × len vertices, in registry order; the uploads are likewise one per non-empty draw call, each the one the buffer policy picks, in registry order |
| Renderer.CapacityIsRunningMaximum | src/renderer.rs:473-482 | across frames the capacity is at least the starting capacity and every payload, and equals one of them |
| Renderer.EqualPayloadReallocates | src/renderer.rs:473 | with the strict comparison, a payload equal to the capacity reallocates instead of updating in place |
| Renderer.DrawState.constructor | src/renderer.rs:55-60 | the initial state has no draw calls and legacy mode on |
| Renderer.DrawState.GenName | src/renderer.rs:332-336 | a `Gen*` call returns the next unused name and consumes it |
| Renderer.DrawState.CreateProgram | src/renderer.rs:183-258 | a new program is linked from the two files and made current |
| Renderer.DrawState.CreateAttributes | src/renderer.rs:261-288 | returns `NewAttributes` for the mode and issues the gen, bind and enable commands of `create_attributes` |
| Renderer.DrawState.CreateTexture | src/renderer.rs:332-343 | a new texture name is generated and bound |
| Renderer.DrawState.InsertTexture | src/renderer.rs:346-361 | binds the texture, then uploads an image of the given format and size |
| Renderer.DrawState.PushNewDrawCall | src/renderer.rs:105-117 | program, then attributes, then texture; the new draw call is appended and nothing else changes |
| Renderer.DrawState.SetGlobalState | src/renderer.rs:94-101 | 2D textures are enabled only in legacy mode; then depth test, blending and the alpha blend function |
| Renderer.DrawState.PushBuiltInCalls | src/renderer.rs:104-118 | the loop appends the `TEXTURE_COUNT` built-ins and keeps the registry valid |
| Renderer.DrawState.InitializeRenderer | src/renderer.rs:90-140 | records the mode; sets the global state; appends exactly the two built-ins to the earlier entries; seeds the UI texture from the sprite sheet and the text texture as a blank `RED` image |
| Renderer.DrawState.CreateDrawCall | src/renderer.rs:146-180 | returns the old registry length; appends exactly one UI-shader draw call and leaves earlier entries untouched; seeds its texture from the image |
| Renderer.DrawState.DrawQuad | src/renderer.rs:379-398 | queues exactly the axis-aligned quad on draw call `texIndex`; no GL command is issued; an index out of range is excluded, as the source panics |
| Renderer.DrawState.DrawRotatedQuad | src/renderer.rs:404-437 | queues exactly the rotated quad on draw call `texIndex`; no GL command is issued |
| Renderer.DrawState.SubmitCall | src/renderer.rs:455-498 | binds, uploads under the policy and draws; returns the attributes with the queue cleared and the capacity the upload left |
| Renderer.DrawState.RenderCall | src/renderer.rs:450-500 | one turn of the loop flushes one more draw call and issues its commands |
| Renderer.DrawState.RenderCalls | src/renderer.rs:450-502 | the registry becomes `FlushedCalls` of the old one; the trace gains `RenderCommands` of it, in registry order |
| Renderer.DrawState.Render | src/renderer.rs:439-503 | the same outcome as the loop, and the registry stays valid |
| Renderer.DrawState.GetTexture | src/renderer.rs:505-508 | the result is draw call `index`'s texture, a handed-out name that no other draw call shares |
| Renderer.OneQuadOnThirdCall | src/renderer.rs:450-453 | with only the third draw call holding a quad, the frame draws one batch of 6 vertices |
| Renderer.FirstFrame | src/renderer.rs:146-180 | after initialisation, a new draw call lands at index 2; one quad and one frame give one draw of 6 vertices and an empty queue |
| WindowGlutin.CollectKeyInputs | src/window_glutin.rs:148-153 | the batch yields at most one key input per event |
| WindowGlutin.CollectKeyInputsAppend | src/window_glutin.rs:143-157 | key inputs are collected in event order |
| WindowGlutin.CollectedInputsComeFromKeyboardEvents | src/window_glutin.rs:148-153 | every key input comes from a keyboard event with that key and state; an event without a key code yields nothing |
| WindowGlutin.CollectOneEvent | src/window_glutin.rs:148-153 | one event yields its key and state exactly when it is a keyboard event with a virtual keycode, and nothing otherwise |
| WindowGlutin.KeyboardEventsAreCollected | src/window_glutin.rs:148-153 | every keyboard event of the batch that carries a keycode is collected |
| WindowGlutin.LastResized | src/window_glutin.rs:147 | there is a pending resize exactly when the batch holds a `Resized` event |
| WindowGlutin.LastResizedIsLast | src/window_glutin.rs:147 | the pending size is that of a `Resized` event with no later `Resized` event |
| WindowGlutin.ApplyKeyInput | src/window_glutin.rs:161-185 | none of its own; it is the definition of one turn of the keyboard loop, and `WindowGlutin.PressHoldsKey` and `WindowGlutin.ReleaseDropsFirstCopy` state its properties |
| WindowGlutin.ApplyKeyInputs | src/window_glutin.rs:160-186 | none of its own; it is the definition of the keyboard loop over the batch, in order; `WindowGlutin.HeldKeysStayUnique` and `WindowGlutin.FrameListsOnlyGrow` state its properties |
| WindowGlutin.PressHoldsKey | src/window_glutin.rs:162-175 | a press of a key not held appends it to the end of both `pressed_keys` and `just_pressed_keys`; a press of a held key changes nothing; a press never touches `released_keys` |
| WindowGlutin.ReleaseDropsFirstCopy | src/window_glutin.rs:176-184 | a release is always reported; it drops the first held copy (none when absent) and keeps the others in order; a duplicate-free held list loses the key |
| WindowGlutin.HeldKeysStayUnique | src/window_glutin.rs:160-186 | the keyboard loop never puts a duplicate into `pressed_keys` |
| WindowGlutin.FrameListsOnlyGrow | src/window_glutin.rs:160-186 | `released_keys` gains every released key in order, and `just_pressed_keys` keeps everything it held |
| WindowGlutin.Window.constructor | src/window_glutin.rs:120-130 | the requested size, DPI factor 1, the chosen legacy flag and empty key lists, so the held list starts duplicate-free |
| WindowGlutin.Window.HandleKeyInput | src/window_glutin.rs:161-185 | one turn of the keyboard loop, on the fields, is `ApplyKeyInput`; the sizes are untouched |
| WindowGlutin.Window.HandleKeyInputs | src/window_glutin.rs:160-186 | the inputs are handled in order, giving `ApplyKeyInputs` |
| WindowGlutin.Window.Refresh | src/window_glutin.rs:138-204 | returns false exactly when a close was requested; the key lists become `ApplyKeyInputs` of the batch's inputs; only the last resize sets the size and DPI factor; without one they stay; the held list stays duplicate-free |
| WindowGlutin.PollEvents | src/window_glutin.rs:140-157 | the callback's running flag, last resize and key inputs, for any batch |
| WindowGlfw.ButtonToMouse | src/window_glfw.rs:254-263 | buttons 1 to 3 become Left, Right and Middle and 4 to 8 keep their number; `MouseToButton` maps every result back to the button it came from |
| WindowGlfw.ButtonMappingIsInvertible | src/window_glfw.rs:254-263 | buttons 1 to 3 become Left, Right and Middle, and 4 to 8 become `Other(4)` to `Other(8)`; the mapping is injective and round-trips |
| WindowGlfw.MouseToButtonIsPartialInverse | src/window_glfw.rs:254-263 | exactly `Other(n)` with n outside 4 to 8 comes from no button |
| WindowGlfw.TruncateToI32 | src/window_glfw.rs:319 | `f32 as i32` floors non-negative values and rounds negative ones up, i.e. truncates toward zero; values at or beyond the `i32` bounds give `I32_MAX` or `I32_MIN` |
| WindowGlfw.StartFrame | src/window_glfw.rs:228-232 | pressed, released, typed chars and dropped files are cleared and the scroll is zeroed; held keys, all mouse button lists, the cursor position, the inside flag, the scroll length and the sizes are kept |
| WindowGlfw.KeyStep | src/window_glfw.rs:237-249 | none of its own; it is the definition of a key event, and `WindowGlfw.PressAppendsTwice`, `WindowGlfw.ReleaseDropsFirstHeld` and `WindowGlfw.ReleasesDropFirstHeld` state its properties |
| WindowGlfw.ButtonStep | src/window_glfw.rs:265-278 | none of its own; it is the definition of a mapped button event, with the key rules on the mouse lists; `WindowGlfw.PressAppendsTwice` and `WindowGlfw.ReleasesDropFirstHeld` state its properties |
| WindowGlfw.Step | src/window_glfw.rs:236-314 | none of its own; it is the definition of one event of the batch, and `WindowGlfw.StepFrameFields` states which fields each event kind touches |
| WindowGlfw.ApplyEvents | src/window_glfw.rs:235-315 | none of its own; it is the definition of the event loop, in order; `WindowGlfw.FrameListsAreThisBatch`, `WindowGlfw.LastScrollWins`, `WindowGlfw.LastFileDropWins`, `WindowGlfw.NoResizeKeepsSizes` and `WindowGlfw.EventsKeepDpi` state its properties |
| WindowGlfw.FinishFrame | src/window_glfw.rs:317-328 | none of its own; it is the definition of the resize handling after the loop, and `WindowGlfw.DpiUpdateOnlyOnAutoResize` states its property |
| WindowGlfw.AfterRefresh | src/window_glfw.rs:225-331 | none of its own; it is the definition of the state `refresh` leaves: resets, then the events, then the resize handling; `WindowGlfw.NoResizeKeepsGeometry` and `WindowGlfw.DpiUpdateOnlyOnAutoResize` state its properties |
| WindowGlfw.AnyResize | src/window_glfw.rs:297-311 | the resize flag is set exactly when a `Size` or `FramebufferSize` event arrived |
| WindowGlfw.LastScroll | src/window_glfw.rs:288-293 | there is a last scroll exactly when the batch scrolls |
| WindowGlfw.LastFileDrop | src/window_glfw.rs:295 | there is a last drop exactly when the batch drops files |
| WindowGlfw.LastScrollIsLast | src/window_glfw.rs:288-293 | the last scroll is a scroll event with no later scroll |
| WindowGlfw.LastFileDropIsLast | src/window_glfw.rs:295 | the last drop is a drop event with no later drop |
| WindowGlfw.StepFrameFields | src/window_glfw.rs:236-314 | one event appends at most its own key, char or button to the per-frame lists, and overwrites the scroll or the dropped files only when it is of that kind |
| WindowGlfw.FrameListsAreThisBatch | src/window_glfw.rs:228-279 | after the resets and the batch, pressed, released and typed chars are exactly this batch's, in arrival order; `mouse_pressed` and `mouse_released` keep earlier frames' entries and gain this batch's |
| WindowGlfw.LastScrollWins | src/window_glfw.rs:288-293 | the scroll is the last scroll event's deltas times the scroll length, or (0, 0) when there was none |
| WindowGlfw.LastFileDropWins | src/window_glfw.rs:295 | the dropped files are the last drop's paths, or none |
| WindowGlfw.PressAppendsTwice | src/window_glfw.rs:237-268 | a key press appends the key to `pressed_keys` and `held_keys`, and a button press the mapped button to `mouse_pressed` and `mouse_held`, with no duplicate check; every other field of the input state (the other key and mouse lists, typed chars, cursor, scroll, dropped files and sizes) is untouched |
| WindowGlfw.ReleaseDropsFirstHeld | src/window_glfw.rs:241-249 | a release is reported; exactly the first held copy goes (none when absent); the other entries keep their order |
| WindowGlfw.ReleasesDropFirstHeld | src/window_glfw.rs:241-278 | key and mapped button releases are reported, drop exactly the first held copy (none when absent), and keep the other held entries in order |
| WindowGlfw.NoResizeKeepsGeometry | src/window_glfw.rs:297-328 | without a size event, window size, framebuffer size and DPI factor are unchanged by `refresh` |
| WindowGlfw.NoResizeKeepsSizes | src/window_glfw.rs:235-315 | the event loop changes no size without a size event |
| WindowGlfw.EventsKeepDpi | src/window_glfw.rs:235-315 | no event changes the DPI factor |
| WindowGlfw.DpiUpdateOnlyOnAutoResize | src/window_glfw.rs:317-328 | the DPI factor changes only on a resize under `HIDPI_AUTO`; it is then the larger framebuffer-to-window ratio |
| WindowGlfw.DpiVar | src/window_glfw.rs:335-340 | a variable yields a value exactly when it is set, parses, and is positive; the value is the parsed one, so it is positive |
| WindowGlfw.GetEnvDpi | src/window_glfw.rs:334-354 | the DPI factor is always positive |
| WindowGlfw.GetEnvDpiIsFirstUsable | src/window_glfw.rs:334-354 | the result is the value of the first usable variable among QT_AUTO_SCREEN_SCALE_FACTOR, QT_SCALE_FACTOR, GDK_SCALE and ELM_SCALE, and 1.0 exactly when none is usable |
| WindowGlfw.Window.constructor | src/window_glfw.rs:79-207 | without `HIDPI_AUTO` the DPI factor comes from `get_env_dpi` and divides the requested size, otherwise it is 1; the framebuffer starts at the window size; no legacy; empty input; scroll length 36 |
| WindowGlfw.Window.HandleKey | src/window_glfw.rs:237-249 | a key event on the fields is `Step` |
| WindowGlfw.Window.HandleMouseButton | src/window_glfw.rs:253-281 | a mouse-button event, after the mapping, is `Step` |
| WindowGlfw.Window.HandleEvent | src/window_glfw.rs:236-314 | each event arm is `Step`, and it reports a resize exactly for size events |
| WindowGlfw.Window.StartRefresh | src/window_glfw.rs:228-232 | the resets are `StartFrame` |
| WindowGlfw.Window.HandleEvents | src/window_glfw.rs:235-315 | the batch, handled in order, gives `ApplyEvents`, and the resize flag is `AnyResize` |
| WindowGlfw.Window.FinishRefresh | src/window_glfw.rs:317-328 | on a resize, the viewport is the framebuffer size cast to `i32`, and under `HIDPI_AUTO` the DPI factor is recomputed; without one, nothing changes |
| WindowGlfw.Window.Refresh | src/window_glfw.rs:225-331 | the new state is `AfterRefresh`; a viewport is set exactly when a size event arrived; `running` is the negated close flag; hovered files and the legacy flag are untouched |

## Left out

- Native GL is reduced to the trace entries above. Shader compilation and the info-log printing after it are not modelled. Uniform and attribute locations are not modelled either, nor `VertexAttribPointer` offsets, texture parameters or pixel data. These are driver calls whose answers the model cannot know.
- The projection matrix values of `render` are not modelled: the trace records only the viewport size they come from.
- The `print_gl_errors` calls inside `initialize_renderer` and `render` are not threaded into those methods. `GlErrors.PrintGlErrors` models the drain loop on its own, with the driver's error queue as a parameter.
- `load_image` decoding is not modelled. The decoded image's width and height are parameters, and decoding failure (which panics through `unwrap`) is not modelled.
- `text::draw_text`, the glyph cache and its dimensions are not modelled: the text module is not part of this model. The glyph-cache size is a parameter.
- The `lazy_static` `Mutex` around `DRAW_STATE` is left out, because that is concurrency. The state is one `DrawState` object.
- Floating point is not modelled. `f32` is `real`, with exact arithmetic.
- `WindowGlfw.Div`: a division by zero gives 0, where `f32` would give infinity or NaN.
- The rotation's `cos`/`sin` are parameters.
- `Renderer.DrawState.SubmitCall`: the `isize` byte size and the `i32` vertex count are unbounded integers; their overflow is not modelled.
- Window and context creation, with their fallback chains, are not modelled. Also absent: vsync, the X11 backend variable, `set_cursor`, `swap_buffers` and `Renderer::synchronize`. These are platform I/O, and `Renderer::synchronize` is not part of this model.
- `poll_events` is not modelled: the batch of events it delivers is a parameter.
- `should_close` is a parameter of `WindowGlfw.Window.Refresh`.
- glutin's `get_hidpi_factor` is a parameter of `WindowGlutin.Window.Refresh`.
- `WindowGlutin.Window.Refresh`: glutin's conversion to a physical size, its `gl::Viewport` call and the window `resize` are not modelled. Only the logical size and the DPI factor it stores are.
- Float parsing in `get_env_dpi` is a parameter (`parse`).
- The GLFW window's fields are grouped into the records `Sizes`, `KeyState` and `MouseState`. Each record field stands for one field of the source, and behaviour is unchanged.
- GL gives textures, buffers, vertex arrays and programs separate name spaces. The model draws them all from one counter, so names of different kinds never coincide in the model. That is a modelling choice, not a GL promise, and no contract states an inequality between names of different kinds.
- `Renderer.DrawState.DrawQuad`, `Renderer.DrawState.DrawRotatedQuad` and `Renderer.DrawState.GetTexture` require the index to be in range. The source panics on an out-of-range index instead, and the panic is not modelled.
- `src/tests.rs` is left out. It benchmarks a `Renderer` API (nine-patch drawing, dummy draw calls) that `src/renderer.rs` does not contain, so there is nothing of it to model.
