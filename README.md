# Eye-dome lighting filter (CloudCompare qEDL plugin)

This project models `ccEDLFilter`, the eye-dome-lighting screen filter of CloudCompare's qEDL plugin.
The model is a Dafny class, `Edl.EdlFilter`, with the same fields as the C++ object:
- the screen size;
- three cascade render targets (full, half and quarter resolution) and the composite ("mix") target;
- the shading program and the mix program;
- three smoothing configurations, each with an optional bilateral sub-filter;
- the strength (`exp_scale`) and the light direction.

A null pointer is `None`. An owned object is `Some(value)`, and the value's `id` tells whether a step
reused the object or created a new one.

The objects the filter drives but cannot see into are frame-buffer objects, shader programs and bilateral
sub-filters. Their outcomes are inputs of type `InitEnv`. For each allocate-and-initialise step, an
`Allocation` says:
- which fresh id a `new` would produce;
- whether the object's `init` succeeds;
- which texture the object renders into.

The presence of an OpenGL context and of the OpenGL 3.0 and 2.1 function tables are booleans.

`shade` changes none of the filter's own fields; the pixels it writes and the parameters it pushes into each
sub-filter are not modelled. It is modelled as a method that returns the trace of what one frame
issues (module `GlTrace`). The trace holds:
- the pushes and pops of the attribute, projection and modelview stacks;
- the orthographic projection;
- one event per render pass, which carries its target, its program, its uniforms in the order they are set,
  the texture units it binds and the quad it draws;
- one event per sub-filter invocation, which carries its parameters and inputs.

`GlTrace.Balanced` replays the stack events from empty stacks. It fails on any pop from an empty stack and
demands empty stacks at the end. `GlTrace.PassesFramed` holds when every pass runs while all three stacks hold an
entry above the caller's and after the orthographic projection for the screen has been loaded.

Integer sizes follow C++:
- `width / 2` and `width / 4` truncate toward zero (`LevelDim`).
- The `>> 1` and `>> 2` used for the shader's `Sx`/`Sy` uniforms round toward minus infinity
  (`ShiftRight`).
- On the screens a frame is drawn for (at least 4 pixels), the two agree (`ShiftMatchesDivision`).

Where a natural reading of the filter's interface differs from what the code does, the model follows the code:
- A fatal `init` failure calls `reset`, which releases everything, including objects from an earlier
  successful `init`. The smoothing `enabled` flags are kept, not restored: a level disabled by an earlier
  sub-filter failure stays disabled.
- `init` does not check that the width and height are positive. The model accepts any integers.
- `shade` smooths every level whose sub-filter exists, and does not test `enabled` at that point. In every
  allocated state that `init` leaves (`Valid` together with `CoreAllocated`), a sub-filter exists exactly when
  its level is enabled. A released filter may have enabled levels without a sub-filter, as a new filter does,
  but `shade` skips a released filter anyway because it has no level-0 target.
- A sub-filter that fails to initialise writes the error output even though `init` returns true. When
  several levels fail, the last one's error is what remains.
- An already loaded shader program is kept as it is and is not reloaded.

## Model

| member | source | states |
|---|---|---|
| Edl.EdlFilter.constructor | plugins/qEDL/ccEDLFilter.cpp:39-77 | a new filter owns nothing and has zero size; smoothing level 0 is off (1, 1.0, 0.2) and levels 1 and 2 are on (2, 2.0, 0.4); the strength is 100 and the light direction is the one the angles (π/2, π/2) give |
| Edl.EdlFilter.Clone | plugins/qEDL/ccEDLFilter.cpp:84-95 | the clone is a fresh filter that owns nothing, copies only the strength and the light direction, and has default smoothing settings |
| Edl.EdlFilter.Reset | plugins/qEDL/ccEDLFilter.cpp:97-136 | afterwards every target, program and sub-filter is released and the size is zero; the smoothing parameters, enabled flags, strength and light direction are kept; every texture index yields 0; calling it on a released filter changes nothing (idempotence) |
| Edl.EdlFilter.Init | plugins/qEDL/ccEDLFilter.cpp:138-300 | without a context, or without OpenGL 3.0, the filter is unchanged and the call fails (the latter with an error); otherwise it succeeds exactly when no target or new program fails, a fatal failure leaves the released state and reports the first failing step, and a success keeps existing objects, sizes the targets W×H, W/2×H/2, W/4×H/4 and W×H, gives each level a sub-filter at its size exactly when it stays enabled, records the last sub-filter failure, and re-establishes the class invariant |
| Edl.EdlFilter.AllocateAll | plugins/qEDL/ccEDLFilter.cpp:158-300 | once a context with OpenGL 3.0 is present: the filter ends `Valid`, and the call succeeds exactly when no target or new program fails; a fatal failure leaves the released state with the first failing step and the enabled flags kept; a success records the screen size, builds targets, programs and sub-filters as `Init` states, and reports the last sub-filter failure |
| Edl.EdlFilter.AllocateTargets | plugins/qEDL/ccEDLFilter.cpp:158-205 | the four target steps succeed exactly when all four allocations succeed; a failure resets the filter and names the first failing target; a success reuses or creates each target at its level's size |
| Edl.InitTarget | plugins/qEDL/ccEDLFilter.cpp:158-167 | a target slot keeps its object if it has one, and otherwise gets a new one; on success the object has the requested size and its colour texture |
| Edl.EdlFilter.LoadPrograms | plugins/qEDL/ccEDLFilter.cpp:207-225 | fails exactly when a program not yet loaded fails to load, names the shading program first, resets the filter on failure, and leaves the targets untouched on success |
| Edl.LoadProgram | plugins/qEDL/ccEDLFilter.cpp:207-215 | a loaded program is kept and counts as success; a missing one is created from its source file and succeeds exactly when loading succeeds |
| Edl.EdlFilter.InitSubFilters | plugins/qEDL/ccEDLFilter.cpp:227-294 | each level follows one smoothing step at full, half and quarter size; the reported error is the last level that failed |
| Edl.InitSmoothing | plugins/qEDL/ccEDLFilter.cpp:227-248 | an enabled level ends with a sub-filter at the given size that uses the existing viewport, or, if its init fails, with none and disabled; a disabled level loses any leftover sub-filter; the kernel parameters are unchanged |
| Edl.LightModulation | plugins/qEDL/ccEDLFilter.cpp:329-331 | 3.0 in perspective mode; otherwise the square root of 2·max(zoom, 0.7), so never below √1.4 |
| Edl.ModulationDependsOnClampedZoom | plugins/qEDL/ccEDLFilter.cpp:331 | in orthographic mode two zooms give the same modulation exactly when they agree after clamping at 0.7 |
| Edl.ShiftMatchesDivision | plugins/qEDL/ccEDLFilter.cpp:387-404 | for a non-negative size, the shifted size in the uniforms equals the divided size of the drawn quad |
| Edl.EdlFilter.Shade | plugins/qEDL/ccEDLFilter.cpp:302-528 | a frame issues nothing exactly when there is no context, no OpenGL 2.1, no level-0 target, or a side under 4 pixels; otherwise every push is popped, all targets and programs exist, every pass runs between the save and the restore after the screen's orthographic projection is loaded, and the passes are the three levels in order, the smoothing of exactly the filtered levels, then the composite |
| Edl.EdlFilter.DrawFrame | plugins/qEDL/ccEDLFilter.cpp:333-527 | with all targets and programs present, the frame is non-empty and balanced, every pass runs inside the saved, pixel-exact frame, and the passes are the three levels, the filtered smoothing and the composite |
| Edl.EdlFilter.SaveState | plugins/qEDL/ccEDLFilter.cpp:333-342 | saving pushes the attributes, pushes the projection and loads identity then the W×H orthographic projection onto it, pushes the modelview and loads identity onto it; this leaves one saved entry on each stack, runs no pass, and puts the trace inside a frame |
| Edl.EdlFilter.RestoreState | plugins/qEDL/ccEDLFilter.cpp:522-527 | the restore appends exactly a projection pop, a modelview pop and an attribute pop; from the saved depths these leave the caller's stacks balanced, run no pass, and keep every earlier pass framed |
| Edl.EdlFilter.ShadeLevels | plugins/qEDL/ccEDLFilter.cpp:344-449 | exactly the full, half and quarter passes are appended, in that order; they leave the stacks as they were and run inside the frame the trace is in |
| Edl.EdlFilter.LevelPassShades | plugins/qEDL/ccEDLFilter.cpp:344-449 | level k's pass renders into level k's target with the shading program, binds the colour texture on unit 1, draws the depth texture at W/2^k × H/2^k, and sets Sx/Sy to the shifted size, Pix_scale to 2^k, the modulation, perspective flag, strength and depth planes, the filter's light direction and the neighbour table; no uniform is set twice, so each of these is the value that takes effect |
| Edl.EdlFilter.SmoothLevel | plugins/qEDL/ccEDLFilter.cpp:453-457 | a level with a sub-filter appends exactly one smoothing event, with its kernel parameters on its raw output and the depth texture, inside the frame the trace is in; a level without one appends nothing |
| Edl.EdlFilter.SmoothLevels | plugins/qEDL/ccEDLFilter.cpp:451-469 | the smoothing stage runs exactly one pass per filtered level, in level order, leaves the stacks as they were, and keeps the trace framed |
| Edl.EdlFilter.SmoothingCoversFilteredLevels | plugins/qEDL/ccEDLFilter.cpp:451-469 | the three per-level smoothing steps, concatenated, smooth exactly the filtered levels in increasing order |
| Edl.EdlFilter.FilteredLevelsExact | plugins/qEDL/ccEDLFilter.cpp:451-469 | a level is in the filtered list exactly when it has a sub-filter, and the list is strictly increasing |
| Edl.EdlFilter.Compose | plugins/qEDL/ccEDLFilter.cpp:471-520 | exactly the composite pass is appended; it leaves the stacks as they were and runs inside the frame the trace is in |
| Edl.EdlFilter.CompositePassComposites | plugins/qEDL/ccEDLFilter.cpp:471-520 | the composite renders into the mix target with the mix program, binds depth on unit 3 and levels 2 and 1 on units 2 and 1, draws level 0 full size, and sets unit indices 0..3, weights 1, 0.5, 0.25 and absorb 1; no uniform is set twice, so each of these is the value that takes effect |
| Edl.EdlFilter.FramePassesDrawFrame | plugins/qEDL/ccEDLFilter.cpp:344-520 | the three level passes, any smoothing of the filtered levels, and the composite together form a frame of 4 to 7 passes with that structure |
| Edl.EdlFilter.CompositeReadsExposedTextures | plugins/qEDL/ccEDLFilter.cpp:491-501 | for each level, the composite reads the texture that the index getter exposes: the smoothed one (index 4+k) when the level has a sub-filter, and the raw one (index 1+k) otherwise |
| Edl.EdlFilter.Texture | plugins/qEDL/ccEDLFilter.cpp:535-557 | a non-zero texture comes only from an index in 0..6, so a bad index gives 0; the switch itself maps index 0 to the mix texture, 1..3 to the raw levels and 4..6 to the sub-filters' results, with 0 for an absent object, and `Reset` and `CompositeReadsExposedTextures` state what it returns |
| Edl.EdlFilter.DefaultTexture | plugins/qEDL/ccEDLFilter.cpp:530-533 | the default result is the mix texture, or 0 without one |

## Left out

- OpenGL and Qt calls are not executed: the context and the OpenGL 3.0 and 2.1 function tables are booleans, and texture names and object ids are naturals rather than 32-bit `GLuint`s.
- The internals of `ccFrameBufferObject`, `ccShader` and `ccBilateralFilter` are not part of this model; their success, fresh identity and output texture are inputs.
- Pixel format and min/mag filter arguments are not modelled, so the overload of `init` with default format (lines 138-141) is the same as the full one and both are `Init`. The `initColor` calls (lines 191-193, 205) are folded into the target's texture.
- Error message text is not modelled: errors are the datatype `InitError`, which names the failing step. The text a shader or sub-filter writes is represented by that step's error.
- Edl.EdlFilter.Init: assumes a sub-filter writes the error output only when its `init` fails; `ccBilateralFilter` is not part of this model.
- `setLightDir` (trigonometry on floats) and the neighbour-offset table are not modelled. The table is a symbolic uniform value, and the constructor's light direction is the exact value (0, 0, 1), without float rounding.
- Floating point is modelled with reals. The orthographic modulation keeps the square root symbolic as its radicand.
- Edl.EdlFilter.SetStrength: `setStrength` is declared in the header, which is not part of this model; it is modelled as a plain assignment.
- Texture-unit enable/disable, `glActiveTexture`, the unbinding after each pass, and the start and stop of each target are folded into one render-pass event. The model does not check that they are paired.
- The viewport parameters passed on to each sub-filter's `shade` are not recorded in the smoothing event, since the sub-filter is not modelled.
- The destructor only calls `reset`; memory release is not modelled.
- With a null context, `init` and `shade` fail a debug assertion before returning (lines 147 and 306). The model follows the release build and just returns.
- The `shadersPath` argument of `init` is not modelled; it is passed on to the shader loads and to each sub-filter's `init`. A shader is identified by its logical name (`EDL/edl_shade`, `EDL/edl_mix`), and whether a load succeeds is an input.
- `int` arithmetic is unbounded: sizes are not wrapped at 32 bits.
