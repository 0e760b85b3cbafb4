# Ishiiruka post-processing, constant upload heaps and GLSL encoder generation in Dafny

This project models three pieces of the Ishiiruka (Dolphin) video backends.

- **The Direct3D 11 post-processor** (`DX11PostProcessing`). It builds the
  pixel shaders of a post-processing effect. To do so it splices an
  entry-point wrapper into the effect source for every stage, then declares
  the effect's options in a constant buffer laid out in 16-byte rows. It
  falls back to the default shader when a stage fails to compile. Each frame
  it uploads dirty options, re-appends the full-screen quad when needed, and
  keeps one intermediate render target per non-terminal stage. It then runs
  the stages in order, each binding its output, its viewport, its shader and
  its inputs around one four-vertex draw.
- **The Direct3D 12 shader-constant upload heaps** (`ShaderConstantsManager`).
  Every shader stage owns a heap of 50000 slots, each rounded up to 256 bytes.
  Dirty constants are copied into the next slot. The root constant-buffer
  views are rebound to the slot in use. Once per frame, every slot index past
  10000 is rewound to 0.
- **The OpenGL texture-encoding shader generator** (`TextureConversionShaderGL`).
  For a GameCube texture or copy format, it writes the text of a GLSL shader
  into a fixed 16384-byte buffer through a moving cursor. The text is a
  swizzler prologue, then the format's encoder body, then a closing brace. The
  intensity constant is declared at most once per shader. A canary in the
  buffer's last byte detects overruns.

Each piece keeps the source's own form:

- State that changes in place is a `class`:
  - `PostProcessor`, `ConstantUploadHeaps`, `ShaderText`;
  - their fields are updated by methods with `modifies` clauses;
  - the fixed arrays of the D3D12 manager and the text buffer stay `array`s.
- Loops are `while` loops with invariants. Each method is proved against a
  specification function: a device-call trace, the upload image of the
  option buffer, or the list of shader lines.
- The properties the code relies on are lemmas about those functions:
  - the layout never lets a value straddle a 16-byte row;
  - uploads stay inside their heap;
  - the stages run in order;
  - every generated shader is framed by the prologue and the brace;
  - the intensity constant is declared once;
  - the fetches of the intensity and 4-bit encoders come in texel order;
  - the block masks split a coordinate into its two parts.

Device calls (buffer and texture creation, binds, draws, copies, heap
creation and destruction) are recorded as events in a `trace` field. The
methods that make device calls state the calls they append, from
`DrawStages` and `BlitFromTexture` down to each stage of the loop; the array
and text writers state the new contents instead. The stage list is a
`StageList`: at least one stage, no negative scale, and at most four inputs
per later stage, each naming an intermediate target.

Files:

- `common.dfy`: shared rounding, decimal formatting and `Option`.
- `post_processing_layout.dfy`: the option buffer's byte layout and upload image.
- `post_processing_shader.dfy`: option declarations, the entry-point splice and the sampling header.
- `post_processing_frame.dfy`: the per-frame device calls.
- `post_processing.dfy`: the `PostProcessor` class.
- `shader_constants_manager.dfy`: the upload heaps.
- `texture_conversion_shader_gl.dfy`: the shader writer class and the line specification.
- `texture_conversion_properties.dfy`: the properties of the generated shaders.

## Model

| member | source | states |
|---|---|---|
| Common.DigitsReadBack | Source/Core/VideoCommon/TextureConversionShaderGL.cpp:74-79 | the decimal digits of a natural number read back as that number, with no leading zero unless the number is 0 |
| Common.DigitsUnique | Source/Core/VideoCommon/TextureConversionShaderGL.cpp:74-79 | any digit string that reads back as n, with no leading zero unless it is "0", is exactly those digits, so the text of `%d` is determined by its value |
| Common.DecimalReadsBack | Source/Core/VideoCommon/TextureConversionShaderGL.cpp:74-79 | the text of `%d` starts with a minus sign exactly when n is negative, and the digits after the sign read back as the absolute value of n, with no leading zero unless it is 0 |
| Common.AlignUp16 | Source/Core/VideoBackends/DX11/PostProcessing.cpp:81 | `(x + 15) & ~15` is the least multiple of 16 at or above x |
| Common.AlignUp256 | Source/Core/VideoBackends/D3D12/ShaderConstantsManager.cpp:40-45 | `(x + 0xff) & ~0xff` is the least multiple of 256 at or above x |
| Common.WholeLanes | Source/Core/VideoBackends/DX11/PostProcessing.cpp:691-694 | a buffer size rounded to 16 bytes is a whole number of four-byte lanes |
| Common.ClearLowBits16 | Source/Core/VideoBackends/DX11/PostProcessing.cpp:682 | the mask `~15` rounds a 32-bit value down to a multiple of 16 |
| Common.ClearLowBits256 | Source/Core/VideoBackends/D3D12/ShaderConstantsManager.cpp:40-45 | the mask `~0xff` rounds a 32-bit value down to a multiple of 256 |
| PostProcessingLayout.NeededSize | Source/Core/VideoBackends/DX11/PostProcessing.cpp:658-681 | an option's byte size is a whole number of four-byte lanes: one int for a bool, four bytes per value otherwise |
| PostProcessingLayout.OptionLanes | Source/Core/VideoBackends/DX11/PostProcessing.cpp:127-141 | the lanes the upload copies for an option are exactly its declared size; a bool becomes the int 0 or 1 |
| PostProcessingLayout.ClearDirtyKeepsSizes | Source/Core/VideoBackends/DX11/PostProcessing.cpp:151 | clearing the options' dirty bits does not change the layout |
| PostProcessingLayout.PadFor | Source/Core/VideoBackends/DX11/PostProcessing.cpp:682-688 | the padding step moves the cursor forward, at most to the next 16-byte boundary |
| PostProcessingLayout.Cursors | Source/Core/VideoBackends/DX11/PostProcessing.cpp:655-689 | the layout cursor starts at 0, with one entry per value and one for the end of the layout |
| PostProcessingLayout.CursorsStep | Source/Core/VideoBackends/DX11/PostProcessing.cpp:682-688 | value i moves the cursor by its padding step and then by its own size |
| PostProcessingLayout.PadForIsFirstNonStraddling | Source/Core/VideoBackends/DX11/PostProcessing.cpp:682-688 | a value of 1 to 16 bytes is placed at the first offset from the cursor where it does not cross a row boundary |
| PostProcessingLayout.NoStraddle | Source/Core/VideoBackends/DX11/PostProcessing.cpp:682-688 | no declared option of at most 16 bytes crosses a 16-byte row |
| PostProcessingLayout.CursorsMonotone | Source/Core/VideoBackends/DX11/PostProcessing.cpp:655-689 | the layout cursor never moves backwards |
| PostProcessingLayout.CursorsLaneAligned | Source/Core/VideoBackends/DX11/PostProcessing.cpp:655-689 | with lane-sized values every cursor is on a four-byte lane |
| PostProcessingLayout.SlotInsideBuffer | Source/Core/VideoBackends/DX11/PostProcessing.cpp:682-694 | each value's slot starts at or after the cursor before padding, ends at the next cursor, and lies inside the rounded buffer |
| PostProcessingLayout.NonEmptyValueNonEmptyLayout | Source/Core/VideoBackends/DX11/PostProcessing.cpp:691-703 | one value of non-zero size means the buffer is created (its size is above 0) |
| PostProcessingLayout.WriteCursorIsSlotIff | Source/Core/VideoBackends/DX11/PostProcessing.cpp:127-148 | the upload as written copies a value into its declared slot exactly when the cursor is on a boundary or the value fits in the rest of the row |
| PostProcessingLayout.PadForStaysIff | Source/Core/VideoBackends/DX11/PostProcessing.cpp:682-688 | the padding step leaves the cursor alone exactly when it is on a boundary or the value fits before the next one |
| PostProcessingLayout.UploadMisplacesPaddedValue | Source/Core/VideoBackends/DX11/PostProcessing.cpp:127-148 | for sizes 12 then 8 the declared slot of the second value is byte 16, but the upload as written copies it at byte 12 |
| PostProcessingLayout.UploadStepFits | Source/Core/VideoBackends/DX11/PostProcessing.cpp:124-149 | each copy, in either upload variant, starts on a lane after all earlier values and its lanes fit inside the buffer |
| PostProcessingLayout.UploadCursorStep | Source/Core/VideoBackends/DX11/PostProcessing.cpp:142-148 | one iteration of the loop's cursor arithmetic gives the copy's lane offset and the next layout cursor |
| PostProcessingLayout.Overwrite | Source/Core/VideoBackends/DX11/PostProcessing.cpp:134-139 | a memcpy of lanes at a base: those lanes replaced, every other lane unchanged |
| PostProcessingLayout.ScatterPlaces | Source/Core/VideoBackends/DX11/PostProcessing.cpp:124-149 | with copies in order, each copy's lanes survive all later copies |
| PostProcessingLayout.ScatterKeepsBeyond | Source/Core/VideoBackends/DX11/PostProcessing.cpp:124-149 | a lane no copy reaches keeps its previous contents |
| PostProcessingLayout.LayoutInOrder | Source/Core/VideoBackends/DX11/PostProcessing.cpp:124-149 | in both variants the copies are in bounds and each one ends before the next starts |
| PostProcessingLayout.UploadImage | Source/Core/VideoBackends/DX11/PostProcessing.cpp:119-152 | definition of the buffer after the upload; its contract gives only the length, and its contents are stated by `UploadImagePlaces` (every option's lanes at its offset) and `UploadImageKeepsTail` (the rest untouched) |
| PostProcessingLayout.UploadImagePlaces | Source/Core/VideoBackends/DX11/PostProcessing.cpp:124-149 | after the upload every option's lanes are at its offset, so the corrected upload puts each value where the declarations place it |
| PostProcessingLayout.UploadImageKeepsTail | Source/Core/VideoBackends/DX11/PostProcessing.cpp:119-152 | lanes past the end of the layout keep their previous contents |
| PostProcessingLayout.UploadVariantsAgreeWithoutPadding | Source/Core/VideoBackends/DX11/PostProcessing.cpp:127-148 | when no value needs padding, the upload as written and the corrected one produce the same buffer |
| PostProcessingLayout.TwelveThenEightOffsets | Source/Core/VideoBackends/DX11/PostProcessing.cpp:142-148 | for sizes 12 and 8 the copies start at lanes 0 and 3 as written, and at 0 and 4 after padding |
| PostProcessingLayout.Float3ThenFloat2Lanes | Source/Core/VideoBackends/DX11/PostProcessing.cpp:136-139 | a float3 then a float2 are copied as their five float lanes |
| PostProcessingLayout.Float3ThenFloat2Layout | Source/Core/VideoBackends/DX11/PostProcessing.cpp:682-694 | a float3 then a float2 lay out as 24 bytes in a 32-byte buffer, with the offsets and lanes above |
| PostProcessingLayout.UploadAsWrittenMisplacesFloat2 | Source/Core/VideoBackends/DX11/PostProcessing.cpp:127-148 | the upload as written leaves lane 4, which the shader reads as the float2's x, holding its y, and lane 5 keeping what the discarded mapping held; the corrected upload stores both there |
| PostProcessingLayout.ParamsBufferSize | Source/Core/VideoBackends/DX11/PostProcessing.cpp:81 | the frame-parameter buffer is the parameter block rounded up to a multiple of 16 |
| PostProcessingShader.ForwardReferenceAccepted | Source/Core/VideoBackends/DX11/PostProcessing.cpp:278-286 | stages that read their own or a later stage's output are still accepted by everything the frame relies on |
| PostProcessingShader.DeclarationsLast | Source/Core/VideoBackends/DX11/PostProcessing.cpp:656-681 | the declarations of options followed by one more option are the earlier ones followed by that option's declaration |
| PostProcessingShader.DeclarationsPrefix | Source/Core/VideoBackends/DX11/PostProcessing.cpp:656-681 | each loop iteration appends the current option's declaration to those of the earlier options |
| PostProcessingShader.DeclarationsAppend | Source/Core/VideoBackends/DX11/PostProcessing.cpp:656-681 | there is one declaration per option, in option order |
| PostProcessingShader.HeaderFor | Source/Core/VideoBackends/DX11/PostProcessing.cpp:704-713 | the plain header is chosen exactly when there is one sample, otherwise the MSAA header with that sample count |
| PostProcessingShader.Find | Source/Core/VideoBackends/DX11/PostProcessing.cpp:324-335 | `find` returns the first occurrence at or after the start, or reports that there is none |
| PostProcessingShader.FirstMatchUnique | Source/Core/VideoBackends/DX11/PostProcessing.cpp:324-335 | the first occurrence is unique |
| PostProcessingShader.SpliceEntryFound | Source/Core/VideoBackends/DX11/PostProcessing.cpp:324-335 | when the entry point and a later brace exist, the text through the entry point is kept, the wrapper inserted and the text after the brace kept |
| PostProcessingShader.SpliceEntryNoEntry | Source/Core/VideoBackends/DX11/PostProcessing.cpp:324-335 | without the entry point the splice fails |
| PostProcessingShader.SpliceEntryNoBrace | Source/Core/VideoBackends/DX11/PostProcessing.cpp:324-335 | without a brace after the entry point the splice fails |
| PostProcessingShader.SpliceAllStep | Source/Core/VideoBackends/DX11/PostProcessing.cpp:320-337 | a successful splice hands the result to the remaining stages |
| PostProcessingShader.SpliceAllStop | Source/Core/VideoBackends/DX11/PostProcessing.cpp:320-337 | a failed splice makes the whole result empty |
| PostProcessingShader.SpliceAllEmpty | Source/Core/VideoBackends/DX11/PostProcessing.cpp:320-337 | every splice into empty text fails, so the empty result stays empty |
| PostProcessingShader.SpliceAllAppend | Source/Core/VideoBackends/DX11/PostProcessing.cpp:320-337 | splicing stages a then b is splicing b into the result of a |
| PostProcessingFrame.NewTargets | Source/Core/VideoBackends/DX11/PostProcessing.cpp:239-252 | definition of the new targets: target i has id firstId + i and the scaled width and height of stage i; its contract gives the count, one per non-terminal stage, and `CreateStageTargets` is proved to create exactly these |
| PostProcessingFrame.Releases | Source/Core/VideoBackends/DX11/PostProcessing.cpp:234-238 | definition of the release events, one per target; its contract gives the count, and `ReleasesPrefix` the index order |
| PostProcessingFrame.Creates | Source/Core/VideoBackends/DX11/PostProcessing.cpp:240-252 | definition of the creation events, one per target; its contract gives the count, and `CreatesLast` the order |
| PostProcessingFrame.ReleasesPrefix | Source/Core/VideoBackends/DX11/PostProcessing.cpp:234-238 | targets are released in index order |
| PostProcessingFrame.CreatesLast | Source/Core/VideoBackends/DX11/PostProcessing.cpp:240-252 | each new target's creation follows the earlier ones |
| PostProcessingFrame.InputViews | Source/Core/VideoBackends/DX11/PostProcessing.cpp:278-286 | one view per input of the stage |
| PostProcessingFrame.StagesRunInOrder | Source/Core/VideoBackends/DX11/PostProcessing.cpp:255-297 | the device calls of the earlier stages are a prefix of the frame's calls, followed directly by those of stage m |
| PostProcessingFrame.TerminalStageIgnoresPolicy | Source/Core/VideoBackends/DX11/PostProcessing.cpp:258-266 | the last stage's calls do not depend on its resolution policy or scale: it always draws over the destination rectangle |
| PostProcessingFrame.InputsBoundAroundDraw | Source/Core/VideoBackends/DX11/PostProcessing.cpp:256-296 | each stage draws exactly once with four vertices; a stage with inputs binds their views just before the draw and clears them just after, and a stage without inputs binds none |
| PostProcessingFrame.Scaled | Source/Core/VideoBackends/DX11/PostProcessing.cpp:244-245 | `(u32)(dim * scale)` is the product truncated toward zero: the greatest integer at or below a non-negative product, the least at or above a negative one |
| PostProcessing.ShaderSelection.constructor | Source/Core/VideoBackends/DX11/PostProcessing.cpp:379-380 | a configuration record holding the selected effect's name |
| PostProcessing.PostProcessor.constructor | Source/Core/VideoBackends/DX11/PostProcessing.cpp:62-93 | a processor that is not yet initialised, with zero tracked sizes and samples, no targets or shaders, the wrap flag set and the parameter buffer created at its rounded size |
| PostProcessing.PostProcessor.InitStages | Source/Core/VideoBackends/DX11/PostProcessing.cpp:315-339 | the code is spliced for every stage, and the shader list is resized to the stage count, keeping the shaders it had |
| PostProcessing.PostProcessor.SpliceEntryPoints | Source/Core/VideoBackends/DX11/PostProcessing.cpp:320-337 | the loop over the stages gives the splice of every stage in order, and the empty text after the first failure |
| PostProcessing.PostProcessor.SpliceEntryPoint | Source/Core/VideoBackends/DX11/PostProcessing.cpp:322-336 | one iteration finds `void <entry>` and the next brace and splices the wrapper between them, or fails when either is missing |
| PostProcessing.PostProcessor.ResizeShaders | Source/Core/VideoBackends/DX11/PostProcessing.cpp:319 | `resize(n)` keeps the first n shaders and pads with empty ones |
| PostProcessing.PostProcessor.LoadShaderOptions | Source/Core/VideoBackends/DX11/PostProcessing.cpp:648-715 | the source is the header for the sample count, the option block and the code; the option buffer is created at the rounded layout size when the layout is non-empty |
| PostProcessing.PostProcessor.DeclareOptionBlock | Source/Core/VideoBackends/DX11/PostProcessing.cpp:652-702 | the option block is the declarations between the `cbuffer` opening and the closing brace, and is dropped when the layout takes no bytes; the size is the layout end |
| PostProcessing.PostProcessor.DeclareOptions | Source/Core/VideoBackends/DX11/PostProcessing.cpp:655-689 | the loop appends one declaration per option in option order, and its cursor ends at the end of the layout |
| PostProcessing.PostProcessor.DeclareOption | Source/Core/VideoBackends/DX11/PostProcessing.cpp:658-681 | the declaration of a bool, an int vector or a float vector (a scalar below two values), and the option's byte size |
| PostProcessing.PostProcessor.ReleaseStageOutputs | Source/Core/VideoBackends/DX11/PostProcessing.cpp:347-352 | every target is released, in order, and the list is emptied |
| PostProcessing.PostProcessor.ResetShaders | Source/Core/VideoBackends/DX11/PostProcessing.cpp:353-356 | every shader is dropped; the list keeps its length |
| PostProcessing.PostProcessor.ApplyShader | Source/Core/VideoBackends/DX11/PostProcessing.cpp:341-391 | with the same effect, the same sample count and built shaders nothing changes; otherwise the processor records the sample count and either holds every stage compiled from the spliced source with its own entry point, keeping both effect names, or the fallback: both names cleared, stage 0 compiled with the default entry point if it compiles, the others empty; the trace gains the releases, the option buffer and the fallback's buffer |
| PostProcessing.PostProcessor.Rebuild | Source/Core/VideoBackends/DX11/PostProcessing.cpp:346-390 | the new sample count is recorded, the targets released, and the shaders are either every stage compiled from the spliced source or the fallback, with the effect names kept or cleared accordingly |
| PostProcessing.PostProcessor.BuildStages | Source/Core/VideoBackends/DX11/PostProcessing.cpp:346-375 | the sample count is recorded, the targets released, the option buffer recreated; the processor stays initialised exactly when every stage compiles the spliced source, and then each stage holds its shader |
| PostProcessing.PostProcessor.CompileStages | Source/Core/VideoBackends/DX11/PostProcessing.cpp:364-375 | the processor stays initialised exactly when every stage compiles, and then each stage holds its shader with its own entry point |
| PostProcessing.PostProcessor.FallBack | Source/Core/VideoBackends/DX11/PostProcessing.cpp:377-390 | both effect names are cleared, stage 0 holds the source compiled with the default entry point (if it compiles), the other stages hold nothing, and the option buffer is recreated |
| PostProcessing.PostProcessor.UploadOptionsAsWritten | Source/Core/VideoBackends/DX11/PostProcessing.cpp:119-155 | only a dirty configuration with options uploads: the buffer becomes the upload image of the discarded mapping with each value at the cursor before padding, and every dirty bit is cleared; otherwise nothing changes |
| PostProcessing.PostProcessor.UploadOptions | Source/Core/VideoBackends/DX11/PostProcessing.cpp:119-155 | the corrected upload: a dirty configuration with options puts each value in its declared slot over the discarded mapping and clears every dirty bit; otherwise nothing changes |
| PostProcessing.PostProcessor.UploadLoop | Source/Core/VideoBackends/DX11/PostProcessing.cpp:121-154 | with the buffer mapped (its earlier contents replaced by the discarded mapping), the loop leaves it equal to the upload image and every option clean |
| PostProcessing.PostProcessor.MapDiscard | Source/Core/VideoBackends/DX11/PostProcessing.cpp:121 | mapping with `D3D11_MAP_WRITE_DISCARD` leaves the buffer holding the discarded contents, whatever it held before |
| PostProcessing.PostProcessor.UploadInto | Source/Core/VideoBackends/DX11/PostProcessing.cpp:122-152 | the loop over the options leaves the buffer equal to the upload image of its earlier contents |
| PostProcessing.PostProcessor.UploadStep | Source/Core/VideoBackends/DX11/PostProcessing.cpp:126-150 | one iteration copies the option's lanes at its lane offset and leaves the rest of the buffer alone, and the cursor moves to the next layout cursor |
| PostProcessing.PostProcessor.WriteLanes | Source/Core/VideoBackends/DX11/PostProcessing.cpp:130-139 | a copy of lanes at a base replaces exactly those lanes |
| PostProcessing.PostProcessor.UpdateVertexQuad | Source/Core/VideoBackends/DX11/PostProcessing.cpp:180-194 | the quad is appended exactly when the buffer wrapped or the coordinates changed; the wrap flag is cleared and the coordinates recorded |
| PostProcessing.PostProcessor.EnsureStageTargets | Source/Core/VideoBackends/DX11/PostProcessing.cpp:220-253 | a size or stage-count change releases all targets and creates one per non-terminal stage at the new sizes; otherwise nothing changes |
| PostProcessing.PostProcessor.CreateStageTargets | Source/Core/VideoBackends/DX11/PostProcessing.cpp:240-252 | the creation loop makes exactly the new targets, each with a fresh id |
| PostProcessing.PostProcessor.RunStages | Source/Core/VideoBackends/DX11/PostProcessing.cpp:255-297 | the device calls are those of every stage in index order, and the view array is restored |
| PostProcessing.PostProcessor.RunStage | Source/Core/VideoBackends/DX11/PostProcessing.cpp:256-296 | one iteration makes the stage's calls and restores the view array |
| PostProcessing.PostProcessor.BindOutput | Source/Core/VideoBackends/DX11/PostProcessing.cpp:258-275 | the last stage draws into the saved output over the destination; the others draw into their own target |
| PostProcessing.PostProcessor.BindInputs | Source/Core/VideoBackends/DX11/PostProcessing.cpp:278-286 | input k's view is the output of the stage it names, and no other slot changes |
| PostProcessing.PostProcessor.UnbindInputs | Source/Core/VideoBackends/DX11/PostProcessing.cpp:289-296 | after the draw the input slots are cleared and the source slots kept |
| PostProcessing.PostProcessor.PrepareFrame | Source/Core/VideoBackends/DX11/PostProcessing.cpp:117-194 | the first half of a frame: ApplyShader's outcome as above, then a dirty configuration with options uploads the corrected image and comes out clean, then the quad is appended exactly when the buffer wrapped or the coordinates changed; the trace is the rebuild's calls then the quad's |
| PostProcessing.PostProcessor.ApplyAndUpload | Source/Core/VideoBackends/DX11/PostProcessing.cpp:117-155 | ApplyShader then the option upload: the rebuild outcome, the targets kept or cleared, and the upload outcome over the discarded mapping |
| PostProcessing.PostProcessor.RunThenUnbind | Source/Core/VideoBackends/DX11/PostProcessing.cpp:255-300 | the stage calls in order, followed by the source unbind |
| PostProcessing.PostProcessor.BindSource | Source/Core/VideoBackends/DX11/PostProcessing.cpp:201-213 | the six-entry view table holds the colour view, the depth view when the source has one, and nothing else |
| PostProcessing.PostProcessor.UnbindSource | Source/Core/VideoBackends/DX11/PostProcessing.cpp:298-300 | the two source slots are cleared and the input slots kept |
| PostProcessing.PostProcessor.DrawStages | Source/Core/VideoBackends/DX11/PostProcessing.cpp:201-300 | the calls are exactly: bind the source views (the depth view when there is one), release and recreate the targets when they are stale, run every stage in order, unbind the source; validity is kept and the tracked sizes follow the frame |
| PostProcessing.PostProcessor.BlitFromTexture | Source/Core/VideoBackends/DX11/PostProcessing.cpp:112-301 | a frame leaves the processor valid and built, and its calls are exactly: the rebuild's, the quad's, the source bind, the target reallocation when stale, every stage in order and the source unbind; the quad offset is the append offset exactly when the quad was stale |
| ShaderConstantsManager.PaddedSize | Source/Core/VideoBackends/D3D12/ShaderConstantsManager.cpp:40-45 | a slot is the constant block rounded up to the next multiple of 256 bytes |
| ShaderConstantsManager.CopyWithinHeap | Source/Core/VideoBackends/D3D12/ShaderConstantsManager.cpp:71 | a copy into slot i stays inside the heap exactly when i is below the slot count |
| ShaderConstantsManager.Rewound | Source/Core/VideoBackends/D3D12/ShaderConstantsManager.cpp:274-283 | the rewind sends an index past the threshold to 0 and leaves the others alone |
| ShaderConstantsManager.HeadroomAfterRewind | Source/Core/VideoBackends/D3D12/ShaderConstantsManager.cpp:47-59 | after the rewind a stage can take up to slot count minus threshold minus one uploads with every copy inside its heap |
| ShaderConstantsManager.PixelParameters | Source/Core/VideoBackends/D3D12/ShaderConstantsManager.cpp:205-219 | the pixel constants bind to the pixel shader, and to the hull and domain shaders exactly under tessellation |
| ShaderConstantsManager.VertexParameters | Source/Core/VideoBackends/D3D12/ShaderConstantsManager.cpp:249-269 | the vertex constants bind to the vertex shader, to the pixel shader exactly under per-pixel lighting, and to hull and domain exactly under tessellation |
| ShaderConstantsManager.Binds | Source/Core/VideoBackends/D3D12/ShaderConstantsManager.cpp:125-135 | one view per root parameter, all at the same address |
| ShaderConstantsManager.DirtyConstantsUseNextSlot | Source/Core/VideoBackends/D3D12/ShaderConstantsManager.cpp:106-136 | dirty constants are copied into the next slot, 256-byte aligned, and every view then points at that slot |
| ShaderConstantsManager.CleanStageIsQuiet | Source/Core/VideoBackends/D3D12/ShaderConstantsManager.cpp:106-136 | clean constants with current views make no device call |
| ShaderConstantsManager.StaleViewsRebindCurrentSlot | Source/Core/VideoBackends/D3D12/ShaderConstantsManager.cpp:125-135 | clean constants with stale views copy nothing and rebind the current slot |
| ShaderConstantsManager.Creations | Source/Core/VideoBackends/D3D12/ShaderConstantsManager.cpp:66-91 | Init creates one heap per stage, in stage order, each of the full heap size |
| ShaderConstantsManager.Destructions | Source/Core/VideoBackends/D3D12/ShaderConstantsManager.cpp:96-103 | Shutdown hands each stage's heap to deferred destruction, in stage order |
| ShaderConstantsManager.ConstantUploadHeaps.constructor | Source/Core/VideoBackends/D3D12/ShaderConstantsManager.cpp:30-61 | the module's zero-initialised state: no heaps, nothing mapped, every index 0 |
| ShaderConstantsManager.ConstantUploadHeaps.Init | Source/Core/VideoBackends/D3D12/ShaderConstantsManager.cpp:63-92 | every stage gets a mapped heap of its full size at the address the device gives, and slot index 0 |
| ShaderConstantsManager.ConstantUploadHeaps.CreateHeap | Source/Core/VideoBackends/D3D12/ShaderConstantsManager.cpp:69-90 | one iteration sets up stage i and changes no other stage |
| ShaderConstantsManager.ConstantUploadHeaps.Shutdown | Source/Core/VideoBackends/D3D12/ShaderConstantsManager.cpp:94-104 | every heap is handed over and forgotten, unmapped, with index 0 |
| ShaderConstantsManager.ConstantUploadHeaps.ReleaseHeap | Source/Core/VideoBackends/D3D12/ShaderConstantsManager.cpp:98-102 | one iteration releases stage i and changes no other stage |
| ShaderConstantsManager.ConstantUploadHeaps.UploadConstants | Source/Core/VideoBackends/D3D12/ShaderConstantsManager.cpp:108-124 | dirty constants advance the index, are copied there and make the views stale; other stages are unchanged |
| ShaderConstantsManager.ConstantUploadHeaps.RebindViews | Source/Core/VideoBackends/D3D12/ShaderConstantsManager.cpp:125-135 | stale views are rebound at the current slot and become current |
| ShaderConstantsManager.ConstantUploadHeaps.LoadAndSet | Source/Core/VideoBackends/D3D12/ShaderConstantsManager.cpp:106-136 | one stage's copy and rebind; afterwards its constants and views are clean and no other stage changed |
| ShaderConstantsManager.ConstantUploadHeaps.LoadAndSetGeometryShaderConstants | Source/Core/VideoBackends/D3D12/ShaderConstantsManager.cpp:106-136 | the geometry stage's copy and rebind with its one parameter |
| ShaderConstantsManager.ConstantUploadHeaps.LoadAndSetHullDomainShaderConstants | Source/Core/VideoBackends/D3D12/ShaderConstantsManager.cpp:138-178 | nothing happens without tessellation; with it, the tessellation stage's copy and rebind of the hull and domain views |
| ShaderConstantsManager.ConstantUploadHeaps.LoadAndSetPixelShaderConstants | Source/Core/VideoBackends/D3D12/ShaderConstantsManager.cpp:180-222 | the pixel stage's copy and rebind with the tessellation-dependent parameters |
| ShaderConstantsManager.ConstantUploadHeaps.LoadAndSetVertexShaderConstants | Source/Core/VideoBackends/D3D12/ShaderConstantsManager.cpp:223-272 | the vertex stage's copy and rebind with the lighting- and tessellation-dependent parameters |
| ShaderConstantsManager.ConstantUploadHeaps.CheckToResetIndexPositionInUploadHeaps | Source/Core/VideoBackends/D3D12/ShaderConstantsManager.cpp:274-283 | each stage's index is rewound on its own, and every index ends at or below the threshold |
| TextureConversionShaderGL.ShaderText.constructor | Source/Core/VideoCommon/TextureConversionShaderGL.cpp:19-22 | the static buffer with an empty text and the intensity flag clear |
| TextureConversionShaderGL.ShaderText.Put | Source/Core/VideoCommon/TextureConversionShaderGL.cpp:19 | `p += sprintf(p, …)`: the cursor moves by the text's length, the bytes that fit are stored and terminated, and the last byte is untouched unless reached |
| TextureConversionShaderGL.ShaderText.Emit | Source/Core/VideoCommon/TextureConversionShaderGL.cpp:19 | one WRITE appends its line to the text |
| TextureConversionShaderGL.ShaderText.EmitAll | Source/Core/VideoCommon/TextureConversionShaderGL.cpp:32-71 | consecutive WRITEs append their lines in order |
| TextureConversionShaderGL.ShaderText.WriteSampleColor | Source/Core/VideoCommon/TextureConversionShaderGL.cpp:74-79 | appends the fetch of the given component of texel xoffset into dest |
| TextureConversionShaderGL.ShaderText.WriteColorToIntensity | Source/Core/VideoCommon/TextureConversionShaderGL.cpp:81-90 | declares the intensity constant only if the flag was clear, then appends the dot product; the flag ends set |
| TextureConversionShaderGL.ShaderText.WriteToBitDepth | Source/Core/VideoCommon/TextureConversionShaderGL.cpp:92-95 | appends the quantisation of src to the given bit depth |
| TextureConversionShaderGL.ShaderText.WriteEncoderEnd | Source/Core/VideoCommon/TextureConversionShaderGL.cpp:97-101 | appends the closing brace and clears the intensity flag |
| TextureConversionShaderGL.ShaderText.WriteSwizzler | Source/Core/VideoCommon/TextureConversionShaderGL.cpp:28-72 | appends the prologue and the block-position math for the format's block geometry |
| TextureConversionShaderGL.ShaderText.WritePackNibbles | Source/Core/VideoCommon/TextureConversionShaderGL.cpp:159-163 | the 4-bit writers' tail: both colours quantised to 4 bits, packed, then the end |
| TextureConversionShaderGL.ShaderText.WriteSampleIntensity | Source/Core/VideoCommon/TextureConversionShaderGL.cpp:108-118 | appends the rgb fetch of texel xoffset and its intensity |
| TextureConversionShaderGL.ShaderText.WriteAlphaIntensity | Source/Core/VideoCommon/TextureConversionShaderGL.cpp:191-205 | appends the rgba fetch of a texel, its alpha copy and its intensity |
| TextureConversionShaderGL.ShaderText.WriteRgba8Texel | Source/Core/VideoCommon/TextureConversionShaderGL.cpp:313-325 | appends one RGBA8 texel's fetch and its four channel copies |
| TextureConversionShaderGL.ShaderText.WriteCC4Texel | Source/Core/VideoCommon/TextureConversionShaderGL.cpp:371-386 | appends one two-channel 4-bit texel's fetch and its two channel copies |
| TextureConversionShaderGL.ShaderText.WriteRgb5a3Texel | Source/Core/VideoCommon/TextureConversionShaderGL.cpp:248-300 | appends one RGB5A3 texel: the opaque and translucent branches |
| TextureConversionShaderGL.ShaderText.WriteI8Encoder | Source/Core/VideoCommon/TextureConversionShaderGL.cpp:103-123 | appends the swizzler and the I8 body, ending the shader with the flag clear |
| TextureConversionShaderGL.ShaderText.WriteI4Encoder | Source/Core/VideoCommon/TextureConversionShaderGL.cpp:125-164 | appends the swizzler and the I4 body, ending the shader |
| TextureConversionShaderGL.ShaderText.WriteIA8Encoder | Source/Core/VideoCommon/TextureConversionShaderGL.cpp:166-182 | appends the swizzler and the IA8 body, ending the shader |
| TextureConversionShaderGL.ShaderText.WriteIA4Encoder | Source/Core/VideoCommon/TextureConversionShaderGL.cpp:184-214 | appends the swizzler and the IA4 body, ending the shader |
| TextureConversionShaderGL.ShaderText.WriteRgb565Encoder | Source/Core/VideoCommon/TextureConversionShaderGL.cpp:216-237 | appends the swizzler and the RGB565 body, ending the shader |
| TextureConversionShaderGL.ShaderText.WriteRgb5a3Encoder | Source/Core/VideoCommon/TextureConversionShaderGL.cpp:239-303 | appends the swizzler and the RGB5A3 body, ending the shader |
| TextureConversionShaderGL.ShaderText.WriteRgba8Encoder | Source/Core/VideoCommon/TextureConversionShaderGL.cpp:305-328 | appends the swizzler and the RGBA8 body, ending the shader |
| TextureConversionShaderGL.ShaderText.WriteC4Encoder | Source/Core/VideoCommon/TextureConversionShaderGL.cpp:330-350 | appends the R4 swizzler and the 4-bit body for the component, ending the shader |
| TextureConversionShaderGL.ShaderText.WriteC8Encoder | Source/Core/VideoCommon/TextureConversionShaderGL.cpp:352-362 | appends the R8 swizzler and the 8-bit body for the component, ending the shader |
| TextureConversionShaderGL.ShaderText.WriteCC4Encoder | Source/Core/VideoCommon/TextureConversionShaderGL.cpp:364-392 | appends the RA4 swizzler and the two-channel 4-bit body, ending the shader |
| TextureConversionShaderGL.ShaderText.WriteCC8Encoder | Source/Core/VideoCommon/TextureConversionShaderGL.cpp:394-402 | appends the RA8 swizzler and the two-channel 8-bit body, ending the shader |
| TextureConversionShaderGL.ShaderText.WriteZ8Encoder | Source/Core/VideoCommon/TextureConversionShaderGL.cpp:404-423 | appends the Z8M swizzler and the depth byte body for the multiplier, ending the shader |
| TextureConversionShaderGL.ShaderText.WriteZ16Encoder | Source/Core/VideoCommon/TextureConversionShaderGL.cpp:425-455 | appends the swizzler and the Z16 body, ending the shader |
| TextureConversionShaderGL.ShaderText.WriteZ16LEncoder | Source/Core/VideoCommon/TextureConversionShaderGL.cpp:457-491 | appends the Z16L swizzler and its body, ending the shader |
| TextureConversionShaderGL.ShaderText.WriteUnpack24 | Source/Core/VideoCommon/TextureConversionShaderGL.cpp:505-513 | the Z24 loop splits both samples into their three bytes |
| TextureConversionShaderGL.ShaderText.WriteZ24Encoder | Source/Core/VideoCommon/TextureConversionShaderGL.cpp:493-531 | appends the swizzler and the Z24 body, ending the shader |
| TextureConversionShaderGL.ShaderText.CanaryCheck | Source/Core/VideoCommon/TextureConversionShaderGL.cpp:619-620 | with the canary planted, the last byte differs from it exactly when the text reached that byte |
| TextureConversionShaderGL.ShaderText.WriteTextureShader | Source/Core/VideoCommon/TextureConversionShaderGL.cpp:545-565 | the texture-format cases of the switch write their encoder and end the shader |
| TextureConversionShaderGL.ShaderText.WriteColourCopyShader | Source/Core/VideoCommon/TextureConversionShaderGL.cpp:566-592 | the colour-copy cases of the switch write their encoder and end the shader |
| TextureConversionShaderGL.ShaderText.WriteDepthShader | Source/Core/VideoCommon/TextureConversionShaderGL.cpp:593-613 | the depth cases of the switch write their encoder and end the shader |
| TextureConversionShaderGL.ShaderText.WriteShader | Source/Core/VideoCommon/TextureConversionShaderGL.cpp:543-617 | a known format's encoder ends the shader; an unknown format writes nothing |
| TextureConversionShaderGL.ShaderText.Terminated | Source/Core/VideoCommon/TextureConversionShaderGL.cpp:19 | a shader that fits the buffer is stored in it, followed by its terminator |
| TextureConversionShaderGL.ShaderText.Restart | Source/Core/VideoCommon/TextureConversionShaderGL.cpp:539-541 | the canary goes into the last byte and the cursor to the start; no other byte changes |
| TextureConversionShaderGL.ShaderText.GenerateEncodingShader | Source/Core/VideoCommon/TextureConversionShaderGL.cpp:533-627 | the text is the shader of the format; the alerts are the unknown-format alert, then the canary alert exactly when the text overran the buffer; a fitting shader is stored and terminated; an unknown format leaves the previous text in place |
| TextureConversionShaderGL.ShaderText.WriteTerminatedShader | Source/Core/VideoCommon/TextureConversionShaderGL.cpp:541-617 | from an empty text: the switch's lines, a fitting known shader terminated in the buffer, an unknown format leaving it untouched |
| TextureConversionShaderGL.ShaderText.Finish | Source/Core/VideoCommon/TextureConversionShaderGL.cpp:614-620 | the default case's alert for an unknown format, then the canary alert exactly when the text overran |
| TextureConversionProperties.SwizzlerFrames | Source/Core/VideoCommon/TextureConversionShaderGL.cpp:28-72 | the swizzler keeps what was written and starts with the prologue |
| TextureConversionProperties.UnpackedExtends | Source/Core/VideoCommon/TextureConversionShaderGL.cpp:505-513 | the Z24 unpacking loop only appends |
| TextureConversionProperties.TextureFrames | Source/Core/VideoCommon/TextureConversionShaderGL.cpp:545-565 | each texture-format case keeps what was written, follows it with the prologue and ends with the brace |
| TextureConversionProperties.ColourCopyFrames | Source/Core/VideoCommon/TextureConversionShaderGL.cpp:566-592 | each colour-copy case keeps what was written, follows it with the prologue and ends with the brace |
| TextureConversionProperties.DepthFrames | Source/Core/VideoCommon/TextureConversionShaderGL.cpp:593-613 | each depth case keeps what was written, follows it with the prologue and ends with the brace |
| TextureConversionProperties.ShaderFramed | Source/Core/VideoCommon/TextureConversionShaderGL.cpp:533-627 | every shader of a known format opens with the swizzler prologue and closes with the brace |
| TextureConversionProperties.DeclarationsAppend | Source/Core/VideoCommon/TextureConversionShaderGL.cpp:81-90 | declarations of the intensity constant add up over concatenated text |
| TextureConversionProperties.WithIntensityDeclares | Source/Core/VideoCommon/TextureConversionShaderGL.cpp:81-90 | the intensity conversion declares the constant exactly when the flag was clear |
| TextureConversionProperties.SampleIntensityDeclares | Source/Core/VideoCommon/TextureConversionShaderGL.cpp:108-118 | a fetch with intensity declares the constant exactly when the flag was clear |
| TextureConversionProperties.AlphaIntensityDeclares | Source/Core/VideoCommon/TextureConversionShaderGL.cpp:191-205 | a fetch with alpha and intensity declares the constant exactly when the flag was clear |
| TextureConversionProperties.I8Declares | Source/Core/VideoCommon/TextureConversionShaderGL.cpp:103-123 | the I8 body declares the constant once |
| TextureConversionProperties.FourSamplesDeclare | Source/Core/VideoCommon/TextureConversionShaderGL.cpp:132-154 | four consecutive I4 samples declare the constant once if the flag was clear, and never otherwise |
| TextureConversionProperties.I4Declares | Source/Core/VideoCommon/TextureConversionShaderGL.cpp:125-164 | the I4 body declares the constant once, though it converts eight texels |
| TextureConversionProperties.IA8Declares | Source/Core/VideoCommon/TextureConversionShaderGL.cpp:166-182 | the IA8 body declares the constant once |
| TextureConversionProperties.IA4Declares | Source/Core/VideoCommon/TextureConversionShaderGL.cpp:184-214 | the IA4 body declares the constant once |
| TextureConversionProperties.Rgb565Declares | Source/Core/VideoCommon/TextureConversionShaderGL.cpp:216-237 | the RGB565 body declares nothing |
| TextureConversionProperties.Rgb5a3Declares | Source/Core/VideoCommon/TextureConversionShaderGL.cpp:239-303 | the RGB5A3 body declares nothing |
| TextureConversionProperties.Rgba8Declares | Source/Core/VideoCommon/TextureConversionShaderGL.cpp:305-328 | the RGBA8 body declares nothing |
| TextureConversionProperties.C4Declares | Source/Core/VideoCommon/TextureConversionShaderGL.cpp:330-350 | the 4-bit single-channel body declares nothing |
| TextureConversionProperties.C8Declares | Source/Core/VideoCommon/TextureConversionShaderGL.cpp:352-362 | the 8-bit single-channel body declares nothing |
| TextureConversionProperties.CC4Declares | Source/Core/VideoCommon/TextureConversionShaderGL.cpp:364-392 | the two-channel 4-bit body declares nothing |
| TextureConversionProperties.CC8Declares | Source/Core/VideoCommon/TextureConversionShaderGL.cpp:394-402 | the two-channel 8-bit body declares nothing |
| TextureConversionProperties.Z8Declares | Source/Core/VideoCommon/TextureConversionShaderGL.cpp:404-423 | the depth byte body declares nothing |
| TextureConversionProperties.Z16Declares | Source/Core/VideoCommon/TextureConversionShaderGL.cpp:425-455 | the Z16 body declares nothing |
| TextureConversionProperties.Z16LDeclares | Source/Core/VideoCommon/TextureConversionShaderGL.cpp:457-491 | the Z16L body declares nothing |
| TextureConversionProperties.Z24Declares | Source/Core/VideoCommon/TextureConversionShaderGL.cpp:493-531 | the Z24 body declares nothing |
| TextureConversionProperties.TextureDeclares | Source/Core/VideoCommon/TextureConversionShaderGL.cpp:545-565 | a texture-format case declares the constant once if it computes intensities, otherwise never |
| TextureConversionProperties.ColourCopyDeclares | Source/Core/VideoCommon/TextureConversionShaderGL.cpp:566-592 | a colour-copy case declares nothing |
| TextureConversionProperties.DepthDeclares | Source/Core/VideoCommon/TextureConversionShaderGL.cpp:593-613 | a depth case declares nothing |
| TextureConversionProperties.IntensityDeclaredOnce | Source/Core/VideoCommon/TextureConversionShaderGL.cpp:81-101 | a generated shader declares the intensity constant exactly once if its encoder computes intensities, and never otherwise |
| TextureConversionProperties.FetchesAppend | Source/Core/VideoCommon/TextureConversionShaderGL.cpp:74-79 | the texel fetches of concatenated text are those of the parts, in order |
| TextureConversionProperties.SampleIntensityFetches | Source/Core/VideoCommon/TextureConversionShaderGL.cpp:108-118 | a fetch with intensity fetches exactly its texel |
| TextureConversionProperties.I8Fetches | Source/Core/VideoCommon/TextureConversionShaderGL.cpp:108-118 | the I8 body fetches texels 0 to 3 in order |
| TextureConversionProperties.FourSamplesFetch | Source/Core/VideoCommon/TextureConversionShaderGL.cpp:132-154 | four consecutive I4 samples fetch four consecutive texels in order |
| TextureConversionProperties.I4Fetches | Source/Core/VideoCommon/TextureConversionShaderGL.cpp:132-154 | the I4 body fetches texels 0 to 7 in order |
| TextureConversionProperties.C4Fetches | Source/Core/VideoCommon/TextureConversionShaderGL.cpp:336-343 | the 4-bit single-channel body fetches texels 0 to 7 in order |
| TextureConversionProperties.I8SampleOrder | Source/Core/VideoCommon/TextureConversionShaderGL.cpp:103-123 | the I8 shader fetches texels 0 to 3 in order |
| TextureConversionProperties.I4SampleOrder | Source/Core/VideoCommon/TextureConversionShaderGL.cpp:125-164 | the I4 shader fetches texels 0 to 7 in order |
| TextureConversionProperties.C4SampleOrder | Source/Core/VideoCommon/TextureConversionShaderGL.cpp:330-350 | the R4 and Z4 copy shaders fetch texels 0 to 7 in order |
| TextureConversionProperties.Pow2 | Source/Core/VideoCommon/TextureConversionShaderGL.cpp:49-51 | a power of two is positive |
| TextureConversionProperties.Word | Source/Core/VideoCommon/TextureConversionShaderGL.cpp:49-51 | an n-bit word is below 2^n |
| TextureConversionProperties.Complement | Source/Core/VideoCommon/TextureConversionShaderGL.cpp:49-51 | the complement of an n-bit mask is an n-bit mask |
| TextureConversionProperties.SplitBits | Source/Core/VideoCommon/TextureConversionShaderGL.cpp:49-59 | a mask and its complement are disjoint, and their two ANDs with y add up to y's low n bits |
| TextureConversionProperties.BitNotComplements | Source/Core/VideoCommon/TextureConversionShaderGL.cpp:49-51 | `~m` cut to n bits is the complement of m |
| TextureConversionProperties.MaskPair | Source/Core/VideoCommon/TextureConversionShaderGL.cpp:49-59 | `~m` and m are disjoint n-bit masks whose ANDs with v add up to v |
| TextureConversionProperties.SwizzlerMasks | Source/Core/VideoCommon/TextureConversionShaderGL.cpp:49-59 | the masks the swizzler writes are `~(blkH-1)`, `blkH-1`, `~(blkW-1)` and `blkW-1` |
| TextureConversionProperties.RowMasksSplit | Source/Core/VideoCommon/TextureConversionShaderGL.cpp:49-50 | the block-row and in-block-row masks are disjoint complements, so a y coordinate is its block position plus its offset in the block |
| TextureConversionProperties.ColumnMasksComplement | Source/Core/VideoCommon/TextureConversionShaderGL.cpp:51-59 | the block-column and in-block-column masks are disjoint complements |
| TextureConversionProperties.CacheLineSplitOnlyForOneSample | Source/Core/VideoCommon/TextureConversionShaderGL.cpp:53-58 | the doubled virtual position and the cache-line split are written exactly when the format takes one sample per texel |
| TextureConversionProperties.Z8IsBlueCopy | Source/Core/VideoCommon/TextureConversionShaderGL.cpp:584-595 | the Z8 texture format generates the same shader as the blue-channel copy |

## Left out

- Direct3D and OpenGL calls are recorded as `Event` values in a trace: buffer, texture and heap creation, maps, binds, draws and copies. Their effects on the GPU, debug names, samplers, input layouts and the vertex shader are not modelled.
- The frame parameters (`PostProcessing.cpp:156-178`: gamma, time, layer, texel sizes, source rectangle) are floating point and are not modelled. Float option values are opaque `Float32` lanes. Viewports and scales are `real`, and target sizes are the product truncated toward zero.
- HLSL and GLSL text is abstract. The sampling header is a `SamplingHeader` value, with no text for the MSAA header's format string. Option declarations are strings. Shader lines are a `Line` datatype with the values they print, and only `Put` deals in characters.
- Loading the effect configuration, its stages and its source is not modelled: they are inputs to the class. The compiler is a function parameter that says whether a source compiles with a given entry point.
- The timer, `ADDSTAT` statistics and `ERROR_LOG` are not modelled.
- The vertex ring buffer's internals are not modelled. Its wrap observer is the boolean `vertexBufferObserver`, and the append offset is a parameter.
- Stage inputs: the source never checks that an input names an earlier stage (`PostProcessing.cpp:278-286`). The model requires only what memory safety needs: an existing intermediate target, and at most four inputs. `ForwardReferenceAccepted` shows that forward and self references pass.
- The fallback path follows the code. It clears the two configured effect names and compiles the same spliced source with the default entry point. It does not switch to a pass-through configuration. Stage 0 holds that shader and the other stages hold nothing.
- The destructor (`PostProcessing.cpp:95-110`) only releases device objects and is not modelled.
- `D3D11_MAP_WRITE_DISCARD` leaves the mapped memory undefined. The model takes what the mapping holds as the input `discarded`, which no contract constrains, so every statement about the buffer holds whatever it is. Lanes that no option reaches keep those contents (`UploadImageKeepsTail`).
- `PostProcessing.PostProcessor.PrepareFrame` runs the corrected upload `UploadOptions`, where the source runs the loop modelled as `UploadOptionsAsWritten` (see Findings). The two produce the same buffer whenever no value needs padding (`UploadVariantsAgreeWithoutPadding`); `BlitFromTexture` inherits this.
- `PostProcessing.PostProcessor.BlitFromTexture`: its contract states the whole call trace, validity, the quad and the tracked sizes, but does not restate the rebuild outcome (`Applied`) or the option upload (`Uploaded`). `PrepareFrame`, which it runs first, states both, and `DrawStages`, which runs second, modifies none of the fields they speak about.
- `PostProcessing.PostProcessor.UploadOptions`: requires that a dirty configuration with options has a layout of at least one byte. With options that all take zero bytes the source creates no option buffer and then maps the null buffer, a crash the model does not follow. `UploadLoop` likewise requires the buffer to exist.
- `ShaderConstantsManager.ConstantUploadHeaps.LoadAndSet`: the four public `LoadAndSet*` methods and `LoadAndSet` require a stage with dirty constants to have its heap mapped. After `Shutdown` the source would copy those constants through a null pointer, which the model does not follow. Clean constants need no mapping; stale views are then rebound at the kept GPU address, as in the source.
- Target sizes are unbounded integers. The source stores them as `u32` and converts a float product with `(u32)`, which C++ leaves undefined for a negative or too large product; `Scaled` truncates toward zero for every product.
- The dirty flags of the geometry, pixel, vertex and tessellation shader managers are arrays of the `ConstantUploadHeaps` class, cleared by each call. The managers' constant contents and the byte copy (`memcpy`) are recorded as a `CopyConstants` event. `DisableDirtyRegions` is not modelled.
- `ShaderConstantsManager.ConstantUploadHeaps.LoadAndSet`: slot indices and offsets are unbounded naturals. Nothing here models 32-bit wrap-around of the index or an index beyond the heap between two resets; `HeadroomAfterRewind` and `CopyWithinHeap` state when copies stay inside the heap.
- The block widths and heights of the texture formats, `IntLog2`, the EFB size and the sample count come from `TextureDecoder` and the video config, which are not part of this model. They are the `Geometry` values of a `layout` parameter.
- Texture format codes: the numeric values of the `GX_TF_*` and `GX_CTF_*` constants are not part of this model. Formats are a datatype, with `OtherFormat(code)` for the default case.
- The locale switch around the generator (`TextureConversionShaderGL.cpp:535-538`, `622-625`) only affects float formatting, which the model does not produce, and is left out.
- `PanicAlert` becomes an `Alert` value that `GenerateEncodingShader` returns, in the order raised.
- `Put` stores the bytes of a write that fit in the 16384-byte buffer and drops the rest. The source's `sprintf` would write past the array, which C leaves undefined; the canary check is the only detection the source has, and the model states it.
- The `char*&` cursor passed to every writer is the field `p` of `ShaderText`. The static buffer, cursor and flag are the fields of one object.
- The repeated blocks inside the encoders are helper methods: a texel's fetch and conversion, and the 4-bit packing tail. The switch is split into three group methods (texture, colour copy, depth). The lines appended are the same as the source's.
- An unknown format writes nothing and leaves the previous text in the buffer. The source returns that same buffer.
- `TextureConversionProperties.RowMasksSplit`: stated for an n-bit word with y non-negative and below 2^n. GLSL's `int` is 32 bits and signed, so a negative coordinate is not covered.
- `TextureConversionProperties.ColumnMasksComplement`: stated for an n-bit word, like `RowMasksSplit`. The x masks are applied after the shift by the block height's logarithm, which the model keeps as text.

## Findings

| source | as written | input that shows it | evidently intended | confidence | as-written member | corrected member |
|---|---|---|---|---|---|---|
| Source/Core/VideoBackends/DX11/PostProcessing.cpp:127-148 | the upload copies each option at the cursor BEFORE the padding step moves it to the next 16-byte row | a float3 option then a float2 option: the declarations place the float2 at byte 16, but the upload copies it to bytes 12-19, so the shader reads the float2's y as x and a stale lane as y | copy each value after the padding step, at the offset the declarations (`PostProcessing.cpp:682-688`) give it | not executed | PostProcessing.PostProcessor.UploadOptionsAsWritten, PostProcessingLayout.UploadAsWrittenMisplacesFloat2 | PostProcessing.PostProcessor.UploadOptions, PostProcessingLayout.UploadImagePlaces |
