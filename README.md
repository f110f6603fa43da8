# ImGuiRenderer, modelled in Dafny

This project models the core of `ImGuiRenderer`, the class that draws the
Dear ImGui toolkit's output through a low-level graphics backend. The core has
three parts.

- **The texture-binding registry.** Two dictionaries hold the same entries.
  `resourceByTexture` maps a texture to its entry, and `resourceById` maps the
  id handed to the toolkit to the same entry. Each entry is an id plus a
  resource set. A counter, `lastAssignedID`, starts at 10 and hands out ids by
  post-increment. Id 0 means "no texture" and id 1 is reserved for the font
  atlas.
- **Buffer growth and upload in `Render`.** A frame with no draw lists does
  nothing. Otherwise a vertex or index buffer too small for the frame's bytes
  is disposed and replaced by one of the next power-of-two size. Each list's
  vertices and indices are then uploaded at running offsets.
- **The draw loop in `Render`.** For each list, and for each command in it,
  `Render` does three things:
  - sets a scissor rectangle from the command's clip rectangle;
  - binds the command's texture (nothing for id 0, the font set for id 1,
    otherwise whatever the id index holds);
  - issues `DrawIndexed(elemCount, indexOffset, vertexOffset)`.

  The index offset advances per command and the vertex offset per list.

The model is one class, `Renderer.ImGuiRenderer`. Its fields are the
source's registry, buffer and array fields, plus serial counters, disposed
sets and ghost bookkeeping for the registry. The source's pipeline, layout,
shader, font-texture, constant-buffer and window fields are not modelled.

- The graphics objects are plain values. A buffer is a serial, a role and a
  size. A resource set is a serial. A texture is an identity.
- The backend factory is modelled by serial counters. Disposal is modelled by
  the sets of disposed objects.
- The command buffer is the sequence of calls that `Render` returns.
- `Render` is split into methods that follow the source's blocks:
  - `ResizeBuffers`, made of `GrowVertexBuffer` and `GrowIndexBuffer`;
  - `UploadFrame`;
  - `DrawFrame`, made of `DrawCommands` and `DrawCommand`.

  `UploadFrame` and the draw methods are proved to record exactly what a
  specification function in module `Frame` gives. The offsets, order and
  bounds are proved about those functions. The resizing methods are
  specified by the growth rule `GrowTo`.
- The registry's consistency is a pure invariant in module `Registry`. It
  covers the two indexes agreeing, ids being unique, every id being in
  `[10, lastAssignedID)`, and every registered resource set being live. The
  renderer's registry methods keep it.

Modules and files:

| file | module | contents |
|---|---|---|
| `power_of_two.dfy` | `PowerOfTwo` | powers of two and `NextPowerOfTwo` |
| `resources.dfy` | `Resources` | handles, constants, the growth rule `GrowTo`, id lookup `Resolve` |
| `draw_data.dfy` | `DrawData` | draw lists and commands, prefix sums |
| `frame.dfy` | `Frame` | the recorded calls of a frame as functions, and lemmas about them |
| `registry.dfy` | `Registry` | the registry invariant and its preservation |
| `renderer.dfy` | `Renderer` | the `ImGuiRenderer` class and registry scenarios |

Three facts about the code that the model keeps:

- The first dynamic id is 10, from the field initialiser at line 38.
- An id with no registry entry resolves to nothing (lines 353-358). The
  renderer does not check that result before binding it at line 304. What
  the backend does with a missing set is not modelled.
- The draw loop's index offset advances per command (line 310). Only the
  vertex offset advances per list.

## Model

| member | source | states |
|---|---|---|
| PowerOfTwo.NextPowerOfTwo | ImGUIRenderer/ImGuiRenderer.cs:209 | the new capacity is a power of two, at least the required size, and less than twice the required size |
| PowerOfTwo.NextPowerOfTwoIsLeast | ImGUIRenderer/ImGuiRenderer.cs:224 | no power of two at least the required size is smaller than `NextPowerOfTwo`'s result |
| Resources.GrowTo | ImGUIRenderer/ImGuiRenderer.cs:205-232 | capacity never decreases and always covers the required bytes; it is unchanged exactly when the required bytes fit; otherwise it is a power of two below twice the required bytes |
| Renderer.ImGuiRenderer.constructor | ImGUIRenderer/ImGuiRenderer.cs:55-175 | initial vertex capacity 10000 and index capacity 2000; empty registry; counter at 10; slot 0 of `vertexBuffers` is the vertex buffer; all invariants hold |
| Renderer.ImGuiRenderer.GetNextImGuiBindingID | ImGUIRenderer/ImGuiRenderer.cs:345-349 | returns the counter's old value and advances the counter by one; the id was never issued before |
| Renderer.ImGuiRenderer.GetImageResourceSet | ImGUIRenderer/ImGuiRenderer.cs:351-359 | yields a set exactly when the id is a key of the id index, and exactly when some registered texture holds it; the set is that entry's set; the id is in `[10, counter)`; the set is live and is neither the font set nor the constants set |
| Renderer.ImGuiRenderer.GetOrCreateImGuiBinding | ImGUIRenderer/ImGuiRenderer.cs:319-333 | a registered texture gets its stored id and nothing changes; a new one gets the counter's value, which is never an issued id and never 0 or 1; both indexes gain the same entry with a new resource set; the registry invariant is kept |
| Renderer.ImGuiRenderer.RemoveImGuiBinding | ImGUIRenderer/ImGuiRenderer.cs:335-343 | a registered texture leaves both indexes, and no other entry changes; its id no longer resolves; its resource set, live until then, is disposed; an unregistered texture changes nothing; the invariant is kept |
| Registry.EntriesDistinct | ImGUIRenderer/ImGuiRenderer.cs:52-53 | two registered textures never share an id or a resource set |
| Registry.AddKeepsInvariant | ImGUIRenderer/ImGuiRenderer.cs:321-328 | neither index holds the counter's value before insertion, so both `Add` calls are on absent keys; registering under it with a new set keeps the invariant |
| Registry.RemoveKeepsInvariant | ImGUIRenderer/ImGuiRenderer.cs:337-341 | removing a registered texture from both indexes and disposing its set keeps the invariant; the set was not already disposed |
| Registry.ResolveRegistered | ImGUIRenderer/ImGuiRenderer.cs:351-359 | a registered texture's id resolves to that texture's resource set |
| Registry.ResolveMeansRegistered | ImGUIRenderer/ImGuiRenderer.cs:351-359 | an id resolves exactly when a registered texture holds it; the id was issued; the resolved set is live and not reserved |
| Renderer.ImGuiRenderer.Render | ImGUIRenderer/ImGuiRenderer.cs:190-317 | no lists: no calls, and the buffers, the serial counter, the disposed set and both arrays are unchanged; otherwise the buffers are resized as `GrowTo` says, and the calls are exactly `FrameCommands` (uploads, `Prologue`, every draw, end of pass); the scissor array is left holding `FinalScissor`, and is untouched when no list has a command; the invariants hold |
| Renderer.ImGuiRenderer.ResizeBuffers | ImGUIRenderer/ImGuiRenderer.cs:204-232 | each buffer is kept when it holds the required bytes; otherwise it is disposed and replaced by a new buffer of `GrowTo` size; nothing else is disposed |
| Renderer.ImGuiRenderer.GrowVertexBuffer | ImGUIRenderer/ImGuiRenderer.cs:205-218 | the vertex buffer is replaced exactly when the required bytes exceed its size; the new one takes the next serial and `GrowTo` size; the old one is disposed; `vertexBuffers[0]` follows it |
| Renderer.ImGuiRenderer.GrowIndexBuffer | ImGUIRenderer/ImGuiRenderer.cs:220-232 | the same rule for the index buffer |
| Renderer.ImGuiRenderer.UploadFrame | ImGUIRenderer/ImGuiRenderer.cs:235-253 | the upload loop records exactly `UploadCommands` for the current buffers |
| Frame.UploadAt | ImGUIRenderer/ImGuiRenderer.cs:235-253 | two uploads per list, in list order; list i's vertices go at byte offset (vertices of lists before i) * 20 and its indices at (indices of lists before i) * 2 |
| Frame.UploadsFit | ImGUIRenderer/ImGuiRenderer.cs:205-253 | when the buffers hold the frame's total bytes, which resizing guarantees, every upload lies inside its buffer |
| Frame.ScissorOf | ImGUIRenderer/ImGuiRenderer.cs:289-293 | the scissor has the clip rectangle's top-left corner, and its width and height reach the clip's bottom-right corner |
| Renderer.ImGuiRenderer.DrawCommand | ImGUIRenderer/ImGuiRenderer.cs:289-308 | one command records scissor, texture binding (none for id 0, the font set for id 1, the id lookup otherwise) and the indexed draw, as `IssueDraw` gives; the scissor array is left holding the command's rectangle |
| Renderer.ImGuiRenderer.DrawCommands | ImGUIRenderer/ImGuiRenderer.cs:285-311 | one list's commands are drawn as its `ListPlan`; the index offset ends advanced by the list's total element count; the scissor array holds the last command's rectangle, and is untouched for a list without commands |
| Renderer.ImGuiRenderer.DrawFrame | ImGUIRenderer/ImGuiRenderer.cs:279-314 | the draw loops record exactly the calls of `DrawPlan`, in order; the scissor array is left holding `FinalScissor`, and is untouched when no list has a command |
| Frame.FinalScissorIsLastDraw | ImGUIRenderer/ImGuiRenderer.cs:279-293 | the scissor the draw loop leaves behind exists exactly when the frame draws something, and it is the rectangle of the frame's last draw |
| Frame.ListPlanAt | ImGUIRenderer/ImGuiRenderer.cs:285-311 | a list's j-th draw is its j-th command at the start offset plus the element counts of the commands before it |
| Frame.DrawPlanLength | ImGUIRenderer/ImGuiRenderer.cs:282-314 | a frame has exactly one draw per command |
| Frame.DrawPlanAt | ImGUIRenderer/ImGuiRenderer.cs:279-314 | command j of list i is draw number (commands of earlier lists) + j; its index offset is the element count of every earlier command; its vertex offset is the vertex count of every earlier list |
| Frame.IssueDrawInOrder | ImGUIRenderer/ImGuiRenderer.cs:282-314 | the calls of each draw sit after those of every earlier draw and before those of every later one |
| Frame.DrawReadsOwnList | ImGUIRenderer/ImGuiRenderer.cs:279-314 | when each list's commands consume its index batch, every draw reads indices only from its own list's uploaded batch, and its base vertex is where its list's vertices were uploaded |
| Frame.TwoListsDrawInOrder | ImGUIRenderer/ImGuiRenderer.cs:279-314 | two one-command lists draw at offsets (0, 0) and then (first command's elements, first list's vertices) |
| Renderer.RegisterScenario | ImGUIRenderer/ImGuiRenderer.cs:319-349 | from a fresh renderer, texture A gets 10 and B gets 11; A asked again gets 10 |
| Renderer.RemoveScenario | ImGUIRenderer/ImGuiRenderer.cs:335-359 | after A is removed its id resolves to nothing, while B's id still resolves to the resource set B was registered with |
| Renderer.ReRegisterScenario | ImGUIRenderer/ImGuiRenderer.cs:319-349 | a texture registered, removed and registered again gets 10 and then 11; its old id is not reused |

## Left out

- Constructor setup (shaders, layouts, pipeline, sampler, constant buffer, font texture upload, ImGui context): only the initial field values are modelled, because the rest is calls into the backend and ImGui.
- `Update`: display-size float arithmetic and ImGui frame calls, which are outside the core.
- The orthographic projection matrix: floating-point matrix construction. Its upload is recorded as the single call `UpdateProjection`.
- `ScaleClipRects` and the float-to-int truncation of clip coordinates: clip rectangles are taken as already scaled integer corners.
- `Dispose`: a fixed list of foreign dispose calls.
- `Program.cs` and the `VisualTest` files: the demo scene, window setup and bootstrap.
- `MathHelper.NextPowerOfTwo` is not part of this model. It is defined here as the least power of two at least n, or 1 for n ≤ 1. This is an assumption about the library.
- The GUI library's draw data is taken on trust in two ways. The frame's vertex and index totals are taken to be the sums over its lists; the resizing at lines 205 and 220 uses the library's own totals. A list's commands are taken to use up exactly its index batch; `DrawData.WellFormed` states this, and `Frame.DrawReadsOwnList` assumes it.
- Binding a missing resource set: the renderer passes the result of the id lookup to `SetResourceSet` without checking it (line 304). What the backend does with a null set is outside this model; it is recorded as a binding of `None`.
- Vertex and index contents are not modelled. An upload records its buffer, the list number, its size and its offset, but not the data pointer.
- The render pass description, the frame buffer and the 16-bit index format argument are not recorded.
- The backend factory is modelled by serial numbers. Allocation failure is not modelled.
- Renderer.ImGuiRenderer.Render: byte counts and offsets are unbounded integers. The source's 32-bit `int` sizes and `uint` offsets would wrap on frames with more than about 10^8 vertices, and that wrap-around is not modelled.
- Renderer.ImGuiRenderer.GetNextImGuiBindingID: the counter is an unbounded integer. The source's `int` would wrap after about 2^31 registrations.
- Renderer.ImGuiRenderer.DrawCommand: `SetScissorRectangles` records the scissor array's contents at the time of the call. Whether the backend copies the array or keeps a reference to it is not modelled.
