# Hello Engine, Direct3D 11 window: the graphics-resource lifecycle

This project models the Direct3D 11 sample window of the Hello Engine
repository (`Platform/Windows/helloengine_d3d.cpp`). The sample keeps eight
process-wide interface pointers: the swapchain, the device, the device
context, the render-target view, the input layout, the vertex and pixel
shaders, and the vertex buffer. Its window procedure drives them through
a small lifecycle:

- **WM_PAINT** creates them lazily and renders one triangle.
- **WM_SIZE** discards them if a swapchain exists.
- **WM_DESTROY** discards them and posts quit.
- **WM_DISPLAYCHANGE** invalidates the window.

Creation negotiates the feature level. It first asks for all seven levels.
If that call answers `E_INVALIDARG`, it asks a second time, naming only the
level the first call reported.

The model is imperative, like the source:

- `HelloEngine.Renderer` is a class whose eight nullable `Handle?` fields are
  the globals. Its methods modify those fields, as the C++ functions
  modify the globals.
- A ghost `log` records every call into Direct3D, DXGI and the window system
  (`Direct3D.Call`). This lets each method state the calls it makes, in
  order, and that nothing else happens.
- Direct3D is an opaque backend. What it answers is given as parameters
  (`Direct3D.Replies`): the status of each device-creation call, the level
  the first call reports, and whether each setup object was created. What
  `DefWindowProc` returns is `WindowProc`'s `defResult` parameter. A successful creation yields fresh handles. A
  failed creation call leaves its out-pointers null.
- The functions of the modules `Release`, `Creation` and `Frame` give the
  exact call sequences as values. The lemmas beside them prove the
  properties of those sequences: release order, exactly-once release,
  idempotence, feature-level retry and setup order. The methods are proved
  against these functions.

The code does not do everything a reader of such a lifecycle might expect,
and the model follows the code:

- Creation is not all-or-nothing. The setup steps ignore their results:
  `CreatedWith` allows any setup object to be missing, and nothing is rolled
  back.
- No status reaches the caller. `CreateGraphicsResources` always returns
  `S_OK`, because the `hr` declared inside its block shadows the one it
  returns. The window procedure renders even after a failed creation.
- The level granted by the retry is not recorded: the second call passes
  `NULL` for it.
- The status of `Present` is ignored. `RenderFrame` returns nothing.

## Model

| member | source | states |
|---|---|---|
| Resources.Handles.Set | Platform/Windows/helloengine_d3d.cpp:38-46 | writing one global through its pointer gives it the new handle and leaves the other seven unchanged |
| HelloEngine.Renderer.Store | Platform/Windows/helloengine_d3d.cpp:44 | a write through the pointer to one global: the state becomes the old one with that slot set, and the log is unchanged |
| HelloEngine.Handled | Platform/Windows/helloengine_d3d.cpp:303-337 | the five message codes the switch has a case for (WM_CREATE, WM_PAINT, WM_SIZE, WM_DESTROY, WM_DISPLAYCHANGE); every other code is unhandled |
| Resources.NoHandles | Platform/Windows/helloengine_d3d.cpp:20-30 | the initial globals: every one of the eight slots is null |
| Direct3D.FeatureLevels | Platform/Windows/helloengine_d3d.cpp:155-163 | the first request names seven levels, strictly best first, and includes every feature level |
| Direct3D.InputLayout | Platform/Windows/helloengine_d3d.cpp:93-98 | two elements, POSITION at byte 0 and COLOR right after it at byte 12, both within one vertex |
| Release.ReleaseOrder | Platform/Windows/helloengine_d3d.cpp:211-221 | Discard releases eight distinct slots and covers every slot |
| Release.Step | Platform/Windows/helloengine_d3d.cpp:41-45 | the calls of one SafeRelease: one Release of the held handle, tagged with its slot, or none when the slot is null |
| Release.Released | Platform/Windows/helloengine_d3d.cpp:211-221 | the globals after SafeRelease of each slot of an order in turn: each slot named is set to null in turn |
| Release.ReleaseCalls | Platform/Windows/helloengine_d3d.cpp:211-221 | the SafeRelease calls of an order make at most one Release per slot named |
| Release.SafeReleaseOfNull | Platform/Windows/helloengine_d3d.cpp:39-46 | SafeRelease makes no call exactly when the slot is null; then it changes nothing; a second SafeRelease of the same slot releases nothing |
| Release.ReleasedNullsOrder | Platform/Windows/helloengine_d3d.cpp:211-221 | after releasing an order, every slot named is null and every other slot keeps its handle |
| Release.ReleasesOnlyHeld | Platform/Windows/helloengine_d3d.cpp:39-46 | every call made is a Release of a handle held in one of the slots named, tagged with that slot |
| Release.ReleaseCallsEmpty | Platform/Windows/helloengine_d3d.cpp:211-221 | releasing makes no call if and only if every slot named is already null |
| Release.ReleasedExactlyOnce | Platform/Windows/helloengine_d3d.cpp:211-221 | a handle is released once if it is held in a named slot, and not at all otherwise |
| Release.ReleaseCallsFollowOrder | Platform/Windows/helloengine_d3d.cpp:211-221 | with no slot named twice, the Release calls are one per held slot, in the order given, each releasing that slot's handle |
| Release.DiscardReleaseSequence | Platform/Windows/helloengine_d3d.cpp:211-221 | from a full set of handles, Discard releases all eight in the order layout, VS, PS, vertex buffer, swapchain, RT view, device, context |
| Release.DiscardChain | Platform/Windows/helloengine_d3d.cpp:213-220 | the eight SafeRelease calls of Discard, composed, leave every global null and make the calls ReleaseCalls gives for ReleaseOrder |
| Release.DiscardLeavesNothing | Platform/Windows/helloengine_d3d.cpp:211-221 | after Discard every global is null, whatever was held before |
| Release.DiscardIdempotent | Platform/Windows/helloengine_d3d.cpp:211-221 | a Discard of all-null globals makes no call and leaves them null, so a second Discard does nothing |
| Direct3D.VertexBufferByteWidth | Platform/Windows/helloengine_d3d.cpp:119 | the buffer's ByteWidth: three vertices of sizeof(VERTEX) = 12 + 16 bytes each, 84 |
| Creation.SwapChainFor | Platform/Windows/helloengine_d3d.cpp:143-150 | the swapchain description is 960 by 480 and outputs to the window being painted |
| Creation.ScreenViewport | Platform/Windows/helloengine_d3d.cpp:67-72 | the viewport starts at the origin and is 960 by 480, the size of the swapchain buffer |
| Creation.FinalStatus | Platform/Windows/helloengine_d3d.cpp:170-198 | the value of the inner `hr` after the requests: the retry's status when the first answered E_INVALIDARG, the first call's status otherwise |
| Creation.SetupTrace | Platform/Windows/helloengine_d3d.cpp:200-206 | the four setup steps in their order: render target, viewport (0, 0, 960, 480), pipeline with the two-element layout, a vertex buffer of three vertices |
| Creation.CreationTrace | Platform/Windows/helloengine_d3d.cpp:137-206 | creation makes one request, or two when the first answers E_INVALIDARG, then four setup steps when the final status is S_OK; the request is for the 960x480 swapchain of the window; the viewport covers that buffer from the origin; the vertex buffer holds exactly three vertices |
| Creation.FeatureLevelNegotiation | Platform/Windows/helloengine_d3d.cpp:155-198 | the first request names all seven levels; a second request is made if and only if the first answered E_INVALIDARG, and it names only the reported level |
| Creation.SetupOrder | Platform/Windows/helloengine_d3d.cpp:200-206 | the setup steps run if and only if the final status is S_OK, in the order render target, viewport, pipeline, geometry |
| Frame.FrameTrace | Platform/Windows/helloengine_d3d.cpp:223-243 | one frame is five calls: clear the render target; bind one vertex buffer at slot 0 with stride sizeof(VERTEX) and offset 0; select triangle lists; draw 3 vertices from vertex 0, which fill the buffer exactly; present with no sync interval and no flags |
| HelloEngine.Renderer.constructor | Platform/Windows/helloengine_d3d.cpp:20-30 | the program starts with every global null and no call made |
| HelloEngine.Renderer.SafeRelease | Platform/Windows/helloengine_d3d.cpp:38-46 | the slot becomes null and nothing else changes; the log gains one Release of the held handle, or nothing if the slot was null |
| HelloEngine.Renderer.DiscardGraphicsResources | Platform/Windows/helloengine_d3d.cpp:211-221 | afterwards all eight globals are null and the invariant holds; the log gains exactly the Release calls of ReleaseOrder from the old globals |
| HelloEngine.Renderer.D3D11CreateDeviceAndSwapChain | Platform/Windows/helloengine_d3d.cpp:170-182 | the call is logged with its levels and description; its status is the backend's; on S_OK the swapchain, device and context are fresh, otherwise all three are null |
| HelloEngine.Renderer.CreateRenderTarget | Platform/Windows/helloengine_d3d.cpp:48-60 | needs the swapchain, device and context; the view exists exactly when the backend created it, and only the view and the log change |
| HelloEngine.Renderer.SetViewPort | Platform/Windows/helloengine_d3d.cpp:62-73 | needs the context; logs the viewport (0, 0, 960, 480) and changes no global |
| HelloEngine.Renderer.InitPipiline | Platform/Windows/helloengine_d3d.cpp:76-103 | needs the device and context; each shader and the layout exists exactly when the backend created it; logs the two-element input layout |
| HelloEngine.Renderer.InitGraphics | Platform/Windows/helloengine_d3d.cpp:106-130 | needs the device and context; the vertex buffer exists exactly when the backend created it; logs a buffer of three vertices |
| HelloEngine.Renderer.CreateDevice | Platform/Windows/helloengine_d3d.cpp:137-206 | with no swapchain: the final status is the retry's on E_INVALIDARG and the first call's otherwise; the log gains exactly CreationTrace; on S_OK the device objects are fresh and each setup object exists exactly when the backend created it; on failure all globals stay null |
| HelloEngine.Renderer.CreateGraphicsResources | Platform/Windows/helloengine_d3d.cpp:132-209 | always returns S_OK; with a swapchain it makes no call and changes no global; without one it makes the creation calls and has their effects, as CreateDevice states |
| HelloEngine.Renderer.CreateGraphicsResourcesChecked | Platform/Windows/helloengine_d3d.cpp:132-209 | corrected creation: returns S_OK if and only if a swapchain exists afterwards, and otherwise returns the final creation status |
| HelloEngine.Renderer.RenderFrame | Platform/Windows/helloengine_d3d.cpp:223-243 | needs the context and the swapchain; changes no global; the log gains exactly FrameTrace |
| HelloEngine.Renderer.WindowProc | Platform/Windows/helloengine_d3d.cpp:299-344 | WM_CREATE returns 0 and does nothing. WM_PAINT creates, then renders, and dereferences a null context when creation failed. WM_SIZE discards only when a swapchain exists. WM_DESTROY discards, then posts quit(0). WM_DISPLAYCHANGE only invalidates the window. Other messages go to DefWindowProc, whose result is returned |
| HelloEngine.Renderer.PaintChecked | Platform/Windows/helloengine_d3d.cpp:308-314 | corrected paint: never dereferences null; returns 0 if and only if a swapchain exists; renders only after a successful creation, otherwise reports the creation status |
| HelloEngine.FailedCreationStillReportsOk | Platform/Windows/helloengine_d3d.cpp:132-209 | with both device requests failing (the first answers E_INVALIDARG, the retry E_FAIL), the as-written creation returns S_OK and no swapchain exists |
| HelloEngine.FailedCreationReported | Platform/Windows/helloengine_d3d.cpp:132-209 | with the same answers, the corrected creation returns E_FAIL |
| HelloEngine.PaintWithoutDeviceDereferencesNull | Platform/Windows/helloengine_d3d.cpp:308-314 | the first WM_PAINT with no device available dereferences a null device context |
| HelloEngine.PaintCheckedWithoutDevice | Platform/Windows/helloengine_d3d.cpp:308-314 | with the same answers, the corrected paint returns the status E_FAIL |
| HelloEngine.WindowLifetime | Platform/Windows/helloengine_d3d.cpp:299-344 | paint, resize, paint, destroy all return 0 and leave no handle held |

## Left out

- `WinMain` is not part of this model: window-class registration, window creation and the `GetMessage`/`DispatchMessage` loop are operating-system plumbing. Messages are given to `WindowProc` as numbers.
- `Platform/Windows/helloengine_win.c`, `Framework/Common/main.cpp` and `Framework/Common/BaseApplication.hpp` are not part of this model. They hold window boilerplate, a loop driver and declarations.
- `wParam` and `lParam` are not modelled. No branch of the window procedure reads them; they are only passed on to `DefWindowProc`, whose result is a parameter.
- Direct3D and DXGI internals are opaque backend steps:
  - the swapchain description is reduced to its width, height and window; format, refresh rate, sample count, windowed mode and flags are not modelled;
  - reference counting of the back buffer;
  - the shader blobs read from files;
  - the Map/copy/Unmap of the vertex data;
  - the Set and bind calls inside the setup steps.
- Failure of `GetBuffer`, `D3DReadFileToBlob` or `Map` inside the setup steps is not modelled. In the source such a failure dereferences an uninitialised or null pointer. The model represents each setup step only by whether its object was created.
- Floating-point content is opaque: vertex positions and colours, the clear colour, and the viewport stored as `FLOAT` (the model keeps the viewport as whole numbers).
- `HelloEngine.Renderer.D3D11CreateDeviceAndSwapChain`: a failed call is assumed to leave its out-pointers null. Direct3D does not promise this. Under the model's invariant the pointers are already null when creation runs.
- `Creation.CreationTrace`: the level named by the retry is `FeatureLevelSupported`, which is declared without an initial value and is written only by the first call. If that call rejects the list with E_INVALIDARG without writing it, the retry names an indeterminate value. The model takes the level as a backend parameter of type `FeatureLevel`, so it always is one of the seven valid levels; the indeterminate case is not modelled.
- HelloEngine.Renderer.InitGraphics: when `CreateBuffer` fails (`created` false), the source goes on to call `Map` on the null `g_pVBuffer` and then copies through `ms.pData`, which nothing has set. So that path does not finish normally in the source. The model only nulls the buffer, logs the step and returns, and a WM_PAINT after it renders and returns 0. The model's continuation after a failed vertex-buffer creation is therefore not the source's. The other setup failures it models pass null objects to `VSSetShader`, `PSSetShader`, `IASetInputLayout` or `OMSetRenderTargets`, and they dereference nothing.
- `HelloEngine.Renderer.RenderFrame`: the requirement covers only the two pointers it dereferences, the context and the swapchain. The render-target view and the vertex buffer are passed to Direct3D as values, and they may be null when a setup step failed.
- `HelloEngine.Renderer.WindowProc`: the dereference of a null device context is modelled as the `NullDereference` outcome. The process's behaviour after that point is not modelled.
- Device-lost recovery, rollback of a partial creation, and recording of the granted feature level are not modelled, because the source does none of them.

## Findings

| source | as written | input that shows it | evidently intended | confidence | as-written member | corrected member |
|---|---|---|---|---|---|---|
| Platform/Windows/helloengine_d3d.cpp:132-209 | the status of device creation goes into the `hr` declared at line 167, which shadows the `hr` returned at line 208, so the function returns S_OK always | no swapchain; the first creation call answers E_INVALIDARG and the retry answers E_FAIL: S_OK is returned and no swapchain exists | return the status of the last creation call | not executed | HelloEngine.FailedCreationStillReportsOk | HelloEngine.Renderer.CreateGraphicsResourcesChecked |
| Platform/Windows/helloengine_d3d.cpp:308-314 | WM_PAINT calls RenderFrame whatever creation did, and RenderFrame dereferences `g_pDevcon` | first WM_PAINT while no device can be created: `g_pDevcon` is null at line 226 | render only after a successful creation, and report the failure otherwise | not executed | HelloEngine.PaintWithoutDeviceDereferencesNull | HelloEngine.Renderer.PaintChecked |
