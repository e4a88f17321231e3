/**
  The Direct3D 11 sample window: its eight global handles, the lazy
  creation and the discard of the graphics resources, one frame's
  rendering and the window procedure that drives them.
 */
module HelloEngine {
  import opened Resources
  import opened Direct3D
  import Release
  import Creation
  import Frame

  /** What a window-procedure invocation comes to: its LRESULT, or a null pointer dereference. */
  datatype Outcome = Return(lresult: int) | NullDereference

  /** The window messages WindowProc handles itself (winuser.h). */
  const WM_CREATE: nat := 0x0001
  const WM_DESTROY: nat := 0x0002
  const WM_SIZE: nat := 0x0005
  const WM_PAINT: nat := 0x000F
  const WM_DISPLAYCHANGE: nat := 0x007E

  /** Whether WindowProc answers `message` itself rather than passing it to DefWindowProc. */
  predicate Handled(message: nat)
    ensures Handled(message) ==> message == WM_CREATE || message == WM_PAINT || message == WM_SIZE ||
                                 message == WM_DESTROY || message == WM_DISPLAYCHANGE
    ensures !Handled(message) ==> message != WM_CREATE && message != WM_PAINT && message != WM_SIZE &&
                                  message != WM_DESTROY && message != WM_DISPLAYCHANGE
  {
    message in {WM_CREATE, WM_PAINT, WM_SIZE, WM_DESTROY, WM_DISPLAYCHANGE}
  }

  /** The process-wide state of the sample: the eight global handles and a log of backend calls. */
  class Renderer {
    var swapchain: Handle?
    var dev: Handle?
    var devcon: Handle?
    var rtView: Handle?
    var layout: Handle?
    var vs: Handle?
    var ps: Handle?
    var vBuffer: Handle?

    /** Every call made into Direct3D, DXGI or the window system, oldest first. */
    ghost var log: seq<Call>

    /** The eight globals as one value. */
    function State(): Handles
      reads this
    {
      Handles(swapchain, dev, devcon, rtView, layout, vs, ps, vBuffer)
    }

    /**
      The invariant every operation keeps: device, context and swapchain are
      created and discarded together, and nothing else is held without them.
     */
    ghost predicate Valid()
      reads this
    {
      (swapchain == null <==> dev == null) &&
      (swapchain == null <==> devcon == null) &&
      (swapchain == null ==>
         rtView == null && layout == null && vs == null && ps == null && vBuffer == null)
    }

    /** After a successful creation: the device objects exist, and each setup object exactly when its creation succeeded. */
    ghost predicate CreatedWith(setup: SetupReplies)
      reads this
    {
      swapchain != null && dev != null && devcon != null &&
      (rtView != null <==> setup.rtView) &&
      (vs != null <==> setup.vs) && (ps != null <==> setup.ps) &&
      (layout != null <==> setup.layout) &&
      (vBuffer != null <==> setup.vBuffer)
    }

    /** The globals at program start: all null, nothing called yet. */
    constructor ()
      ensures Valid() && State() == NoHandles() && log == []
    {
      swapchain, dev, devcon, rtView := null, null, null, null;
      layout, vs, ps, vBuffer := null, null, null, null;
      log := [];
    }

    /** A write through a pointer to the global named by `s`. */
    method Store(s: Slot, h: Handle?)
      modifies this
      ensures State() == old(State()).Set(s, h)
      ensures log == old(log)
    {
      match s
      case Swapchain => swapchain := h;
      case Dev => dev := h;
      case Devcon => devcon := h;
      case RTView => rtView := h;
      case Layout => layout := h;
      case VS => vs := h;
      case PS => ps := h;
      case VBuffer => vBuffer := h;
    }

    /** Release the handle in slot `s`, if any, and null the slot. */
    method SafeRelease(s: Slot)
      modifies this
      ensures State() == old(State()).Set(s, null)
      ensures log == old(log) + Release.Step(old(State()), s)
    {
      var h := State().Get(s);
      if h != null {
        log := log + [Release(s, h)];
        Store(s, null);
      } else {
        SameSlotsSameHandles(State().Set(s, null), State());
      }
    }

    /** Release every global, pipeline objects first and the device context last. */
    method DiscardGraphicsResources()
      modifies this
      ensures Valid()
      ensures State() == NoHandles()
      ensures State() == Release.Released(old(State()), Release.ReleaseOrder())
      ensures log == old(log) + Release.ReleaseCalls(old(State()), Release.ReleaseOrder())
    {
      ghost var g0, t0 := State(), log;
      SafeRelease(Layout);
      ghost var g1, t1 := State(), log;
      SafeRelease(VS);
      ghost var g2, t2 := State(), log;
      SafeRelease(PS);
      ghost var g3, t3 := State(), log;
      SafeRelease(VBuffer);
      ghost var g4, t4 := State(), log;
      SafeRelease(Swapchain);
      ghost var g5, t5 := State(), log;
      SafeRelease(RTView);
      ghost var g6, t6 := State(), log;
      SafeRelease(Dev);
      ghost var g7, t7 := State(), log;
      SafeRelease(Devcon);
      ghost var g8, t8 := State(), log;
      Release.DiscardChain(g0, t0, g1, g2, g3, g4, g5, g6, g7, g8, t1, t2, t3, t4, t5, t6, t7, t8);
    }

    /** D3D11CreateDeviceAndSwapChain: on success, fresh device, context and swapchain; on failure, none. */
    method D3D11CreateDeviceAndSwapChain(levels: seq<FeatureLevel>, desc: SwapChainDesc, answer: HResult)
      returns (hr: HResult)
      modifies this`swapchain, this`dev, this`devcon, this`log
      ensures hr == answer
      ensures log == old(log) + [CreateDeviceAndSwapChain(levels, desc)]
      ensures hr == S_OK ==> swapchain != null && dev != null && devcon != null
      ensures hr == S_OK ==> fresh(swapchain) && fresh(dev) && fresh(devcon)
      ensures hr != S_OK ==> swapchain == null && dev == null && devcon == null
    {
      log := log + [CreateDeviceAndSwapChain(levels, desc)];
      hr := answer;
      if hr == S_OK {
        swapchain := new Handle();
        dev := new Handle();
        devcon := new Handle();
      } else {
        swapchain, dev, devcon := null, null, null;
      }
    }

    /** CreateRenderTarget: a view of the swapchain's back buffer, bound as the output. */
    method CreateRenderTarget(created: bool)
      requires swapchain != null && dev != null && devcon != null
      modifies this`rtView, this`log
      ensures (rtView != null) == created
      ensures created ==> fresh(rtView)
      ensures log == old(log) + [RenderTargetStep]
    {
      if created {
        rtView := new Handle();
      } else {
        rtView := null;
      }
      log := log + [RenderTargetStep];
    }

    /** SetViewPort: one viewport the size of the screen. */
    method SetViewPort()
      requires devcon != null
      modifies this`log
      ensures log == old(log) + [ViewportStep(Creation.ScreenViewport())]
    {
      var viewport := Viewport(0, 0, SCREEN_WIDTH, SCREEN_HEIGHT);
      log := log + [ViewportStep(viewport)];
    }

    /** InitPipiline: the two shader objects and the input layout, each bound once created. */
    method InitPipiline(vsCreated: bool, psCreated: bool, layoutCreated: bool)
      requires dev != null && devcon != null
      modifies this`vs, this`ps, this`layout, this`log
      ensures (vs != null) == vsCreated && (vsCreated ==> fresh(vs))
      ensures (ps != null) == psCreated && (psCreated ==> fresh(ps))
      ensures (layout != null) == layoutCreated && (layoutCreated ==> fresh(layout))
      ensures log == old(log) + [PipelineStep(InputLayout())]
    {
      vs, ps, layout := null, null, null;
      if vsCreated {
        vs := new Handle();
      }
      if psCreated {
        ps := new Handle();
      }
      if layoutCreated {
        layout := new Handle();
      }
      log := log + [PipelineStep(InputLayout())];
    }

    /** InitGraphics: a CPU-writable vertex buffer holding the triangle. */
    method InitGraphics(created: bool)
      requires dev != null && devcon != null
      modifies this`vBuffer, this`log
      ensures (vBuffer != null) == created && (created ==> fresh(vBuffer))
      ensures log == old(log) + [GeometryStep(VertexBufferByteWidth())]
    {
      vBuffer := null;
      if created {
        vBuffer := new Handle();
      }
      log := log + [GeometryStep(VertexSize() * TRIANGLE_VERTICES)];
    }

    /**
      CreateGraphicsResources as written. With a swapchain in place it does
      nothing. Otherwise it asks for a device supporting any of the seven
      feature levels, asks again for only the reported level if the first
      call answered E_INVALIDARG, and runs the four setup steps if the last
      answer was S_OK. The status of the creation calls lands in a second
      `hr` declared inside the block, so the function reports S_OK whatever
      happened.
     */
    method CreateGraphicsResources(hWnd: Hwnd, r: Replies) returns (hr: HResult)
      requires Valid()
      modifies this
      ensures Valid()
      ensures hr == S_OK
      ensures old(swapchain) != null ==> State() == old(State()) && log == old(log)
      ensures old(swapchain) == null ==> log == old(log) + Creation.CreationTrace(hWnd, r)
      ensures old(swapchain) == null && Creation.FinalStatus(r) == S_OK ==>
                CreatedWith(r.setup) && FreshHandles()
      ensures old(swapchain) == null && Creation.FinalStatus(r) != S_OK ==> State() == NoHandles()
    {
      hr := S_OK;
      if swapchain == null {
        var hr := CreateDevice(hWnd, r);
      }
    }

    /**
      CreateGraphicsResources with the inner declaration of `hr` removed:
      the caller learns the status of the device creation.
     */
    method CreateGraphicsResourcesChecked(hWnd: Hwnd, r: Replies) returns (hr: HResult)
      requires Valid()
      modifies this
      ensures Valid()
      ensures hr == S_OK <==> swapchain != null
      ensures old(swapchain) != null ==> hr == S_OK && State() == old(State()) && log == old(log)
      ensures old(swapchain) == null ==> hr == Creation.FinalStatus(r) && log == old(log) + Creation.CreationTrace(hWnd, r)
      ensures old(swapchain) == null && hr == S_OK ==> CreatedWith(r.setup) && FreshHandles()
      ensures old(swapchain) == null && hr != S_OK ==> State() == NoHandles()
    {
      hr := S_OK;
      if swapchain == null {
        hr := CreateDevice(hWnd, r);
      }
    }

    /** Every handle now held was allocated by the current call. */
    twostate predicate FreshHandles()
      reads this
    {
      fresh(swapchain) && fresh(dev) && fresh(devcon) &&
      (rtView != null ==> fresh(rtView)) && (vs != null ==> fresh(vs)) &&
      (ps != null ==> fresh(ps)) && (layout != null ==> fresh(layout)) &&
      (vBuffer != null ==> fresh(vBuffer))
    }

    /** The block of CreateGraphicsResources run when the swapchain is null; returns the status of the last creation call. */
    method CreateDevice(hWnd: Hwnd, r: Replies) returns (hr: HResult)
      requires Valid() && swapchain == null
      modifies this
      ensures Valid()
      ensures hr == Creation.FinalStatus(r)
      ensures log == old(log) + Creation.CreationTrace(hWnd, r)
      ensures hr == S_OK ==> CreatedWith(r.setup) && FreshHandles()
      ensures hr != S_OK ==> State() == NoHandles()
    {
      var scd := SwapChainDesc(SCREEN_WIDTH, SCREEN_HEIGHT, hWnd);
      var featureLevels := [Level11_1, Level11_0, Level10_1, Level10_0, Level9_3, Level9_2, Level9_1];
      // written by the first call through its feature-level out-pointer
      var featureLevelSupported := r.reported;
      hr := D3D11CreateDeviceAndSwapChain(featureLevels, scd, r.first);
      if hr == E_INVALIDARG {
        hr := D3D11CreateDeviceAndSwapChain([featureLevelSupported], scd, r.retry);
      }
      if hr == S_OK {
        CreateRenderTarget(r.setup.rtView);
        SetViewPort();
        InitPipiline(r.setup.vs, r.setup.ps, r.setup.layout);
        InitGraphics(r.setup.vBuffer);
      }
    }

    /**
      RenderFrame: clear, bind the vertex buffer, draw the triangle and
      present. It dereferences the device context and the swapchain, so
      both must exist; it changes no global.
     */
    method RenderFrame()
      requires devcon != null && swapchain != null
      modifies this`log
      ensures State() == old(State())
      ensures log == old(log) + Frame.FrameTrace(rtView, vBuffer)
    {
      log := log + [ClearRenderTargetView(rtView)];
      var stride, offset := VertexSize(), 0;
      log := log + [SetVertexBuffers(0, 1, vBuffer, stride, offset)];
      log := log + [SetPrimitiveTopology(TriangleList)];
      log := log + [Draw(3, 0)];
      log := log + [Present(0, 0)];
    }

    /**
      WindowProc as written. WM_PAINT creates the resources if needed and
      renders, even when the creation failed and the device context is null;
      that dereference is the NullDereference outcome. `r` are the backend's
      answers to a creation, `defResult` what DefWindowProc would return.
     */
    method WindowProc(hWnd: Hwnd, message: nat, r: Replies, defResult: int) returns (o: Outcome)
      requires Valid()
      modifies this
      ensures Valid()
      ensures message == WM_CREATE ==> o == Return(0) && State() == old(State()) && log == old(log)
      ensures message == WM_PAINT && old(swapchain) != null ==>
                o == Return(0) && State() == old(State()) &&
                log == old(log) + Frame.FrameTrace(rtView, vBuffer)
      ensures message == WM_PAINT && old(swapchain) == null && Creation.FinalStatus(r) == S_OK ==>
                o == Return(0) && CreatedWith(r.setup) &&
                log == old(log) + Creation.CreationTrace(hWnd, r) + Frame.FrameTrace(rtView, vBuffer)
      ensures message == WM_PAINT && old(swapchain) == null && Creation.FinalStatus(r) != S_OK ==>
                o == NullDereference && State() == NoHandles() &&
                log == old(log) + Creation.CreationTrace(hWnd, r)
      ensures message == WM_SIZE && old(swapchain) != null ==>
                o == Return(0) && State() == NoHandles() &&
                log == old(log) + Release.ReleaseCalls(old(State()), Release.ReleaseOrder())
      ensures message == WM_SIZE && old(swapchain) == null ==>
                o == Return(0) && State() == old(State()) && log == old(log)
      ensures message == WM_DESTROY ==>
                o == Return(0) && State() == NoHandles() &&
                log == old(log) + Release.ReleaseCalls(old(State()), Release.ReleaseOrder()) + [PostQuitMessage(0)]
      ensures message == WM_DISPLAYCHANGE ==>
                o == Return(0) && State() == old(State()) && log == old(log) + [InvalidateRect(hWnd)]
      ensures !Handled(message) ==>
                o == Return(defResult) && State() == old(State()) && log == old(log) + [DefWindowProc(message)]
    {
      var result: int := 0;
      var wasHandled := false;
      if message == WM_CREATE {
        wasHandled := true;
      } else if message == WM_PAINT {
        var hr := CreateGraphicsResources(hWnd, r);
        result := hr as int;
        if devcon == null {
          return NullDereference;
        }
        RenderFrame();
        wasHandled := true;
      } else if message == WM_SIZE {
        if swapchain != null {
          DiscardGraphicsResources();
        }
        wasHandled := true;
      } else if message == WM_DESTROY {
        DiscardGraphicsResources();
        log := log + [PostQuitMessage(0)];
        wasHandled := true;
      } else if message == WM_DISPLAYCHANGE {
        log := log + [InvalidateRect(hWnd)];
        wasHandled := true;
      }
      if !wasHandled {
        log := log + [DefWindowProc(message)];
        result := defResult;
      }
      o := Return(result);
    }

    /** The WM_PAINT branch with the status checked: render only once a device exists. */
    method PaintChecked(hWnd: Hwnd, r: Replies) returns (o: Outcome)
      requires Valid()
      modifies this
      ensures Valid()
      ensures o.Return?
      ensures o.lresult == 0 <==> swapchain != null
      ensures old(swapchain) == null && Creation.FinalStatus(r) != S_OK ==>
                o == Return(Creation.FinalStatus(r) as int) && State() == NoHandles() &&
                log == old(log) + Creation.CreationTrace(hWnd, r)
      ensures old(swapchain) != null ==>
                o == Return(0) && State() == old(State()) &&
                log == old(log) + Frame.FrameTrace(rtView, vBuffer)
      ensures old(swapchain) == null && Creation.FinalStatus(r) == S_OK ==>
                o == Return(0) && CreatedWith(r.setup) &&
                log == old(log) + Creation.CreationTrace(hWnd, r) + Frame.FrameTrace(rtView, vBuffer)
    {
      var hr := CreateGraphicsResourcesChecked(hWnd, r);
      if hr == S_OK {
        RenderFrame();
      }
      o := Return(hr as int);
    }
  }

  /**
    Backend answers under which both device-creation requests fail: the first
    answers E_INVALIDARG, so the retry is made, and the retry answers E_FAIL.
   */
  function DeviceUnavailable(): (r: Replies)
    ensures r.first == E_INVALIDARG && Creation.FinalStatus(r) == E_FAIL
  {
    Replies(E_INVALIDARG, Level11_0, E_FAIL, SetupReplies(true, true, true, true, true))
  }

  /**
    The shadowed status: with no device available, CreateGraphicsResources
    as written still answers S_OK, and no swapchain exists afterwards.
   */
  method FailedCreationStillReportsOk() returns (hr: HResult, created: bool)
    ensures hr == S_OK && !created
  {
    var renderer := new Renderer();
    hr := renderer.CreateGraphicsResources(1, DeviceUnavailable());
    created := renderer.swapchain != null;
  }

  /** With the status checked, the same failure is reported and agrees with the missing swapchain. */
  method FailedCreationReported() returns (hr: HResult, created: bool)
    ensures hr == E_FAIL && !created
  {
    var renderer := new Renderer();
    hr := renderer.CreateGraphicsResourcesChecked(1, DeviceUnavailable());
    created := renderer.swapchain != null;
  }

  /** The first WM_PAINT with no device available renders through a null device context. */
  method PaintWithoutDeviceDereferencesNull() returns (o: Outcome)
    ensures o == NullDereference
  {
    var renderer := new Renderer();
    o := renderer.WindowProc(1, WM_PAINT, DeviceUnavailable(), 0);
  }

  /** The checked paint answers the failure status instead of rendering. */
  method PaintCheckedWithoutDevice() returns (o: Outcome)
    ensures o == Return(E_FAIL as int)
  {
    var renderer := new Renderer();
    o := renderer.PaintChecked(1, DeviceUnavailable());
  }

  /**
    A window's life: paint creates everything and renders, resize discards,
    the next paint creates again, destroy discards and posts quit; afterwards
    no handle is held.
   */
  method WindowLifetime() returns (outcomes: seq<Outcome>, held: bool)
    ensures outcomes == [Return(0), Return(0), Return(0), Return(0)]
    ensures !held
  {
    var renderer := new Renderer();
    var ok := Replies(S_OK, Level11_0, S_OK, SetupReplies(true, true, true, true, true));
    var o1 := renderer.WindowProc(1, WM_PAINT, ok, 0);
    var o2 := renderer.WindowProc(1, WM_SIZE, ok, 0);
    var o3 := renderer.WindowProc(1, WM_PAINT, ok, 0);
    var o4 := renderer.WindowProc(1, WM_DESTROY, ok, 0);
    outcomes := [o1, o2, o3, o4];
    held := renderer.State() != NoHandles();
  }
}
