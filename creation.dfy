/**
  What CreateGraphicsResources asks of the backend when the swapchain is
  still null: one or two device-creation requests, then the four setup steps.
 */
module Creation {
  import opened Direct3D

  /** The swapchain description filled in before device creation. */
  function SwapChainFor(hWnd: Hwnd): (d: SwapChainDesc)
    ensures d.width == SCREEN_WIDTH && d.height == SCREEN_HEIGHT && d.outputWindow == hWnd
  {
    SwapChainDesc(SCREEN_WIDTH, SCREEN_HEIGHT, hWnd)
  }

  /** The viewport SetViewPort installs. */
  function ScreenViewport(): (v: Viewport)
    ensures v.topLeftX == 0 && v.topLeftY == 0
    ensures v.width == SCREEN_WIDTH && v.height == SCREEN_HEIGHT
  {
    Viewport(0, 0, SCREEN_WIDTH, SCREEN_HEIGHT)
  }

  /** The status left in the creation block's `hr`: the retry's if the first call said E_INVALIDARG. */
  function FinalStatus(r: Replies): HResult {
    if r.first == E_INVALIDARG then r.retry else r.first
  }

  /** The setup steps, in the order CreateGraphicsResources runs them. */
  function SetupTrace(): seq<Call> {
    [RenderTargetStep, ViewportStep(ScreenViewport()), PipelineStep(InputLayout()),
     GeometryStep(VertexBufferByteWidth())]
  }

  /** The calls the creation block makes, given the backend's answers. */
  function CreationTrace(hWnd: Hwnd, r: Replies): (t: seq<Call>)
    ensures |t| == 1 + (if r.first == E_INVALIDARG then 1 else 0) + (if FinalStatus(r) == S_OK then 4 else 0)
    ensures t[0] == CreateDeviceAndSwapChain(FeatureLevels(), SwapChainFor(hWnd))
    // when the setup runs, the viewport covers the whole swapchain buffer from the origin
    ensures FinalStatus(r) == S_OK ==>
              var vp := t[|t| - 3];
              vp.ViewportStep? && vp.viewport.topLeftX == 0 && vp.viewport.topLeftY == 0 &&
              vp.viewport.width == t[0].desc.width && vp.viewport.height == t[0].desc.height
    // and the vertex buffer is sized for exactly one triangle
    ensures FinalStatus(r) == S_OK ==> t[|t| - 1] == GeometryStep(TRIANGLE_VERTICES * VertexSize())
  {
    var desc := SwapChainFor(hWnd);
    [CreateDeviceAndSwapChain(FeatureLevels(), desc)]
    + (if r.first == E_INVALIDARG then [CreateDeviceAndSwapChain([r.reported], desc)] else [])
    + (if FinalStatus(r) == S_OK then SetupTrace() else [])
  }

  /** The feature-level lists of the device-creation requests in `t`, in order. */
  function DeviceRequests(t: seq<Call>): seq<seq<FeatureLevel>> {
    if t == [] then []
    else (if t[0].CreateDeviceAndSwapChain? then [t[0].levels] else []) + DeviceRequests(t[1..])
  }

  /** The setup-step entries of `t`, in order. */
  function SetupSteps(t: seq<Call>): seq<Call> {
    if t == [] then []
    else (if t[0].RenderTargetStep? || t[0].ViewportStep? || t[0].PipelineStep? || t[0].GeometryStep?
          then [t[0]] else []) + SetupSteps(t[1..])
  }

  /** The four setup entries are setup steps and not device-creation requests. */
  lemma SetupTraceEntries()
    ensures SetupSteps(SetupTrace()) == SetupTrace()
    ensures DeviceRequests(SetupTrace()) == []
  {
    var s := SetupTrace();
    assert s[1..] == [s[1], s[2], s[3]];
    assert s[1..][1..] == [s[2], s[3]];
    assert s[1..][1..][1..] == [s[3]];
    assert s[1..][1..][1..][1..] == [];
  }

  lemma {:induction false} DeviceRequestsAppend(a: seq<Call>, b: seq<Call>)
    ensures DeviceRequests(a + b) == DeviceRequests(a) + DeviceRequests(b)
    decreases |a|
  {
    if a != [] {
      assert (a + b)[1..] == a[1..] + b;
      DeviceRequestsAppend(a[1..], b);
    } else {
      assert a + b == b;
    }
  }

  lemma {:induction false} SetupStepsAppend(a: seq<Call>, b: seq<Call>)
    ensures SetupSteps(a + b) == SetupSteps(a) + SetupSteps(b)
    decreases |a|
  {
    if a != [] {
      assert (a + b)[1..] == a[1..] + b;
      SetupStepsAppend(a[1..], b);
    } else {
      assert a + b == b;
    }
  }

  /**
    Feature-level negotiation: the first request names all seven levels; a
    second request is made exactly when the first answered E_INVALIDARG, and
    it names only the level the first call reported.
   */
  lemma FeatureLevelNegotiation(hWnd: Hwnd, r: Replies)
    ensures DeviceRequests(CreationTrace(hWnd, r)) ==
              if r.first == E_INVALIDARG then [FeatureLevels(), [r.reported]] else [FeatureLevels()]
  {
    var desc := SwapChainFor(hWnd);
    var a := [CreateDeviceAndSwapChain(FeatureLevels(), desc)];
    var b := if r.first == E_INVALIDARG then [CreateDeviceAndSwapChain([r.reported], desc)] else [];
    var c := if FinalStatus(r) == S_OK then SetupTrace() else [];
    assert CreationTrace(hWnd, r) == a + b + c;
    DeviceRequestsAppend(a + b, c);
    DeviceRequestsAppend(a, b);
    SetupTraceEntries();
  }

  /**
    The setup steps run exactly when the final device-creation status is
    S_OK, and then in the order render target, viewport, pipeline, geometry.
   */
  lemma SetupOrder(hWnd: Hwnd, r: Replies)
    ensures SetupSteps(CreationTrace(hWnd, r)) == if FinalStatus(r) == S_OK then SetupTrace() else []
  {
    var desc := SwapChainFor(hWnd);
    var a := [CreateDeviceAndSwapChain(FeatureLevels(), desc)];
    var b := if r.first == E_INVALIDARG then [CreateDeviceAndSwapChain([r.reported], desc)] else [];
    var c := if FinalStatus(r) == S_OK then SetupTrace() else [];
    assert CreationTrace(hWnd, r) == a + b + c;
    SetupStepsAppend(a + b, c);
    SetupStepsAppend(a, b);
    SetupTraceEntries();
  }
}
