/**
  The opaque Direct3D backend as the sample sees it: status codes, the
  fixed configuration it passes in, the calls it makes (as entries of a
  call log) and the answers the backend gives (as parameters).
 */
module Direct3D {
  import opened Resources

  /** HRESULT: a signed 32-bit status code. */
  newtype HResult = x: int | -0x8000_0000 <= x < 0x8000_0000

  const S_OK: HResult := 0
  /** 0x80070057 read as a signed 32-bit value. */
  const E_INVALIDARG: HResult := -0x7FF8_FFA9
  /** 0x80004005 read as a signed 32-bit value. */
  const E_FAIL: HResult := -0x7FFF_BFFB

  /** The native window handle; opaque to the core. */
  type Hwnd = nat

  const SCREEN_WIDTH: nat := 960
  const SCREEN_HEIGHT: nat := 480

  /** D3D_FEATURE_LEVEL. */
  datatype FeatureLevel = Level11_1 | Level11_0 | Level10_1 | Level10_0 | Level9_3 | Level9_2 | Level9_1
  {
    /** The enumerator's numeric value in d3dcommon.h (0xb100 for 11_1, ...). */
    function Value(): nat {
      match this
      case Level11_1 => 0xb100
      case Level11_0 => 0xb000
      case Level10_1 => 0xa100
      case Level10_0 => 0xa000
      case Level9_3 => 0x9300
      case Level9_2 => 0x9200
      case Level9_1 => 0x9100
    }
  }

  /** The levels requested by the first device-creation attempt: every level, best first. */
  function FeatureLevels(): (r: seq<FeatureLevel>)
    ensures |r| == 7
    ensures forall i, j :: 0 <= i < j < |r| ==> r[i].Value() > r[j].Value()
    ensures forall l: FeatureLevel :: l in r
  {
    EveryLevelRequested();
    [Level11_1, Level11_0, Level10_1, Level10_0, Level9_3, Level9_2, Level9_1]
  }

  lemma EveryLevelRequested()
    ensures forall l: FeatureLevel :: l in [Level11_1, Level11_0, Level10_1, Level10_0, Level9_3, Level9_2, Level9_1]
  {
    forall l: FeatureLevel
      ensures l in [Level11_1, Level11_0, Level10_1, Level10_0, Level9_3, Level9_2, Level9_1]
    {
      match l
      case Level11_1 =>
      case Level11_0 =>
      case Level10_1 =>
      case Level10_0 =>
      case Level9_3 =>
      case Level9_2 =>
      case Level9_1 =>
    }
  }

  /** The fields of DXGI_SWAP_CHAIN_DESC the model keeps: buffer size and output window. */
  datatype SwapChainDesc = SwapChainDesc(width: nat, height: nat, outputWindow: Hwnd)

  /** D3D11_VIEWPORT; the values the sample stores are whole numbers. */
  datatype Viewport = Viewport(topLeftX: int, topLeftY: int, width: nat, height: nat)

  /** The only vertex format the sample names: three 32-bit floats. */
  datatype Format = R32G32B32Float

  function FormatSize(f: Format): nat {
    match f
    case R32G32B32Float => 12
  }

  /** D3D11_INPUT_ELEMENT_DESC without the fields that are the same for both elements. */
  datatype InputElement = InputElement(semantic: string, format: Format, alignedByteOffset: nat)

  datatype Topology = TriangleList

  /** sizeof(XMFLOAT3) and sizeof(XMFLOAT4). */
  const POSITION_SIZE: nat := 12
  const COLOR_SIZE: nat := 16

  /** sizeof(VERTEX): a position followed by a colour, no padding. */
  function VertexSize(): nat {
    POSITION_SIZE + COLOR_SIZE
  }

  /** Vertices in the static triangle. */
  const TRIANGLE_VERTICES: nat := 3

  /** ByteWidth of the vertex buffer. */
  function VertexBufferByteWidth(): nat {
    VertexSize() * TRIANGLE_VERTICES
  }

  /** The input layout passed to CreateInputLayout: position, then colour, packed. */
  function InputLayout(): (r: seq<InputElement>)
    ensures |r| == 2
    ensures r[0].semantic == "POSITION" && r[1].semantic == "COLOR"
    ensures r[0].alignedByteOffset == 0
    ensures r[1].alignedByteOffset == r[0].alignedByteOffset + FormatSize(r[0].format)
    ensures forall e :: e in r ==> e.alignedByteOffset + FormatSize(e.format) <= VertexSize()
  {
    [InputElement("POSITION", R32G32B32Float, 0), InputElement("COLOR", R32G32B32Float, 12)]
  }

  /** One call into Direct3D, DXGI or the window system, as recorded in the call log. */
  datatype Call =
    | CreateDeviceAndSwapChain(levels: seq<FeatureLevel>, desc: SwapChainDesc)
      /** CreateRenderTarget: GetBuffer, CreateRenderTargetView, OMSetRenderTargets. */
    | RenderTargetStep
      /** SetViewPort: RSSetViewports. */
    | ViewportStep(viewport: Viewport)
      /** InitPipiline: shader loading, CreateVertexShader, CreatePixelShader, the two Set calls,
          CreateInputLayout and IASetInputLayout. */
    | PipelineStep(layout: seq<InputElement>)
      /** InitGraphics: CreateBuffer and the Map/copy/Unmap of the triangle. */
    | GeometryStep(byteWidth: nat)
    | Release(slot: Slot, handle: Handle)
      /** Clearing to the fixed background colour. */
    | ClearRenderTargetView(view: Handle?)
    | SetVertexBuffers(startSlot: nat, numBuffers: nat, buffer: Handle?, stride: nat, offset: nat)
    | SetPrimitiveTopology(topology: Topology)
    | Draw(vertexCount: nat, startVertexLocation: nat)
    | Present(syncInterval: nat, flags: nat)
    | InvalidateRect(window: Hwnd)
    | PostQuitMessage(exitCode: int)
    | DefWindowProc(message: nat)

  /** Whether each setup creation call produced its object. */
  datatype SetupReplies = SetupReplies(rtView: bool, vs: bool, ps: bool, layout: bool, vBuffer: bool)

  /**
    The backend's answers to one creation: the status of the first
    D3D11CreateDeviceAndSwapChain call, the feature level it reports, the
    status of the retry (consulted only if there is one) and the setup outcomes.
   */
  datatype Replies = Replies(first: HResult, reported: FeatureLevel, retry: HResult, setup: SetupReplies)
}
