/**
  The graphics handles of the Direct3D sample: the eight process-wide
  interface pointers and a value that captures all of them at once.
 */
module Resources {

  /** A Direct3D/DXGI interface pointer. Only its identity matters to the model. */
  class Handle {
    constructor () {}
  }

  /** Names of the eight global handle variables (g_pSwapchain, g_pDev, ...). */
  datatype Slot = Swapchain | Dev | Devcon | RTView | Layout | VS | PS | VBuffer

  /** The contents of the eight global handle variables at one moment. */
  datatype Handles = Handles(
    swapchain: Handle?, dev: Handle?, devcon: Handle?, rtView: Handle?,
    layout: Handle?, vs: Handle?, ps: Handle?, vBuffer: Handle?)
  {
    /** The handle held in slot `s`. */
    function Get(s: Slot): Handle? {
      match s
      case Swapchain => swapchain
      case Dev => dev
      case Devcon => devcon
      case RTView => rtView
      case Layout => layout
      case VS => vs
      case PS => ps
      case VBuffer => vBuffer
    }

    /** Writing through a pointer to one global: slot `s` becomes `h`, the other seven keep their handles. */
    function Set(s: Slot, h: Handle?): (r: Handles)
      ensures r.Get(s) == h
      ensures forall t :: t != s ==> r.Get(t) == Get(t)
    {
      match s
      case Swapchain => this.(swapchain := h)
      case Dev => this.(dev := h)
      case Devcon => this.(devcon := h)
      case RTView => this.(rtView := h)
      case Layout => this.(layout := h)
      case VS => this.(vs := h)
      case PS => this.(ps := h)
      case VBuffer => this.(vBuffer := h)
    }
  }

  /** Every global null, as at program start. */
  function NoHandles(): (r: Handles)
    ensures forall s :: r.Get(s) == null
  {
    Handles(null, null, null, null, null, null, null, null)
  }

  /** Two snapshots that agree on every slot are equal. */
  lemma SameSlotsSameHandles(a: Handles, b: Handles)
    requires forall s :: a.Get(s) == b.Get(s)
    ensures a == b
  {
    assert a.Get(Swapchain) == b.Get(Swapchain) && a.Get(Dev) == b.Get(Dev);
    assert a.Get(Devcon) == b.Get(Devcon) && a.Get(RTView) == b.Get(RTView);
    assert a.Get(Layout) == b.Get(Layout) && a.Get(VS) == b.Get(VS);
    assert a.Get(PS) == b.Get(PS) && a.Get(VBuffer) == b.Get(VBuffer);
  }
}
