/**
  Releasing handles: what a sequence of SafeRelease calls does to the
  globals and which Release calls it makes.
 */
module Release {
  import opened Resources
  import opened Direct3D

  /** The order in which DiscardGraphicsResources releases the globals. */
  function ReleaseOrder(): (r: seq<Slot>)
    ensures |r| == 8
    ensures forall i, j :: 0 <= i < j < |r| ==> r[i] != r[j]
    ensures forall s: Slot :: s in r
  {
    EverySlotReleased();
    [Layout, VS, PS, VBuffer, Swapchain, RTView, Dev, Devcon]
  }

  lemma EverySlotReleased()
    ensures forall s: Slot :: s in [Layout, VS, PS, VBuffer, Swapchain, RTView, Dev, Devcon]
  {
    forall s: Slot ensures s in [Layout, VS, PS, VBuffer, Swapchain, RTView, Dev, Devcon] {
      match s
      case Layout =>
      case VS =>
      case PS =>
      case VBuffer =>
      case Swapchain =>
      case RTView =>
      case Dev =>
      case Devcon =>
    }
  }

  /** The calls one SafeRelease of slot `s` makes: a Release of the held handle, or none. */
  function Step(g: Handles, s: Slot): seq<Call> {
    if g.Get(s) != null then [Release(s, g.Get(s))] else []
  }

  /** The globals after SafeRelease of each slot of `order` in turn. */
  function Released(g: Handles, order: seq<Slot>): (r: Handles)
    decreases |order|
  {
    if order == [] then g else Released(g.Set(order[0], null), order[1..])
  }

  /** Releasing nulls exactly the slots named in `order`. */
  lemma {:induction false} ReleasedNullsOrder(g: Handles, order: seq<Slot>)
    ensures forall s :: s in order ==> Released(g, order).Get(s) == null
    ensures forall s :: s !in order ==> Released(g, order).Get(s) == g.Get(s)
    decreases |order|
  {
    if order != [] {
      ReleasedNullsOrder(g.Set(order[0], null), order[1..]);
      forall s | s in order && s != order[0] ensures s in order[1..] {
      }
    }
  }

  /** SafeRelease of a null slot makes no call and changes nothing; of a held slot, exactly one Release. */
  lemma SafeReleaseOfNull(g: Handles, s: Slot)
    ensures Step(g, s) == [] <==> g.Get(s) == null
    ensures g.Get(s) == null ==> g.Set(s, null) == g
    ensures Step(g.Set(s, null), s) == []
  {
    if g.Get(s) == null {
      SameSlotsSameHandles(g.Set(s, null), g);
    }
  }

  /** The Release calls made by SafeRelease of each slot of `order` in turn. */
  function ReleaseCalls(g: Handles, order: seq<Slot>): (t: seq<Call>)
    ensures |t| <= |order|
    decreases |order|
  {
    if order == [] then []
    else Step(g, order[0]) + ReleaseCalls(g.Set(order[0], null), order[1..])
  }

  /** Releasing one more slot extends the trace by that slot's Step. */
  lemma {:induction false} ReleaseCallsOneMore(g: Handles, done: seq<Slot>, s: Slot)
    ensures ReleaseCalls(g, done + [s]) == ReleaseCalls(g, done) + Step(Released(g, done), s)
    decreases |done|
  {
    if done == [] {
      assert done + [s] == [s];
      assert [s][1..] == [];
    } else {
      assert (done + [s])[0] == done[0];
      assert (done + [s])[1..] == done[1..] + [s];
      ReleaseCallsOneMore(g.Set(done[0], null), done[1..], s);
    }
  }

  /** Releasing one more slot nulls that slot and nothing else. */
  lemma {:induction false} ReleasedOneMore(g: Handles, done: seq<Slot>, s: Slot)
    ensures Released(g, done + [s]) == Released(g, done).Set(s, null)
    decreases |done|
  {
    if done == [] {
      assert done + [s] == [s];
      assert [s][1..] == [];
    } else {
      assert (done + [s])[0] == done[0];
      assert (done + [s])[1..] == done[1..] + [s];
      ReleasedOneMore(g.Set(done[0], null), done[1..], s);
    }
  }

  /** Only handles held in a named slot are released, each with the slot it was held in. */
  lemma {:induction false} ReleasesOnlyHeld(g: Handles, order: seq<Slot>)
    ensures forall c :: c in ReleaseCalls(g, order) ==>
              c.Release? && c.slot in order && g.Get(c.slot) == c.handle
    decreases |order|
  {
    if order != [] {
      var g' := g.Set(order[0], null);
      ReleasesOnlyHeld(g', order[1..]);
      assert ReleaseCalls(g, order) == Step(g, order[0]) + ReleaseCalls(g', order[1..]);
      forall c | c in ReleaseCalls(g', order[1..])
        ensures c.slot in order && g.Get(c.slot) == c.handle
      {
        assert c.slot != order[0];
      }
    }
  }

  /** The slots of `order` that hold a handle in `g`, in the order given. */
  function HeldSlots(g: Handles, order: seq<Slot>): seq<Slot> {
    if order == [] then []
    else (if g.Get(order[0]) != null then [order[0]] else []) + HeldSlots(g, order[1..])
  }

  ghost predicate Distinct(order: seq<Slot>) {
    forall i, j :: 0 <= i < j < |order| ==> order[i] != order[j]
  }

  /** Releasing makes no call exactly when every slot named is already null. */
  lemma {:induction false} ReleaseCallsEmpty(g: Handles, order: seq<Slot>)
    ensures ReleaseCalls(g, order) == [] <==> forall s :: s in order ==> g.Get(s) == null
    decreases |order|
  {
    if order != [] {
      var g' := g.Set(order[0], null);
      ReleaseCallsEmpty(g', order[1..]);
      if forall s :: s in order ==> g.Get(s) == null {
        assert g' == g by { SameSlotsSameHandles(g', g); }
        assert ReleaseCalls(g, order) == [];
      }
      if ReleaseCalls(g, order) == [] {
        forall s | s in order ensures g.Get(s) == null {
          if s != order[0] {
            assert s in order[1..];
          }
        }
      }
    }
  }

  /** Discard's k-th SafeRelease, as a step from the first k slots of ReleaseOrder to the first k + 1. */
  lemma DiscardStep(g: Handles, k: nat)
    requires k < |ReleaseOrder()|
    ensures var o := ReleaseOrder();
            ReleaseCalls(g, o[..k + 1]) == ReleaseCalls(g, o[..k]) + Step(Released(g, o[..k]), o[k]) &&
            Released(g, o[..k + 1]) == Released(g, o[..k]).Set(o[k], null)
  {
    var o := ReleaseOrder();
    assert o[..k + 1] == o[..k] + [o[k]];
    ReleaseCallsOneMore(g, o[..k], o[k]);
    ReleasedOneMore(g, o[..k], o[k]);
  }

  /** The Release calls of the first k SafeReleases of Discard. */
  function DoneCalls(g: Handles, k: nat): seq<Call>
    requires k <= |ReleaseOrder()|
  {
    ReleaseCalls(g, ReleaseOrder()[..k])
  }

  /** The globals after the first k SafeReleases of Discard. */
  function DoneState(g: Handles, k: nat): Handles
    requires k <= |ReleaseOrder()|
  {
    Released(g, ReleaseOrder()[..k])
  }

  /**
    One SafeRelease of Discard, from the state after the first k slots of
    ReleaseOrder (globals `st`, log `lg`) to the state after k + 1.
   */
  lemma DiscardAdvance(g: Handles, l: seq<Call>, k: nat, s: Slot, st: Handles, lg: seq<Call>, st': Handles, lg': seq<Call>)
    requires k < |ReleaseOrder()| && s == ReleaseOrder()[k]
    requires st == DoneState(g, k)
    requires lg == l + DoneCalls(g, k)
    requires st' == st.Set(s, null)
    requires lg' == lg + Step(st, s)
    ensures st' == DoneState(g, k + 1) && lg' == l + DoneCalls(g, k + 1)
  {
    DiscardStep(g, k);
  }

  /** The first four SafeRelease calls of Discard: layout, shaders and vertex buffer. */
  lemma DiscardPipelineHalf(g: Handles, l: seq<Call>, g0: Handles, t0: seq<Call>, g1: Handles, t1: seq<Call>, g2: Handles, t2: seq<Call>, g3: Handles, t3: seq<Call>, g4: Handles, t4: seq<Call>)
    requires g0 == DoneState(g, 0) && t0 == l + DoneCalls(g, 0)
    requires g1 == g0.Set(Layout, null) && t1 == t0 + Step(g0, Layout)
    requires g2 == g1.Set(VS, null) && t2 == t1 + Step(g1, VS)
    requires g3 == g2.Set(PS, null) && t3 == t2 + Step(g2, PS)
    requires g4 == g3.Set(VBuffer, null) && t4 == t3 + Step(g3, VBuffer)
    ensures g4 == DoneState(g, 4) && t4 == l + DoneCalls(g, 4)
  {
    DiscardAdvance(g, l, 0, Layout, g0, t0, g1, t1);
    DiscardAdvance(g, l, 1, VS, g1, t1, g2, t2);
    DiscardAdvance(g, l, 2, PS, g2, t2, g3, t3);
    DiscardAdvance(g, l, 3, VBuffer, g3, t3, g4, t4);
  }

  /** The last four SafeRelease calls of Discard: swapchain, render target, device and context. */
  lemma DiscardDeviceHalf(g: Handles, l: seq<Call>, g4: Handles, t4: seq<Call>, g5: Handles, t5: seq<Call>, g6: Handles, t6: seq<Call>, g7: Handles, t7: seq<Call>, g8: Handles, t8: seq<Call>)
    requires g4 == DoneState(g, 4) && t4 == l + DoneCalls(g, 4)
    requires g5 == g4.Set(Swapchain, null) && t5 == t4 + Step(g4, Swapchain)
    requires g6 == g5.Set(RTView, null) && t6 == t5 + Step(g5, RTView)
    requires g7 == g6.Set(Dev, null) && t7 == t6 + Step(g6, Dev)
    requires g8 == g7.Set(Devcon, null) && t8 == t7 + Step(g7, Devcon)
    ensures g8 == DoneState(g, 8) && t8 == l + DoneCalls(g, 8)
  {
    DiscardAdvance(g, l, 4, Swapchain, g4, t4, g5, t5);
    DiscardAdvance(g, l, 5, RTView, g5, t5, g6, t6);
    DiscardAdvance(g, l, 6, Dev, g6, t6, g7, t7);
    DiscardAdvance(g, l, 7, Devcon, g7, t7, g8, t8);
  }

  /**
    The eight SafeRelease calls of Discard, each given by its effect on the
    globals (g0 to g8) and on the call log (t0 to t8).
   */
  lemma DiscardChain(g0: Handles, t0: seq<Call>, g1: Handles, g2: Handles, g3: Handles, g4: Handles, g5: Handles, g6: Handles, g7: Handles, g8: Handles, t1: seq<Call>, t2: seq<Call>, t3: seq<Call>, t4: seq<Call>, t5: seq<Call>, t6: seq<Call>, t7: seq<Call>, t8: seq<Call>)
    requires g1 == g0.Set(Layout, null) && t1 == t0 + Step(g0, Layout)
    requires g2 == g1.Set(VS, null) && t2 == t1 + Step(g1, VS)
    requires g3 == g2.Set(PS, null) && t3 == t2 + Step(g2, PS)
    requires g4 == g3.Set(VBuffer, null) && t4 == t3 + Step(g3, VBuffer)
    requires g5 == g4.Set(Swapchain, null) && t5 == t4 + Step(g4, Swapchain)
    requires g6 == g5.Set(RTView, null) && t6 == t5 + Step(g5, RTView)
    requires g7 == g6.Set(Dev, null) && t7 == t6 + Step(g6, Dev)
    requires g8 == g7.Set(Devcon, null) && t8 == t7 + Step(g7, Devcon)
    ensures g8 == Released(g0, ReleaseOrder()) && g8 == NoHandles()
    ensures t8 == t0 + ReleaseCalls(g0, ReleaseOrder())
  {
    assert ReleaseOrder()[..0] == [];
    DiscardPipelineHalf(g0, t0, g0, t0, g1, t1, g2, t2, g3, t3, g4, t4);
    DiscardDeviceHalf(g0, t0, g4, t4, g5, t5, g6, t6, g7, t7, g8, t8);
    assert ReleaseOrder()[..8] == ReleaseOrder();
    DiscardLeavesNothing(g0);
  }

  /** Discard leaves every global null. */
  lemma DiscardLeavesNothing(g: Handles)
    ensures Released(g, ReleaseOrder()) == NoHandles()
  {
    ReleasedNullsOrder(g, ReleaseOrder());
    SameSlotsSameHandles(Released(g, ReleaseOrder()), NoHandles());
  }

  /** From all-null globals, Discard makes no call: discarding twice releases nothing the second time. */
  lemma DiscardIdempotent()
    ensures ReleaseCalls(NoHandles(), ReleaseOrder()) == []
    ensures Released(NoHandles(), ReleaseOrder()) == NoHandles()
  {
    ReleaseCallsEmpty(NoHandles(), ReleaseOrder());
    DiscardLeavesNothing(NoHandles());
  }

  /** Each handle held in a named slot is released exactly once; nothing else is released. */
  lemma {:induction false} ReleasedExactlyOnce(g: Handles, order: seq<Slot>, s: Slot, h: Handle)
    ensures multiset(ReleaseCalls(g, order))[Release(s, h)] ==
              if s in order && g.Get(s) == h then 1 else 0
    decreases |order|
  {
    if order != [] {
      var g' := g.Set(order[0], null);
      ReleasedExactlyOnce(g', order[1..], s, h);
      assert ReleaseCalls(g, order) == Step(g, order[0]) + ReleaseCalls(g', order[1..]);
      if s != order[0] {
        assert s in order <==> s in order[1..];
      }
    }
  }

  /** Setting a slot outside `order` does not change which slots of `order` are held. */
  lemma {:induction false} HeldSlotsFrame(g: Handles, s: Slot, h: Handle?, order: seq<Slot>)
    requires s !in order
    ensures HeldSlots(g.Set(s, h), order) == HeldSlots(g, order)
    decreases |order|
  {
    if order != [] {
      assert order[0] != s;
      HeldSlotsFrame(g, s, h, order[1..]);
    }
  }

  /** `t` releases the handles `g` holds in `slots`, one call per slot, in that order. */
  ghost predicate ReleasesOf(g: Handles, slots: seq<Slot>, t: seq<Call>) {
    |t| == |slots| &&
    forall i :: 0 <= i < |slots| ==> t[i].Release? && t[i].slot == slots[i] && t[i].handle == g.Get(slots[i])
  }

  /** With no slot named twice, the Release calls follow `order`, one per held slot. */
  lemma {:induction false} ReleaseCallsFollowOrder(g: Handles, order: seq<Slot>)
    requires Distinct(order)
    ensures ReleasesOf(g, HeldSlots(g, order), ReleaseCalls(g, order))
    decreases |order|
  {
    if order != [] {
      var g' := g.Set(order[0], null);
      var rest := order[1..];
      assert Distinct(rest) by {
        forall i, j | 0 <= i < j < |rest| ensures rest[i] != rest[j] {
          assert rest[i] == order[i + 1] && rest[j] == order[j + 1];
        }
      }
      assert order[0] !in rest by {
        forall k | 0 <= k < |rest| ensures rest[k] != order[0] {
          assert rest[k] == order[k + 1];
        }
      }
      ReleaseCallsFollowOrder(g', rest);
      HeldSlotsFrame(g, order[0], null, rest);
    }
  }

  /** When every named slot holds a handle, all of them are held, in order. */
  lemma {:induction false} HeldSlotsAllHeld(g: Handles, order: seq<Slot>)
    requires forall s :: s in order ==> g.Get(s) != null
    ensures HeldSlots(g, order) == order
    decreases |order|
  {
    if order != [] {
      assert forall s :: s in order[1..] ==> s in order;
      HeldSlotsAllHeld(g, order[1..]);
    }
  }

  /** From a full set of handles, Discard releases all eight, one call each, in ReleaseOrder. */
  lemma DiscardReleaseSequence(g: Handles)
    requires forall s :: g.Get(s) != null
    ensures ReleasesOf(g, ReleaseOrder(), ReleaseCalls(g, ReleaseOrder()))
  {
    HeldSlotsAllHeld(g, ReleaseOrder());
    ReleaseCallsFollowOrder(g, ReleaseOrder());
  }
}
