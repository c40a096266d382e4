/** What one MSG_VR_STATE_CHANGE broadcast delivers to the registered
    IVrStateCallbacks: the handler walks the broadcast array from its last item
    to its first, and a callback whose onVrStateChanged throws RemoteException
    is skipped without stopping the walk. */
module StateCallbacks {

  /** The identity of a registered callback binder. */
  type CallbackId = nat

  /** One onVrStateChanged(state) call that reached its callback. */
  datatype Delivery = Delivery(callback: CallbackId, state: bool)

  /** The calls that reach their callbacks when `items` is the broadcast array
      and the callbacks in `failing` throw: the last item first. */
  function Deliveries(items: seq<CallbackId>, failing: set<CallbackId>, state: bool): seq<Delivery>
  {
    if items == [] then []
    else Deliveries(items[1..], failing, state) + (if items[0] in failing then [] else [Delivery(items[0], state)])
  }

  /** Every delivery carries the broadcast state, and a callback is reached as many
      times as it stands in the broadcast array when it does not throw, and never
      when it does: a failing callback does not keep the others from being reached. */
  lemma {:induction false} DeliveriesReachLiveCallbacks(items: seq<CallbackId>, failing: set<CallbackId>, state: bool, cb: CallbackId)
    ensures forall d :: d in Deliveries(items, failing, state) ==> d.state == state && d.callback in items && d.callback !in failing
    ensures multiset(Deliveries(items, failing, state))[Delivery(cb, state)]
         == (if cb in failing then 0 else multiset(items)[cb])
  {
    if items != [] {
      DeliveriesReachLiveCallbacks(items[1..], failing, state, cb);
      assert items == [items[0]] + items[1..];
      assert multiset(items) == multiset([items[0]]) + multiset(items[1..]);
    }
  }

  /** With the broadcast array taken from a set of registered callbacks, each
      registered callback that does not throw is reached exactly once. */
  lemma BroadcastReachesEachOnce(items: seq<CallbackId>, registered: set<CallbackId>, failing: set<CallbackId>, state: bool, cb: CallbackId)
    requires multiset(items) == multiset(registered)
    ensures multiset(Deliveries(items, failing, state))[Delivery(cb, state)]
         == (if cb in registered && cb !in failing then 1 else 0)
  {
    DeliveriesReachLiveCallbacks(items, failing, state, cb);
  }
}
