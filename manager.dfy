/**
 * The discovery service (class BluetoothManager): the receiver it registers with
 * the platform, the start/stop lifecycle, and the listener it reports to.
 * The platform's Context is modelled as a log of register/unregister calls and
 * the listener as a log of the calls it receives.
 */
module Manager {
  import opened Wrappers
  import opened FilterPolicy
  import opened Discovery

  /** The broadcast actions a search subscribes to. */
  datatype Action = DeviceFound | AclConnected | AclDisconnected | AdapterStateChanged

  /** The intent filter searchForDevices builds: all four actions. */
  const SearchActions: set<Action> := {DeviceFound, AclConnected, AclDisconnected, AdapterStateChanged}

  /** One call the service makes on the platform Context. */
  datatype ContextOp = Register(receiver: Receiver, actions: set<Action>) | Unregister(receiver: Receiver)

  /** The receivers a sequence of Context calls leaves registered. */
  function ActiveReceivers(ops: seq<ContextOp>): set<Receiver>
    decreases |ops|
  {
    if ops == [] then {}
    else
      var prior := ActiveReceivers(ops[..|ops| - 1]);
      match ops[|ops| - 1]
      case Register(r, _) => prior + {r}
      case Unregister(r) => prior - {r}
  }

  /** One more Context call adds or removes exactly its receiver. */
  lemma ActiveAfter(ops: seq<ContextOp>, op: ContextOp)
    ensures op.Register? ==> ActiveReceivers(ops + [op]) == ActiveReceivers(ops) + {op.receiver}
    ensures op.Unregister? ==> ActiveReceivers(ops + [op]) == ActiveReceivers(ops) - {op.receiver}
  {
  }

  /**
   * Reference reading of ActiveReceivers: a receiver is registered exactly when
   * some call registered it and no later call concerned it.
   */
  lemma {:induction false} ActiveIffLastRegistered(ops: seq<ContextOp>, r: Receiver)
    ensures r in ActiveReceivers(ops) <==>
      exists i :: 0 <= i < |ops| && ops[i].Register? && ops[i].receiver == r &&
        forall j :: i < j < |ops| ==> ops[j].receiver != r
  {
    if ops != [] {
      var n := |ops| - 1;
      var pre := ops[..n];
      assert ops == pre + [ops[n]];
      ActiveIffLastRegistered(pre, r);
      ActiveAfter(pre, ops[n]);
      if ops[n].receiver == r {
        if ops[n].Unregister? {
          forall i | 0 <= i < |ops| && ops[i].Register? && ops[i].receiver == r
            ensures exists j :: i < j < |ops| && ops[j].receiver == r
          {
            assert i < n;
          }
        }
      } else {
        if r in ActiveReceivers(pre) {
          var i :| 0 <= i < n && pre[i].Register? && pre[i].receiver == r &&
            forall j :: i < j < n ==> pre[j].receiver != r;
          assert ops[i] == pre[i];
        } else {
          forall i | 0 <= i < |ops| && ops[i].Register? && ops[i].receiver == r
            ensures exists j :: i < j < |ops| && ops[j].receiver == r
          {
            assert ops[i] == pre[i];
            var j :| i < j < n && pre[j].receiver == r;
            assert ops[j] == pre[j];
          }
        }
      }
    }
  }

  /**
   * The caller's DeviceListener. It records every call it receives;
   * foundFault is what its onDevicesFound throws, if anything.
   */
  class Listener {
    ghost var calls: seq<Callback>
    const foundFault: Option<Fault>

    constructor (foundFault: Option<Fault>)
      ensures calls == [] && this.foundFault == foundFault
    {
      calls := [];
      this.foundFault := foundFault;
    }

    /** onDevicesFound: the call is recorded, then foundFault is thrown back. */
    method OnDevicesFound(devices: set<Device>) returns (thrown: Option<Fault>)
      modifies this
      ensures calls == old(calls) + [Found(devices)]
      ensures thrown == foundFault
    {
      calls := calls + [Found(devices)];
      thrown := foundFault;
    }

    /** onError: the call is recorded. */
    method OnError(e: BluetoothError)
      modifies this
      ensures calls == old(calls) + [Error(e)]
    {
      calls := calls + [Error(e)];
    }
  }

  /** The platform Context a service registers its receivers with. */
  class Context {
    ghost var ops: seq<ContextOp>

    constructor ()
      ensures ops == []
    {
      ops := [];
    }

    method RegisterReceiver(r: Receiver, actions: set<Action>)
      modifies this
      ensures ops == old(ops) + [Register(r, actions)]
      ensures ActiveReceivers(ops) == old(ActiveReceivers(ops)) + {r}
    {
      ActiveAfter(ops, Register(r, actions));
      ops := ops + [Register(r, actions)];
    }

    method UnregisterReceiver(r: Receiver)
      modifies this
      ensures ops == old(ops) + [Unregister(r)]
      ensures ActiveReceivers(ops) == old(ActiveReceivers(ops)) - {r}
    {
      ActiveAfter(ops, Unregister(r));
      ops := ops + [Unregister(r)];
    }
  }

  /**
   * The anonymous BroadcastReceiver that searchForDevices creates: it captures
   * the service and the listener, and every broadcast it receives runs one pass.
   */
  class Receiver {
    const manager: BluetoothManager
    const listener: Listener

    constructor (manager: BluetoothManager, listener: Listener)
      ensures this.manager == manager && this.listener == listener
    {
      this.manager := manager;
      this.listener := listener;
    }

    /**
     * onReceive: whatever the action, one pass runs with the captured listener
     * over the snapshot the adapter returns at that moment.
     */
    method OnReceive(action: Action, bonded: Result<set<Device>, Fault>)
      modifies listener
      ensures listener.calls == old(listener.calls) + PassEvents(manager.deviceType, bonded, listener.foundFault)
    {
      manager.FilterDevices(listener, bonded);
    }
  }

  class BluetoothManager {
    const deviceType: Option<DeviceType>  // None: built with a null category
    const context: Context
    var broadcastReceiver: Receiver?

    /** A receiver, once stored, belongs to this service. */
    predicate Valid()
      reads this
    {
      broadcastReceiver != null ==> broadcastReceiver.manager == this
    }

    /** The category is fixed here, and no receiver exists yet. */
    constructor (context: Context, deviceType: Option<DeviceType>)
      ensures Valid()
      ensures this.context == context && this.deviceType == deviceType
      ensures broadcastReceiver == null
    {
      this.context := context;
      this.deviceType := deviceType;
      broadcastReceiver := null;
    }

    /**
     * searchForDevices. A null listener throws a message error and touches
     * nothing. Otherwise a fresh receiver for this listener replaces the stored
     * one (which is not unregistered), is registered once for the four search
     * actions, and one pass runs with the listener before the call returns.
     */
    method SearchForDevices(listener: Listener?, bonded: Result<set<Device>, Fault>)
      returns (thrown: Option<BluetoothError>)
      requires Valid()
      modifies this, context, listener
      ensures Valid()
      ensures listener == null ==>
        && thrown == Some(Message("DeviceListener cannot be null."))
        && broadcastReceiver == old(broadcastReceiver)
        && context.ops == old(context.ops)
      ensures listener != null ==>
        && thrown == None
        && broadcastReceiver != null && fresh(broadcastReceiver)
        && broadcastReceiver.listener == listener
        && context.ops == old(context.ops) + [Register(broadcastReceiver, SearchActions)]
        && ActiveReceivers(context.ops) == old(ActiveReceivers(context.ops)) + {broadcastReceiver}
        && listener.calls == old(listener.calls) + PassEvents(deviceType, bonded, listener.foundFault)
    {
      if listener == null {
        return Some(Message("DeviceListener cannot be null."));
      }
      broadcastReceiver := new Receiver(this, listener);
      context.RegisterReceiver(broadcastReceiver, SearchActions);
      FilterDevices(listener, bonded);
      thrown := None;
    }

    /**
     * filterDevices: one pass. It appends to the listener's log exactly the
     * calls PassEvents prescribes and changes nothing else: the category, the
     * stored receiver and the registrations stay as they were.
     */
    method FilterDevices(listener: Listener, bonded: Result<set<Device>, Fault>)
      modifies listener
      ensures listener.calls == old(listener.calls) + PassEvents(deviceType, bonded, listener.foundFault)
      ensures broadcastReceiver == old(broadcastReceiver) && unchanged(context)
    {
      match bonded {
        case Err(f) =>
          listener.OnError(Wrapped(f));
        case Ok(s) =>
          if |s| == 0 {
            return;
          }
          if deviceType.None? {
            // getDeviceCode switches on a null category
            listener.OnError(Wrapped(NullPointer));
            return;
          }
          var codes := DeviceCodes(deviceType.value);
          var filtered := CollectMatching(s, codes);
          match filtered {
            case Err(f) =>
              listener.OnError(Wrapped(f));
            case Ok(m) =>
              var thrown := listener.OnDevicesFound(m);
              if thrown.Some? {
                listener.OnError(Wrapped(thrown.value));
              }
          }
      }
    }

    /**
     * stopSearch: with no stored receiver nothing happens; otherwise the stored
     * receiver is unregistered, and the field keeps pointing at it.
     */
    method StopSearch()
      requires Valid()
      modifies context
      ensures Valid()
      ensures broadcastReceiver == old(broadcastReceiver)
      ensures broadcastReceiver == null ==> context.ops == old(context.ops)
      ensures broadcastReceiver != null ==>
        && context.ops == old(context.ops) + [Unregister(broadcastReceiver)]
        && ActiveReceivers(context.ops) == old(ActiveReceivers(context.ops)) - {broadcastReceiver}
    {
      if broadcastReceiver != null {
        context.UnregisterReceiver(broadcastReceiver);
      }
    }
  }

  /**
   * Starting twice without stopping in between: the first receiver stays
   * registered, and the service no longer holds it, so stopSearch cannot
   * release it.
   */
  method RestartLeaksReceiver(context: Context, t: DeviceType, first: Listener, second: Listener,
                              bonded: Result<set<Device>, Fault>)
    returns (m: BluetoothManager, leaked: Receiver)
    modifies context, first, second
    ensures m.Valid() && m.context == context
    ensures leaked.listener == first && m.broadcastReceiver != leaked
    ensures leaked in ActiveReceivers(context.ops)
  {
    m := new BluetoothManager(context, Some(t));
    var _ := m.SearchForDevices(first, bonded);
    leaked := m.broadcastReceiver;
    var _ := m.SearchForDevices(second, bonded);
    m.StopSearch();
  }

  /**
   * Stopping twice: there is no flag, so the second stopSearch unregisters the
   * same receiver again, and neither call reaches the listener.
   */
  method StopTwiceUnregistersTwice(context: Context, t: DeviceType, listener: Listener,
                                   bonded: Result<set<Device>, Fault>)
    returns (m: BluetoothManager)
    modifies context, listener
    ensures m.Valid() && m.broadcastReceiver != null
    ensures |context.ops| >= 3
    ensures context.ops[|context.ops| - 2..] == [Unregister(m.broadcastReceiver), Unregister(m.broadcastReceiver)]
    ensures m.broadcastReceiver !in ActiveReceivers(context.ops)
    ensures listener.calls == old(listener.calls) + PassEvents(Some(t), bonded, listener.foundFault)
  {
    m := new BluetoothManager(context, Some(t));
    var _ := m.SearchForDevices(listener, bonded);
    m.StopSearch();
    m.StopSearch();
  }

  /** Stopping a service that was never started calls nothing at all. */
  method StopBeforeStart(context: Context, t: DeviceType) returns (m: BluetoothManager)
    modifies context
    ensures m.broadcastReceiver == null && context.ops == old(context.ops)
  {
    m := new BluetoothManager(context, Some(t));
    m.StopSearch();
  }
}
