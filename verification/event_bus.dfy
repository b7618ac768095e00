/** The event bus: a map from event name to the ordered list of callbacks
    registered under it. Registration appends; a trigger calls the callbacks of
    that name synchronously, in registration order, with the same data. A
    callback that raises is not caught: the trigger stops there and the
    exception reaches the caller. Callbacks are abstract values of type `C`;
    whether one raises on given data is the parameter `fails`. */
module EventBus {
  import opened Py

  datatype Bus<C> = Bus(events: map<string, seq<C>>)

  /** One callback invocation during a trigger. */
  datatype Invocation<C, D> = Invocation(callback: C, data: D)

  /** What a trigger did: the invocations in order and, if a callback raised,
      which one (it is the last invocation). */
  datatype Delivery<C, D> = Delivery(invoked: seq<Invocation<C, D>>, raised: Option<C>)

  /** A fresh bus knows no event names. */
  function New<C>(): (b: Bus<C>)
    ensures forall name :: name !in b.events
  {
    Bus(map[])
  }

  /** The callbacks registered under `name`, in registration order. */
  function Subscribers<C>(b: Bus<C>, name: string): seq<C> {
    if name in b.events then b.events[name] else []
  }

  /** `register_event`: append `cb` to the list of `name`, creating the list
      when the name is new. No deduplication. */
  function Register<C>(b: Bus<C>, name: string, cb: C): (r: Bus<C>)
    ensures r.events.Keys == b.events.Keys + {name}
    ensures Subscribers(r, name) == Subscribers(b, name) + [cb]
    ensures forall other :: other != name ==> Subscribers(r, other) == Subscribers(b, other)
  {
    if name !in b.events then
      Bus(b.events[name := [cb]])
    else
      Bus(b.events[name := b.events[name] + [cb]])
  }

  /** Call each callback of `cbs` in turn with `data`, stopping after the first
      one that raises. */
  function Deliver<C, D>(cbs: seq<C>, data: D, fails: (C, D) -> bool): (d: Delivery<C, D>)
    ensures |d.invoked| <= |cbs|
    ensures forall i :: 0 <= i < |d.invoked| ==> d.invoked[i] == Invocation(cbs[i], data)
    ensures d.raised.None? ==> |d.invoked| == |cbs|
    ensures forall i :: 0 <= i < |d.invoked| && (d.raised.None? || i < |d.invoked| - 1) ==> !fails(cbs[i], data)
    ensures d.raised.Some? ==>
      && 0 < |d.invoked|
      && d.raised.value == cbs[|d.invoked| - 1]
      && fails(d.raised.value, data)
  {
    if cbs == [] then Delivery([], None)
    else if fails(cbs[0], data) then Delivery([Invocation(cbs[0], data)], Some(cbs[0]))
    else
      var rest := Deliver(cbs[1..], data, fails);
      var d := Delivery([Invocation(cbs[0], data)] + rest.invoked, rest.raised);
      assert forall i :: 0 < i < |d.invoked| ==> d.invoked[i] == rest.invoked[i - 1] && cbs[i] == cbs[1..][i - 1];
      d
  }

  /** A delivery completes without an exception exactly when no callback in
      the list raises on the data. */
  lemma DeliverRaisesIff<C, D>(cbs: seq<C>, data: D, fails: (C, D) -> bool)
    ensures Deliver(cbs, data, fails).raised.None? <==> forall i :: 0 <= i < |cbs| ==> !fails(cbs[i], data)
  {
  }

  /** `trigger_event`. The bus is not an output: a trigger leaves the
      name-to-callbacks map as it was. */
  function Trigger<C, D>(b: Bus<C>, name: string, data: D, fails: (C, D) -> bool): (d: Delivery<C, D>)
    ensures name !in b.events ==> d == Delivery([], None)
    ensures |d.invoked| <= |Subscribers(b, name)|
    ensures d.raised.None? ==> |d.invoked| == |Subscribers(b, name)|
    ensures forall i :: 0 <= i < |d.invoked| ==> d.invoked[i] == Invocation(Subscribers(b, name)[i], data)
  {
    Deliver(Subscribers(b, name), data, fails)
  }

  /** The callbacks a delivery called, in order. */
  function Called<C, D>(invoked: seq<Invocation<C, D>>): (cs: seq<C>)
    ensures |cs| == |invoked|
    ensures forall i :: 0 <= i < |invoked| ==> cs[i] == invoked[i].callback
  {
    seq(|invoked|, i requires 0 <= i < |invoked| => invoked[i].callback)
  }

  /** When no callback raises, a trigger calls exactly the registered list, in
      order: a callback registered k times is called k times. */
  lemma TriggerCallsAllInOrder<C, D>(b: Bus<C>, name: string, data: D, fails: (C, D) -> bool)
    requires forall i :: 0 <= i < |Subscribers(b, name)| ==> !fails(Subscribers(b, name)[i], data)
    ensures Called(Trigger(b, name, data, fails).invoked) == Subscribers(b, name)
    ensures forall cb :: multiset(Called(Trigger(b, name, data, fails).invoked))[cb]
                         == multiset(Subscribers(b, name))[cb]
  {
    var d := Trigger(b, name, data, fails);
    assert Called(d.invoked) == Subscribers(b, name);
  }

  /** Register `cb` under `name` k times in a row: once, then k - 1 more
      times on the resulting bus. */
  function RegisterTimes<C>(b: Bus<C>, name: string, cb: C, k: nat): Bus<C>
    decreases k
  {
    if k == 0 then b else RegisterTimes(Register(b, name, cb), name, cb, k - 1)
  }

  /** No deduplication: k registrations add k copies of the callback to the
      list of that name and leave every other name alone. */
  lemma RegisterTimesCount<C>(b: Bus<C>, name: string, cb: C, k: nat)
    ensures multiset(Subscribers(RegisterTimes(b, name, cb, k), name))[cb]
            == multiset(Subscribers(b, name))[cb] + k
    ensures |Subscribers(RegisterTimes(b, name, cb, k), name)| == |Subscribers(b, name)| + k
    ensures forall other :: other != name ==>
              Subscribers(RegisterTimes(b, name, cb, k), other) == Subscribers(b, other)
  {
    RegisterTimesSameName(b, name, cb, k);
    RegisterTimesOtherNames(b, name, cb, k);
  }

  /** The list of the registered name grows by one copy per registration. */
  lemma {:induction false} RegisterTimesSameName<C>(b: Bus<C>, name: string, cb: C, k: nat)
    ensures multiset(Subscribers(RegisterTimes(b, name, cb, k), name))[cb]
            == multiset(Subscribers(b, name))[cb] + k
    ensures |Subscribers(RegisterTimes(b, name, cb, k), name)| == |Subscribers(b, name)| + k
    decreases k
  {
    if k > 0 {
      var once := Register(b, name, cb);
      RegisterTimesSameName(once, name, cb, k - 1);
      CountAppendOne(Subscribers(b, name), cb, Subscribers(once, name));
    }
  }

  /** Registrations under one name leave every other name's list alone. */
  lemma {:induction false} RegisterTimesOtherNames<C>(b: Bus<C>, name: string, cb: C, k: nat)
    ensures forall other :: other != name ==>
              Subscribers(RegisterTimes(b, name, cb, k), other) == Subscribers(b, other)
    decreases k
  {
    if k > 0 {
      RegisterTimesOtherNames(Register(b, name, cb), name, cb, k - 1);
    }
  }

  /** A subscriber that raises cuts the delivery short: the callbacks after it
      in the list are not called by this trigger. */
  lemma RaiseStopsDelivery<C, D>(b: Bus<C>, name: string, data: D, fails: (C, D) -> bool, k: nat)
    requires k < |Subscribers(b, name)|
    requires fails(Subscribers(b, name)[k], data)
    ensures Trigger(b, name, data, fails).raised.Some?
    ensures |Trigger(b, name, data, fails).invoked| <= k + 1
  {
  }
}
