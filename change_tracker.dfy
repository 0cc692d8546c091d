/** The change tracker: `AttrBinder` of `ModelAttrAccessor`, and the
    `changeTrackerFor` object of `modelAccess` built the same way. It caches
    the value a path resolves to and subscribes, through the accessor's
    `bindToTarget`, to every event that may change it. On each notification
    it re-reads the value, emits `change` when the value is not the cached
    one, caches it, and rebuilds its subscriptions. */
module ChangeTracking {
  import opened Results
  import opened ObjectGraph
  import opened PathSyntax
  import opened Accessor

  /** A handler, named by its owner, bound to one event on one source. */
  datatype Subscription = Subscription(notice: Notice, owner: nat)

  /** The notices an owner is subscribed to, in binding order. */
  function Of(subs: seq<Subscription>, owner: nat): seq<Notice> {
    if subs == [] then []
    else
      var last := subs[|subs| - 1];
      Of(subs[..|subs| - 1], owner) + (if last.owner == owner then [last.notice] else [])
  }

  /** The subscriptions left once an owner's are removed. */
  function Without(subs: seq<Subscription>, owner: nat): seq<Subscription> {
    if subs == [] then []
    else
      var last := subs[|subs| - 1];
      Without(subs[..|subs| - 1], owner) + (if last.owner != owner then [last] else [])
  }

  /** The subscriptions binding each notice to one owner's handler. */
  function Tagged(notices: seq<Notice>, owner: nat): seq<Subscription> {
    seq(|notices|, i requires 0 <= i < |notices| => Subscription(notices[i], owner))
  }

  /** The notices a list of bindings subscribes to, in binding order. */
  function Flatten(bs: seq<Binding>): seq<Notice> {
    if bs == [] then [] else Each(bs[0].source, bs[0].events) + Flatten(bs[1..])
  }

  /** One notice per event bound on a source. */
  function Each(s: Source, events: seq<Event>): seq<Notice> {
    seq(|events|, i requires 0 <= i < |events| => Notice(s, events[i]))
  }

  lemma {:induction false} OfAppend(s: seq<Subscription>, t: seq<Subscription>, owner: nat)
    ensures Of(s + t, owner) == Of(s, owner) + Of(t, owner)
    decreases |t|
  {
    if t != [] {
      var u, last := t[..|t| - 1], t[|t| - 1];
      var tail := if last.owner == owner then [last.notice] else [];
      assert (s + t)[..|s + t| - 1] == s + u && (s + t)[|s + t| - 1] == last;
      OfAppend(s, u, owner);
      assert Of(s + t, owner) == Of(s, owner) + Of(u, owner) + tail;
      assert Of(t, owner) == Of(u, owner) + tail;
      assert Of(s, owner) + Of(u, owner) + tail == Of(s, owner) + (Of(u, owner) + tail);
    } else {
      assert s + t == s;
    }
  }

  lemma {:induction false} OfWithout(s: seq<Subscription>, owner: nat, other: nat)
    ensures Of(Without(s, owner), other) == if other == owner then [] else Of(s, other)
    decreases |s|
  {
    if s != [] {
      var init, last := s[..|s| - 1], s[|s| - 1];
      OfWithout(init, owner, other);
      OfAppend(Without(init, owner), if last.owner != owner then [last] else [], other);
      assert Of([last], other) == (if last.owner == other then [last.notice] else []) by {
        assert [last][..0] == [];
      }
    }
  }

  lemma {:induction false} OfTagged(notices: seq<Notice>, owner: nat, other: nat)
    ensures Of(Tagged(notices, owner), other) == if other == owner then notices else []
    decreases |notices|
  {
    if notices != [] {
      var init := notices[..|notices| - 1];
      assert Tagged(notices, owner)[..|notices| - 1] == Tagged(init, owner);
      OfTagged(init, owner, other);
      assert init + [notices[|notices| - 1]] == notices;
    }
  }

  /** Subscribing to the flattened bindings is hearing what they hear. */
  lemma {:induction false} FlattenHears(bs: seq<Binding>, notice: Notice)
    ensures notice in Flatten(bs) <==> Notifies(bs, notice)
    decreases |bs|
  {
    if bs != [] {
      FlattenHears(bs[1..], notice);
      var each := Each(bs[0].source, bs[0].events);
      assert notice in each <==> bs[0].source == notice.source && notice.event in bs[0].events by {
        if notice in each {
          var i :| 0 <= i < |each| && each[i] == notice;
          assert bs[0].events[i] == notice.event;
        }
        if bs[0].source == notice.source && notice.event in bs[0].events {
          var i :| 0 <= i < |bs[0].events| && bs[0].events[i] == notice.event;
          assert each[i] == notice;
        }
      }
      if Notifies(bs[1..], notice) {
        var b :| b in bs[1..] && b.source == notice.source && notice.event in b.events;
        assert b in bs;
      }
      if Notifies(bs, notice) {
        var b :| b in bs && b.source == notice.source && notice.event in b.events;
        if b != bs[0] {
          assert b in bs[1..];
        }
      }
    }
  }

  /** The object graph and Backbone's event registry, shared by every
      tracker. */
  class Hub {
    var graph: Graph
    var subs: seq<Subscription>

    constructor(g: Graph)
      ensures graph == g && subs == []
    {
      graph := g;
      subs := [];
    }

    /** `source.bind(event, callback)` for each notice, in order. */
    method BindAll(notices: seq<Notice>, owner: nat)
      modifies this
      ensures graph == old(graph)
      ensures subs == old(subs) + Tagged(notices, owner)
    {
      var i := 0;
      while i < |notices|
        invariant 0 <= i <= |notices|
        invariant graph == old(graph)
        invariant subs == old(subs) + Tagged(notices[..i], owner)
      {
        assert Tagged(notices[..i + 1], owner) == Tagged(notices[..i], owner) + [Subscription(notices[i], owner)];
        subs := subs + [Subscription(notices[i], owner)];
        i := i + 1;
      }
      assert notices[..i] == notices;
    }

    /** Removes every handler of one owner, keeping everyone else's in order. */
    method UnbindOwner(owner: nat)
      modifies this
      ensures graph == old(graph)
      ensures subs == Without(old(subs), owner)
    {
      var kept: seq<Subscription> := [];
      var i := 0;
      while i < |subs|
        invariant 0 <= i <= |subs|
        invariant subs == old(subs) && graph == old(graph)
        invariant kept == Without(subs[..i], owner)
      {
        assert subs[..i + 1][..i] == subs[..i];
        if subs[i].owner != owner {
          kept := kept + [subs[i]];
        }
        i := i + 1;
      }
      assert subs[..i] == subs;
      subs := kept;
    }

    /** A mutation of the graph, and the event Backbone fires for it. */
    method Perform(mu: Mutation) returns (fired: Option<Notice>)
      modifies this
      ensures graph == Apply(old(graph), mu) && subs == old(subs)
      ensures fired == Fired(old(graph), mu)
    {
      fired := Fired(graph, mu);
      graph := Apply(graph, mu);
    }
  }

  /** `AttrBinder` / the `modelAccess` change tracker over one target and
      one accessor. `events` holds the values of the `change` events it has
      emitted, oldest first. */
  class Tracker {
    const api: Api
    const target: Value
    const accessor: Link
    const id: nat
    const hub: Hub
    var currentValue: Value
    var currentBindings: seq<Binding>
    var events: seq<Value>

    /** The registry holds, for this tracker, exactly its current bindings. */
    predicate Valid()
      reads this, hub
    {
      Of(hub.subs, id) == Flatten(currentBindings)
    }

    /** The cache and the bindings are those of the current graph. */
    predicate InSync()
      reads this, hub
    {
      Get(api, accessor, hub.graph, target) == Success(currentValue) &&
      Bindings(api, accessor, hub.graph, target) == Success(currentBindings)
    }

    /** The tracker and the Backbone mutation are such that the bindings
      hear every change (see `Accessor.ChangeIsHeard`). */
    predicate Covered(mu: Mutation)
      reads this
    {
      Observable(mu) && (api == ModelAttrAccessor || LengthFree(accessor))
    }

    /** The constructor: read the value, then bind to the targets. The
        accessor must resolve: the source throws otherwise (see `Create`). */
    constructor(hub: Hub, api: Api, target: Value, accessor: Link, id: nat)
      requires Get(api, accessor, hub.graph, target).Success? && Of(hub.subs, id) == []
      modifies hub
      ensures this.hub == hub && this.api == api && this.target == target
      ensures this.accessor == accessor && this.id == id && events == []
      ensures hub.graph == old(hub.graph)
      ensures Valid() && InSync()
      ensures forall o :: o != id ==> Of(hub.subs, o) == Of(old(hub.subs), o)
    {
      this.hub := hub;
      this.api := api;
      this.target := target;
      this.accessor := accessor;
      this.id := id;
      currentValue := Get(api, accessor, hub.graph, target).value;
      events := [];
      BindingsDefined(api, accessor, hub.graph, target);
      var bs := Bindings(api, accessor, hub.graph, target).value;
      ghost var before := hub.subs;
      hub.BindAll(Flatten(bs), id);
      currentBindings := bs;
      forall o ensures Of(hub.subs, o) == Of(before, o) + (if o == id then Flatten(bs) else []) {
        OfAppend(before, Tagged(Flatten(bs), id), o);
        OfTagged(Flatten(bs), id, o);
      }
      assert [] + Flatten(bs) == Flatten(bs);
    }

    /** `getValue()`: the value through the chain, re-read from the graph. */
    method GetValue() returns (r: Result<Value, AccessError>)
      ensures r == Get(api, accessor, hub.graph, target)
    {
      r := Get(api, accessor, hub.graph, target);
    }

    /** `hasValue()`: the value is defined. */
    method HasValue() returns (r: Result<bool, AccessError>)
      ensures Get(api, accessor, hub.graph, target).Failure? ==> r.Failure?
      ensures Get(api, accessor, hub.graph, target).Success? ==>
        r == Success(Get(api, accessor, hub.graph, target).value != Undefined)
    {
      var v := GetValue();
      if v.Failure? {
        return Failure(v.error);
      }
      r := Success(v.value != Undefined);
    }

    /** `change()`: `triggerChange`, then `resetExistingBindings` and
        `bindToTargets`. A failing read throws before anything is updated. */
    method Change() returns (r: Result<(), AccessError>)
      requires Valid()
      modifies this, hub
      ensures hub.graph == old(hub.graph) && Valid()
      ensures forall o :: o != id ==> Of(hub.subs, o) == Of(old(hub.subs), o)
      ensures var v := Get(api, accessor, hub.graph, target);
        if v.Failure? then
          r == Failure(v.error) && events == old(events) && currentValue == old(currentValue)
          && currentBindings == old(currentBindings) && hub.subs == old(hub.subs)
        else
          r.Success? && InSync() &&
          events == old(events) + (if v.value != old(currentValue) then [v.value] else [])
    {
      var value := GetValue();
      if value.Failure? {
        return Failure(value.error);
      }
      if value.value != currentValue {
        events := events + [value.value];
      }
      currentValue := value.value;
      ghost var before := hub.subs;
      hub.UnbindOwner(id);
      BindingsDefined(api, accessor, hub.graph, target);
      var bs := Bindings(api, accessor, hub.graph, target).value;
      ghost var unbound := hub.subs;
      hub.BindAll(Flatten(bs), id);
      currentBindings := bs;
      forall o ensures Of(hub.subs, o) == (if o == id then Flatten(bs) else Of(before, o)) {
        OfWithout(before, id, o);
        OfAppend(unbound, Tagged(Flatten(bs), id), o);
        OfTagged(Flatten(bs), id, o);
        if o == id {
          assert [] + Flatten(bs) == Flatten(bs);
        }
      }
      r := Success(());
    }

    /** A notice delivered by the registry: the tracker's `change` runs when
        one of its handlers is bound to it. */
    method Hear(fired: Option<Notice>) returns (r: Result<(), AccessError>)
      requires Valid()
      modifies this, hub
      ensures hub.graph == old(hub.graph) && Valid()
      ensures forall o :: o != id ==> Of(hub.subs, o) == Of(old(hub.subs), o)
      ensures !(fired.Some? && Notifies(old(currentBindings), fired.value)) ==>
        r.Success? && events == old(events) && currentValue == old(currentValue)
        && currentBindings == old(currentBindings) && hub.subs == old(hub.subs)
      ensures fired.Some? && Notifies(old(currentBindings), fired.value) ==>
        var v := Get(api, accessor, hub.graph, target);
        if v.Failure? then
          r == Failure(v.error) && events == old(events) && currentValue == old(currentValue)
          && currentBindings == old(currentBindings) && hub.subs == old(hub.subs)
        else r.Success? && InSync() && events == old(events) + (if v.value != old(currentValue) then [v.value] else [])
    {
      if fired.Some? {
        FlattenHears(currentBindings, fired.value);
      }
      if fired.Some? && fired.value in Of(hub.subs, id) {
        r := Change();
      } else {
        r := Success(());
      }
    }

    /** A mutation of the graph followed by delivery of the event it fires.
        For a Backbone mutation, starting in sync: a `change` event is
        emitted exactly when the value differs from the cached one, and the
        tracker ends in sync with its bindings rebuilt on the new graph. */
    method Step(mu: Mutation) returns (r: Result<(), AccessError>)
      requires Valid()
      modifies this, hub
      ensures hub.graph == Apply(old(hub.graph), mu) && Valid()
      ensures forall o :: o != id ==> Of(hub.subs, o) == Of(old(hub.subs), o)
      ensures !(Fired(old(hub.graph), mu).Some? && Notifies(old(currentBindings), Fired(old(hub.graph), mu).value)) ==>
        r.Success? && events == old(events) && currentValue == old(currentValue)
        && currentBindings == old(currentBindings) && hub.subs == old(hub.subs)
      ensures old(InSync()) && Covered(mu) ==>
        var v := Get(api, accessor, hub.graph, target);
        if v.Failure? then
          r == Failure(v.error) && events == old(events) && currentValue == old(currentValue)
          && currentBindings == old(currentBindings) && hub.subs == old(hub.subs)
        else r.Success? && InSync() && events == old(events) + (if v.value != old(currentValue) then [v.value] else [])
    {
      ghost var wasInSync := InSync();
      ghost var g := hub.graph;
      var fired := hub.Perform(mu);
      if wasInSync && Covered(mu) && !(fired.Some? && Notifies(currentBindings, fired.value)) {
        UnheardKeepsChain(api, accessor, g, target, mu);
      }
      r := Hear(fired);
    }

    /** `setValue(v)` (`modelAccess` only): write the leaf of the chain as it
        currently resolves, then deliver the event the write fires. */
    method SetValue(v: Value) returns (r: Result<(), AccessError>)
      requires Valid() && api == ModelAccess
      modifies this, hub
      ensures Valid()
      ensures forall o :: o != id ==> Of(hub.subs, o) == Of(old(hub.subs), o)
      ensures Set(accessor, old(hub.graph), target, v).Failure? ==>
        r == Failure(Set(accessor, old(hub.graph), target, v).error) && hub.graph == old(hub.graph)
        && events == old(events) && currentValue == old(currentValue)
        && currentBindings == old(currentBindings) && hub.subs == old(hub.subs)
      ensures Set(accessor, old(hub.graph), target, v).Success? ==>
        hub.graph == Apply(old(hub.graph), Set(accessor, old(hub.graph), target, v).value)
    {
      var mu := Set(accessor, hub.graph, target, v);
      if mu.Failure? {
        return Failure(mu.error);
      }
      r := Step(mu.value);
    }
  }

  datatype TrackerError = Syntax(syntax: SyntaxError) | Access(access: AccessError)

  /** `attrBinderFor(target, path)` / `changeTrackerFor(target, path)`:
      build the accessor, then the tracker. Both a syntax error and a
      failing first read throw. */
  method Create(hub: Hub, api: Api, target: Value, path: string, id: nat) returns (r: Result<Tracker, TrackerError>)
    requires Of(hub.subs, id) == []
    modifies hub
    ensures hub.graph == old(hub.graph)
    ensures r.Failure? ==> hub.subs == old(hub.subs)
    ensures forall o :: o != id ==> Of(hub.subs, o) == Of(old(hub.subs), o)
    ensures AccessorFor(path, api).Failure? ==> r == Failure(Syntax(AccessorFor(path, api).error))
    ensures AccessorFor(path, api).Success? && Get(api, AccessorFor(path, api).value, hub.graph, target).Failure? ==>
      r == Failure(Access(Get(api, AccessorFor(path, api).value, hub.graph, target).error))
    ensures AccessorFor(path, api).Success? && Get(api, AccessorFor(path, api).value, hub.graph, target).Success? ==>
      r.Success?
    ensures r.Success? ==> fresh(r.value)
    ensures r.Success? ==>
      (r.value.hub == hub && r.value.id == id && r.value.api == api && r.value.target == target
       && r.value.accessor == AccessorFor(path, api).value && r.value.events == []
       && r.value.Valid() && r.value.InSync())
  {
    var accessor := AccessorFor(path, api);
    if accessor.Failure? {
      return Failure(Syntax(accessor.error));
    }
    var v := Get(api, accessor.value, hub.graph, target);
    if v.Failure? {
      return Failure(Access(v.error));
    }
    var t := new Tracker(hub, api, target, accessor.value, id);
    r := Success(t);
  }
}
