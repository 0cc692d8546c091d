/** The change-tracking tests of both accessors, on the fixture of
    `Scenarios`. Each test opens a tracker on a fresh registry over the
    fixture, mutates the graph through that registry, and returns what the
    test observes: the values of the `change` events emitted, `getValue()`,
    `hasValue()`, or the slot `setValue` wrote.

    A test is split in two: the test itself opens the tracker on the
    fixture, and a helper method, which knows only the few facts of the
    fixture it needs, drives the tracker. */
module TrackingScenarios {
  import opened Results
  import opened PathSyntax
  import opened ObjectGraph
  import opened Accessor
  import opened ChangeTracking
  import opened Scenarios

  // ---------------------------------------------------------------------
  // Reads through the chains on the mutated graphs
  // ---------------------------------------------------------------------

  /** Writing an attribute of the model a chain ends on, when the chain's
      parents do not read that attribute: the chain reads the new value. */
  lemma AttrSetBelow(api: Api, p: Link, n: Node, g: Graph, target: Value, m: nat, v: Value)
    requires Get(api, p, g, target) == Success(ModelRef(m)) && n.AttributeAccess?
    requires AttrLoc(m, n.name) !in Reads(api, p, g, target)
    requires v != Undefined && v != Null
    ensures Get(api, Step(p, n), Apply(g, SetAttr(m, n.name, v)), target) == Success(v)
  {
    var mu := SetAttr(m, n.name, v);
    assert Writes(mu) == {AttrLoc(m, n.name)};
    GetUnaffected(api, p, g, target, mu);
    ModelWriteEffect(g, m, n.name, v);
    AttrLink(api, p, n, Apply(g, mu), target, m);
  }

  /** `name` of the product, after it is set. */
  lemma NameAfterSet(api: Api, g: Graph, v: Value)
    requires v != Undefined && v != Null
    ensures Get(api, NameOf(), Apply(g, SetAttr(Product, "name", v)), ModelRef(Product)) == Success(v)
  {
    AttrSetBelow(api, Root, First("name"), g, ModelRef(Product), Product, v);
  }

  /** `name` of the product, after it is unset: `modelAccess` falls back on
      the property, which the product does not have. */
  lemma NameAfterUnset(g: Graph)
    requires PropOf(g, Product, "name") == Undefined
    ensures Get(ModelAccess, NameOf(), Apply(g, UnsetAttr(Product, "name")), ModelRef(Product)) == Success(Undefined)
  {
    ModelUnsetEffect(g, Product, "name");
  }

  /** `manufacturer` on the product, through either accessor. */
  lemma ManufacturerOn(api: Api, g: Graph)
    requires AttrOf(g, Product, "manufacturer") == ModelRef(Manufacturer1)
    ensures Get(api, Manufacturer(), g, ModelRef(Product)) == Success(ModelRef(Manufacturer1))
    ensures AttrLoc(Manufacturer1, "name") !in Reads(api, Manufacturer(), g, ModelRef(Product))
    ensures AttrLoc(Manufacturer2, "name") !in Reads(api, ManufacturerName(), g, ModelRef(Product))
  {
    var t := ModelRef(Product);
    AttrLink(api, Root, First("manufacturer"), g, t, Product);
    ReadsOfLink(api, Root, First("manufacturer"), g, t, t);
    ReadsOfLink(api, Manufacturer(), Dot("name"), g, t, ModelRef(Manufacturer1));
  }

  /** `manufacturer.name`, after the first manufacturer's name is set. */
  lemma NestedNameAfterSet(api: Api, g: Graph, v: Value)
    requires AttrOf(g, Product, "manufacturer") == ModelRef(Manufacturer1)
    requires v != Undefined && v != Null
    ensures Get(api, ManufacturerName(), Apply(g, SetAttr(Manufacturer1, "name", v)), ModelRef(Product)) == Success(v)
  {
    ManufacturerOn(api, g);
    AttrSetBelow(api, Manufacturer(), Dot("name"), g, ModelRef(Product), Manufacturer1, v);
  }

  /** Pointing `manufacturer` at the second manufacturer: the chain reads
      that manufacturer's name. */
  lemma ManufacturerReplaced(api: Api, g: Graph)
    requires HasAttr(g, Manufacturer2, "name")
    ensures var h := Apply(g, SetAttr(Product, "manufacturer", ModelRef(Manufacturer2)));
      Get(api, Manufacturer(), h, ModelRef(Product)) == Success(ModelRef(Manufacturer2)) &&
      Get(api, ManufacturerName(), h, ModelRef(Product)) == Success(AttrOf(g, Manufacturer2, "name"))
  {
    var mu := SetAttr(Product, "manufacturer", ModelRef(Manufacturer2));
    var h := Apply(g, mu);
    var t := ModelRef(Product);
    ModelWriteEffect(g, Product, "manufacturer", ModelRef(Manufacturer2));
    UnwrittenUnchanged(g, mu, AttrLoc(Manufacturer2, "name"));
    AttrLink(api, Root, First("manufacturer"), h, t, Product);
    AttrLink(api, Manufacturer(), Dot("name"), h, t, Manufacturer2);
  }

  /** Once the chain runs through the second manufacturer it is bound to
      that manufacturer and the product, and reads nothing of the first. */
  lemma ThroughSecondManufacturer(api: Api, h: Graph)
    requires Get(api, Manufacturer(), h, ModelRef(Product)) == Success(ModelRef(Manufacturer2))
    ensures Bindings(api, ManufacturerName(), h, ModelRef(Product)).Success?
    ensures Flatten(Bindings(api, ManufacturerName(), h, ModelRef(Product)).value) ==
      [Notice(ModelSource(Manufacturer2), ChangeAttr("name")), Notice(ModelSource(Product), ChangeAttr("manufacturer"))]
    ensures AttrLoc(Manufacturer1, "name") !in Reads(api, ManufacturerName(), h, ModelRef(Product))
  {
    var t := ModelRef(Product);
    ReadsOfLink(api, Root, First("manufacturer"), h, t, t);
    ReadsOfLink(api, Manufacturer(), Dot("name"), h, t, ModelRef(Manufacturer2));
    var own := Binding(ModelSource(Product), [ChangeAttr("manufacturer")]);
    var second := Binding(ModelSource(Manufacturer2), [ChangeAttr("name")]);
    assert Bindings(api, Manufacturer(), h, t) == Success([own] + []);
    assert OwnBinding(ModelRef(Manufacturer2), Dot("name")) == [second];
    assert ManufacturerName() == Step(Manufacturer(), Dot("name"));
    assert Bindings(api, ManufacturerName(), h, t) ==
      Success(OwnBinding(ModelRef(Manufacturer2), Dot("name")) + Bindings(api, Manufacturer(), h, t).value);
    var bs := [second, own];
    assert bs[1..] == [own] && bs[1..][1..] == [];
    assert Flatten([own]) == Each(own.source, own.events) + Flatten([]);
    assert Flatten(bs) == Each(second.source, second.events) + Flatten([own]);
  }

  /** `manufacturer` unset or set to null: the chain reads undefined. */
  lemma ManufacturerGone(api: Api, g: Graph, mu: Mutation)
    requires PropOf(g, Product, "manufacturer") == Undefined
    requires mu == UnsetAttr(Product, "manufacturer") || mu == SetAttr(Product, "manufacturer", Null)
    ensures Get(api, ManufacturerName(), Apply(g, mu), ModelRef(Product)) == Success(Undefined)
  {
    var h := Apply(g, mu);
    if mu.UnsetAttr? {
      ModelUnsetEffect(g, Product, "manufacturer");
    } else {
      ModelWriteEffect(g, Product, "manufacturer", Null);
    }
    assert !HasAttr(h, Product, "manufacturer") && PropOf(h, Product, "manufacturer") == Undefined;
    assert Get(api, Manufacturer(), h, ModelRef(Product)).Success? && Falsy(Get(api, Manufacturer(), h, ModelRef(Product)).value);
  }

  /** The product's reviews as the fixture lays them out. */
  predicate ReviewsInPlace(g: Graph) {
    AttrOf(g, Product, "reviews") == CollRef(Reviews) && Items(g, Reviews) == [Review1, Review2, Review3]
  }

  /** `reviews[1].title` reads the title of the model at position 1. */
  lemma TitleAtOne(api: Api, g: Graph, m: nat)
    requires AttrOf(g, Product, "reviews") == CollRef(Reviews) && 1 < |Items(g, Reviews)| && Items(g, Reviews)[1] == m
    requires HasAttr(g, m, "title")
    ensures Get(api, ReviewTitle(), g, ModelRef(Product)) == Success(AttrOf(g, m, "title"))
  {
    var t := ModelRef(Product);
    AttrLink(api, Root, First("reviews"), g, t, Product);
    CollItemLink(api, ReviewsOf(), 1, g, t, Reviews);
    AttrLink(api, ReviewItem(), Dot("title"), g, t, m);
  }

  /** Setting the title of the second review: the chain reads it, and the
      reviews stay in place. */
  lemma TitleAfterSet(api: Api, g: Graph, v: Value)
    requires ReviewsInPlace(g) && v != Undefined && v != Null
    ensures Get(api, ReviewTitle(), Apply(g, SetAttr(Review2, "title", v)), ModelRef(Product)) == Success(v)
    ensures ReviewsInPlace(Apply(g, SetAttr(Review2, "title", v)))
  {
    var h := Apply(g, SetAttr(Review2, "title", v));
    ModelWriteEffect(g, Review2, "title", v);
    UnwrittenUnchanged(g, SetAttr(Review2, "title", v), AttrLoc(Product, "reviews"));
    UnwrittenUnchanged(g, SetAttr(Review2, "title", v), CollLoc(Reviews));
    TitleAtOne(api, h, Review2);
  }

  /** Removing the second review: the third moves to position 1. */
  lemma TitleAfterRemove(api: Api, g: Graph)
    requires ReviewsInPlace(g) && HasAttr(g, Review3, "title")
    ensures Get(api, ReviewTitle(), Apply(g, Delete(Reviews, 1)), ModelRef(Product)) == Success(AttrOf(g, Review3, "title"))
  {
    var h := Apply(g, Delete(Reviews, 1));
    UnwrittenUnchanged(g, Delete(Reviews, 1), AttrLoc(Product, "reviews"));
    UnwrittenUnchanged(g, Delete(Reviews, 1), AttrLoc(Review3, "title"));
    assert Items(h, Reviews) == [Review1, Review3];
    TitleAtOne(api, h, Review3);
  }

  /** Adding a review at position 1. */
  lemma TitleAfterAdd(api: Api, g: Graph)
    requires ReviewsInPlace(g) && HasAttr(g, NewReview, "title")
    ensures Get(api, ReviewTitle(), Apply(g, Insert(Reviews, 1, NewReview)), ModelRef(Product)) == Success(AttrOf(g, NewReview, "title"))
  {
    var h := Apply(g, Insert(Reviews, 1, NewReview));
    UnwrittenUnchanged(g, Insert(Reviews, 1, NewReview), AttrLoc(Product, "reviews"));
    UnwrittenUnchanged(g, Insert(Reviews, 1, NewReview), AttrLoc(NewReview, "title"));
    assert Items(h, Reviews) == [Review1, NewReview, Review2, Review3];
    TitleAtOne(api, h, NewReview);
  }

  /** The chains tracked below read no `length`. */
  lemma NameLengthFree()
    ensures LengthFree(NameOf())
  {
  }

  lemma ManufacturerNameLengthFree()
    ensures LengthFree(ManufacturerName())
  {
  }

  lemma ReviewTitleLengthFree()
    ensures LengthFree(ReviewTitle())
  {
  }

  // ---------------------------------------------------------------------
  // Opening a tracker, and delivering one mutation to it
  // ---------------------------------------------------------------------

  /** `changeTrackerFor(target, path)` (or `attrBinderFor`) on a fresh
      registry over `g`, for a path whose accessor resolves there. */
  method Open(g: Graph, api: Api, target: Value, path: string, l: Link) returns (tracker: Tracker)
    requires AccessorFor(path, api) == Success(l) && Get(api, l, g, target).Success?
    ensures fresh(tracker) && fresh(tracker.hub)
    ensures tracker.hub.graph == g && tracker.api == api && tracker.target == target && tracker.accessor == l
    ensures tracker.id == 0 && tracker.events == [] && tracker.Valid() && tracker.InSync()
    ensures tracker.currentValue == Get(api, l, g, target).value
  {
    var hub := new Hub(g);
    var r := Create(hub, api, target, path, 0);
    tracker := r.value;
  }

  /** A second tracker on the same registry: the first stays valid
      whether or not the second can be created, and a created second one is
      valid beside it. */
  method OpenBeside(first: Tracker, api: Api, target: Value, path: string, id: nat)
    returns (second: Result<Tracker, TrackerError>)
    requires first.Valid() && id != first.id && Of(first.hub.subs, id) == []
    modifies first.hub
    ensures first.Valid() && first.hub.graph == old(first.hub.graph)
    ensures second.Success? ==> second.value.hub == first.hub && second.value.id == id && second.value.Valid()
  {
    second := Create(first.hub, api, target, path, id);
  }

  /** A tracker on `name` of the product. */
  method OpenName(g: Graph, api: Api) returns (tracker: Tracker)
    requires IsSharedFixture(g)
    ensures fresh(tracker) && fresh(tracker.hub)
    ensures tracker.hub.graph == g && tracker.api == api && tracker.target == ModelRef(Product) && tracker.accessor == NameOf()
    ensures tracker.id == 0 && tracker.events == [] && tracker.Valid() && tracker.InSync()
    ensures tracker.currentValue == Str("Product 1")
  {
    var path := "name";
    NameAccessor(path, api);
    AttrLink(api, Root, First("name"), g, ModelRef(Product), Product);
    tracker := Open(g, api, ModelRef(Product), path, NameOf());
  }

  /** A tracker on `manufacturer.name` of the product. */
  method OpenManufacturerName(g: Graph, api: Api) returns (tracker: Tracker)
    requires IsSharedFixture(g)
    ensures fresh(tracker) && fresh(tracker.hub)
    ensures tracker.hub.graph == g && tracker.api == api && tracker.target == ModelRef(Product) && tracker.accessor == ManufacturerName()
    ensures tracker.id == 0 && tracker.events == [] && tracker.Valid() && tracker.InSync()
    ensures tracker.currentValue == Str("Manufacturer 1")
  {
    var path := "manufacturer.name";
    ManufacturerNameAccessor(path, api);
    ManufacturerOn(api, g);
    AttrLink(api, Manufacturer(), Dot("name"), g, ModelRef(Product), Manufacturer1);
    tracker := Open(g, api, ModelRef(Product), path, ManufacturerName());
  }

  /** A tracker on `reviews[1].title` of the product. */
  method OpenReviewTitle(g: Graph, api: Api) returns (tracker: Tracker)
    requires IsSharedFixture(g)
    ensures fresh(tracker) && fresh(tracker.hub)
    ensures tracker.hub.graph == g && tracker.api == api && tracker.target == ModelRef(Product) && tracker.accessor == ReviewTitle()
    ensures tracker.id == 0 && tracker.events == [] && tracker.Valid() && tracker.InSync()
    ensures tracker.currentValue == Str("Review 2")
  {
    var path := "reviews[1].title";
    ReviewTitleAccessor(path, api);
    TitleAtOne(api, g, Review2);
    tracker := Open(g, api, ModelRef(Product), path, ReviewTitle());
  }

  /** One Backbone mutation, delivered to a tracker in sync, whose effect
      on the tracked value is known: `change` fires exactly when the value
      moves. */
  method Heard(tracker: Tracker, mu: Mutation, v: Value)
    requires tracker.Valid() && tracker.InSync() && tracker.Covered(mu)
    requires Get(tracker.api, tracker.accessor, Apply(tracker.hub.graph, mu), tracker.target) == Success(v)
    modifies tracker, tracker.hub
    ensures tracker.hub.graph == Apply(old(tracker.hub.graph), mu)
    ensures tracker.Valid() && tracker.InSync() && tracker.currentValue == v
    ensures tracker.events == old(tracker.events) + (if v != old(tracker.currentValue) then [v] else [])
  {
    var _ := tracker.Step(mu);
  }

  // ---------------------------------------------------------------------
  // Bound to `name` of the target model
  // ---------------------------------------------------------------------

  /** Setting `name` is heard. */
  method TargetAttrChanged(g: Graph, api: Api) returns (events: seq<Value>)
    requires IsSharedFixture(g)
    ensures events == [Str("New Name!")]
  {
    var tracker := OpenName(g, api);
    events := SetNameHeard(tracker);
  }

  method SetNameHeard(tracker: Tracker) returns (events: seq<Value>)
    requires tracker.Valid() && tracker.InSync() && tracker.events == []
    requires tracker.accessor == NameOf() && tracker.target == ModelRef(Product) && tracker.currentValue == Str("Product 1")
    modifies tracker, tracker.hub
    ensures events == [Str("New Name!")]
  {
    NameLengthFree();
    NameAfterSet(tracker.api, tracker.hub.graph, Str("New Name!"));
    Heard(tracker, SetAttr(Product, "name", Str("New Name!")), Str("New Name!"));
    events := tracker.events;
  }

  /** `setValue` writes the product's `name` (`modelAccess`). */
  method TargetAttrSet(g: Graph) returns (name: Value)
    requires IsSharedFixture(g)
    ensures name == Str("New Name!")
  {
    var tracker := OpenName(g, ModelAccess);
    assert HasAttr(g, Product, "name");
    RootAttrWrite("name", g, Str("New Name!"));
    name := SetValueRead(tracker, Str("New Name!"), SetAttr(Product, "name", Str("New Name!")));
  }

  /** `setValue(v)` when the write it makes is known to be `SetAttr(m, name,
      v)`: the attribute written, read back from the registry's graph. */
  method SetValueRead(tracker: Tracker, v: Value, mu: Mutation) returns (written: Value)
    requires tracker.Valid() && tracker.api == ModelAccess && mu.SetAttr? && mu.v == v
    requires Set(tracker.accessor, tracker.hub.graph, tracker.target, v) == Success(mu)
    modifies tracker, tracker.hub
    ensures written == v
  {
    ModelWriteEffect(tracker.hub.graph, mu.m, mu.name, v);
    var _ := tracker.SetValue(v);
    written := AttrOf(tracker.hub.graph, mu.m, mu.name);
  }

  /** `hasValue()` holds, and no longer holds once `name` is unset
      (`modelAccess`). */
  method TargetHasValue(g: Graph) returns (before: Result<bool, AccessError>, after: Result<bool, AccessError>)
    requires IsSharedFixture(g)
    ensures before == Success(true) && after == Success(false)
  {
    var tracker := OpenName(g, ModelAccess);
    before, after := UnsetNameHasValue(tracker);
  }

  method UnsetNameHasValue(tracker: Tracker) returns (before: Result<bool, AccessError>, after: Result<bool, AccessError>)
    requires tracker.Valid() && tracker.InSync() && tracker.api == ModelAccess
    requires tracker.accessor == NameOf() && tracker.target == ModelRef(Product) && tracker.currentValue == Str("Product 1")
    requires PropOf(tracker.hub.graph, Product, "name") == Undefined
    modifies tracker, tracker.hub
    ensures before == Success(true) && after == Success(false)
  {
    before := tracker.HasValue();
    NameLengthFree();
    NameAfterUnset(tracker.hub.graph);
    Heard(tracker, UnsetAttr(Product, "name"), Undefined);
    after := tracker.HasValue();
  }

  // ---------------------------------------------------------------------
  // Bound to `manufacturer.name`
  // ---------------------------------------------------------------------

  /** A change of the nested model's name is heard. */
  method NestedAttrChanged(g: Graph, api: Api) returns (events: seq<Value>)
    requires IsSharedFixture(g)
    ensures events == [Str("New Name!")]
  {
    var tracker := OpenManufacturerName(g, api);
    events := SetNestedNameHeard(tracker);
  }

  method SetNestedNameHeard(tracker: Tracker) returns (events: seq<Value>)
    requires tracker.Valid() && tracker.InSync() && tracker.events == []
    requires tracker.accessor == ManufacturerName() && tracker.target == ModelRef(Product)
    requires tracker.currentValue == Str("Manufacturer 1")
    requires AttrOf(tracker.hub.graph, Product, "manufacturer") == ModelRef(Manufacturer1)
    modifies tracker, tracker.hub
    ensures events == [Str("New Name!")]
  {
    ManufacturerNameLengthFree();
    NestedNameAfterSet(tracker.api, tracker.hub.graph, Str("New Name!"));
    Heard(tracker, SetAttr(Manufacturer1, "name", Str("New Name!")), Str("New Name!"));
    events := tracker.events;
  }

  /** `setValue` writes the nested model's `name` (`modelAccess`). */
  method NestedAttrSet(g: Graph) returns (name: Value)
    requires IsSharedFixture(g)
    ensures name == Str("New Name!")
  {
    var tracker := OpenManufacturerName(g, ModelAccess);
    ManufacturerLinkReads(g);
    NestedNameWrite(g, Str("New Name!"));
    name := SetValueRead(tracker, Str("New Name!"), SetAttr(Manufacturer1, "name", Str("New Name!")));
  }

  /** Unsetting `manufacturer` is heard once, as undefined. */
  method NestedModelUnset(g: Graph, api: Api) returns (events: seq<Value>)
    requires IsSharedFixture(g)
    ensures events == [Undefined]
  {
    var tracker := OpenManufacturerName(g, api);
    var value;
    events, value := ManufacturerGoneHeard(tracker, UnsetAttr(Product, "manufacturer"));
  }

  /** Setting `manufacturer` to null is heard once, as undefined, and
      `getValue()` then reads undefined. */
  method NestedModelNulled(g: Graph, api: Api) returns (events: seq<Value>, value: Result<Value, AccessError>)
    requires IsSharedFixture(g)
    ensures events == [Undefined] && value == Success(Undefined)
  {
    var tracker := OpenManufacturerName(g, api);
    events, value := ManufacturerGoneHeard(tracker, SetAttr(Product, "manufacturer", Null));
  }

  method ManufacturerGoneHeard(tracker: Tracker, mu: Mutation) returns (events: seq<Value>, value: Result<Value, AccessError>)
    requires tracker.Valid() && tracker.InSync() && tracker.events == []
    requires tracker.accessor == ManufacturerName() && tracker.target == ModelRef(Product)
    requires tracker.currentValue == Str("Manufacturer 1")
    requires PropOf(tracker.hub.graph, Product, "manufacturer") == Undefined
    requires mu == UnsetAttr(Product, "manufacturer") || mu == SetAttr(Product, "manufacturer", Null)
    modifies tracker, tracker.hub
    ensures events == [Undefined] && value == Success(Undefined)
  {
    ManufacturerNameLengthFree();
    ManufacturerGone(tracker.api, tracker.hub.graph, mu);
    Heard(tracker, mu, Undefined);
    events := tracker.events;
    value := tracker.GetValue();
  }

  /** Replacing the manufacturer is heard once, with the new manufacturer's
      name; the tracker is then bound to the new manufacturer and the
      product only, and a later change of the first manufacturer's name is
      not heard. */
  method ParentModelReplaced(g: Graph, api: Api) returns (events: seq<Value>, bound: seq<Notice>, later: seq<Value>)
    requires IsSharedFixture(g)
    ensures events == [Str("Manufacturer 2")]
    ensures bound == [Notice(ModelSource(Manufacturer2), ChangeAttr("name")), Notice(ModelSource(Product), ChangeAttr("manufacturer"))]
    ensures later == events
  {
    var tracker := OpenManufacturerName(g, api);
    events, bound, later := ReplaceManufacturerHeard(tracker);
  }

  method ReplaceManufacturerHeard(tracker: Tracker) returns (events: seq<Value>, bound: seq<Notice>, later: seq<Value>)
    requires tracker.Valid() && tracker.InSync() && tracker.events == [] && tracker.id == 0
    requires tracker.accessor == ManufacturerName() && tracker.target == ModelRef(Product)
    requires tracker.currentValue == Str("Manufacturer 1")
    requires AttrOf(tracker.hub.graph, Manufacturer2, "name") == Str("Manufacturer 2")
    modifies tracker, tracker.hub
    ensures events == [Str("Manufacturer 2")]
    ensures bound == [Notice(ModelSource(Manufacturer2), ChangeAttr("name")), Notice(ModelSource(Product), ChangeAttr("manufacturer"))]
    ensures later == events
  {
    ManufacturerNameLengthFree();
    ManufacturerReplaced(tracker.api, tracker.hub.graph);
    Heard(tracker, SetAttr(Product, "manufacturer", ModelRef(Manufacturer2)), Str("Manufacturer 2"));
    events := tracker.events;
    bound, later := FirstManufacturerUnheard(tracker);
  }

  /** With the chain through the second manufacturer: what the tracker is
      bound to, and the events after a change of the first manufacturer's
      name. */
  method FirstManufacturerUnheard(tracker: Tracker) returns (bound: seq<Notice>, later: seq<Value>)
    requires tracker.Valid() && tracker.InSync() && tracker.id == 0
    requires tracker.accessor == ManufacturerName() && tracker.target == ModelRef(Product)
    requires Get(tracker.api, Manufacturer(), tracker.hub.graph, ModelRef(Product)) == Success(ModelRef(Manufacturer2))
    modifies tracker, tracker.hub
    ensures bound == [Notice(ModelSource(Manufacturer2), ChangeAttr("name")), Notice(ModelSource(Product), ChangeAttr("manufacturer"))]
    ensures later == old(tracker.events)
  {
    var h := tracker.hub.graph;
    ThroughSecondManufacturer(tracker.api, h);
    bound := Of(tracker.hub.subs, 0);
    var mu := SetAttr(Manufacturer1, "name", Str("New Name!!"));
    assert Writes(mu) == {AttrLoc(Manufacturer1, "name")};
    GetUnaffected(tracker.api, ManufacturerName(), h, ModelRef(Product), mu);
    ManufacturerNameLengthFree();
    Heard(tracker, mu, tracker.currentValue);
    later := tracker.events;
  }

  /** Giving the second manufacturer the first one's name, then swapping
      it in: nothing is heard. */
  method EqualReplacement(g: Graph, api: Api) returns (events: seq<Value>)
    requires IsSharedFixture(g)
    ensures events == []
  {
    var tracker := OpenManufacturerName(g, api);
    events := EqualReplacementHeard(tracker);
  }

  method EqualReplacementHeard(tracker: Tracker) returns (events: seq<Value>)
    requires tracker.Valid() && tracker.InSync() && tracker.events == []
    requires tracker.accessor == ManufacturerName() && tracker.target == ModelRef(Product)
    requires tracker.currentValue == Str("Manufacturer 1")
    requires AttrOf(tracker.hub.graph, Product, "manufacturer") == ModelRef(Manufacturer1)
    modifies tracker, tracker.hub
    ensures events == []
  {
    RenameSecondUnheard(tracker, Str("Manufacturer 1"));
    ManufacturerNameLengthFree();
    ManufacturerReplaced(tracker.api, tracker.hub.graph);
    Heard(tracker, SetAttr(Product, "manufacturer", ModelRef(Manufacturer2)), Str("Manufacturer 1"));
    events := tracker.events;
  }

  /** Renaming the second manufacturer while the chain runs through the
      first changes nothing the tracker sees. */
  method RenameSecondUnheard(tracker: Tracker, v: Value)
    requires tracker.Valid() && tracker.InSync() && v != Undefined && v != Null
    requires tracker.accessor == ManufacturerName() && tracker.target == ModelRef(Product)
    requires AttrOf(tracker.hub.graph, Product, "manufacturer") == ModelRef(Manufacturer1)
    modifies tracker, tracker.hub
    ensures tracker.Valid() && tracker.InSync()
    ensures tracker.events == old(tracker.events) && tracker.currentValue == old(tracker.currentValue)
    ensures HasAttr(tracker.hub.graph, Manufacturer2, "name") && AttrOf(tracker.hub.graph, Manufacturer2, "name") == v
  {
    var g := tracker.hub.graph;
    var rename := SetAttr(Manufacturer2, "name", v);
    ManufacturerNameLengthFree();
    ManufacturerOn(tracker.api, g);
    GetUnaffected(tracker.api, ManufacturerName(), g, ModelRef(Product), rename);
    ModelWriteEffect(g, Manufacturer2, "name", v);
    Heard(tracker, rename, tracker.currentValue);
  }

  // ---------------------------------------------------------------------
  // Bound to `reviews[1].title`
  // ---------------------------------------------------------------------

  /** Each of three changes of the title is heard. */
  method EachTitleChanged(g: Graph, api: Api) returns (events: seq<Value>)
    requires IsSharedFixture(g)
    ensures events == [Str("New Title 1!"), Str("New Title 2!"), Str("New Title 3!")]
  {
    var tracker := OpenReviewTitle(g, api);
    events := ThreeTitlesHeard(tracker);
  }

  method ThreeTitlesHeard(tracker: Tracker) returns (events: seq<Value>)
    requires tracker.Valid() && tracker.InSync() && tracker.events == []
    requires tracker.accessor == ReviewTitle() && tracker.target == ModelRef(Product)
    requires tracker.currentValue == Str("Review 2") && ReviewsInPlace(tracker.hub.graph)
    modifies tracker, tracker.hub
    ensures events == [Str("New Title 1!"), Str("New Title 2!"), Str("New Title 3!")]
  {
    ReviewTitleLengthFree();
    TitleHeard(tracker, Str("New Title 1!"));
    events := TwoMoreTitlesHeard(tracker);
  }

  /** The second and third changes, after the first was heard. */
  method TwoMoreTitlesHeard(tracker: Tracker) returns (events: seq<Value>)
    requires tracker.Valid() && tracker.InSync() && tracker.events == [Str("New Title 1!")]
    requires tracker.accessor == ReviewTitle() && tracker.target == ModelRef(Product) && LengthFree(tracker.accessor)
    requires tracker.currentValue == Str("New Title 1!") && ReviewsInPlace(tracker.hub.graph)
    modifies tracker, tracker.hub
    ensures events == [Str("New Title 1!"), Str("New Title 2!"), Str("New Title 3!")]
  {
    TitleHeard(tracker, Str("New Title 2!"));
    TitleHeard(tracker, Str("New Title 3!"));
    events := tracker.events;
  }

  /** One change of the second review's title, heard when it differs. */
  method TitleHeard(tracker: Tracker, v: Value)
    requires tracker.Valid() && tracker.InSync() && LengthFree(tracker.accessor)
    requires tracker.accessor == ReviewTitle() && tracker.target == ModelRef(Product)
    requires ReviewsInPlace(tracker.hub.graph) && v != Undefined && v != Null
    modifies tracker, tracker.hub
    ensures tracker.Valid() && tracker.InSync() && ReviewsInPlace(tracker.hub.graph)
    ensures tracker.currentValue == v
    ensures tracker.events == old(tracker.events) + (if v != old(tracker.currentValue) then [v] else [])
  {
    TitleAfterSet(tracker.api, tracker.hub.graph, v);
    Heard(tracker, SetAttr(Review2, "title", v), v);
  }

  /** `getValue()` reads the title of the second review. */
  method ItemValue(g: Graph, api: Api) returns (value: Result<Value, AccessError>)
    requires IsSharedFixture(g)
    ensures value == Success(Str("Review 2"))
  {
    var tracker := OpenReviewTitle(g, api);
    value := tracker.GetValue();
  }

  /** `setValue` writes the title of the second review (`modelAccess`). */
  method ItemAttrSet(g: Graph) returns (title: Value)
    requires IsSharedFixture(g)
    ensures title == Str("New Title!")
  {
    var tracker := OpenReviewTitle(g, ModelAccess);
    ReviewItemLinkReads(g);
    ReviewTitleWrite(g, Str("New Title!"));
    title := SetValueRead(tracker, Str("New Title!"), SetAttr(Review2, "title", Str("New Title!")));
  }

  /** Removing the second review is heard, with the third's title. */
  method ItemRemoved(g: Graph, api: Api) returns (events: seq<Value>)
    requires IsSharedFixture(g)
    ensures events == [Str("Review 3")]
  {
    var tracker := OpenReviewTitle(g, api);
    events := ItemRemovedHeard(tracker);
  }

  method ItemRemovedHeard(tracker: Tracker) returns (events: seq<Value>)
    requires tracker.Valid() && tracker.InSync() && tracker.events == []
    requires tracker.accessor == ReviewTitle() && tracker.target == ModelRef(Product)
    requires tracker.currentValue == Str("Review 2") && ReviewsInPlace(tracker.hub.graph)
    requires AttrOf(tracker.hub.graph, Review3, "title") == Str("Review 3")
    modifies tracker, tracker.hub
    ensures events == [Str("Review 3")]
  {
    ReviewTitleLengthFree();
    TitleAfterRemove(tracker.api, tracker.hub.graph);
    Heard(tracker, Delete(Reviews, 1), Str("Review 3"));
    events := tracker.events;
  }

  /** Adding a review that sorts into position 1 is heard, with its title. */
  method ItemAdded(g: Graph, api: Api) returns (events: seq<Value>)
    requires IsSharedFixture(g)
    ensures events == [Str("New Review!")]
  {
    var tracker := OpenReviewTitle(g, api);
    events := ItemAddedHeard(tracker);
  }

  method ItemAddedHeard(tracker: Tracker) returns (events: seq<Value>)
    requires tracker.Valid() && tracker.InSync() && tracker.events == []
    requires tracker.accessor == ReviewTitle() && tracker.target == ModelRef(Product)
    requires tracker.currentValue == Str("Review 2") && ReviewsInPlace(tracker.hub.graph)
    requires AttrOf(tracker.hub.graph, NewReview, "title") == Str("New Review!")
    modifies tracker, tracker.hub
    ensures events == [Str("New Review!")]
  {
    ReviewTitleLengthFree();
    TitleAfterAdd(tracker.api, tracker.hub.graph);
    Heard(tracker, Insert(Reviews, 1, NewReview), Str("New Review!"));
    events := tracker.events;
  }
}
