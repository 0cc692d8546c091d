/** The accessor chain built from a parsed path: `RootAccessor`, then one
    `AttrAccessor` or `CollectionItemAccessor` per node, each holding its
    parent. `get` resolves the value through the parent link;
    `bindToTarget` lists the (source, events) subscriptions the value
    currently depends on. Both dialects are covered: `ModelAttrAccessor`
    (whose code is modelled line by line) and the later `modelAccess`,
    which also reads through plain objects and arrays and can `set`. */
module Accessor {
  import opened Results
  import opened ObjectGraph
  import opened PathSyntax

  /** An accessor: the root, or a node's accessor over its parent. */
  datatype Link = Root | Step(parent: Link, node: Node)

  /** The nodes an accessor was built from, first node first. */
  function Nodes(l: Link): seq<Node> {
    match l
    case Root => []
    case Step(p, n) => Nodes(p) + [n]
  }

  /** `_.reduce(expressions, ..., new RootAccessor())`: each node wraps the
      accessor built so far. */
  function Fold(parent: Link, ns: seq<Node>): Link
    decreases |ns|
  {
    if ns == [] then parent else Fold(Step(parent, ns[0]), ns[1..])
  }

  lemma {:induction false} NodesOfFold(parent: Link, ns: seq<Node>)
    ensures Nodes(Fold(parent, ns)) == Nodes(parent) + ns
    decreases |ns|
  {
    if ns != [] {
      NodesOfFold(Step(parent, ns[0]), ns[1..]);
      assert Nodes(parent) + [ns[0]] + ns[1..] == Nodes(parent) + ns;
    }
  }

  lemma {:induction false} FoldSnoc(parent: Link, ns: seq<Node>, n: Node)
    ensures Fold(parent, ns + [n]) == Step(Fold(parent, ns), n)
    decreases |ns|
  {
    if ns == [] {
      assert [] + [n] == [n];
    } else {
      assert (ns + [n])[1..] == ns[1..] + [n];
      FoldSnoc(Step(parent, ns[0]), ns[1..], n);
    }
  }

  /** Folding an accessor's own nodes over the root rebuilds it: accessors
      and node sequences are in one-to-one correspondence. */
  lemma {:induction false} FoldOfNodes(l: Link)
    ensures Fold(Root, Nodes(l)) == l
  {
    match l
    case Root =>
    case Step(p, n) =>
      FoldSnoc(Root, Nodes(p), n);
      FoldOfNodes(p);
  }

  /** `accessorFor(path)`: parse, then fold. A syntax error is the parser's. */
  function AccessorFor(path: string, api: Api): (r: Result<Link, SyntaxError>)
    ensures r.Failure? <==> Parse(path, api).Failure?
    ensures r.Failure? ==> r.error == Parse(path, api).error
    ensures r.Success? ==> Nodes(r.value) == Parse(path, api).value
  {
    match Parse(path, api)
    case Failure(e) => Failure(e)
    case Success(ns) =>
      NodesOfFold(Root, ns);
      Success(Fold(Root, ns))
  }

  // ---------------------------------------------------------------------
  // get
  // ---------------------------------------------------------------------

  /** The errors `get` and `set` throw. */
  datatype AccessError =
    | NotAModel(text: string)     // attribute of something that is not a model
    | NotACollection              // index into something that is not an array or collection
    | NotAnObject(text: string)   // `modelAccess`: no such name to read or write
    | CannotSetItem               // `modelAccess`: a collection's slot cannot be assigned
    | CannotSetRoot               // an empty path names no slot to assign

  /** One attribute link given its parent's value. `ModelAttrAccessor`:
      a falsy parent reads as undefined, a model's attribute is read with
      `get`, anything else is an error. `modelAccess` also reads a model's
      own property when it has no such attribute, the field of a plain
      object and the `length` of an array or collection. */
  function AttrStep(api: Api, parent: Value, name: string, text: string, g: Graph): Result<Value, AccessError> {
    if Falsy(parent) then Success(Undefined)
    else if api == ModelAttrAccessor then
      if parent.ModelRef? then Success(AttrOf(g, parent.m, name)) else Failure(NotAModel(text))
    else
      match parent
      case ModelRef(m) => Success(if HasAttr(g, m, name) then AttrOf(g, m, name) else PropOf(g, m, name))
      case ObjRef(o) => Success(FieldOf(g, o, name))
      case ArrRef(a) => Success(if name == "length" then Num(|Elements(g, a)|) else Undefined)
      case CollRef(c) => Success(if name == "length" then Num(|Items(g, c)|) else Undefined)
      case _ => Failure(NotAnObject(text))
  }

  /** One index link given its parent's value: an array's element or a
      collection's `at`, both undefined out of range. Every other parent,
      undefined included, is an error, in both dialects. */
  function ItemStep(api: Api, parent: Value, index: nat, g: Graph): Result<Value, AccessError> {
    match parent
    case ArrRef(a) => Success(Element(g, a, index))
    case CollRef(c) => Success(At(g, c, index))
    case _ => Failure(NotACollection)
  }

  function Resolve(api: Api, parent: Value, n: Node, g: Graph): Result<Value, AccessError> {
    match n
    case AttributeAccess(name, text) => AttrStep(api, parent, name, text, g)
    case CollectionItemAccess(index, _) => ItemStep(api, parent, index, g)
  }

  /** `accessor.get(target)`. */
  function Get(api: Api, l: Link, g: Graph, target: Value): Result<Value, AccessError> {
    match l
    case Root => Success(target)
    case Step(p, n) =>
      match Get(api, p, g, target)
      case Failure(e) => Failure(e)
      case Success(v) => Resolve(api, v, n, g)
  }

  // ---------------------------------------------------------------------
  // bindToTarget
  // ---------------------------------------------------------------------

  /** A `TargetEventBinding`: the source and the events bound on it. */
  datatype Binding = Binding(source: Source, events: seq<Event>)

  /** A link's own binding given its parent's value: `change:name` on a
      model, `add`, `remove` and `reset` on a collection, nothing otherwise. */
  function OwnBinding(parent: Value, n: Node): seq<Binding> {
    match n
    case AttributeAccess(name, _) =>
      if parent.ModelRef? then [Binding(ModelSource(parent.m), [ChangeAttr(name)])] else []
    case CollectionItemAccess(_, _) =>
      if parent.CollRef? then [Binding(CollSource(parent.c), [Add, Remove, Reset])] else []
  }

  /** `accessor.bindToTarget(target)`: the link's own binding, then its
      parent's. It fails when a parent's `get` does. */
  function Bindings(api: Api, l: Link, g: Graph, target: Value): Result<seq<Binding>, AccessError> {
    match l
    case Root => Success([])
    case Step(p, n) =>
      match Get(api, p, g, target)
      case Failure(e) => Failure(e)
      case Success(v) =>
        match Bindings(api, p, g, target)
        case Failure(e) => Failure(e)
        case Success(bs) => Success(OwnBinding(v, n) + bs)
  }

  /** A notice reaches a subscriber holding these bindings. */
  predicate Notifies(bs: seq<Binding>, notice: Notice) {
    exists b :: b in bs && b.source == notice.source && notice.event in b.events
  }

  /** Binding needs only the parents to resolve: whenever `get` succeeds so
      does `bindToTarget`, and a link binds exactly when its parent resolves. */
  lemma {:induction false} BindingsDefined(api: Api, l: Link, g: Graph, target: Value)
    ensures Get(api, l, g, target).Success? ==> Bindings(api, l, g, target).Success?
    ensures l.Step? ==> (Bindings(api, l, g, target).Success? <==> Get(api, l.parent, g, target).Success?)
  {
    if l.Step? {
      BindingsDefined(api, l.parent, g, target);
    }
  }

  /** At most one binding per link, each `change:name` on a model or the
      three collection events on a collection; the root binds nothing. */
  lemma {:induction false} BindingsShape(api: Api, l: Link, g: Graph, target: Value)
    requires Bindings(api, l, g, target).Success?
    ensures |Bindings(api, l, g, target).value| <= |Nodes(l)|
    ensures forall b :: b in Bindings(api, l, g, target).value ==>
      (b.source.ModelSource? && |b.events| == 1 && b.events[0].ChangeAttr?) ||
      (b.source.CollSource? && b.events == [Add, Remove, Reset])
  {
    if l.Step? {
      BindingsShape(api, l.parent, g, target);
    }
  }

  // ---------------------------------------------------------------------
  // What a chain reads, and the frame of `get`
  // ---------------------------------------------------------------------

  /** The locations a link's own step reads, given its parent's value. */
  function OwnReads(api: Api, parent: Value, n: Node): set<Loc> {
    match parent
    case ModelRef(m) =>
      if n.AttributeAccess? then
        {AttrLoc(m, n.name)} + (if api == ModelAccess then {PropLoc(m, n.name)} else {})
      else {}
    case ObjRef(o) => if n.AttributeAccess? then {FieldLoc(o, n.name)} else {}
    case CollRef(c) => {CollLoc(c)}
    case ArrRef(a) => {ArrLoc(a)}
    case _ => {}
  }

  function Reads(api: Api, l: Link, g: Graph, target: Value): set<Loc> {
    match l
    case Root => {}
    case Step(p, n) =>
      Reads(api, p, g, target) +
      (match Get(api, p, g, target) case Success(v) => OwnReads(api, v, n) case Failure(_) => {})
  }

  predicate AgreeOn(g: Graph, h: Graph, locs: set<Loc>) {
    forall x :: x in locs ==> Observe(h, x) == Observe(g, x)
  }

  lemma ResolveFrame(api: Api, v: Value, n: Node, g: Graph, h: Graph)
    requires AgreeOn(g, h, OwnReads(api, v, n))
    ensures Resolve(api, v, n, h) == Resolve(api, v, n, g)
  {
    match v
    case ModelRef(m) =>
      if n.AttributeAccess? {
        assert Observe(h, AttrLoc(m, n.name)) == Observe(g, AttrLoc(m, n.name));
        if api == ModelAccess {
          assert Observe(h, PropLoc(m, n.name)) == Observe(g, PropLoc(m, n.name));
        }
      }
    case ObjRef(o) =>
      if n.AttributeAccess? {
        assert Observe(h, FieldLoc(o, n.name)) == Observe(g, FieldLoc(o, n.name));
      }
    case CollRef(c) => assert Observe(h, CollLoc(c)) == Observe(g, CollLoc(c));
    case ArrRef(a) => assert Observe(h, ArrLoc(a)) == Observe(g, ArrLoc(a));
    case _ =>
  }

  /** `get` depends on nothing but what it reads: a graph that agrees on
      those locations gives the same value and reads the same locations. */
  lemma {:induction false} GetFrame(api: Api, l: Link, g: Graph, h: Graph, target: Value)
    requires AgreeOn(g, h, Reads(api, l, g, target))
    ensures Get(api, l, h, target) == Get(api, l, g, target)
    ensures Reads(api, l, h, target) == Reads(api, l, g, target)
  {
    match l
    case Root =>
    case Step(p, n) =>
      GetFrame(api, p, g, h, target);
      match Get(api, p, g, target)
      case Failure(_) =>
      case Success(v) => ResolveFrame(api, v, n, g, h);
  }

  /** A mutation that writes nothing the chain reads leaves `get` unchanged. */
  lemma GetUnaffected(api: Api, l: Link, g: Graph, target: Value, mu: Mutation)
    requires Writes(mu) !! Reads(api, l, g, target)
    ensures Get(api, l, Apply(g, mu), target) == Get(api, l, g, target)
  {
    forall x | x in Reads(api, l, g, target)
      ensures Observe(Apply(g, mu), x) == Observe(g, x)
    {
      UnwrittenUnchanged(g, mu, x);
    }
    GetFrame(api, l, g, Apply(g, mu), target);
  }

  // ---------------------------------------------------------------------
  // The bindings are complete
  // ---------------------------------------------------------------------

  /** No attribute link named `length`: the one read of `modelAccess` (a
      collection's length) that no binding covers. */
  predicate LengthFree(l: Link) {
    match l
    case Root => true
    case Step(p, n) => LengthFree(p) && !(n.AttributeAccess? && n.name == "length")
  }

  lemma NotifiesConcat(own: seq<Binding>, bs: seq<Binding>, notice: Notice)
    ensures Notifies(own + bs, notice) <==> Notifies(own, notice) || Notifies(bs, notice)
  {
    if Notifies(own, notice) {
      var b :| b in own && b.source == notice.source && notice.event in b.events;
      assert b in own + bs;
    }
    if Notifies(bs, notice) {
      var b :| b in bs && b.source == notice.source && notice.event in b.events;
      assert b in own + bs;
    }
  }

  /** A link's own step is unchanged by a Backbone mutation that the link's
      own binding does not hear. */
  lemma OwnStepUnheard(api: Api, v: Value, n: Node, g: Graph, mu: Mutation)
    requires Observable(mu) && (api == ModelAttrAccessor || !(n.AttributeAccess? && n.name == "length"))
    requires Fired(g, mu).None? || !Notifies(OwnBinding(v, n), Fired(g, mu).value)
    ensures Resolve(api, v, n, Apply(g, mu)) == Resolve(api, v, n, g)
  {
    var h := Apply(g, mu);
    match v
    case ModelRef(m) =>
      if n.AttributeAccess? {
        ModelStepUnheard(api, m, n, g, mu);
      }
    case CollRef(c) =>
      if n.CollectionItemAccess? {
        CollStepUnheard(api, c, n, g, mu);
      }
    case ObjRef(o) =>
      if n.AttributeAccess? {
        UnwrittenUnchanged(g, mu, FieldLoc(o, n.name));
      }
    case ArrRef(a) => UnwrittenUnchanged(g, mu, ArrLoc(a));
    case _ =>
  }

  /** `OwnStepUnheard` on a model: an unheard mutation leaves both the
      attribute and the property of that name as they were. */
  lemma ModelStepUnheard(api: Api, m: nat, n: Node, g: Graph, mu: Mutation)
    requires Observable(mu) && n.AttributeAccess?
    requires Fired(g, mu).None? || !Notifies(OwnBinding(ModelRef(m), n), Fired(g, mu).value)
    ensures Observe(Apply(g, mu), AttrLoc(m, n.name)) == Observe(g, AttrLoc(m, n.name))
    ensures Observe(Apply(g, mu), PropLoc(m, n.name)) == Observe(g, PropLoc(m, n.name))
  {
    var h := Apply(g, mu);
    var b := Binding(ModelSource(m), [ChangeAttr(n.name)]);
    assert b in OwnBinding(ModelRef(m), n);
    if Observe(h, AttrLoc(m, n.name)) != Observe(g, AttrLoc(m, n.name)) {
      ChangeIsFired(g, mu, AttrLoc(m, n.name));
      assert false;
    }
    if Observe(h, PropLoc(m, n.name)) != Observe(g, PropLoc(m, n.name)) {
      ChangeIsFired(g, mu, PropLoc(m, n.name));
    }
  }

  /** `OwnStepUnheard` on a collection: an unheard mutation leaves its
      items as they were. */
  lemma CollStepUnheard(api: Api, c: nat, n: Node, g: Graph, mu: Mutation)
    requires Observable(mu) && n.CollectionItemAccess?
    requires Fired(g, mu).None? || !Notifies(OwnBinding(CollRef(c), n), Fired(g, mu).value)
    ensures Observe(Apply(g, mu), CollLoc(c)) == Observe(g, CollLoc(c))
  {
    var h := Apply(g, mu);
    var b := Binding(CollSource(c), [Add, Remove, Reset]);
    assert b in OwnBinding(CollRef(c), n);
    if Observe(h, CollLoc(c)) != Observe(g, CollLoc(c)) {
      ChangeIsFired(g, mu, CollLoc(c));
      assert false;
    }
  }

  /** A Backbone mutation that no current binding hears changes neither the
      value nor the bindings: whatever changes a chain's value is heard. */
  lemma {:induction false} UnheardKeepsChain(api: Api, l: Link, g: Graph, target: Value, mu: Mutation)
    requires Observable(mu) && (api == ModelAttrAccessor || LengthFree(l))
    requires Bindings(api, l, g, target).Success?
    requires Fired(g, mu).None? || !Notifies(Bindings(api, l, g, target).value, Fired(g, mu).value)
    ensures Get(api, l, Apply(g, mu), target) == Get(api, l, g, target)
    ensures Bindings(api, l, Apply(g, mu), target) == Bindings(api, l, g, target)
  {
    match l
    case Root =>
    case Step(p, n) =>
      var v := Get(api, p, g, target).value;
      var own := OwnBinding(v, n);
      var bs := Bindings(api, p, g, target).value;
      if Fired(g, mu).Some? {
        NotifiesConcat(own, bs, Fired(g, mu).value);
      }
      UnheardKeepsChain(api, p, g, target, mu);
      OwnStepUnheard(api, v, n, g, mu);
  }

  /** Completeness of `bindToTarget`: a Backbone mutation that changes what
      the chain reads fires an event that one of its bindings hears. */
  lemma ChangeIsHeard(api: Api, l: Link, g: Graph, target: Value, mu: Mutation)
    requires Observable(mu) && (api == ModelAttrAccessor || LengthFree(l))
    requires Bindings(api, l, g, target).Success?
    requires Get(api, l, Apply(g, mu), target) != Get(api, l, g, target)
    ensures Fired(g, mu).Some? && Notifies(Bindings(api, l, g, target).value, Fired(g, mu).value)
  {
    if Fired(g, mu).None? || !Notifies(Bindings(api, l, g, target).value, Fired(g, mu).value) {
      UnheardKeepsChain(api, l, g, target, mu);
    }
  }

  // ---------------------------------------------------------------------
  // set (modelAccess)
  // ---------------------------------------------------------------------

  /** The write `set` makes at a link given its parent's value. On a model:
      an attribute if `has` says so; otherwise an own property that is not
      a function; otherwise a new attribute. On a plain object its field; on
      an array its element. A collection's slot cannot be assigned. */
  function SetStep(parent: Value, n: Node, v: Value, g: Graph): Result<Mutation, AccessError> {
    match n
    case AttributeAccess(name, text) =>
      (match parent
       case ModelRef(m) =>
         if !HasAttr(g, m, name) && HasProp(g, m, name) && !PropOf(g, m, name).Fn? then Success(SetProp(m, name, v))
         else Success(SetAttr(m, name, v))
       case ObjRef(o) => Success(SetField(o, name, v))
       case _ => Failure(NotAnObject(text)))
    case CollectionItemAccess(index, _) =>
      (match parent
       case ArrRef(a) => Success(SetElement(a, index, v))
       case CollRef(_) => Failure(CannotSetItem)
       case _ => Failure(NotACollection))
  }

  /** `accessor.set(target, v)`: resolve the parent, then write the leaf. */
  function Set(l: Link, g: Graph, target: Value, v: Value): Result<Mutation, AccessError> {
    match l
    case Root => Failure(CannotSetRoot)
    case Step(p, n) =>
      match Get(ModelAccess, p, g, target)
      case Failure(e) => Failure(e)
      case Success(pv) => SetStep(pv, n, v, g)
  }

  /** Set, then get: the value written is the value read, at any depth,
      provided the write does not disturb what the parent chain reads. */
  lemma SetThenGet(l: Link, g: Graph, target: Value, v: Value)
    requires l.Step? && Set(l, g, target, v).Success?
    requires Writes(Set(l, g, target, v).value) !! Reads(ModelAccess, l.parent, g, target)
    requires v != Undefined && v != Null
    ensures Get(ModelAccess, l, Apply(g, Set(l, g, target, v).value), target) == Success(v)
  {
    var mu := Set(l, g, target, v).value;
    GetUnaffected(ModelAccess, l.parent, g, target, mu);
    var pv := Get(ModelAccess, l.parent, g, target).value;
    assert mu == SetStep(pv, l.node, v, g).value;
    var h := Apply(g, mu);
    assert Get(ModelAccess, l, h, target) == Resolve(ModelAccess, pv, l.node, h);
    StepReadsBack(pv, l.node, g, v);
  }

  /** One step of `SetThenGet`: what `set` writes below a parent value is
      what `get` then resolves there. */
  lemma StepReadsBack(pv: Value, n: Node, g: Graph, v: Value)
    requires SetStep(pv, n, v, g).Success? && v != Undefined && v != Null
    ensures Resolve(ModelAccess, pv, n, Apply(g, SetStep(pv, n, v, g).value)) == Success(v)
  {
    if pv.ModelRef? {
      ModelWriteEffect(g, pv.m, n.name, v);
    }
  }

  /** The three cases of setting a name on a model, as seen afterwards:
      the attribute is written unless the model lacks it and has a property
      of that name that is not a function, in which case the property is. */
  lemma SetModelName(p: Link, name: string, text: string, g: Graph, target: Value, v: Value, m: nat)
    requires Get(ModelAccess, p, g, target) == Success(ModelRef(m))
    ensures Set(Step(p, AttributeAccess(name, text)), g, target, v).Success?
    ensures var h := Apply(g, Set(Step(p, AttributeAccess(name, text)), g, target, v).value);
      if !HasAttr(g, m, name) && HasProp(g, m, name) && !PropOf(g, m, name).Fn? then
        PropOf(h, m, name) == v && AttrOf(h, m, name) == AttrOf(g, m, name)
      else
        AttrOf(h, m, name) == v && PropOf(h, m, name) == PropOf(g, m, name)
  {
    assert Set(Step(p, AttributeAccess(name, text)), g, target, v)
        == SetStep(ModelRef(m), AttributeAccess(name, text), v, g);
    ModelWriteEffect(g, m, name, v);
  }

  /** Assigning an index: a collection's slot is an error, an array's
      element is replaced (the array grows when the index is past its end)
      and every other element is kept. */
  lemma SetIndex(p: Link, index: nat, text: string, g: Graph, target: Value, v: Value)
    requires Get(ModelAccess, p, g, target).Success?
    ensures var pv := Get(ModelAccess, p, g, target).value;
      var r := Set(Step(p, CollectionItemAccess(index, text)), g, target, v);
      (pv.CollRef? ==> r == Failure(CannotSetItem)) &&
      (pv.ArrRef? ==>
        r.Success? &&
        (var h := Apply(g, r.value);
         Element(h, pv.a, index) == v &&
         forall k :: 0 <= k < |Elements(h, pv.a)| && k != index ==> Element(h, pv.a, k) == Element(g, pv.a, k)))
  {
  }
}
