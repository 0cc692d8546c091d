/** The observable object graph a path is resolved against: Backbone models
    (attribute store plus own JavaScript properties), Backbone collections of
    models, and plain JavaScript objects and arrays. Every object is a
    reference, named by an id; a graph maps ids to the objects' states. */
module ObjectGraph {
  import opened Results

  /** A JavaScript value as far as path access can tell them apart. Strict
      equality (`===`) on references is identity, which is `==` on ids. */
  datatype Value =
    | Undefined
    | Null
    | Bool(b: bool)
    | Num(n: int)
    | Str(s: string)
    | Fn(f: nat)            // a function object, by identity
    | ModelRef(m: nat)      // an instance of Backbone.Model
    | CollRef(c: nat)       // an instance of Backbone.Collection
    | ObjRef(o: nat)        // a plain object
    | ArrRef(a: nat)        // a plain array

  /** JavaScript's falsy values (NaN is not modelled: numbers are integers). */
  predicate Falsy(v: Value) {
    v.Undefined? || v.Null? || v == Bool(false) || v == Num(0) || v == Str("")
  }

  /** A Backbone model: `attributes` and the object's own properties. */
  datatype ModelObj = ModelObj(attrs: map<string, Value>, props: map<string, Value>)

  datatype Graph = Graph(
    models: map<nat, ModelObj>,
    colls: map<nat, seq<nat>>,        // a collection holds models, in order
    objs: map<nat, map<string, Value>>,
    arrs: map<nat, seq<Value>>)

  /** `model.get(name)`: a missing attribute (or a missing model) reads as undefined. */
  function AttrOf(g: Graph, m: nat, name: string): Value {
    if m in g.models && name in g.models[m].attrs then g.models[m].attrs[name] else Undefined
  }

  function PropOf(g: Graph, m: nat, name: string): Value {
    if m in g.models && name in g.models[m].props then g.models[m].props[name] else Undefined
  }

  /** `model.has(name)`: Backbone's test that the attribute is neither
      null nor undefined. */
  predicate HasAttr(g: Graph, m: nat, name: string) {
    AttrOf(g, m, name) != Undefined && AttrOf(g, m, name) != Null
  }

  /** The attribute store holds the key (whatever its value). */
  predicate InAttrs(g: Graph, m: nat, name: string) {
    m in g.models && name in g.models[m].attrs
  }

  predicate HasProp(g: Graph, m: nat, name: string) {
    m in g.models && name in g.models[m].props
  }

  function Items(g: Graph, c: nat): seq<nat> {
    if c in g.colls then g.colls[c] else []
  }

  function Elements(g: Graph, a: nat): seq<Value> {
    if a in g.arrs then g.arrs[a] else []
  }

  function FieldOf(g: Graph, o: nat, name: string): Value {
    if o in g.objs && name in g.objs[o] then g.objs[o][name] else Undefined
  }

  /** `collection.at(i)`: the model at position i, or undefined out of range. */
  function At(g: Graph, c: nat, i: nat): Value {
    if i < |Items(g, c)| then ModelRef(Items(g, c)[i]) else Undefined
  }

  /** `array[i]`: out of range reads as undefined. */
  function Element(g: Graph, a: nat, i: nat): Value {
    if i < |Elements(g, a)| then Elements(g, a)[i] else Undefined
  }

  // ---------------------------------------------------------------------
  // Event sources: the objects a tracker can subscribe to, and the events
  // Backbone fires on them.
  // ---------------------------------------------------------------------

  datatype Source = ModelSource(m: nat) | CollSource(c: nat)

  datatype Event = ChangeAttr(name: string) | Add | Remove | Reset

  /** One event fired on one source. */
  datatype Notice = Notice(source: Source, event: Event)

  /** A mutation of the graph. The first five go through Backbone and may
      fire an event; the last three are plain JavaScript assignments, which
      nobody is told about. */
  datatype Mutation =
    | SetAttr(m: nat, name: string, v: Value)       // model.set({name: v})
    | UnsetAttr(m: nat, name: string)               // model.unset(name)
    | Insert(c: nat, pos: nat, item: nat)           // collection.add(item), landing at pos
    | Delete(c: nat, pos: nat)                      // collection.remove(collection.at(pos))
    | ResetColl(c: nat, items: seq<nat>)            // collection.reset(items)
    | SetProp(m: nat, name: string, v: Value)       // model[name] = v
    | SetField(o: nat, name: string, v: Value)      // object[name] = v
    | SetElement(a: nat, i: nat, v: Value)          // array[i] = v

  predicate Observable(mu: Mutation) {
    !(mu.SetProp? || mu.SetField? || mu.SetElement?)
  }

  function WithAttrs(g: Graph, m: nat, attrs: map<string, Value>): Graph {
    var cur := if m in g.models then g.models[m] else ModelObj(map[], map[]);
    g.(models := g.models[m := cur.(attrs := attrs)])
  }

  function WithProps(g: Graph, m: nat, props: map<string, Value>): Graph {
    var cur := if m in g.models then g.models[m] else ModelObj(map[], map[]);
    g.(models := g.models[m := cur.(props := props)])
  }

  function WithItems(g: Graph, c: nat, items: seq<nat>): Graph {
    g.(colls := g.colls[c := items])
  }

  function AttrsOf(g: Graph, m: nat): map<string, Value> {
    if m in g.models then g.models[m].attrs else map[]
  }

  function PropsOf(g: Graph, m: nat): map<string, Value> {
    if m in g.models then g.models[m].props else map[]
  }

  function FieldsOf(g: Graph, o: nat): map<string, Value> {
    if o in g.objs then g.objs[o] else map[]
  }

  /** `array[i] = v`: an index past the end grows the array, the gap
      reading as undefined. */
  function Assigned(s: seq<Value>, i: nat, v: Value): (r: seq<Value>)
    ensures |r| == if i < |s| then |s| else i + 1
    ensures r[i] == v
    ensures forall k :: 0 <= k < |r| && k != i ==> r[k] == if k < |s| then s[k] else Undefined
  {
    if i < |s| then s[i := v] else s + seq(i - |s|, _ => Undefined) + [v]
  }

  /** The graph after a mutation. A position past the end of a collection
      inserts at the end; deleting a position past the end changes nothing. */
  function Apply(g: Graph, mu: Mutation): Graph {
    match mu
    case SetAttr(m, name, v) => WithAttrs(g, m, AttrsOf(g, m)[name := v])
    case UnsetAttr(m, name) => WithAttrs(g, m, AttrsOf(g, m) - {name})
    case Insert(c, pos, item) =>
      var s := Items(g, c);
      var p := if pos <= |s| then pos else |s|;
      WithItems(g, c, s[..p] + [item] + s[p..])
    case Delete(c, pos) =>
      var s := Items(g, c);
      if pos < |s| then WithItems(g, c, s[..pos] + s[pos + 1..]) else g
    case ResetColl(c, items) => WithItems(g, c, items)
    case SetProp(m, name, v) => WithProps(g, m, PropsOf(g, m)[name := v])
    case SetField(o, name, v) => g.(objs := g.objs[o := FieldsOf(g, o)[name := v]])
    case SetElement(a, i, v) => g.(arrs := g.arrs[a := Assigned(Elements(g, a), i, v)])
  }

  /** The event Backbone fires for a mutation, if any: none when a set leaves
      the attribute's value as it was, when an unset finds no such key, when
      a removal finds nothing to remove, and for plain assignments. */
  function Fired(g: Graph, mu: Mutation): Option<Notice> {
    match mu
    case SetAttr(m, name, v) =>
      if AttrOf(g, m, name) != v then Some(Notice(ModelSource(m), ChangeAttr(name))) else None
    case UnsetAttr(m, name) =>
      if InAttrs(g, m, name) then Some(Notice(ModelSource(m), ChangeAttr(name))) else None
    case Insert(c, _, _) => Some(Notice(CollSource(c), Add))
    case Delete(c, pos) => if pos < |Items(g, c)| then Some(Notice(CollSource(c), Remove)) else None
    case ResetColl(c, _) => Some(Notice(CollSource(c), Reset))
    case SetProp(_, _, _) => None
    case SetField(_, _, _) => None
    case SetElement(_, _, _) => None
  }

  /** `collection.remove` at position p: the models before p keep their
      positions and every later one moves down by one, so `at(i)` for i >= p
      is what `at(i + 1)` was. Removing past the end changes nothing. */
  lemma AtAfterDelete(g: Graph, c: nat, p: nat, i: nat)
    ensures i < p ==> At(Apply(g, Delete(c, p)), c, i) == At(g, c, i)
    ensures p <= i ==> At(Apply(g, Delete(c, p)), c, i) == At(g, c, i + 1)
  {
  }

  /** `collection.add` landing at position p (at the end when p is past it):
      the models before p keep their positions, `at(p)` is the new model and
      every later one moves up by one. */
  lemma AtAfterInsert(g: Graph, c: nat, p: nat, item: nat, i: nat)
    ensures var q := if p <= |Items(g, c)| then p else |Items(g, c)|;
      (i < q ==> At(Apply(g, Insert(c, p, item)), c, i) == At(g, c, i)) &&
      (i == q ==> At(Apply(g, Insert(c, p, item)), c, i) == ModelRef(item)) &&
      (q < i ==> At(Apply(g, Insert(c, p, item)), c, i) == At(g, c, i - 1))
  {
  }

  /** A model write changes the one slot it names and not its counterpart. */
  lemma ModelWriteEffect(g: Graph, m: nat, name: string, v: Value)
    ensures AttrOf(Apply(g, SetAttr(m, name, v)), m, name) == v
    ensures PropOf(Apply(g, SetAttr(m, name, v)), m, name) == PropOf(g, m, name)
    ensures PropOf(Apply(g, SetProp(m, name, v)), m, name) == v
    ensures AttrOf(Apply(g, SetProp(m, name, v)), m, name) == AttrOf(g, m, name)
  {
  }

  /** `unset` removes the attribute and leaves the property. */
  lemma ModelUnsetEffect(g: Graph, m: nat, name: string)
    ensures AttrOf(Apply(g, UnsetAttr(m, name)), m, name) == Undefined
    ensures PropOf(Apply(g, UnsetAttr(m, name)), m, name) == PropOf(g, m, name)
  {
  }

  // ---------------------------------------------------------------------
  // Locations: the parts of the graph a read depends on and a write changes
  // ---------------------------------------------------------------------

  datatype Loc =
    | AttrLoc(m: nat, name: string)
    | PropLoc(m: nat, name: string)
    | CollLoc(c: nat)
    | FieldLoc(o: nat, name: string)
    | ArrLoc(a: nat)

  /** What a read sees at a location. */
  datatype Observed = Single(v: Value) | ModelList(ids: seq<nat>) | ValueList(vs: seq<Value>)

  function Observe(g: Graph, l: Loc): Observed {
    match l
    case AttrLoc(m, name) => Single(AttrOf(g, m, name))
    case PropLoc(m, name) => Single(PropOf(g, m, name))
    case CollLoc(c) => ModelList(Items(g, c))
    case FieldLoc(o, name) => Single(FieldOf(g, o, name))
    case ArrLoc(a) => ValueList(Elements(g, a))
  }

  function Writes(mu: Mutation): (w: set<Loc>)
    ensures |w| == 1
  {
    match mu
    case SetAttr(m, name, _) => {AttrLoc(m, name)}
    case UnsetAttr(m, name) => {AttrLoc(m, name)}
    case Insert(c, _, _) => {CollLoc(c)}
    case Delete(c, _) => {CollLoc(c)}
    case ResetColl(c, _) => {CollLoc(c)}
    case SetProp(m, name, _) => {PropLoc(m, name)}
    case SetField(o, name, _) => {FieldLoc(o, name)}
    case SetElement(a, _, _) => {ArrLoc(a)}
  }

  /** A mutation changes nothing outside the location it writes. */
  lemma UnwrittenUnchanged(g: Graph, mu: Mutation, l: Loc)
    requires l !in Writes(mu)
    ensures Observe(Apply(g, mu), l) == Observe(g, l)
  {
  }

  /** A mutation that fires nothing leaves every location as it was, unless
      it is a plain assignment. */
  lemma SilentMutationChangesNothing(g: Graph, mu: Mutation, l: Loc)
    requires Observable(mu) && Fired(g, mu).None?
    ensures Observe(Apply(g, mu), l) == Observe(g, l)
  {
  }

  /** A Backbone mutation changes a location only by firing, on the owner of
      that location, the event that names it. */
  lemma ChangeIsFired(g: Graph, mu: Mutation, l: Loc)
    requires Observable(mu) && Observe(Apply(g, mu), l) != Observe(g, l)
    ensures Fired(g, mu).Some?
    ensures l.AttrLoc? ==> Fired(g, mu).value == Notice(ModelSource(l.m), ChangeAttr(l.name))
    ensures l.CollLoc? ==> Fired(g, mu).value.source == CollSource(l.c)
    ensures l.AttrLoc? || l.CollLoc?
  {
    if l !in Writes(mu) {
      UnwrittenUnchanged(g, mu, l);
    }
  }
}
