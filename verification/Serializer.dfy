/** `InternalClassSerializer`: an object graph, shared or cyclic, to a tree and back.

    Plain objects on the way from the root are remembered, and an edge back to one of them
    is cut. Arrays and lists are not remembered; nor are objects of a value type that stand in
    a field or an element, since every read boxes them anew and `visited` goes by reference.
    `stack` is the call depth available. */
module Serializer {
  import opened Cache

  datatype Scalar = Number(n: int) | Text(s: string)

  const MARK := Text("[Circular Reference]")

  /** The kind of a type is what the code tests: simple, array, list or anything else. */
  datatype Type = Simple(name: nat) | Array(name: nat) | List(name: nat) | Plain(name: nat)

  /** A field of an object: its name, its declared type, and the object it refers to. */
  datatype Field = Field(name: string, declared: Type, target: Option<nat>)

  datatype Node =
    | SimpleNode(name: nat, value: Scalar)
    | ArrayNode(name: nat, elems: seq<Option<nat>>)
    | ListNode(name: nat, elems: seq<Option<nat>>)
    | PlainNode(name: nat, fields: seq<Field>)
    | ValueNode(name: nat, fields: seq<Field>)       // of a value type, and not boxed where it stands

  type Graph = seq<Node>

  datatype Json = Null | Object(typ: Type, value: JValue)
  datatype JValue = NullValue | ScalarValue(s: Scalar) | ArrayValue(items: seq<Json>) | FieldsValue(fields: seq<JField>)
  datatype JField = JField(name: string, value: Json)

  /** What `Deserialize` builds. */
  datatype Tree =
    | TNull
    | TSimple(value: Scalar)
    | TArray(name: nat, items: seq<Tree>)
    | TList(name: nat, items: seq<Tree>)
    | TPlain(name: nat, fields: seq<TField>)
  datatype TField = TField(name: string, value: Tree)

  predicate Points(g: Graph, r: Option<nat>) {
    r.Some? ==> r.value < |g|
  }

  predicate AllPoint(g: Graph, rs: seq<Option<nat>>) {
    forall i :: 0 <= i < |rs| ==> Points(g, rs[i])
  }

  predicate FieldsPoint(g: Graph, fs: seq<Field>) {
    forall i :: 0 <= i < |fs| ==> Points(g, fs[i].target)
  }

  /** No dangling references. */
  predicate Closed(g: Graph) {
    forall n :: 0 <= n < |g| ==>
      match g[n]
      case SimpleNode(_, _) => true
      case ArrayNode(_, elems) => AllPoint(g, elems)
      case ListNode(_, elems) => AllPoint(g, elems)
      case PlainNode(_, fields) => FieldsPoint(g, fields)
      case ValueNode(_, fields) => FieldsPoint(g, fields)
  }

  // ---- The code, as functions ----

  /** `SerializeFieldsInternal`; `visited` holds the plain objects being serialised. `None`: the stack overflowed. */
  function Serialize(g: Graph, n: nat, visited: set<nat>, stack: nat): Option<Json>
    requires Closed(g) && n < |g|
    decreases stack, 0
  {
    if stack == 0 then None else
    match g[n]
    case SimpleNode(t, v) => Some(Object(Simple(t), ScalarValue(v)))
    case ArrayNode(t, elems) =>
      var items := SerializeItems(g, elems, visited, stack - 1);
      if items.None? then None else Some(Object(Array(t), ArrayValue(items.value)))
    case ListNode(t, elems) =>
      var items := SerializeItems(g, elems, visited, stack - 1);
      if items.None? then None else Some(Object(List(t), ArrayValue(items.value)))
    case PlainNode(t, fields) =>
      if n in visited then Some(Object(Plain(t), ScalarValue(MARK))) else
      var fs := SerializeFields(g, fields, visited + {n}, stack - 1);
      if fs.None? then None else Some(Object(Plain(t), FieldsValue(fs.value)))
    case ValueNode(t, fields) =>
      var fs := SerializeFields(g, fields, visited, stack - 1);
      if fs.None? then None else Some(Object(Plain(t), FieldsValue(fs.value)))
  }

  function SerializeItems(g: Graph, rs: seq<Option<nat>>, visited: set<nat>, stack: nat): (items: Option<seq<Json>>)
    requires Closed(g) && AllPoint(g, rs)
    ensures items.Some? ==> |items.value| == |rs|
    decreases stack, 1 + |rs|
  {
    if rs == [] then Some([]) else
    var init := SerializeItems(g, rs[..|rs| - 1], visited, stack);
    if init.None? then None else
    var last := rs[|rs| - 1];
    var item := if last.None? then Some(Null) else Serialize(g, last.value, visited, stack);
    if item.None? then None else Some(init.value + [item.value])
  }

  function SerializeFields(g: Graph, fs: seq<Field>, visited: set<nat>, stack: nat): (out: Option<seq<JField>>)
    requires Closed(g) && FieldsPoint(g, fs)
    ensures out.Some? ==> |out.value| == |fs|
    decreases stack, 1 + |fs|
  {
    if fs == [] then Some([]) else
    var init := SerializeFields(g, fs[..|fs| - 1], visited, stack);
    if init.None? then None else
    var last := fs[|fs| - 1];
    var item := if last.target.None? then Some(Object(last.declared, NullValue))
                else Serialize(g, last.target.value, visited, stack);
    if item.None? then None else Some(init.value + [JField(last.name, item.value)])
  }

  /** `DeserializeInternal`. */
  function Deserialize(j: Json): Tree
    decreases j, 1
  {
    if j.Null? || j.value.NullValue? then TNull
    else if j.typ.Simple? then (if j.value.ScalarValue? then TSimple(j.value.s) else TNull)
    else if j.value == ScalarValue(MARK) then TNull
    else if j.typ.Array? then (if j.value.ArrayValue? then TArray(j.typ.name, DeserializeItems(j.value.items)) else TNull)
    else if j.typ.List? then (if j.value.ArrayValue? then TList(j.typ.name, DeserializeItems(j.value.items)) else TNull)
    else TPlain(j.typ.name, if j.value.FieldsValue? then DeserializeFields(j.value.fields) else [])
  }

  function DeserializeItems(items: seq<Json>): (ts: seq<Tree>)
    ensures |ts| == |items| && forall i :: 0 <= i < |items| ==> ts[i] == Deserialize(items[i])
    decreases items, 0
  {
    seq(|items|, i requires 0 <= i < |items| => Deserialize(items[i]))
  }

  function DeserializeFields(fields: seq<JField>): (ts: seq<TField>)
    ensures |ts| == |fields|
    ensures forall i :: 0 <= i < |fields| ==> ts[i] == TField(fields[i].name, Deserialize(fields[i].value))
    decreases fields, 0
  {
    seq(|fields|, i requires 0 <= i < |fields| => TField(fields[i].name, Deserialize(fields[i].value)))
  }

  // ---- What the result means ----

  /** `t` is what one sees walking the graph from `r`, a reference to a plain object on the
      way there, that is in `path`, being seen as null. */
  predicate Unfolds(g: Graph, r: Option<nat>, path: set<nat>, t: Tree)
    requires Closed(g) && Points(g, r)
    decreases t
  {
    if r.None? then t == TNull else
    match g[r.value]
    case SimpleNode(_, v) => t == TSimple(v)
    case ArrayNode(name, elems) =>
      t.TArray? && t.name == name && |t.items| == |elems| &&
      forall i :: 0 <= i < |elems| ==> Unfolds(g, elems[i], path, t.items[i])
    case ListNode(name, elems) =>
      t.TList? && t.name == name && |t.items| == |elems| &&
      forall i :: 0 <= i < |elems| ==> Unfolds(g, elems[i], path, t.items[i])
    case PlainNode(name, fields) =>
      if r.value in path then t == TNull else
      t.TPlain? && t.name == name && |t.fields| == |fields| &&
      forall i :: 0 <= i < |fields| ==>
        t.fields[i].name == fields[i].name && Unfolds(g, fields[i].target, path + {r.value}, t.fields[i].value)
    case ValueNode(name, fields) =>
      t.TPlain? && t.name == name && |t.fields| == |fields| &&
      forall i :: 0 <= i < |fields| ==>
        t.fields[i].name == fields[i].name && Unfolds(g, fields[i].target, path, t.fields[i].value)
  }

  lemma {:induction false} UnfoldingIsUnique(g: Graph, r: Option<nat>, path: set<nat>, t: Tree, u: Tree)
    requires Closed(g) && Points(g, r) && Unfolds(g, r, path, t) && Unfolds(g, r, path, u)
    ensures t == u
    decreases t
  {
    if r.Some? {
      match g[r.value]
      case SimpleNode(_, v) =>
      case ArrayNode(name, elems) =>
        forall i | 0 <= i < |elems| ensures t.items[i] == u.items[i] {
          UnfoldingIsUnique(g, elems[i], path, t.items[i], u.items[i]);
        }
      case ListNode(name, elems) =>
        forall i | 0 <= i < |elems| ensures t.items[i] == u.items[i] {
          UnfoldingIsUnique(g, elems[i], path, t.items[i], u.items[i]);
        }
      case PlainNode(name, fields) =>
        if r.value !in path {
          forall i | 0 <= i < |fields| ensures t.fields[i] == u.fields[i] {
            UnfoldingIsUnique(g, fields[i].target, path + {r.value}, t.fields[i].value, u.fields[i].value);
          }
        }
      case ValueNode(name, fields) =>
        forall i | 0 <= i < |fields| ensures t.fields[i] == u.fields[i] {
          UnfoldingIsUnique(g, fields[i].target, path, t.fields[i].value, u.fields[i].value);
        }
    }
  }

  /** Serialise, then deserialise: exactly the unfolding of the graph, whatever is shared or cyclic. */
  lemma {:induction false} RoundTrip(g: Graph, n: nat, visited: set<nat>, stack: nat)
    requires Closed(g) && n < |g|
    ensures var j := Serialize(g, n, visited, stack);
      j.Some? ==> Unfolds(g, Some(n), visited, Deserialize(j.value))
    decreases stack, 0
  {
    if stack > 0 {
      match g[n]
      case SimpleNode(_, _) =>
      case ArrayNode(_, elems) => ItemsRoundTrip(g, elems, visited, stack - 1);
      case ListNode(_, elems) => ItemsRoundTrip(g, elems, visited, stack - 1);
      case PlainNode(_, fields) =>
        if n !in visited { FieldsRoundTrip(g, fields, visited + {n}, stack - 1); }
      case ValueNode(_, fields) => FieldsRoundTrip(g, fields, visited, stack - 1);
    }
  }

  lemma {:induction false} ItemsRoundTrip(g: Graph, rs: seq<Option<nat>>, visited: set<nat>, stack: nat)
    requires Closed(g) && AllPoint(g, rs)
    ensures var js := SerializeItems(g, rs, visited, stack);
      js.Some? ==> forall i :: 0 <= i < |rs| ==> Unfolds(g, rs[i], visited, Deserialize(js.value[i]))
    decreases stack, 1 + |rs|
  {
    if rs != [] {
      ItemsRoundTrip(g, rs[..|rs| - 1], visited, stack);
      var last := rs[|rs| - 1];
      if last.Some? { RoundTrip(g, last.value, visited, stack); }
    }
  }

  lemma {:induction false} FieldsRoundTrip(g: Graph, fs: seq<Field>, visited: set<nat>, stack: nat)
    requires Closed(g) && FieldsPoint(g, fs)
    ensures var js := SerializeFields(g, fs, visited, stack);
      js.Some? ==> forall i :: 0 <= i < |fs| ==>
        js.value[i].name == fs[i].name && Unfolds(g, fs[i].target, visited, Deserialize(js.value[i].value))
    decreases stack, 1 + |fs|
  {
    if fs != [] {
      FieldsRoundTrip(g, fs[..|fs| - 1], visited, stack);
      var last := fs[|fs| - 1];
      if last.target.Some? { RoundTrip(g, last.target.value, visited, stack); }
    }
  }
}
