/** The serializer as written: one `visited` set for the whole call, loops over elements. */
module SerializerCode {
  import opened Cache
  import opened Serializer

  class InternalClassSerializer {
    /** The objects being serialised: those of the graph by number, boxes by numbers above theirs. */
    var visited: set<nat>
    var boxes: nat

    constructor ()
      ensures visited == {} && boxes == 0
    {
      visited, boxes := {}, 0;
    }

    /** Boxes are numbered as they are made. */
    ghost predicate Valid(g: Graph)
      reads this
    {
      forall id :: id in visited ==> id < |g| + boxes
    }

    /** Whatever an object's serialisation adds to `visited`, it takes off again. A value that stands in a
        field or an element is read into a new box, under a reference that is nowhere yet. */
    method SerializeFieldsInternal(g: Graph, n: nat, stack: nat) returns (result: Option<Json>)
      requires Valid(g) && Closed(g) && n < |g|
      modifies this
      ensures Valid(g) && boxes >= old(boxes)
      ensures result == Serialize(g, n, old(visited), stack)
      ensures result.Some? ==> visited == old(visited)
      decreases stack, 0
    {
      if stack == 0 {
        return None;
      }
      match g[n]
      case SimpleNode(t, v) =>
        return Some(Object(Simple(t), ScalarValue(v)));
      case ArrayNode(t, elems) =>
        var items := SerializeElements(g, elems, stack - 1);
        return if items.None? then None else Some(Object(Array(t), ArrayValue(items.value)));
      case ListNode(t, elems) =>
        var items := SerializeElements(g, elems, stack - 1);
        return if items.None? then None else Some(Object(List(t), ArrayValue(items.value)));
      case PlainNode(t, fields) =>
        result := SerializeObject(g, n, t, fields, stack - 1);
      case ValueNode(t, fields) =>
        var box := |g| + boxes;
        boxes := boxes + 1;
        result := SerializeObject(g, box, t, fields, stack - 1);
        BoxesDoNotMatter(g, fields, old(visited), box, stack - 1);
    }

    /** The last branch: any other object, met under the reference `id`. */
    method SerializeObject(g: Graph, id: nat, t: nat, fields: seq<Field>, stack: nat) returns (result: Option<Json>)
      requires Valid(g) && Closed(g) && FieldsPoint(g, fields) && id < |g| + boxes
      modifies this
      ensures Valid(g) && boxes >= old(boxes) && (result.Some? ==> visited == old(visited))
      ensures id in old(visited) ==> result == Some(Object(Plain(t), ScalarValue(MARK)))
      ensures id !in old(visited) ==>
        var fs := SerializeFields(g, fields, old(visited) + {id}, stack);
        result == if fs.None? then None else Some(Object(Plain(t), FieldsValue(fs.value)))
      decreases stack, 2
    {
      if id in visited {
        return Some(Object(Plain(t), ScalarValue(MARK)));
      }
      visited := visited + {id};
      var out := SerializeMembers(g, fields, stack);
      if out.None? {
        return None;
      }
      visited := visited - {id};
      return Some(Object(Plain(t), FieldsValue(out.value)));
    }

    method SerializeMembers(g: Graph, fields: seq<Field>, stack: nat) returns (result: Option<seq<JField>>)
      requires Valid(g) && Closed(g) && FieldsPoint(g, fields)
      modifies this
      ensures Valid(g) && boxes >= old(boxes)
      ensures result == SerializeFields(g, fields, old(visited), stack)
      ensures result.Some? ==> visited == old(visited)
      decreases stack, 1
    {
      var out: seq<JField> := [];
      ghost var before := visited;
      for i := 0 to |fields|
        invariant Valid(g) && boxes >= old(boxes)
        invariant visited == before && SerializeFields(g, fields[..i], before, stack) == Some(out)
      {
        assert fields[..i + 1][..i] == fields[..i];
        var field := fields[i];
        var value := Some(Object(field.declared, NullValue));
        if field.target.Some? {
          value := SerializeFieldsInternal(g, field.target.value, stack);
        }
        if value.None? {
          FieldsPrefix(g, fields, i + 1, before, stack);
          return None;
        }
        out := out + [JField(field.name, value.value)];
      }
      assert fields[..|fields|] == fields;
      return Some(out);
    }

    method SerializeElements(g: Graph, elems: seq<Option<nat>>, stack: nat) returns (result: Option<seq<Json>>)
      requires Valid(g) && Closed(g) && AllPoint(g, elems)
      modifies this
      ensures Valid(g) && boxes >= old(boxes)
      ensures result == SerializeItems(g, elems, old(visited), stack)
      ensures result.Some? ==> visited == old(visited)
      decreases stack, 1
    {
      var items: seq<Json> := [];
      ghost var before := visited;
      for i := 0 to |elems|
        invariant Valid(g) && boxes >= old(boxes)
        invariant visited == before && SerializeItems(g, elems[..i], before, stack) == Some(items)
      {
        assert elems[..i + 1][..i] == elems[..i];
        var item := Some(Null);
        if elems[i].Some? {
          item := SerializeFieldsInternal(g, elems[i].value, stack);
        }
        if item.None? {
          ItemsPrefix(g, elems, i + 1, before, stack);
          return None;
        }
        items := items + [item.value];
      }
      assert elems[..|elems|] == elems;
      return Some(items);
    }

    static method DeserializeInternal(j: Json) returns (t: Tree)
      ensures t == Deserialize(j)
      decreases j, 1
    {
      if j.Null? || j.value.NullValue? {
        return TNull;
      }
      if j.typ.Simple? {
        return if j.value.ScalarValue? then TSimple(j.value.s) else TNull;
      }
      if j.value == ScalarValue(MARK) {
        return TNull;
      }
      if j.typ.Array? || j.typ.List? {
        if !j.value.ArrayValue? {
          return TNull;
        }
        var items, jArray := [], j.value.items;
        for i := 0 to |jArray|
          invariant items == DeserializeItems(jArray[..i])
        {
          assert jArray[..i + 1][..i] == jArray[..i];
          var item := DeserializeInternal(jArray[i]);
          items := items + [item];
        }
        assert jArray[..|jArray|] == jArray;
        return if j.typ.Array? then TArray(j.typ.name, items) else TList(j.typ.name, items);
      }
      var instance := [];
      if j.value.FieldsValue? {
        var fields := j.value.fields;
        for i := 0 to |fields|
          invariant instance == DeserializeFields(fields[..i])
        {
          assert fields[..i + 1][..i] == fields[..i];
          var value := DeserializeInternal(fields[i].value);
          instance := instance + [TField(fields[i].name, value)];
        }
        assert fields[..|fields|] == fields;
      }
      return TPlain(j.typ.name, instance);
    }
  }

  // ---- A box is met once only ----

  /** A reference that no object of the graph has cuts nothing. */
  lemma {:induction false} BoxDoesNotMatter(g: Graph, n: nat, visited: set<nat>, box: nat, stack: nat)
    requires Closed(g) && n < |g| && box >= |g|
    ensures Serialize(g, n, visited + {box}, stack) == Serialize(g, n, visited, stack)
    decreases stack, 0
  {
    if stack > 0 {
      match g[n]
      case SimpleNode(_, _) =>
      case ArrayNode(_, elems) => BoxesDoNotMatterIn(g, elems, visited, box, stack - 1);
      case ListNode(_, elems) => BoxesDoNotMatterIn(g, elems, visited, box, stack - 1);
      case PlainNode(_, fields) =>
        BoxesDoNotMatter(g, fields, visited + {n}, box, stack - 1);
        assert visited + {n} + {box} == visited + {box} + {n};
      case ValueNode(_, fields) => BoxesDoNotMatter(g, fields, visited, box, stack - 1);
    }
  }

  lemma {:induction false} BoxesDoNotMatterIn(g: Graph, rs: seq<Option<nat>>, visited: set<nat>, box: nat, stack: nat)
    requires Closed(g) && AllPoint(g, rs) && box >= |g|
    ensures SerializeItems(g, rs, visited + {box}, stack) == SerializeItems(g, rs, visited, stack)
    decreases stack, 1 + |rs|
  {
    if rs != [] {
      BoxesDoNotMatterIn(g, rs[..|rs| - 1], visited, box, stack);
      var last := rs[|rs| - 1];
      if last.Some? { BoxDoesNotMatter(g, last.value, visited, box, stack); }
    }
  }

  lemma {:induction false} BoxesDoNotMatter(g: Graph, fs: seq<Field>, visited: set<nat>, box: nat, stack: nat)
    requires Closed(g) && FieldsPoint(g, fs) && box >= |g|
    ensures SerializeFields(g, fs, visited + {box}, stack) == SerializeFields(g, fs, visited, stack)
    decreases stack, 1 + |fs|
  {
    if fs != [] {
      BoxesDoNotMatter(g, fs[..|fs| - 1], visited, box, stack);
      var last := fs[|fs| - 1];
      if last.target.Some? { BoxDoesNotMatter(g, last.target.value, visited, box, stack); }
    }
  }

  lemma {:induction false} ItemsPrefix(g: Graph, rs: seq<Option<nat>>, i: nat, visited: set<nat>, stack: nat)
    requires Closed(g) && AllPoint(g, rs) && i <= |rs| && SerializeItems(g, rs[..i], visited, stack).None?
    ensures SerializeItems(g, rs, visited, stack).None?
    decreases |rs|
  {
    if i == |rs| {
      assert rs[..i] == rs;
    } else {
      assert rs[..|rs| - 1][..i] == rs[..i];
      ItemsPrefix(g, rs[..|rs| - 1], i, visited, stack);
    }
  }

  lemma {:induction false} FieldsPrefix(g: Graph, fs: seq<Field>, i: nat, visited: set<nat>, stack: nat)
    requires Closed(g) && FieldsPoint(g, fs) && i <= |fs| && SerializeFields(g, fs[..i], visited, stack).None?
    ensures SerializeFields(g, fs, visited, stack).None?
    decreases |fs|
  {
    if i == |fs| {
      assert fs[..i] == fs;
    } else {
      assert fs[..|fs| - 1][..i] == fs[..i];
      FieldsPrefix(g, fs[..|fs| - 1], i, visited, stack);
    }
  }
}
