/**
 An ordered JSON document: objects keep their keys in order, replacing a value keeps its place and
 a new key goes to the end, as a Python dictionary does.
 */
module JsonTree {
  import opened Common

  datatype Json = Null | Scalar(literal: string) | Text(text: string) | Array(items: seq<Json>) | Object(fields: Fields)

  datatype Fields = End | Field(key: string, value: Json, rest: Fields)

  function Find(fields: Fields, key: string): Option<Json> {
    match fields
    case End => None
    case Field(k, value, rest) => if k == key then Some(value) else Find(rest, key)
  }

  function Put(fields: Fields, key: string, value: Json): Fields {
    match fields
    case End => Field(key, value, End)
    case Field(k, v, rest) => if k == key then Field(k, value, rest) else Field(k, v, Put(rest, key, value))
  }

  function Without(fields: Fields, key: string): Fields {
    match fields
    case End => End
    case Field(k, v, rest) => if k == key then rest else Field(k, v, Without(rest, key))
  }

  function Keys(fields: Fields): seq<string> {
    match fields
    case End => []
    case Field(k, _, rest) => [k] + Keys(rest)
  }

  function WithKey(keys: seq<string>, key: string): seq<string> {
    if key in keys then keys else keys + [key]
  }

  lemma {:induction false} FindIffKey(fields: Fields, key: string)
    ensures Find(fields, key).Some? <==> key in Keys(fields)
  {
    if fields.Field? { FindIffKey(fields.rest, key); }
  }

  lemma {:induction false} PutThenFind(fields: Fields, key: string, value: Json, asked: string)
    ensures Find(Put(fields, key, value), asked) == if asked == key then Some(value) else Find(fields, asked)
  {
    if fields.Field? { PutThenFind(fields.rest, key, value, asked); }
  }

  lemma {:induction false} PutKeys(fields: Fields, key: string, value: Json)
    ensures Keys(Put(fields, key, value)) == WithKey(Keys(fields), key)
  {
    if fields.Field? { PutKeys(fields.rest, key, value); }
  }

  lemma {:induction false} PutTwice(fields: Fields, key: string, first: Json, second: Json)
    ensures Put(Put(fields, key, first), key, second) == Put(fields, key, second)
  {
    if fields.Field? { PutTwice(fields.rest, key, first, second); }
  }

  lemma {:induction false} PutSame(fields: Fields, key: string)
    requires Find(fields, key).Some?
    ensures Put(fields, key, Find(fields, key).value) == fields
  {
    if fields.key != key { PutSame(fields.rest, key); }
  }

  lemma {:induction false} PutThenWithout(fields: Fields, key: string, value: Json)
    requires Find(fields, key).None?
    ensures Without(Put(fields, key, value), key) == fields
  {
    if fields.Field? { PutThenWithout(fields.rest, key, value); }
  }

  /** No key twice, as in every dictionary. */
  predicate UniqueKeys(fields: Fields) {
    fields.End? || (Find(fields.rest, fields.key).None? && UniqueKeys(fields.rest))
  }

  lemma {:induction false} WithoutThenFind(fields: Fields, key: string, asked: string)
    requires UniqueKeys(fields)
    ensures Find(Without(fields, key), asked) == if asked == key then None else Find(fields, asked)
  {
    if fields.Field? { WithoutThenFind(fields.rest, key, asked); }
  }

  // ---------------------------------------------------------------- paths

  /** The value at a path of keys through nested objects. */
  function At(fields: Fields, keys: seq<string>): Option<Json>
    requires keys != []
    decreases |keys|
  {
    var value := Find(fields, keys[0]);
    if |keys| == 1 then value
    else if value.Some? && value.value.Object? then At(value.value.fields, keys[1..])
    else None
  }

  /** The object at a path, the document itself for the empty one. */
  function ObjectAt(fields: Fields, path: seq<string>): Option<Fields>
    decreases |path|
  {
    if path == [] then Some(fields)
    else
      var value := Find(fields, path[0]);
      if value.Some? && value.value.Object? then ObjectAt(value.value.fields, path[1..]) else None
  }

  /** The keys of the object at a path, none where there is no object. */
  function KeysAt(fields: Fields, path: seq<string>): seq<string> {
    var target := ObjectAt(fields, path);
    if target.Some? then Keys(target.value) else []
  }

  /** What stands at a key for a walk that creates objects: a missing key and null both start empty. */
  function ChildToCreate(fields: Fields, key: string): Option<Fields> {
    match Find(fields, key)
    case None => Some(End)
    case Some(Null) => Some(End)
    case Some(Object(child)) => Some(child)
    case Some(_) => None
  }

  /** The document with `value` under `name` in the object at `path`; the key in the way otherwise. */
  function Inserted(fields: Fields, path: seq<string>, name: string, value: Json): Result<Fields, string>
    decreases |path|
  {
    if path == [] then Ok(Put(fields, name, value))
    else
      match ChildToCreate(fields, path[0])
      case None => Err(path[0])
      case Some(child) =>
        match Inserted(child, path[1..], name, value)
        case Err(key) => Err(key)
        case Ok(changed) => Ok(Put(fields, path[0], Object(changed)))
  }

  /** The document without `name` in the object at `path`. */
  function Removed(fields: Fields, path: seq<string>, name: string): Fields
    decreases |path|
  {
    if path == [] then Without(fields, name)
    else
      match Find(fields, path[0])
      case Some(Object(child)) => Put(fields, path[0], Object(Removed(child, path[1..], name)))
      case _ => fields
  }

  lemma PathStep(path: seq<string>, name: string)
    requires path != []
    ensures (path + [name])[0] == path[0] && (path + [name])[1..] == path[1..] + [name]
  {
  }

  /** The inserted value stands at its place; */
  lemma {:induction false} InsertedIsThere(fields: Fields, path: seq<string>, name: string, value: Json)
    requires Inserted(fields, path, name, value).Ok?
    ensures ObjectAt(Inserted(fields, path, name, value).value, path).Some?
    ensures Find(ObjectAt(Inserted(fields, path, name, value).value, path).value, name) == Some(value)
    decreases |path|
  {
    if path == [] {
      PutThenFind(fields, name, value, name);
    } else {
      var child := ChildToCreate(fields, path[0]).value;
      InsertedIsThere(child, path[1..], name, value);
      PutThenFind(fields, path[0], Object(Inserted(child, path[1..], name, value).value), path[0]);
    }
  }

  lemma AtEnd(keys: seq<string>)
    requires keys != []
    ensures At(End, keys) == None
  {
  }

  /** every path that neither leads to it nor through it reads the same; */
  lemma {:induction false} InsertedKeepsOthers(
    fields: Fields, path: seq<string>, name: string, value: Json, other: seq<string>)
    requires Inserted(fields, path, name, value).Ok?
    requires other != [] && !(other <= path + [name]) && !(path + [name] <= other)
    ensures At(Inserted(fields, path, name, value).value, other) == At(fields, other)
    decreases |path|
  {
    var changed := Inserted(fields, path, name, value).value;
    if path == [] {
      assert [name] <= other <==> other[0] == name;
      PutThenFind(fields, name, value, other[0]);
    } else {
      PathStep(path, name);
      var child := ChildToCreate(fields, path[0]).value;
      var below := Inserted(child, path[1..], name, value).value;
      PutThenFind(fields, path[0], Object(below), other[0]);
      if other[0] == path[0] {
        SamePathStep(path + [name], other);
        InsertedKeepsOthers(child, path[1..], name, value, other[1..]);
        AtEnd(other[1..]);
      }
    }
  }

  lemma SamePathStep(path: seq<string>, other: seq<string>)
    requires |path| > 1 && other != [] && other[0] == path[0] && !(other <= path) && !(path <= other)
    ensures |other| > 1 && !(other[1..] <= path[1..]) && !(path[1..] <= other[1..])
  {
    assert path == [path[0]] + path[1..];
    assert other == [other[0]] + other[1..];
  }

  lemma KeysBelow(fields: Fields, key: string, child: Fields, path: seq<string>)
    ensures KeysAt(Put(fields, key, Object(child)), [key] + path) == KeysAt(child, path)
  {
    PutThenFind(fields, key, Object(child), key);
    assert ([key] + path)[1..] == path;
  }

  lemma KeysOfChild(fields: Fields, key: string, path: seq<string>)
    requires ChildToCreate(fields, key).Some?
    ensures KeysAt(fields, [key] + path) == KeysAt(ChildToCreate(fields, key).value, path)
  {
    assert ([key] + path)[1..] == path;
  }

  /** and at every level of the path the keys keep their order, a new one coming last. */
  lemma {:induction false} InsertedKeepsOrder(fields: Fields, path: seq<string>, name: string, value: Json, level: nat)
    requires Inserted(fields, path, name, value).Ok? && level <= |path|
    ensures KeysAt(Inserted(fields, path, name, value).value, path[..level])
         == WithKey(KeysAt(fields, path[..level]), (path + [name])[level])
    decreases |path|
  {
    if path == [] {
      PutKeys(fields, name, value);
    } else {
      var key := path[0];
      var child := ChildToCreate(fields, key).value;
      var below := Inserted(child, path[1..], name, value).value;
      if level == 0 {
        PutKeys(fields, key, Object(below));
      } else {
        var prefix := path[1..][..level - 1];
        assert path[..level] == [key] + prefix;
        KeysBelow(fields, key, below, prefix);
        KeysOfChild(fields, key, prefix);
        InsertedKeepsOrder(child, path[1..], name, value, level - 1);
        assert (path + [name])[level] == (path[1..] + [name])[level - 1];
      }
    }
  }

  /** A walk that fails met a value that is neither an object nor null on its way; */
  lemma {:induction false} BlockedSomewhere(
    fields: Fields, path: seq<string>, name: string, value: Json) returns (k: nat)
    requires Inserted(fields, path, name, value).Err?
    ensures k < |path| && Obstructs(At(fields, path[..k + 1])) && Inserted(fields, path, name, value) == Err(path[k])
    decreases |path|
  {
    if ChildToCreate(fields, path[0]).None? {
      k := 0;
      assert path[..1] == [path[0]];
    } else {
      var child := ChildToCreate(fields, path[0]).value;
      var below := BlockedSomewhere(child, path[1..], name, value);
      k := below + 1;
      assert path[..k + 1][1..] == path[1..][..below + 1];
      AtEnd(path[1..][..below + 1]);
    }
  }

  /** and one that meets such a value fails. */
  lemma {:induction false} BlockedByObstruction(fields: Fields, path: seq<string>, name: string, value: Json, k: nat)
    requires k < |path| && Obstructs(At(fields, path[..k + 1]))
    ensures Inserted(fields, path, name, value).Err?
    decreases |path|
  {
    if k == 0 {
      assert path[..1] == [path[0]];
    } else {
      assert path[..k + 1][1..] == path[1..][..k];
      BlockedByObstruction(Find(fields, path[0]).value.fields, path[1..], name, value, k - 1);
    }
  }

  predicate Obstructs(value: Option<Json>) {
    value.Some? && !value.value.Object? && !value.value.Null?
  }

  /** Removing what was newly inserted restores the document exactly when the path was already there. */
  lemma {:induction false} RemoveRestoresIff(fields: Fields, path: seq<string>, name: string, value: Json)
    requires Inserted(fields, path, name, value).Ok?
    requires ObjectAt(fields, path).Some? ==> Find(ObjectAt(fields, path).value, name).None?
    ensures Removed(Inserted(fields, path, name, value).value, path, name) == fields <==> ObjectAt(fields, path).Some?
    decreases |path|
  {
    if path == [] {
      PutThenWithout(fields, name, value);
    } else {
      var key := path[0];
      var child := ChildToCreate(fields, key).value;
      var below := Inserted(child, path[1..], name, value).value;
      var undone := Removed(below, path[1..], name);
      PutThenFind(fields, key, Object(below), key);
      PutTwice(fields, key, Object(below), Object(undone));
      PutThenFind(fields, key, Object(undone), key);
      if Find(fields, key).Some? && Find(fields, key).value.Object? {
        RemoveRestoresIff(child, path[1..], name, value);
        if undone == child {
          PutSame(fields, key);
        }
      }
    }
  }

  /** The object that holds the inserted value is the one the walk found, with the value put. */
  lemma {:induction false} InsertedObject(fields: Fields, path: seq<string>, name: string, value: Json)
    requires Inserted(fields, path, name, value).Ok?
    ensures var changed := ObjectAt(Inserted(fields, path, name, value).value, path);
            var was := ObjectAt(fields, path);
            changed == Some(Put(if was.Some? then was.value else End, name, value))
    decreases |path|
  {
    if path != [] {
      var child := ChildToCreate(fields, path[0]).value;
      InsertedObject(child, path[1..], name, value);
      PutThenFind(fields, path[0], Object(Inserted(child, path[1..], name, value).value), path[0]);
      if !(Find(fields, path[0]).Some? && Find(fields, path[0]).value.Object?) && path[1..] != [] {
        assert ObjectAt(End, path[1..]) == None;
      }
    }
  }

  /** Whether the walk succeeds does not depend on what is inserted. */
  lemma {:induction false} InsertsAlike(
    fields: Fields, path: seq<string>, name: string, value: Json, other: string, another: Json)
    ensures Inserted(fields, path, name, value).Ok? <==> Inserted(fields, path, other, another).Ok?
    decreases |path|
  {
    if path != [] && ChildToCreate(fields, path[0]).Some? {
      InsertsAlike(ChildToCreate(fields, path[0]).value, path[1..], name, value, other, another);
    }
  }

  /** Where the object already is, nothing stands in the way. */
  lemma {:induction false} ObjectAdmits(fields: Fields, path: seq<string>, name: string, value: Json)
    requires ObjectAt(fields, path).Some?
    ensures Inserted(fields, path, name, value).Ok?
    decreases |path|
  {
    if path != [] {
      ObjectAdmits(Find(fields, path[0]).value.fields, path[1..], name, value);
    }
  }

  lemma {:induction false} PutUnique(fields: Fields, key: string, value: Json)
    requires UniqueKeys(fields)
    ensures UniqueKeys(Put(fields, key, value))
  {
    if fields.Field? && fields.key != key {
      PutUnique(fields.rest, key, value);
      PutThenFind(fields.rest, key, value, fields.key);
    }
  }

  lemma {:induction false} WithoutUnique(fields: Fields, key: string)
    requires UniqueKeys(fields)
    ensures UniqueKeys(Without(fields, key))
  {
    if fields.Field? && fields.key != key {
      WithoutUnique(fields.rest, key);
      WithoutThenFind(fields.rest, key, fields.key);
    }
  }

  /** A key list without the first occurrence of one key. */
  function WithoutKey(keys: seq<string>, key: string): seq<string> {
    if keys == [] then [] else if keys[0] == key then keys[1..] else [keys[0]] + WithoutKey(keys[1..], key)
  }

  lemma {:induction false} WithoutKeys(fields: Fields, key: string)
    ensures Keys(Without(fields, key)) == WithoutKey(Keys(fields), key)
  {
    if fields.Field? && fields.key != key { WithoutKeys(fields.rest, key); }
  }

  /** The object that held the removed entry is the same one without it. */
  lemma {:induction false} RemovedObject(fields: Fields, path: seq<string>, name: string)
    requires ObjectAt(fields, path).Some?
    ensures ObjectAt(Removed(fields, path, name), path) == Some(Without(ObjectAt(fields, path).value, name))
    decreases |path|
  {
    if path != [] {
      var child := Find(fields, path[0]).value.fields;
      RemovedObject(child, path[1..], name);
      PutThenFind(fields, path[0], Object(Removed(child, path[1..], name)), path[0]);
    }
  }

  /** At every level of the path the keys keep their order; at its end the removed key alone is missing. */
  lemma {:induction false} RemovedKeepsOrder(fields: Fields, path: seq<string>, name: string, level: nat)
    requires ObjectAt(fields, path).Some? && level <= |path|
    ensures KeysAt(Removed(fields, path, name), path[..level])
         == if level == |path| then WithoutKey(KeysAt(fields, path[..level]), name) else KeysAt(fields, path[..level])
    decreases |path|
  {
    if path == [] {
      WithoutKeys(fields, name);
    } else {
      var key := path[0];
      var child := Find(fields, key).value.fields;
      var below := Removed(child, path[1..], name);
      if level == 0 {
        PutKeys(fields, key, Object(below));
        FindIffKey(fields, key);
      } else {
        var prefix := path[1..][..level - 1];
        assert path[..level] == [key] + prefix;
        KeysBelow(fields, key, below, prefix);
        KeysOfChild(fields, key, prefix);
        RemovedKeepsOrder(child, path[1..], name, level - 1);
      }
    }
  }

  /** Removing an entry takes it out of its object and touches no other place. */
  lemma {:induction false} RemovedIsGone(fields: Fields, path: seq<string>, name: string, asked: string)
    requires ObjectAt(fields, path).Some? && UniqueKeys(ObjectAt(fields, path).value)
    ensures ObjectAt(Removed(fields, path, name), path).Some?
    ensures Find(ObjectAt(Removed(fields, path, name), path).value, asked)
         == if asked == name then None else Find(ObjectAt(fields, path).value, asked)
    decreases |path|
  {
    if path == [] {
      WithoutThenFind(fields, name, asked);
    } else {
      var child := Find(fields, path[0]).value.fields;
      RemovedIsGone(child, path[1..], name, asked);
      PutThenFind(fields, path[0], Object(Removed(child, path[1..], name)), path[0]);
    }
  }

  lemma {:induction false} RemovedKeepsOthers(fields: Fields, path: seq<string>, name: string, other: seq<string>)
    requires ObjectAt(fields, path).Some? && UniqueKeys(ObjectAt(fields, path).value)
    requires other != [] && !(other <= path + [name]) && !(path + [name] <= other)
    ensures At(Removed(fields, path, name), other) == At(fields, other)
    decreases |path|
  {
    if path == [] {
      assert [name] <= other <==> other[0] == name;
      WithoutThenFind(fields, name, other[0]);
    } else {
      PathStep(path, name);
      var child := Find(fields, path[0]).value.fields;
      PutThenFind(fields, path[0], Object(Removed(child, path[1..], name)), other[0]);
      if other[0] == path[0] {
        SamePathStep(path + [name], other);
        RemovedKeepsOthers(child, path[1..], name, other[1..]);
      }
    }
  }
}
