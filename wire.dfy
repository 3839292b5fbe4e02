/** The wire format every component shares: JSON values as `json.loads` returns
    them, `dict.get`, the `{"type": ..., "payload": ...}` envelope, and how Python's
    `str()` renders a decoded value. */
module Wire {
  import opened Builtins

  datatype Option<+T> = None | Some(value: T)

  /** A decoded JSON document: None, bool, int, str, list or dict. A dict keeps
      its keys in document order, as a Python dict does. */
  datatype Json =
    | Null
    | Bool(b: bool)
    | Int(i: int)
    | Str(s: string)
    | Arr(items: seq<Json>)
    | Obj(fields: seq<(string, Json)>)

  function Keys(fields: seq<(string, Json)>): (keys: seq<string>)
    ensures |keys| == |fields|
    ensures forall i :: 0 <= i < |fields| ==> keys[i] == fields[i].0
  {
    if fields == [] then [] else [fields[0].0] + Keys(fields[1..])
  }

  /** `d.get(key)` on a decoded object: `json.loads` keeps the last of repeated
      keys, and an absent key gives None. */
  function Get(fields: seq<(string, Json)>, key: string): Json {
    if fields == [] then Null
    else if fields[|fields| - 1].0 == key then fields[|fields| - 1].1
    else Get(fields[..|fields| - 1], key)
  }

  /** An absent key reads None; a present key reads the value of its last binding. */
  lemma {:induction false} GetLastBinding(fields: seq<(string, Json)>, key: string)
    ensures key !in Keys(fields) ==> Get(fields, key) == Null
    ensures key in Keys(fields) ==>
      exists i :: (0 <= i < |fields| && fields[i] == (key, Get(fields, key))
                   && forall j :: i < j < |fields| ==> fields[j].0 != key)
  {
    if fields != [] {
      var n := |fields| - 1;
      var init := fields[..n];
      assert Keys(fields) == Keys(init) + [fields[n].0];
      GetLastBinding(init, key);
      if fields[n].0 != key && key in Keys(fields) {
        var i :| 0 <= i < n && init[i] == (key, Get(init, key))
          && forall j :: i < j < n ==> init[j].0 != key;
        assert fields[i] == init[i];
        assert forall j :: i < j < |fields| ==> fields[j].0 != key by {
          forall j | i < j < |fields| ensures fields[j].0 != key {
            if j < n {
              assert fields[j] == init[j];
            }
          }
        }
      }
    }
  }

  /** `{"type": kind, "payload": payload}`: the only shape any component sends.
      Reading its two keys back gives exactly what was put in. */
  function Envelope(kind: string, payload: Json): (r: Json)
    ensures r.Obj? && Keys(r.fields) == ["type", "payload"]
    ensures Get(r.fields, "type") == Str(kind) && Get(r.fields, "payload") == payload
  {
    Obj([("type", Str(kind)), ("payload", payload)])
  }

  /** The keys of an object end to end are those of its front and then its last key. */
  lemma KeysSnoc(fields: seq<(string, Json)>)
    requires fields != []
    ensures Keys(fields) == Keys(fields[..|fields| - 1]) + [fields[|fields| - 1].0]
  {
    var n := |fields| - 1;
    var whole := Keys(fields);
    var split := Keys(fields[..n]) + [fields[n].0];
    assert |whole| == |split|;
    forall i | 0 <= i < |whole| ensures whole[i] == split[i] {
      if i < n {
        assert fields[..n][i] == fields[i];
      }
    }
  }

  /** The keys of the dict `json.loads` builds: each key once, where it first occurs
      (a repeated key overwrites the value but keeps its place). */
  function DistinctKeys(fields: seq<(string, Json)>): (ks: seq<string>)
    ensures NoDup(ks)
    ensures forall k :: k in ks <==> k in Keys(fields)
  {
    if fields == [] then []
    else
      var n := |fields| - 1;
      var front := DistinctKeys(fields[..n]);
      KeysSnoc(fields);
      if fields[n].0 in front then front else front + [fields[n].0]
  }

  /** `ks` lists keys of `keys` in the order in which they first occur there. */
  predicate FirstOccurrenceOrder(keys: seq<string>, ks: seq<string>) {
    && (forall k :: k in ks ==> k in keys)
    && forall i, j :: 0 <= i < j < |ks| ==> IndexOf(keys, ks[i]) < IndexOf(keys, ks[j])
  }

  /** The keys come in the order of their first binding, as a dict keeps them. */
  lemma {:induction false} DistinctKeysOrder(fields: seq<(string, Json)>)
    ensures FirstOccurrenceOrder(Keys(fields), DistinctKeys(fields))
  {
    if fields != [] {
      var n := |fields| - 1;
      KeysSnoc(fields);
      DistinctKeysOrder(fields[..n]);
      FirstOccurrenceOrderStep(Keys(fields[..n]), fields[n].0, DistinctKeys(fields[..n]));
    }
  }

  /** One more binding keeps the order: a new key goes last, a known key stays put. */
  lemma FirstOccurrenceOrderStep(before: seq<string>, last: string, front: seq<string>)
    requires FirstOccurrenceOrder(before, front)
    requires forall k :: k in before ==> k in front
    ensures FirstOccurrenceOrder(before + [last], if last in front then front else front + [last])
  {
    var ks := if last in front then front else front + [last];
    forall i | 0 <= i < |front| ensures IndexOf(before + [last], front[i]) == IndexOf(before, front[i]) {
      IndexOfAppend(before, [last], front[i]);
    }
    if last !in front {
      IndexOfAppend(before, [last], last);
      assert IndexOf(before + [last], last) == |before|;
    }
    forall i, j | 0 <= i < j < |ks| ensures IndexOf(before + [last], ks[i]) < IndexOf(before + [last], ks[j]) {
      assert ks[i] == front[i];
      if j < |front| {
        assert ks[j] == front[j];
      }
    }
  }

  /** Where the binding `Get` reads for a present key sits: the last one. */
  function LastIndex(fields: seq<(string, Json)>, key: string): (i: nat)
    requires key in Keys(fields)
    ensures i < |fields| && fields[i].0 == key
    ensures forall j :: i < j < |fields| ==> fields[j].0 != key
  {
    var n := |fields| - 1;
    KeysSnoc(fields);
    if fields[n].0 == key then n else LastIndex(fields[..n], key)
  }

  lemma {:induction false} GetAtLastIndex(fields: seq<(string, Json)>, key: string)
    requires key in Keys(fields)
    ensures Get(fields, key) == fields[LastIndex(fields, key)].1
  {
    var n := |fields| - 1;
    KeysSnoc(fields);
    if fields[n].0 != key {
      GetAtLastIndex(fields[..n], key);
    }
  }

  /** `str(v)`: a string is itself, anything else prints as its `repr`. */
  function Text(v: Json): string {
    if v.Str? then v.s else Repr(v)
  }

  /** `repr(v)` for decoded values (string escapes are not modelled). A dict
      prints the keys `json.loads` kept, in first-occurrence order, each with the
      value of its last binding. */
  function Repr(v: Json): (r: string)
    ensures r != []
    ensures v.Str? ==> r == "'" + v.s + "'"
    ensures v.Arr? ==> r[0] == '[' && r[|r| - 1] == ']'
    ensures v.Obj? ==> r[0] == '{' && r[|r| - 1] == '}'
    decreases v
  {
    match v
    case Null => "None"
    case Bool(b) => if b then "True" else "False"
    case Int(i) => IntToText(i)
    case Str(s) => "'" + s + "'"
    case Arr(items) =>
      "[" + Join(", ", seq(|items|, k requires 0 <= k < |items| => Repr(items[k]))) + "]"
    case Obj(fields) =>
      var ks := DistinctKeys(fields);
      "{" + Join(", ", seq(|ks|, k requires 0 <= k < |ks| =>
                             "'" + ks[k] + "': " + Repr(fields[LastIndex(fields, ks[k])].1))) + "}"
  }

  /** A dict prints one `'key': value` item per key it holds, each with the value
      `d.get(key)` reads. */
  lemma ReprObjEntries(fields: seq<(string, Json)>)
    ensures var ks := DistinctKeys(fields);
      Repr(Obj(fields)) ==
        "{" + Join(", ", seq(|ks|, k requires 0 <= k < |ks| => "'" + ks[k] + "': " + Repr(Get(fields, ks[k])))) + "}"
  {
    var ks := DistinctKeys(fields);
    var printed := seq(|ks|, k requires 0 <= k < |ks| => "'" + ks[k] + "': " + Repr(fields[LastIndex(fields, ks[k])].1));
    var read := seq(|ks|, k requires 0 <= k < |ks| => "'" + ks[k] + "': " + Repr(Get(fields, ks[k])));
    forall k | 0 <= k < |ks| ensures printed[k] == read[k] {
      GetAtLastIndex(fields, ks[k]);
    }
    assert printed == read;
  }

  /** A repeated key is printed once, in its first place, with its last value. */
  lemma ReprRepeatedKey()
    ensures Repr(Obj([("a", Int(1)), ("b", Int(2)), ("a", Int(3))])) == "{'a': 3, 'b': 2}"
  {
    var fields := [("a", Int(1)), ("b", Int(2)), ("a", Int(3))];
    RepeatedKeyKept(fields);
    ReprObjEntries(fields);
    assert Repr(Int(3)) == "3" by {
      assert IntToText(3) == "3";
    }
    assert Repr(Int(2)) == "2" by {
      assert IntToText(2) == "2";
    }
    var read := seq(2, k requires 0 <= k < 2 => "'" + ["a", "b"][k] + "': " + Repr(Get(fields, ["a", "b"][k])));
    assert read[0] == "'a': " + Repr(Int(3));
    assert read[1] == "'b': " + Repr(Int(2));
    assert "'a': " + "3" == "'a': 3" && "'b': " + "2" == "'b': 2";
    assert read == ["'a': 3", "'b': 2"];
  }

  lemma RepeatedKeyKept(fields: seq<(string, Json)>)
    requires fields == [("a", Int(1)), ("b", Int(2)), ("a", Int(3))]
    ensures DistinctKeys(fields) == ["a", "b"]
    ensures Get(fields, "a") == Int(3) && Get(fields, "b") == Int(2)
  {
    assert fields[..2][..1][..0] == [];
    assert DistinctKeys(fields[..2][..1]) == ["a"];
    assert DistinctKeys(fields[..2]) == ["a", "b"];
    assert Get(fields[..2], "b") == Int(2);
  }

  /** Python's name for the type of a decoded value; values of different kinds
      have different names. */
  function TypeName(v: Json): (r: string)
    ensures r == "NoneType" <==> v.Null?
    ensures r == "bool" <==> v.Bool?
    ensures r == "int" <==> v.Int?
    ensures r == "str" <==> v.Str?
    ensures r == "list" <==> v.Arr?
    ensures r == "dict" <==> v.Obj?
  {
    match v
    case Null => "NoneType"
    case Bool(_) => "bool"
    case Int(_) => "int"
    case Str(_) => "str"
    case Arr(_) => "list"
    case Obj(_) => "dict"
  }

  /** Lists and dicts cannot be dict keys: `v in some_dict` raises TypeError. */
  predicate Hashable(v: Json) {
    !v.Arr? && !v.Obj?
  }
}
