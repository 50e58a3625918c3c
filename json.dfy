/**
 * The value tree of json.go: six variants, the type tags they report, and the
 * programmatic API (NewObject, NewArray, addValue, AddArrayElement, AddValue,
 * GetObjField, Index).
 *
 * An object is kept as a list of members with distinct keys. Go keeps a map,
 * whose iteration order is unspecified; this model fixes insertion order.
 */
module Json {
  import opened Wrappers
  import opened Decimal

  datatype Value =
    | Object(members: seq<Member>)
    | Array(elements: seq<Value>)
    | String(s: string)
    | Number(n: int64)
    | Bool(b: bool)
    | Null

  datatype Member = Member(key: string, value: Value)

  /** The JsonType constants; Invalid is declared by the library but reported by no variant. */
  datatype JsonType = Invalid | TypeObj | TypeArray | TypeString | TypeBool | TypeNumber | TypeNull

  /** The Type() method of each variant. */
  function TypeOf(v: Value): (t: JsonType)
    ensures t != Invalid
  {
    match v
    case Object(_) => TypeObj
    case Array(_) => TypeArray
    case String(_) => TypeString
    case Bool(_) => TypeBool
    case Number(_) => TypeNumber
    case Null => TypeNull
  }

  predicate SameVariant(v: Value, w: Value)
  {
    (v.Object? && w.Object?) || (v.Array? && w.Array?) || (v.String? && w.String?) ||
    (v.Bool? && w.Bool?) || (v.Number? && w.Number?) || (v.Null? && w.Null?)
  }

  /** Two values report the same tag exactly when they are the same variant. */
  lemma TypeOfDistinguishes(v: Value, w: Value)
    ensures TypeOf(v) == TypeOf(w) <==> SameVariant(v, w)
  {
  }

  /** The keys present in a member list. */
  function Keys(ms: seq<Member>): set<string>
  {
    set i | 0 <= i < |ms| :: ms[i].key
  }

  predicate DistinctKeys(ms: seq<Member>)
  {
    forall i, j :: 0 <= i < j < |ms| ==> ms[i].key != ms[j].key
  }

  /** Every object in the tree has distinct keys. */
  ghost predicate WellFormed(v: Value)
  {
    match v
    case Object(ms) => DistinctKeys(ms) && forall i :: 0 <= i < |ms| ==> WellFormed(ms[i].value)
    case Array(es) => forall i :: 0 <= i < |es| ==> WellFormed(es[i])
    case _ => true
  }

  /** The position of the first member with the given key. */
  function KeyIndex(ms: seq<Member>, key: string): (i: nat)
    requires key in Keys(ms)
    ensures i < |ms| && ms[i].key == key
    ensures forall j :: 0 <= j < i ==> ms[j].key != key
  {
    if ms[0].key == key then 0
    else
      var w :| 0 <= w < |ms| && ms[w].key == key;
      assert ms[1..][w - 1].key == key;
      1 + KeyIndex(ms[1..], key)
  }

  /** The map read `values[key]` with its presence flag. */
  function Find(ms: seq<Member>, key: string): (r: Option<Value>)
    ensures r.Some? <==> key in Keys(ms)
    ensures r.Some? ==> Member(key, r.value) in ms
  {
    if key in Keys(ms) then Some(ms[KeyIndex(ms, key)].value) else None
  }

  /** The map write `values[key] = v`: the last write wins, other keys keep their values. */
  function SetField(ms: seq<Member>, key: string, v: Value): (r: seq<Member>)
    ensures Find(r, key) == Some(v)
    ensures forall k :: k != key ==> Find(r, k) == Find(ms, k)
    ensures Keys(r) == Keys(ms) + {key}
    ensures key !in Keys(ms) ==> r == ms + [Member(key, v)]
    ensures DistinctKeys(ms) ==> DistinctKeys(r)
  {
    if key in Keys(ms) then
      var r := ms[KeyIndex(ms, key) := Member(key, v)];
      SetFieldReplace(ms, key, v, r);
      r
    else
      var r := ms + [Member(key, v)];
      SetFieldAppend(ms, key, v, r);
      r
  }

  lemma SetFieldReplace(ms: seq<Member>, key: string, v: Value, r: seq<Member>)
    requires key in Keys(ms) && r == ms[KeyIndex(ms, key) := Member(key, v)]
    ensures Find(r, key) == Some(v)
    ensures forall k :: k != key ==> Find(r, k) == Find(ms, k)
    ensures Keys(r) == Keys(ms)
    ensures DistinctKeys(ms) ==> DistinctKeys(r)
  {
    var i := KeyIndex(ms, key);
    assert forall j :: 0 <= j < |ms| ==> r[j].key == ms[j].key;
    assert Keys(r) == Keys(ms);
    assert KeyIndex(r, key) == i;
    forall k | k != key && k in Keys(ms)
      ensures Find(r, k) == Find(ms, k)
    {
      var j := KeyIndex(ms, k);
      assert KeyIndex(r, k) == j;
    }
  }

  lemma SetFieldAppend(ms: seq<Member>, key: string, v: Value, r: seq<Member>)
    requires key !in Keys(ms) && r == ms + [Member(key, v)]
    ensures Find(r, key) == Some(v)
    ensures forall k :: k != key ==> Find(r, k) == Find(ms, k)
    ensures Keys(r) == Keys(ms) + {key}
    ensures DistinctKeys(ms) ==> DistinctKeys(r)
  {
    assert r[|ms|].key == key;
    assert forall j :: 0 <= j < |ms| ==> r[j] == ms[j];
    forall x | x in Keys(r) ensures x in Keys(ms) + {key} {
      var i :| 0 <= i < |r| && r[i].key == x;
      if i < |ms| { assert ms[i].key == x; }
    }
    assert Keys(r) == Keys(ms) + {key};
    assert KeyIndex(r, key) == |ms|;
    forall k | k != key && k in Keys(ms)
      ensures Find(r, k) == Find(ms, k)
    {
      var j := KeyIndex(ms, k);
      assert r[j].key == k;
      assert KeyIndex(r, k) == j;
    }
  }

  /** A container whose `elements` slice the library appends to in place. */
  class JArray {
    var elements: seq<Value>

    /** NewArray: an empty array. */
    constructor ()
      ensures elements == []
    {
      elements := [];
    }

    /** addValue: append at the end. */
    method AddValue(v: Value)
      modifies this
      ensures elements == old(elements) + [v]
    {
      elements := elements + [v];
    }

    function AsValue(): Value
      reads this
    {
      Array(elements)
    }
  }

  /** A container whose `values` map the library writes in place. */
  class JObject {
    var values: seq<Member>

    ghost predicate Valid()
      reads this
    {
      DistinctKeys(values)
    }

    /** NewObject: an empty object. */
    constructor ()
      ensures Valid() && values == []
    {
      values := [];
    }

    /** `values[key] = v`. */
    method Set(key: string, v: Value)
      requires Valid()
      modifies this
      ensures Valid()
      ensures values == SetField(old(values), key, v)
    {
      values := SetField(values, key, v);
    }

    function AsValue(): Value
      reads this
    {
      Object(values)
    }
  }

  /** AddArrayElement, taking an already built value. */
  method AddArrayElement(arr: JArray, value: Value)
    modifies arr
    ensures |arr.elements| == |old(arr.elements)| + 1
    ensures arr.elements[|arr.elements| - 1] == value
    ensures arr.elements[..|old(arr.elements)|] == old(arr.elements)
  {
    arr.elements := arr.elements + [value];
  }

  /** AddValue, taking an already built value: overwrite or insert, never an error. */
  method AddValue(obj: JObject, key: string, value: Value)
    requires obj.Valid()
    modifies obj
    ensures obj.Valid() && obj.values == SetField(old(obj.values), key, value)
    ensures GetObjField(obj, key) == Some(value)
    ensures forall k :: k != key ==> GetObjField(obj, k) == old(GetObjField(obj, k))
    ensures Keys(obj.values) == old(Keys(obj.values)) + {key}
  {
    obj.values := SetField(obj.values, key, value);
  }

  /**
   * The first case of json_test.go's TestAddValue: five AddValue calls on a
   * new object, taken in one order of the test's map, give an object with
   * exactly those five members.
   */
  method AddValueCase() returns (r: Value)
    ensures r == Object([Member("key", Null), Member("key1", Bool(false)), Member("key2", Bool(true)),
                         Member("key3", Number(2)), Member("key4", String("hello parser"))])
  {
    AddValueCaseField1();
    AddValueCaseField2();
    AddValueCaseField3();
    AddValueCaseField4();
    AddValueCaseField5();
    var obj := new JObject();
    AddValue(obj, "key", Null);
    AddValue(obj, "key1", Bool(false));
    AddValue(obj, "key2", Bool(true));
    AddValue(obj, "key3", Number(2));
    AddValue(obj, "key4", String("hello parser"));
    r := obj.AsValue();
  }

  /** The writes of AddValueCase, one by one: each adds its key as a new last member. */
  lemma AddValueCaseField1()
    ensures SetField([], "key", Null) ==
      [Member("key", Null)]
  {
    SetFieldNew([], "key", Null);
    assert [] + [Member("key", Null)] == [Member("key", Null)];
  }

  lemma AddValueCaseField2()
    ensures SetField([Member("key", Null)], "key1", Bool(false)) ==
      [Member("key", Null), Member("key1", Bool(false))]
  {
    SetFieldNew([Member("key", Null)], "key1", Bool(false));
    assert [Member("key", Null)] + [Member("key1", Bool(false))] == [Member("key", Null), Member("key1", Bool(false))];
  }

  lemma AddValueCaseField3()
    ensures SetField([Member("key", Null), Member("key1", Bool(false))], "key2", Bool(true)) ==
      [Member("key", Null), Member("key1", Bool(false)), Member("key2", Bool(true))]
  {
    SetFieldNew([Member("key", Null), Member("key1", Bool(false))], "key2", Bool(true));
    assert [Member("key", Null), Member("key1", Bool(false))] + [Member("key2", Bool(true))] == [Member("key", Null), Member("key1", Bool(false)), Member("key2", Bool(true))];
  }

  lemma AddValueCaseField4()
    ensures SetField([Member("key", Null), Member("key1", Bool(false)), Member("key2", Bool(true))], "key3", Number(2)) ==
      [Member("key", Null), Member("key1", Bool(false)), Member("key2", Bool(true)), Member("key3", Number(2))]
  {
    SetFieldNew([Member("key", Null), Member("key1", Bool(false)), Member("key2", Bool(true))], "key3", Number(2));
    assert [Member("key", Null), Member("key1", Bool(false)), Member("key2", Bool(true))] + [Member("key3", Number(2))] == [Member("key", Null), Member("key1", Bool(false)), Member("key2", Bool(true)), Member("key3", Number(2))];
  }

  lemma AddValueCaseField5()
    ensures SetField([Member("key", Null), Member("key1", Bool(false)), Member("key2", Bool(true)), Member("key3", Number(2))], "key4", String("hello parser")) ==
      [Member("key", Null), Member("key1", Bool(false)), Member("key2", Bool(true)), Member("key3", Number(2)), Member("key4", String("hello parser"))]
  {
    SetFieldNew([Member("key", Null), Member("key1", Bool(false)), Member("key2", Bool(true)), Member("key3", Number(2))], "key4", String("hello parser"));
    assert [Member("key", Null), Member("key1", Bool(false)), Member("key2", Bool(true)), Member("key3", Number(2))] + [Member("key4", String("hello parser"))] == [Member("key", Null), Member("key1", Bool(false)), Member("key2", Bool(true)), Member("key3", Number(2)), Member("key4", String("hello parser"))];
  }

  /** Writing a key that no member carries appends one member. */
  lemma SetFieldNew(ms: seq<Member>, key: string, v: Value)
    requires forall i :: 0 <= i < |ms| ==> ms[i].key != key
    ensures SetField(ms, key, v) == ms + [Member(key, v)]
  {
    NotInKeys(ms, key);
  }

  /** A key that no member carries is not among the keys. */
  lemma NotInKeys(ms: seq<Member>, key: string)
    requires forall i :: 0 <= i < |ms| ==> ms[i].key != key
    ensures key !in Keys(ms)
  {
  }

  /** GetObjField: the value under key, or absence. */
  function GetObjField(obj: JObject, key: string): (r: Option<Value>)
    reads obj
    ensures r.Some? <==> key in Keys(obj.values)
    ensures r.Some? ==> Member(key, r.value) in obj.values
    ensures r.Some? && DistinctKeys(obj.values) ==>
              forall i :: 0 <= i < |obj.values| && obj.values[i].key == key ==> obj.values[i].value == r.value
  {
    Find(obj.values, key)
  }

  /**
   * Index: None stands for the panic. The explicit guard lets index == len through;
   * the slice access then panics.
   */
  function Index(arr: JArray, index: int): (r: Option<Value>)
    reads arr
    ensures r.Some? <==> 0 <= index < |arr.elements|
    ensures r.Some? ==> r.value == arr.elements[index]
  {
    if index < 0 || index > |arr.elements| then None
    else if index == |arr.elements| then None
    else Some(arr.elements[index])
  }
}
