/**
 * The JavaScript values the UI code handles: primitives, arrays and plain objects (own
 * properties in insertion order), with the language's truthiness, optional-chaining member
 * reads, `||`, object spread, property assignment and deletion, and String().
 */
module Js {
  import Text

  datatype Value =
    | Undefined
    | Null
    | Bool(b: bool)
    | Num(n: int)
    | Str(s: string)
    | Arr(items: seq<Value>)
    | Obj(props: seq<Entry>)

  /** One own property of a plain object. */
  datatype Entry = Entry(key: string, value: Value)

  /** The values `if (v)` accepts: everything except undefined, null, false, 0 and "". */
  predicate Truthy(v: Value) {
    match v
    case Undefined => false
    case Null => false
    case Bool(b) => b
    case Num(n) => n != 0
    case Str(s) => s != ""
    case Arr(_) => true
    case Obj(_) => true
  }

  predicate IsNullish(v: Value) { v == Undefined || v == Null }

  /** `v === null || v === '' || v === undefined`: the test both the listing and the employee form use. */
  predicate IsBlank(v: Value) { v == Undefined || v == Null || v == Str("") }

  /** `a || b` */
  function Or(a: Value, b: Value): Value {
    if Truthy(a) then a else b
  }

  predicate HasKey(props: seq<Entry>, key: string) {
    exists i :: 0 <= i < |props| && props[i].key == key
  }

  /** The value of the first property called key, or undefined. */
  function Lookup(props: seq<Entry>, key: string): (v: Value)
    ensures !HasKey(props, key) ==> v == Undefined
  {
    if props == [] then Undefined
    else if props[0].key == key then props[0].value
    else Lookup(props[1..], key)
  }

  /** `v?.key`: a property read that yields undefined on anything but an object. */
  function Member(v: Value, key: string): Value {
    if v.Obj? then Lookup(v.props, key) else Undefined
  }

  /** The own property names, in order. */
  function Keys(props: seq<Entry>): seq<string> {
    seq(|props|, i requires 0 <= i < |props| => props[i].key)
  }

  /** An object's own property names are pairwise distinct. */
  predicate DistinctKeys(props: seq<Entry>) {
    forall i, j :: 0 <= i < j < |props| ==> props[i].key != props[j].key
  }

  /** `obj[key] = value`: an existing property keeps its place, a new one goes last. */
  function Assign(props: seq<Entry>, key: string, value: Value): (r: seq<Entry>)
    ensures HasKey(props, key) ==> |r| == |props|
    ensures !HasKey(props, key) ==> r == props + [Entry(key, value)]
  {
    if props == [] then [Entry(key, value)]
    else if props[0].key == key then [Entry(key, value)] + props[1..]
    else [props[0]] + Assign(props[1..], key, value)
  }

  /** `delete obj[key]` */
  function RemoveKey(props: seq<Entry>, key: string): (r: seq<Entry>)
    ensures |r| <= |props|
    ensures !HasKey(r, key)
  {
    if props == [] then []
    else if props[0].key == key then RemoveKey(props[1..], key)
    else [props[0]] + RemoveKey(props[1..], key)
  }

  /** The own enumerable properties a spread `...v` copies: none for null, undefined and primitives. */
  function SpreadProps(v: Value): seq<Entry> {
    if v.Obj? then v.props else []
  }

  /** Assigns every property of extra, in order, onto props. */
  function AssignAll(props: seq<Entry>, extra: seq<Entry>): seq<Entry>
    decreases |extra|
  {
    if extra == [] then props
    else AssignAll(Assign(props, extra[0].key, extra[0].value), extra[1..])
  }

  /** `{ ...a, ...b }` */
  function Spread(a: Value, b: Value): Value {
    Obj(AssignAll(SpreadProps(a), SpreadProps(b)))
  }

  /** String(v). */
  function ToJsString(v: Value): string {
    match v
    case Undefined => "undefined"
    case Null => "null"
    case Bool(b) => if b then "true" else "false"
    case Num(n) => Text.IntToString(n)
    case Str(s) => s
    case Arr(items) => JoinItems(items)
    case Obj(_) => "[object Object]"
  }

  /** Array.prototype.join(","): null and undefined elements print as empty text. */
  function JoinItems(items: seq<Value>): string {
    if items == [] then ""
    else
      var head := if IsNullish(items[0]) then "" else ToJsString(items[0]);
      if |items| == 1 then head else head + "," + JoinItems(items[1..])
  }

  lemma {:induction false} LookupAssign(props: seq<Entry>, key: string, value: Value, other: string)
    ensures Lookup(Assign(props, key, value), other) == if other == key then value else Lookup(props, other)
    ensures HasKey(Assign(props, key, value), other) <==> other == key || HasKey(props, other)
  {
    var r := Assign(props, key, value);
    if props == [] {
      assert r[0].key == key;
    } else if props[0].key == key {
      assert r[1..] == props[1..];
      HasKeyCons(r, other);
      HasKeyCons(props, other);
    } else {
      LookupAssign(props[1..], key, value, other);
      assert r[0] == props[0] && r[1..] == Assign(props[1..], key, value);
      HasKeyCons(r, other);
      HasKeyCons(props, other);
    }
  }

  lemma {:induction false} LookupAssignAll(props: seq<Entry>, extra: seq<Entry>, key: string)
    requires DistinctKeys(extra)
    ensures Lookup(AssignAll(props, extra), key) ==
      if HasKey(extra, key) then Lookup(extra, key) else Lookup(props, key)
    ensures HasKey(AssignAll(props, extra), key) <==> HasKey(extra, key) || HasKey(props, key)
    decreases |extra|
  {
    if extra != [] {
      var e := extra[0];
      var next := Assign(props, e.key, e.value);
      LookupAssignAll(next, extra[1..], key);
      LookupAssign(props, e.key, e.value, key);
      HasKeyCons(extra, key);
    }
  }

  lemma HasKeyCons(props: seq<Entry>, key: string)
    requires props != []
    ensures HasKey(props, key) <==> props[0].key == key || HasKey(props[1..], key)
    ensures props[0].key != key ==> Lookup(props, key) == Lookup(props[1..], key)
  {
    if HasKey(props, key) && props[0].key != key {
      var i :| 0 <= i < |props| && props[i].key == key;
      assert props[1..][i - 1].key == key;
    }
    if HasKey(props[1..], key) {
      var i :| 0 <= i < |props[1..]| && props[1..][i].key == key;
      assert props[i + 1].key == key;
    }
  }


  /** A property read on `a + b` finds a's property first. */
  lemma {:induction false} LookupConcat(a: seq<Entry>, b: seq<Entry>, key: string)
    ensures Lookup(a + b, key) == if HasKey(a, key) then Lookup(a, key) else Lookup(b, key)
    ensures HasKey(a + b, key) <==> HasKey(a, key) || HasKey(b, key)
  {
    if a == [] {
      assert a + b == b;
    } else {
      assert (a + b)[1..] == a[1..] + b;
      LookupConcat(a[1..], b, key);
      HasKeyCons(a + b, key);
      HasKeyCons(a, key);
    }
  }


  lemma {:induction false} RemoveKeyAbsent(props: seq<Entry>, key: string)
    requires !HasKey(props, key)
    ensures RemoveKey(props, key) == props
  {
    if props != [] {
      HasKeyCons(props, key);
      RemoveKeyAbsent(props[1..], key);
    }
  }

  lemma {:induction false} RemoveKeyConcat(a: seq<Entry>, b: seq<Entry>, key: string)
    ensures RemoveKey(a + b, key) == RemoveKey(a, key) + RemoveKey(b, key)
  {
    if a == [] {
      assert a + b == b;
    } else {
      assert (a + b)[1..] == a[1..] + b;
      RemoveKeyConcat(a[1..], b, key);
    }
  }

  lemma DistinctCons(e: Entry, rest: seq<Entry>)
    ensures DistinctKeys([e] + rest) <==> !HasKey(rest, e.key) && DistinctKeys(rest)
  {
    var s := [e] + rest;
    assert s[1..] == rest;
    if DistinctKeys(s) {
      forall i | 0 <= i < |rest| ensures rest[i].key != e.key {
        assert s[i + 1] == rest[i] && s[0] == e;
        assert 0 < i + 1 < |s|;
      }
    }
    if !HasKey(rest, e.key) && DistinctKeys(rest) {
      forall i, j | 0 <= i < j < |s| ensures s[i].key != s[j].key {
        if i == 0 {
          assert rest[j - 1].key == s[j].key;
        } else {
          assert rest[i - 1].key == s[i].key && rest[j - 1].key == s[j].key;
        }
      }
    }
  }

  /** Assignment keeps an object's property names distinct. */
  lemma {:induction false} AssignDistinct(props: seq<Entry>, key: string, value: Value)
    requires DistinctKeys(props)
    ensures DistinctKeys(Assign(props, key, value))
  {
    if props == [] {
    } else if props[0].key == key {
      DistinctCons(props[0], props[1..]);
      assert props == [props[0]] + props[1..];
      DistinctCons(Entry(key, value), props[1..]);
    } else {
      assert props == [props[0]] + props[1..];
      DistinctCons(props[0], props[1..]);
      AssignDistinct(props[1..], key, value);
      LookupAssign(props[1..], key, value, props[0].key);
      DistinctCons(props[0], Assign(props[1..], key, value));
    }
  }

  lemma {:induction false} AssignAllDistinct(props: seq<Entry>, extra: seq<Entry>)
    requires DistinctKeys(props)
    ensures DistinctKeys(AssignAll(props, extra))
    decreases |extra|
  {
    if extra != [] {
      AssignDistinct(props, extra[0].key, extra[0].value);
      AssignAllDistinct(Assign(props, extra[0].key, extra[0].value), extra[1..]);
    }
  }

  /**
   * Object spread: in `{ ...a, ...b }` a property of b wins, every other property of a is
   * kept, and nothing else appears.
   */
  lemma SpreadMember(a: Value, b: Value, key: string)
    requires DistinctKeys(SpreadProps(b))
    ensures Member(Spread(a, b), key) ==
      if HasKey(SpreadProps(b), key) then Member(b, key) else Member(a, key)
    ensures HasKey(Spread(a, b).props, key) <==> HasKey(SpreadProps(a), key) || HasKey(SpreadProps(b), key)
  {
    LookupAssignAll(SpreadProps(a), SpreadProps(b), key);
  }
}
