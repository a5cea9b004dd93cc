/**
 * JSON values as the source handles them after JSON.parse / json.load:
 * objects keep their keys in insertion order.  Numbers are integers here;
 * only their presence and truthiness matter to the modelled code.
 */
module Json {
  import opened Wrappers
  import opened Strings

  datatype Json =
    | JNull
    | JBool(b: bool)
    | JNum(n: int)
    | JStr(s: string)
    | JArr(items: seq<Json>)
    | JObj(entries: seq<(string, Json)>)

  /**
   * `key` names a property every JavaScript object inherits from
   * Object.prototype, so that `key in o` and `o[key]` see it on any object.
   */
  predicate IsObjectPrototypeName(key: string)
  {
    key == "constructor" || key == "hasOwnProperty" || key == "isPrototypeOf"
    || key == "propertyIsEnumerable" || key == "toLocaleString" || key == "toString"
    || key == "valueOf" || key == "__proto__" || key == "__defineGetter__"
    || key == "__defineSetter__" || key == "__lookupGetter__" || key == "__lookupSetter__"
  }

  /** The keys of an object's entries, in order. */
  function Keys(es: seq<(string, Json)>): (r: seq<string>)
    ensures |r| == |es|
    ensures forall i {:trigger r[i]} :: 0 <= i < |es| ==> r[i] == es[i].0
  {
    seq(|es|, i requires 0 <= i < |es| => es[i].0)
  }

  /** The value stored under `k`; the first entry wins. */
  function Get(es: seq<(string, Json)>, k: string): (r: Option<Json>)
    ensures r.None? <==> k !in Keys(es)
    ensures r.Some? ==> (k, r.value) in es
  {
    if es == [] then None
    else if es[0].0 == k then
      assert Keys(es)[0] == k;
      Some(es[0].1)
    else
      assert Keys(es) == [es[0].0] + Keys(es[1..]);
      Get(es[1..], k)
  }

  /**
   * `obj[k] = v` on a JavaScript object or Python dict: an existing key keeps
   * its position and gets the new value, a new key goes to the end.
   */
  function SetKey(es: seq<(string, Json)>, k: string, v: Json): (r: seq<(string, Json)>)
    ensures k in Keys(es) ==> Keys(r) == Keys(es)
    ensures k !in Keys(es) ==> Keys(r) == Keys(es) + [k]
  {
    if es == [] then [(k, v)]
    else if es[0].0 == k then
      assert Keys(es)[0] == k;
      assert Keys([(k, v)] + es[1..]) == Keys(es);
      [(k, v)] + es[1..]
    else
      assert Keys(es) == [es[0].0] + Keys(es[1..]);
      var r := [es[0]] + SetKey(es[1..], k, v);
      assert Keys(r) == [es[0].0] + Keys(SetKey(es[1..], k, v));
      r
  }

  /** After `obj[k] = v`, `k` reads `v` and every other key reads what it read before. */
  lemma {:induction false} GetSetKey(es: seq<(string, Json)>, k: string, v: Json, k': string)
    ensures Get(SetKey(es, k, v), k') == if k' == k then Some(v) else Get(es, k')
  {
    if es != [] && es[0].0 != k {
      GetSetKey(es[1..], k, v, k');
    }
  }

  /** The property every plain JavaScript object inherits as an accessor from Object.prototype. */
  const ProtoKey: string := "__proto__"

  /**
   * `obj[k] = v` on a plain JavaScript object (Object.prototype as its
   * prototype) for a `v` that is a primitive or null: `__proto__` reaches the
   * inherited setter, which never creates an own property, so the entries
   * stay as they were; any other key is assigned as by SetKey.
   */
  function AssignKey(es: seq<(string, Json)>, k: string, v: Json): (r: seq<(string, Json)>)
    ensures k == ProtoKey || k in Keys(es) ==> Keys(r) == Keys(es)
    ensures k != ProtoKey && k !in Keys(es) ==> Keys(r) == Keys(es) + [k]
    ensures ProtoKey in Keys(r) ==> ProtoKey in Keys(es)
  {
    if k == ProtoKey then es else SetKey(es, k, v)
  }

  /** After `obj[k] = v`, `k` reads `v` unless it is `__proto__`; every other key reads what it read before. */
  lemma GetAssignKey(es: seq<(string, Json)>, k: string, v: Json, k': string)
    ensures Get(AssignKey(es, k, v), k') == if k' == k && k != ProtoKey then Some(v) else Get(es, k')
  {
    if k != ProtoKey {
      GetSetKey(es, k, v, k');
    }
  }

  /** The entries whose key is not `k`, in order: the own properties left when `k` is never created. */
  function WithoutKey(es: seq<(string, Json)>, k: string): (r: seq<(string, Json)>)
    ensures forall p :: p in r <==> p in es && p.0 != k
    ensures forall x :: x in Keys(r) <==> x in Keys(es) && x != k
    ensures k !in Keys(es) ==> r == es
    ensures |r| <= |es|
  {
    if es == [] then []
    else
      var init := es[..|es| - 1];
      var last := es[|es| - 1];
      var own := WithoutKey(init, k);
      assert es == init + [last];
      assert Keys(es) == Keys(init) + [last.0];
      if last.0 == k then own
      else
        assert Keys(own + [last]) == Keys(own) + [last.0];
        own + [last]
  }

  /** `obj.get(k, d)` in Python: the value under `k`, or `d` when there is none. */
  function GetOr(es: seq<(string, Json)>, k: string, d: Json): (r: Json)
    ensures k !in Keys(es) ==> r == d
    ensures k in Keys(es) ==> Some(r) == Get(es, k)
  {
    if Get(es, k).Some? then Get(es, k).value else d
  }

  /** Writing back the value a key already reads changes nothing. */
  lemma {:induction false} SetKeySame(es: seq<(string, Json)>, k: string)
    requires k in Keys(es)
    ensures SetKey(es, k, Get(es, k).value) == es
  {
    if es[0].0 != k {
      assert Keys(es) == [es[0].0] + Keys(es[1..]);
      SetKeySame(es[1..], k);
      assert es == [es[0]] + es[1..];
    } else {
      assert es == [es[0]] + es[1..];
    }
  }

  /** A second write to the same key replaces the first. */
  lemma {:induction false} SetKeyTwice(es: seq<(string, Json)>, k: string, v: Json, w: Json)
    ensures SetKey(SetKey(es, k, v), k, w) == SetKey(es, k, w)
  {
    if es != [] && es[0].0 != k {
      SetKeyTwice(es[1..], k, v, w);
      assert SetKey(es, k, v)[1..] == SetKey(es[1..], k, v);
    }
  }

  /** A write to a key already present commutes with a write to any other key. */
  lemma {:induction false} SetKeyCommute(es: seq<(string, Json)>, k: string, v: Json, k': string, v': Json)
    requires k != k' && k in Keys(es)
    ensures SetKey(SetKey(es, k, v), k', v') == SetKey(SetKey(es, k', v'), k, v)
  {
    assert Keys(es) == [es[0].0] + Keys(es[1..]);
    if es[0].0 != k && es[0].0 != k' {
      SetKeyCommute(es[1..], k, v, k', v');
      assert SetKey(es, k, v)[1..] == SetKey(es[1..], k, v);
      assert SetKey(es, k', v')[1..] == SetKey(es[1..], k', v');
    }
  }

  /** Keys are unique in a list of entries (as they are in a parsed object). */
  predicate UniqueKeys(es: seq<(string, Json)>)
  {
    forall i, j :: 0 <= i < j < |es| ==> es[i].0 != es[j].0
  }

  /** With unique keys, every entry's key reads that entry's value. */
  lemma {:induction false} GetUniqueEntry(es: seq<(string, Json)>, i: nat)
    requires UniqueKeys(es) && i < |es|
    ensures Get(es, es[i].0) == Some(es[i].1)
  {
    if i > 0 {
      assert es[0].0 != es[i].0;
      assert es[1..][i - 1] == es[i];
      GetUniqueEntry(es[1..], i - 1);
    }
  }

  /** JavaScript truthiness of a JSON value. */
  predicate Truthy(j: Json)
  {
    match j
    case JNull => false
    case JBool(b) => b
    case JNum(n) => n != 0
    case JStr(s) => s != []
    case JArr(_) => true
    case JObj(_) => true
  }

  /** Property lookup `j[k]` in JavaScript; absent (`undefined`) as None. */
  function Prop(j: Json, k: string): Option<Json>
  {
    if j.JObj? then Get(j.entries, k) else None
  }

  /** Object.entries(j): own enumerable properties of an object, array or string. */
  function ObjectEntries(j: Json): (r: seq<(string, Json)>)
    ensures j.JObj? ==> r == j.entries
    ensures j.JArr? ==> |r| == |j.items|
    ensures j.JStr? ==> |r| == |j.s|
    ensures !j.JObj? && !j.JArr? && !j.JStr? ==> r == []
  {
    match j
    case JObj(es) => es
    case JArr(xs) => seq(|xs|, i requires 0 <= i < |xs| => (NatToString(i), xs[i]))
    case JStr(s) => seq(|s|, i requires 0 <= i < |s| => (NatToString(i), JStr([s[i]])))
    case _ => []
  }
}
