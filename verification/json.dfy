/** The decoded JSON value `resp.json()` hands to the parser, and the few
    Python operations the parser applies to it without knowing its shape. */
module Json {
  import opened Wrappers
  import opened Exceptions
  import OrderedMap

  /** A JSON document as Python's json module decodes it. Numbers, integer or
      not, are one kind; an object keeps its members in document order.
      Dafny's structural equality agrees with Python's `==` wherever the
      parser compares values: against a string and against a number. */
  datatype Json =
    | JNull
    | JBool(b: bool)
    | JNum(n: real)
    | JStr(s: string)
    | JArr(items: seq<Json>)
    | JObj(fields: OrderedMap.Entries<Json>)

  /** Reference definition: `needle` occurs in `hay` at some position. */
  predicate IsSubstring(needle: string, hay: string) {
    exists i :: 0 <= i <= |hay| && needle <= hay[i..]
  }

  /** Python's `key in v` for a string `key`: key membership for an object,
      element membership for a list, substring search for a string; any other
      value raises TypeError. */
  function Contains(v: Json, key: string): (r: Result<bool, Error>)
    ensures r.Failure? <==> !(v.JObj? || v.JArr? || v.JStr?)
    ensures r.Failure? ==> r.error == TypeError
    ensures v.JObj? ==> r == Success(OrderedMap.Lookup(v.fields, key).Some?)
    ensures v.JArr? ==> r == Success(JStr(key) in v.items)
    ensures v.JStr? ==> r == Success(IsSubstring(key, v.s))
  {
    match v
    case JObj(fields) => Success(key in OrderedMap.Keys(fields))
    case JArr(items) => Success(JStr(key) in items)
    case JStr(s) => Success(IsSubstring(key, s))
    case _ => Failure(TypeError)
  }

  /** The elements `for x in v` visits: a list's elements, an object's keys,
      a string's one-character strings; any other value raises TypeError. */
  function Iterate(v: Json): (r: Result<seq<Json>, Error>)
    ensures v.JArr? ==> r == Success(v.items)
    ensures v.JObj? ==>
      && r.Success? && |r.value| == |v.fields|
      && forall i :: 0 <= i < |v.fields| ==> r.value[i] == JStr(OrderedMap.Keys(v.fields)[i])
    ensures v.JStr? ==>
      && r.Success? && |r.value| == |v.s|
      && forall i :: 0 <= i < |v.s| ==> r.value[i] == JStr([v.s[i]])
    ensures r.Failure? <==> !(v.JObj? || v.JArr? || v.JStr?)
    ensures r.Failure? ==> r.error == TypeError
  {
    match v
    case JArr(items) => Success(items)
    case JObj(fields) => Success(seq(|fields|, i requires 0 <= i < |fields| => JStr(fields[i].0)))
    case JStr(s) => Success(seq(|s|, i requires 0 <= i < |s| => JStr([s[i]])))
    case _ => Failure(TypeError)
  }

  /** `key in v` on an object or a list is membership among the values
      `for x in v` visits; on a string it is so for a one-character key
      (a longer key is a substring search, which iteration cannot see). */
  lemma ContainsIsIterationMembership(v: Json, key: string)
    ensures (v.JObj? || v.JArr? || (v.JStr? && |key| == 1)) ==>
      Contains(v, key) == Success(JStr(key) in Iterate(v).value)
  {
    if v.JObj? {
      var ks := OrderedMap.Keys(v.fields);
      var it := Iterate(v).value;
      if key in ks {
        var i :| 0 <= i < |ks| && ks[i] == key;
        assert it[i] == JStr(key);
      }
    } else if v.JStr? && |key| == 1 {
      var it := Iterate(v).value;
      if JStr(key) in it {
        var i :| 0 <= i < |it| && it[i] == JStr(key);
        assert key <= v.s[i..];
      }
      if IsSubstring(key, v.s) {
        var i :| 0 <= i <= |v.s| && key <= v.s[i..];
        assert i < |v.s| && key == [v.s[i]] by {
          assert key[0] == v.s[i..][0];
        }
        assert it[i] == JStr(key);
      }
    }
  }
}
