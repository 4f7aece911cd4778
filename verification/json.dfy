/**
 Plain JSON-compatible values as the preset table builds them: booleans,
 strings, arrays and objects. An object is an ordered sequence of members, so
 that the order in which keys were authored (and in which `JSON.stringify`
 emits them) is part of the value.
 */
module Json {
  import opened Wrappers

  datatype Json =
    | JBool(b: bool)
    | JString(s: string)
    | JArray(items: seq<Json>)
    | JObject(members: seq<Member>)

  /** One own property of an object literal. */
  datatype Member = Member(key: string, value: Json)

  /** The keys of an object, in insertion order. */
  function Keys(ms: seq<Member>): (ks: seq<string>)
    ensures |ks| == |ms|
    ensures forall i :: 0 <= i < |ms| ==> ks[i] == ms[i].key
  {
    if ms == [] then [] else [ms[0].key] + Keys(ms[1..])
  }

  /** Some member is named `key`. */
  predicate HasKey(ms: seq<Member>, key: string)
  {
    exists i :: 0 <= i < |ms| && ms[i].key == key
  }

  /** No key occurs twice, as in every object JavaScript can build. */
  predicate DistinctKeys(ms: seq<Member>)
  {
    forall i, j :: 0 <= i < j < |ms| ==> ms[i].key != ms[j].key
  }

  /** Property read `obj[key]`: the value of the member named `key`, if any. */
  function Get(ms: seq<Member>, key: string): (r: Option<Json>)
    ensures r.Some? <==> HasKey(ms, key)
  {
    if ms == [] then None
    else if ms[0].key == key then Some(ms[0].value)
    else Get(ms[1..], key)
  }

  /**
   Defining one data property on an object, as object spread does for each
   copied property: an existing key keeps its position and takes the new
   value, a new key is appended at the end.
   */
  function Assign(ms: seq<Member>, key: string, value: Json): (r: seq<Member>)
    ensures !HasKey(ms, key) ==> r == ms + [Member(key, value)]
    ensures HasKey(ms, key) ==> |r| == |ms|
  {
    if ms == [] then [Member(key, value)]
    else if ms[0].key == key then [Member(key, value)] + ms[1..]
    else [ms[0]] + Assign(ms[1..], key, value)
  }

  /** After the definition, `key` reads as the new value and every other key reads as before. */
  lemma {:induction false} AssignGet(ms: seq<Member>, key: string, value: Json, k: string)
    ensures Get(Assign(ms, key, value), k) == if k == key then Some(value) else Get(ms, k)
  {
    if ms != [] && ms[0].key != key {
      AssignGet(ms[1..], key, value, k);
      assert ([ms[0]] + Assign(ms[1..], key, value))[1..] == Assign(ms[1..], key, value);
    }
  }

  /** Redefining a key that is already present keeps the key order unchanged. */
  lemma {:induction false} AssignExistingKeepsOrder(ms: seq<Member>, key: string, value: Json)
    requires HasKey(ms, key)
    ensures Keys(Assign(ms, key, value)) == Keys(ms)
  {
    if ms[0].key != key {
      var i :| 0 <= i < |ms| && ms[i].key == key;
      assert ms[1..][i - 1] == ms[i];
      AssignExistingKeepsOrder(ms[1..], key, value);
      var r := Assign(ms, key, value);
      assert r == [ms[0]] + Assign(ms[1..], key, value);
      assert r[1..] == Assign(ms[1..], key, value);
    }
  }

  /** `{ ...ms, ...extra }`: the members of `extra` defined one by one, in order, on a copy of `ms`. */
  function Spread(ms: seq<Member>, extra: seq<Member>): (r: seq<Member>)
    ensures |ms| <= |r| <= |ms| + |extra|
    decreases |extra|
  {
    if extra == [] then ms
    else Spread(Assign(ms, extra[0].key, extra[0].value), extra[1..])
  }

  /**
   After a spread, a key that `extra` defines reads as `extra`'s value (the
   keys of `extra` being distinct), and any other key reads as in `ms`.
   */
  lemma {:induction false} SpreadGet(ms: seq<Member>, extra: seq<Member>, k: string)
    requires DistinctKeys(extra)
    ensures Get(Spread(ms, extra), k) == if HasKey(extra, k) then Get(extra, k) else Get(ms, k)
    decreases |extra|
  {
    if extra != [] {
      var ms' := Assign(ms, extra[0].key, extra[0].value);
      DistinctKeysTail(extra);
      SpreadGet(ms', extra[1..], k);
      AssignGet(ms, extra[0].key, extra[0].value, k);
      if k == extra[0].key {
        assert !HasKey(extra[1..], k) by {
          forall i | 0 <= i < |extra[1..]|
            ensures extra[1..][i].key != k
          {
            assert extra[1..][i] == extra[i + 1];
          }
        }
      } else {
        assert HasKey(extra, k) == HasKey(extra[1..], k) by {
          if HasKey(extra, k) {
            var i :| 0 <= i < |extra| && extra[i].key == k;
            assert extra[1..][i - 1] == extra[i];
          }
          if HasKey(extra[1..], k) {
            var i :| 0 <= i < |extra[1..]| && extra[1..][i].key == k;
            assert extra[1..][i] == extra[i + 1];
          }
        }
      }
    }
  }

  /** Dropping the first member keeps the keys distinct. */
  lemma DistinctKeysTail(ms: seq<Member>)
    requires ms != [] && DistinctKeys(ms)
    ensures DistinctKeys(ms[1..])
  {
    forall i, j | 0 <= i < j < |ms[1..]|
      ensures ms[1..][i].key != ms[1..][j].key
    {
      assert ms[1..][i] == ms[i + 1] && ms[1..][j] == ms[j + 1];
    }
  }

  /**
   When every spread key is new and they are pairwise distinct, spreading is
   plain concatenation: all earlier members keep their keys, values and
   positions, and the new members follow in their own order.
   */
  lemma {:induction false} SpreadFreshKeysAppends(ms: seq<Member>, extra: seq<Member>)
    requires DistinctKeys(extra)
    requires forall i :: 0 <= i < |extra| ==> !HasKey(ms, extra[i].key)
    ensures Spread(ms, extra) == ms + extra
    decreases |extra|
  {
    if extra != [] {
      var ms' := ms + [extra[0]];
      assert Assign(ms, extra[0].key, extra[0].value) == ms';
      DistinctKeysTail(extra);
      forall i | 0 <= i < |extra[1..]|
        ensures !HasKey(ms', extra[1..][i].key)
      {
        assert extra[1..][i] == extra[i + 1];
        assert extra[0].key != extra[i + 1].key;
        assert !HasKey(ms, extra[i + 1].key);
      }
      SpreadFreshKeysAppends(ms', extra[1..]);
      assert ms' + extra[1..] == ms + extra;
    }
  }

  /** Reading a key that the front part lacks falls through to the back part. */
  lemma {:induction false} GetAppend(front: seq<Member>, back: seq<Member>, k: string)
    requires !HasKey(front, k)
    ensures Get(front + back, k) == Get(back, k)
  {
    if front != [] {
      assert (front + back)[0] == front[0];
      assert front[0].key != k;
      assert (front + back)[1..] == front[1..] + back;
      GetAppend(front[1..], back, k);
      assert Get(front + back, k) == Get((front + back)[1..], k);
    } else {
      assert front + back == back;
    }
  }
}
