// Plain JavaScript objects as the project form handles them: an ordered list
// of own properties (insertion order is the order `Object.entries` and
// object spread enumerate), each holding a string, `undefined` or `null`.

module JsObjects {
  import opened Common

  datatype JsValue = Undefined | Null | Str(s: string)

  type Entry = (string, JsValue)

  /** An object's own properties, in insertion order. */
  type JsObject = seq<Entry>

  /** A real object never has the same key twice. */
  predicate DistinctKeys(o: JsObject)
  {
    forall i, j :: 0 <= i < j < |o| ==> o[i].0 != o[j].0
  }

  /** The property stored under `k`, if `k` is a key of `o`. */
  function Get(o: JsObject, k: string): Option<JsValue>
    decreases |o|
  {
    if o == [] then None
    else if o[0].0 == k then Some(o[0].1)
    else Get(o[1..], k)
  }

  /** `Get` finds `k` exactly when some entry has that key. */
  lemma {:induction false} GetFound(o: JsObject, k: string)
    ensures Get(o, k).Some? <==> exists i :: 0 <= i < |o| && o[i].0 == k
    decreases |o|
  {
    if o != [] && o[0].0 != k {
      GetFound(o[1..], k);
      assert forall i :: 1 <= i < |o| ==> o[i] == o[1..][i - 1];
    }
  }

  /** An entry of an object with distinct keys is what `Get` finds. */
  lemma {:induction false} GetEntry(o: JsObject, i: nat)
    requires DistinctKeys(o) && i < |o|
    ensures Get(o, o[i].0) == Some(o[i].1)
    decreases i
  {
    if i > 0 {
      GetEntry(o[1..], i - 1);
      assert o[0].0 != o[i].0;
    }
  }

  /**
   * `o[k] = v`: an existing property changes its value where it stands, a new
   * property goes last.
   */
  function Put(o: JsObject, k: string, v: JsValue): (r: JsObject)
    ensures Get(r, k) == Some(v)
    ensures forall k' :: k' != k ==> Get(r, k') == Get(o, k')
    decreases |o|
  {
    if o == [] then [(k, v)]
    else if o[0].0 == k then [(k, v)] + o[1..]
    else [o[0]] + Put(o[1..], k, v)
  }

  /** A new key goes last; an existing key keeps the object's size; keys stay distinct. */
  lemma {:induction false} PutShape(o: JsObject, k: string, v: JsValue)
    ensures Get(o, k).None? ==> Put(o, k, v) == o + [(k, v)]
    ensures Get(o, k).Some? ==> |Put(o, k, v)| == |o|
    ensures DistinctKeys(o) ==> DistinctKeys(Put(o, k, v))
    decreases |o|
  {
    if o != [] && o[0].0 != k {
      var rest := Put(o[1..], k, v);
      PutShape(o[1..], k, v);
      assert Get(o, k) == Get(o[1..], k);
      if DistinctKeys(o) {
        GetFound(o[1..], o[0].0);
        assert Get(o[1..], o[0].0).None?;
        assert Get(rest, o[0].0).None?;
        GetFound(rest, o[0].0);
        var r := [o[0]] + rest;
        forall i, j | 0 <= i < j < |r| ensures r[i].0 != r[j].0 {
          if i > 0 {
            assert r[i] == rest[i - 1] && r[j] == rest[j - 1];
          } else {
            assert r[j] == rest[j - 1];
          }
        }
      }
    }
  }

  /** Writing the value a key already has changes nothing. */
  lemma {:induction false} PutSame(o: JsObject, k: string, v: JsValue)
    requires Get(o, k) == Some(v)
    ensures Put(o, k, v) == o
    decreases |o|
  {
    if o[0].0 != k {
      PutSame(o[1..], k, v);
    }
  }

  /** `{...base, ...over}`: a copy of `base` with every property of `over` written in turn. */
  function Spread(base: JsObject, over: JsObject): JsObject
    decreases |over|
  {
    if over == [] then base else Spread(Put(base, over[0].0, over[0].1), over[1..])
  }

  /**
   * After a spread a key of `over` has `over`'s value and every other key keeps
   * `base`'s; distinct keys stay distinct.
   */
  lemma {:induction false} SpreadGet(base: JsObject, over: JsObject)
    requires DistinctKeys(over)
    ensures forall k :: Get(Spread(base, over), k) == if Get(over, k).Some? then Get(over, k) else Get(base, k)
    ensures DistinctKeys(base) ==> DistinctKeys(Spread(base, over))
    decreases |over|
  {
    if over != [] {
      var b' := Put(base, over[0].0, over[0].1);
      var rest := over[1..];
      assert DistinctKeys(rest);
      PutShape(base, over[0].0, over[0].1);
      SpreadGet(b', rest);
      forall k ensures Get(Spread(base, over), k) == if Get(over, k).Some? then Get(over, k) else Get(base, k) {
        if k != over[0].0 {
          assert Get(over, k) == Get(rest, k);
        } else {
          GetFound(rest, k);
          assert Get(rest, k).None?;
        }
      }
    }
  }

  /** Spreading `over` into an object that already holds all of `over`'s values changes nothing. */
  lemma {:induction false} SpreadAlreadyApplied(x: JsObject, over: JsObject)
    requires DistinctKeys(over)
    requires forall i :: 0 <= i < |over| ==> Get(x, over[i].0) == Some(over[i].1)
    ensures Spread(x, over) == x
    decreases |over|
  {
    if over != [] {
      PutSame(x, over[0].0, over[0].1);
      SpreadAlreadyApplied(x, over[1..]);
    }
  }

  /** Spreading the same object twice gives what spreading it once gives. */
  lemma SpreadIdempotent(base: JsObject, over: JsObject)
    requires DistinctKeys(over)
    ensures Spread(Spread(base, over), over) == Spread(base, over)
  {
    SpreadGet(base, over);
    forall i | 0 <= i < |over| ensures Get(Spread(base, over), over[i].0) == Some(over[i].1) {
      GetEntry(over, i);
    }
    SpreadAlreadyApplied(Spread(base, over), over);
  }
}
