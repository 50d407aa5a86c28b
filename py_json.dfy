/**
 * The values `json.load` produces and the Python dictionary operations the
 * option builder uses.  A dictionary is a list of key/value pairs in
 * insertion order: assigning to a key that is present replaces its value in
 * place, assigning to a new key appends it, and `{**a, **b}` assigns the
 * pairs of `b` one by one.  Floating-point numbers are not modelled.
 */
module PyJson {
  import opened Wrappers

  datatype Json =
    | JNull
    | JBool(b: bool)
    | JInt(i: int)
    | JStr(s: string)
    | JList(items: seq<Json>)
    | JObject(fields: seq<(string, Json)>)

  type Dict = seq<(string, Json)>

  function Keys(d: Dict): (ks: seq<string>)
    ensures |ks| == |d|
  {
    if d == [] then [] else [d[0].0] + Keys(d[1..])
  }

  /** The key at each index is the key of the pair there. */
  lemma {:induction false} KeysAt(d: Dict)
    ensures forall i :: 0 <= i < |d| ==> Keys(d)[i] == d[i].0
    decreases |d|
  {
    if d != [] {
      KeysAt(d[1..]);
    }
  }

  predicate Distinct(ks: seq<string>) {
    forall i, j :: 0 <= i < j < |ks| ==> ks[i] != ks[j]
  }

  /** No key occurs twice, as in every Python dictionary. */
  predicate DistinctKeys(d: Dict) {
    Distinct(Keys(d))
  }

  /** `d.get(k)`: the value of the pair with key `k`. */
  function Get(d: Dict, k: string): (r: Option<Json>)
    ensures r.Some? <==> k in Keys(d)
  {
    if d == [] then None
    else if d[0].0 == k then Some(d[0].1)
    else
      assert Keys(d) == [d[0].0] + Keys(d[1..]);
      Get(d[1..], k)
  }

  /** In a dictionary the value of a key is the one its pair holds. */
  lemma {:induction false} GetAt(d: Dict, i: nat)
    requires DistinctKeys(d) && i < |d|
    ensures Get(d, d[i].0) == Some(d[i].1)
    decreases i
  {
    if i > 0 {
      assert Keys(d)[0] != Keys(d)[i];
      assert Keys(d[1..]) == Keys(d)[1..];
      GetAt(d[1..], i - 1);
    }
  }

  /** `d.get(k, default)`. */
  function GetOr(d: Dict, k: string, default: Json): (r: Json)
    ensures k in Keys(d) ==> Some(r) == Get(d, k)
    ensures k !in Keys(d) ==> r == default
  {
    match Get(d, k)
    case Some(v) => v
    case None => default
  }

  /** The keys of a dictionary that starts with the pair `p`. */
  lemma ConsKeys(p: (string, Json), rest: Dict)
    ensures Keys([p] + rest) == [p.0] + Keys(rest)
  {
    var r := [p] + rest;
    assert r[0] == p && r[1..] == rest;
  }

  /** Looking up in a dictionary that starts with the pair `p`. */
  lemma ConsGet(p: (string, Json), rest: Dict)
    ensures forall k :: Get([p] + rest, k) == if p.0 == k then Some(p.1) else Get(rest, k)
  {
    var r := [p] + rest;
    assert r[0] == p && r[1..] == rest;
  }

  /** `d[k] = v`. */
  function Set(d: Dict, k: string, v: Json): (r: Dict)
    ensures Get(r, k) == Some(v)
    ensures forall k' :: k' != k ==> Get(r, k') == Get(d, k')
  {
    if d == [] then
      ConsGet((k, v), []);
      [(k, v)]
    else
      assert d == [d[0]] + d[1..];
      ConsGet(d[0], d[1..]);
      if d[0].0 == k then
        ConsGet((k, v), d[1..]);
        [(k, v)] + d[1..]
      else
        var rest := Set(d[1..], k, v);
        ConsGet(d[0], rest);
        [d[0]] + rest
  }

  /** Assignment replaces the value of a present key in its place and
      appends a new key at the end. */
  lemma {:induction false} SetKeys(d: Dict, k: string, v: Json)
    ensures Keys(Set(d, k, v)) == if k in Keys(d) then Keys(d) else Keys(d) + [k]
    decreases |d|
  {
    if d == [] {
      ConsKeys((k, v), []);
    } else if d[0].0 == k {
      SetKeysFirst(d, k, v);
    } else {
      SetKeys(d[1..], k, v);
      SetKeysLater(d, k, v);
    }
  }

  lemma SetKeysFirst(d: Dict, k: string, v: Json)
    requires d != [] && d[0].0 == k
    ensures k in Keys(d) && Keys(Set(d, k, v)) == Keys(d)
  {
    assert d == [d[0]] + d[1..];
    ConsKeys(d[0], d[1..]);
    ConsKeys((k, v), d[1..]);
  }

  lemma SetKeysLater(d: Dict, k: string, v: Json)
    requires d != [] && d[0].0 != k
    requires Keys(Set(d[1..], k, v)) == if k in Keys(d[1..]) then Keys(d[1..]) else Keys(d[1..]) + [k]
    ensures Keys(Set(d, k, v)) == if k in Keys(d) then Keys(d) else Keys(d) + [k]
  {
    var rest := Set(d[1..], k, v);
    assert Set(d, k, v) == [d[0]] + rest;
    assert d == [d[0]] + d[1..];
    ConsKeys(d[0], d[1..]);
    ConsKeys(d[0], rest);
    assert (k in Keys(d)) == (k in Keys(d[1..]));
    if k !in Keys(d[1..]) {
      assert [d[0].0] + (Keys(d[1..]) + [k]) == ([d[0].0] + Keys(d[1..])) + [k];
    }
  }

  /** Assignment keeps the keys distinct. */
  lemma SetKeepsDistinct(d: Dict, k: string, v: Json)
    requires DistinctKeys(d)
    ensures DistinctKeys(Set(d, k, v))
  {
    SetKeys(d, k, v);
    if k !in Keys(d) {
      var ks := Keys(d) + [k];
      assert forall i :: 0 <= i < |d| ==> ks[i] == Keys(d)[i];
    }
  }

  /** `{**d, **extra}`: the pairs of `extra` assigned into `d` in order. */
  function Spread(d: Dict, extra: Dict): (r: Dict)
    ensures forall k :: k !in Keys(extra) ==> Get(r, k) == Get(d, k)
    decreases |extra|
  {
    if extra == [] then d
    else
      assert Keys(extra) == [extra[0].0] + Keys(extra[1..]);
      Spread(Set(d, extra[0].0, extra[0].1), extra[1..])
  }

  lemma DistinctTail(ks: seq<string>)
    requires Distinct(ks) && ks != []
    ensures Distinct(ks[1..]) && ks[0] !in ks[1..]
  {
    var t := ks[1..];
    assert forall i :: 0 <= i < |t| ==> t[i] == ks[i + 1];
  }

  /** After a spread, a key of `extra` has the value `extra` gives it. */
  lemma {:induction false} SpreadWins(d: Dict, extra: Dict)
    requires DistinctKeys(extra)
    ensures forall k :: k in Keys(extra) ==> Get(Spread(d, extra), k) == Get(extra, k)
    decreases |extra|
  {
    if extra != [] {
      var k0 := extra[0].0;
      var d1 := Set(d, k0, extra[0].1);
      assert Keys(extra) == [k0] + Keys(extra[1..]);
      DistinctTail(Keys(extra));
      assert Keys(extra)[1..] == Keys(extra[1..]);
      SpreadWins(d1, extra[1..]);
      forall k | k in Keys(extra)
        ensures Get(Spread(d, extra), k) == Get(extra, k)
      {
        if k == k0 {
          assert Get(Spread(d1, extra[1..]), k) == Get(d1, k);
        }
      }
    }
  }

  /** After a spread, the key at index `i` of `d` has its value from `extra`
      when `extra` has it, and its own value otherwise. */
  lemma SpreadGetAt(d: Dict, extra: Dict, i: nat)
    requires DistinctKeys(d) && DistinctKeys(extra) && i < |d|
    ensures Get(Spread(d, extra), d[i].0) ==
              if d[i].0 in Keys(extra) then Get(extra, d[i].0) else Some(d[i].1)
  {
    GetAt(d, i);
    if d[i].0 in Keys(extra) {
      SpreadWins(d, extra);
    }
  }

  /** A spread keeps the keys of `d` in their places; new keys follow. */
  lemma {:induction false} SpreadKeepsOrder(d: Dict, extra: Dict)
    ensures |Spread(d, extra)| >= |d| && Keys(Spread(d, extra))[..|d|] == Keys(d)
    decreases |extra|
  {
    if extra != [] {
      var d1 := Set(d, extra[0].0, extra[0].1);
      SetKeys(d, extra[0].0, extra[0].1);
      SpreadKeepsOrder(d1, extra[1..]);
      assert Spread(d, extra) == Spread(d1, extra[1..]);
      assert Keys(d1)[..|d|] == Keys(d);
      PrefixTrans(Keys(Spread(d1, extra[1..])), Keys(d1), Keys(d));
    }
  }

  /** A prefix of a prefix is a prefix. */
  lemma PrefixTrans(x: seq<string>, y: seq<string>, z: seq<string>)
    requires |x| >= |y| >= |z| && x[..|y|] == y && y[..|z|] == z
    ensures x[..|z|] == z
  {
    assert x[..|z|] == x[..|y|][..|z|];
  }

  /** Python truthiness of a JSON value. */
  predicate Truthy(j: Json) {
    match j
    case JNull => false
    case JBool(b) => b
    case JInt(i) => i != 0
    case JStr(s) => s != ""
    case JList(items) => items != []
    case JObject(fields) => fields != []
  }
}
