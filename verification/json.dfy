/** The JSON values the exporter emits. A Python dict keeps its insertion
    order and `json.dump` writes the keys in that order, so an object is an
    ordered list of members; assigning `d[k] = v` replaces the value of an
    existing key in place and appends a new key at the end. */
module Json {
  import opened Wrappers

  datatype Value = Num(n: real) | Str(s: string) | Arr(items: seq<Value>) | Obj(members: seq<Member>)

  datatype Member = Member(key: string, value: Value)

  /** The keys of an object, in order. */
  function Keys(ms: seq<Member>): (ks: seq<string>)
    ensures |ks| == |ms|
    decreases |ms|
  {
    if |ms| == 0 then [] else [ms[0].key] + Keys(ms[1..])
  }

  /** The keys of a member list headed by `m`. */
  lemma KeysCons(m: Member, rest: seq<Member>)
    ensures Keys([m] + rest) == [m.key] + Keys(rest)
  {
    assert ([m] + rest)[1..] == rest;
  }

  /** Position `i` of the key list is the key of member `i`. */
  lemma {:induction false} KeyAt(ms: seq<Member>, i: nat)
    requires i < |ms|
    ensures Keys(ms)[i] == ms[i].key
    decreases i
  {
    if i > 0 {
      KeyAt(ms[1..], i - 1);
    }
  }

  /** What `k` looks up in the object, if anything. */
  function Get(ms: seq<Member>, k: string): (r: Option<Value>)
    ensures r.None? <==> k !in Keys(ms)
    decreases |ms|
  {
    if |ms| == 0 then None
    else if ms[0].key == k then Some(ms[0].value)
    else Get(ms[1..], k)
  }

  /** `d[k] = v` */
  function Put(ms: seq<Member>, k: string, v: Value): (r: seq<Member>)
    ensures Get(r, k) == Some(v)
    decreases |ms|
  {
    if |ms| == 0 then [Member(k, v)]
    else if ms[0].key == k then [Member(k, v)] + ms[1..]
    else [ms[0]] + Put(ms[1..], k, v)
  }

  /** Assigning an existing key keeps the key order; assigning a new key
      appends it. */
  lemma {:induction false} PutKeys(ms: seq<Member>, k: string, v: Value)
    ensures k in Keys(ms) ==> Keys(Put(ms, k, v)) == Keys(ms)
    ensures k !in Keys(ms) ==> Keys(Put(ms, k, v)) == Keys(ms) + [k]
    decreases |ms|
  {
    if |ms| > 0 {
      var m := ms[0];
      KeysCons(m, ms[1..]);
      assert [m] + ms[1..] == ms;
      if m.key == k {
        KeysCons(Member(k, v), ms[1..]);
      } else {
        PutKeys(ms[1..], k, v);
        KeysCons(m, Put(ms[1..], k, v));
      }
    }
  }

  /** Assigning one key leaves what every other key looks up unchanged. */
  lemma {:induction false} PutOther(ms: seq<Member>, k: string, v: Value, other: string)
    requires other != k
    ensures Get(Put(ms, k, v), other) == Get(ms, other)
    decreases |ms|
  {
    if |ms| > 0 && ms[0].key != k {
      PutOther(ms[1..], k, v, other);
    }
  }

  /** The key list, position by position. */
  lemma KeysIndexed(ms: seq<Member>)
    ensures forall i :: 0 <= i < |ms| ==> Keys(ms)[i] == ms[i].key
  {
    forall i | 0 <= i < |ms|
      ensures Keys(ms)[i] == ms[i].key
    {
      KeyAt(ms, i);
    }
  }

  /** No string occurs twice. */
  predicate Distinct(ks: seq<string>) {
    forall i, j :: 0 <= i < j < |ks| ==> ks[i] != ks[j]
  }

  /** No key occurs twice, as in every Python dict. */
  predicate UniqueKeys(ms: seq<Member>) {
    Distinct(Keys(ms))
  }

  /** The keys of a concatenation are the keys of its parts. */
  lemma {:induction false} KeysAppend(a: seq<Member>, b: seq<Member>)
    ensures Keys(a + b) == Keys(a) + Keys(b)
    decreases |a|
  {
    if |a| == 0 {
      assert a + b == b;
    } else {
      assert (a + b)[1..] == a[1..] + b;
      KeysAppend(a[1..], b);
    }
  }

  /** Looking a key up in a concatenation looks in the first part first. */
  lemma {:induction false} GetAppend(a: seq<Member>, b: seq<Member>, k: string)
    ensures Get(a + b, k) == if k in Keys(a) then Get(a, k) else Get(b, k)
    decreases |a|
  {
    if |a| > 0 {
      assert (a + b)[1..] == a[1..] + b;
      GetAppend(a[1..], b, k);
      assert k in Keys(a) <==> a[0].key == k || k in Keys(a[1..]);
    } else {
      assert a + b == b;
    }
  }

  /** In an object without repeated keys, each member is what its key
      looks up. */
  lemma {:induction false} GetUnique(ms: seq<Member>, i: nat)
    requires UniqueKeys(ms)
    requires i < |ms|
    ensures Get(ms, ms[i].key) == Some(ms[i].value)
    decreases i
  {
    if i > 0 {
      KeyAt(ms, 0);
      KeyAt(ms, i);
      assert Keys(ms[1..]) == Keys(ms)[1..];
      assert ms[1..][i - 1] == ms[i];
      GetUnique(ms[1..], i - 1);
    }
  }

  /** Assigning a key the object does not have appends it. */
  lemma {:induction false} PutAbsent(ms: seq<Member>, k: string, v: Value)
    requires k !in Keys(ms)
    ensures Put(ms, k, v) == ms + [Member(k, v)]
    decreases |ms|
  {
    if |ms| > 0 {
      KeysCons(ms[0], ms[1..]);
      assert [ms[0]] + ms[1..] == ms;
      PutAbsent(ms[1..], k, v);
      assert ms + [Member(k, v)] == [ms[0]] + (ms[1..] + [Member(k, v)]);
    }
  }

  /** A list of numbers, as `json.dump` writes a Python list of floats. */
  function Nums(xs: seq<real>): Value {
    Arr(seq(|xs|, i requires 0 <= i < |xs| => Num(xs[i])))
  }

  /** A list of strings. */
  function Strs(xs: seq<string>): Value {
    Arr(seq(|xs|, i requires 0 <= i < |xs| => Str(xs[i])))
  }
}
