/** The option hashes that callers hand to the jobs facade, after their keys
    have been made canonical symbols. A Ruby Hash keeps its keys in insertion
    order, which `find` over `keys` depends on, so a hash is an ordered
    sequence of (key, value) entries. */
module Options {

  /** A symbol key, such as `:source_table`, by its name. */
  type Key = string

  /** The Ruby values that matter to the request builders. `TableRef` and
      `Schema` stand for the client library's `TableReference.new(x)` and
      `TableSchema.new(fields: x)`, whose internals are not modelled. */
  datatype Value =
    | Nil
    | Bool(flag: bool)
    | Int(n: int)
    | Str(text: string)
    | Sym(name: Key)
    | List(items: seq<Value>)
    | Hash(entries: seq<(Key, Value)>)
    | TableRef(spec: Value)
    | Schema(fields: Value)

  type Entries = seq<(Key, Value)>

  /** Ruby truthiness: everything but `nil` and `false`. */
  predicate Truthy(v: Value) {
    !v.Nil? && v != Bool(false)
  }

  /** `hash.keys`, in order. */
  function Keys(o: Entries): (ks: seq<Key>)
    ensures |ks| == |o|
    ensures forall i :: 0 <= i < |o| ==> ks[i] == o[i].0
  {
    if o == [] then [] else [o[0].0] + Keys(o[1..])
  }

  /** A Ruby Hash never holds a key twice. */
  predicate UniqueKeys(o: Entries) {
    forall i, j :: 0 <= i < j < |o| ==> o[i].0 != o[j].0
  }

  /** `hash[k]`: the value stored under `k`, or `nil` when there is none
      (the first one, should a sequence that is not a Ruby Hash hold `k`
      twice). */
  function Lookup(o: Entries, k: Key): (v: Value)
    ensures k !in Keys(o) ==> v == Nil
  {
    if o == [] then Nil
    else if o[0].0 == k then o[0].1
    else Lookup(o[1..], k)
  }

  /** In a Ruby Hash, `hash[k]` is the value of the one entry whose key is `k`. */
  lemma {:induction false} LookupAt(o: Entries, i: nat)
    requires UniqueKeys(o) && i < |o|
    ensures Lookup(o, o[i].0) == o[i].1
  {
    if i > 0 {
      assert o[0].0 != o[i].0;
      assert o[1..][i - 1] == o[i];
      LookupAt(o[1..], i - 1);
    }
  }

  /** `hash[k] = v`: an existing key keeps its position and takes the new
      value; a new key is appended at the end. */
  function Set(o: Entries, k: Key, v: Value): (r: Entries)
    ensures Lookup(r, k) == v
    ensures forall k' :: k' != k ==> Lookup(r, k') == Lookup(o, k')
    ensures Keys(r) == if k in Keys(o) then Keys(o) else Keys(o) + [k]
    ensures |o| <= |r| <= |o| + 1
  {
    if o == [] then [(k, v)]
    else if o[0].0 == k then [(k, v)] + o[1..]
    else [o[0]] + Set(o[1..], k, v)
  }

  /** Assignment never moves a key that was already there. */
  lemma SetKeepsKeyAt(o: Entries, k: Key, v: Value, i: nat)
    requires i < |o|
    ensures i < |Set(o, k, v)| && Set(o, k, v)[i].0 == o[i].0
  {
  }

  /** Assignment keeps a Ruby Hash free of repeated keys. */
  lemma SetKeepsKeysUnique(o: Entries, k: Key, v: Value)
    requires UniqueKeys(o)
    ensures UniqueKeys(Set(o, k, v))
  {
  }

  /** `r` was obtained from `o` by assignments to the keys in `ks` only:
      the keys of `o` keep their order at the front of `r`, any new key is
      one of `ks`, and every other key reads the same. */
  ghost predicate UpdatedOnly(o: Entries, r: Entries, ks: set<Key>) {
    && |o| <= |r|
    && Keys(r)[..|o|] == Keys(o)
    && (forall i :: |o| <= i < |r| ==> r[i].0 in ks)
    && (forall k :: k !in ks ==> Lookup(r, k) == Lookup(o, k))
  }

  /** One assignment updates only its own key. Like the two lemmas above,
      this follows from `Set`'s contract; it is stated once so that the
      builders can cite it. */
  lemma SetUpdatesOnlyItsKey(o: Entries, k: Key, v: Value)
    ensures UpdatedOnly(o, Set(o, k, v), {k})
  {
  }

  /** Two rounds of assignments update only the keys of either round. */
  lemma {:induction false} UpdatedOnlyTrans(a: Entries, b: Entries, c: Entries, s1: set<Key>, s2: set<Key>, s: set<Key>)
    requires UpdatedOnly(a, b, s1) && UpdatedOnly(b, c, s2) && s1 + s2 <= s
    ensures UpdatedOnly(a, c, s)
  {
    assert Keys(c)[..|a|] == Keys(c)[..|b|][..|a|];
    forall i | |a| <= i < |c|
      ensures c[i].0 in s
    {
      if i < |b| {
        assert c[i].0 == Keys(c)[..|b|][i] == Keys(b)[i] == b[i].0;
      }
    }
  }
}
