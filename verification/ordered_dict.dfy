/** Python dictionaries: iteration follows first insertion, and assigning to a present key
    keeps its position. */
module OrderedDict {

  datatype Entry<K, V> = Entry(key: K, val: V)

  /** Position of `k`, or the length of the sequence. */
  function IndexOf<K(==), V>(es: seq<Entry<K, V>>, k: K): (i: nat)
    ensures i <= |es|
    ensures i < |es| ==> es[i].key == k
    ensures forall j :: 0 <= j < i ==> es[j].key != k
  {
    if es == [] || es[0].key == k then 0 else 1 + IndexOf(es[1..], k)
  }

  datatype Dict<K(==, !new), V> = Dict(entries: seq<Entry<K, V>>) {

    /** No key stands twice. */
    ghost predicate Valid() {
      forall i, j :: 0 <= i < j < |entries| ==> entries[i].key != entries[j].key
    }

    predicate Has(k: K) { IndexOf(entries, k) < |entries| }

    function Get(k: K): V
      requires Has(k)
    {
      entries[IndexOf(entries, k)].val
    }

    function Put(k: K, v: V): (d: Dict<K, V>)
      ensures Valid() ==> d.Valid()
    {
      var i := IndexOf(entries, k);
      Dict(if i < |entries| then entries[i := Entry(k, v)] else entries + [Entry(k, v)])
    }

    function Keys(): (ks: seq<K>)
      ensures |ks| == |entries|
      ensures forall i :: 0 <= i < |ks| ==> ks[i] == entries[i].key
    {
      seq(|entries|, i requires 0 <= i < |entries| => entries[i].key)
    }

    function Values(): (vs: seq<V>)
      ensures |vs| == |entries|
      ensures forall i :: 0 <= i < |vs| ==> vs[i] == entries[i].val
    {
      seq(|entries|, i requires 0 <= i < |entries| => entries[i].val)
    }

    /** Looking up any key after an assignment. */
    lemma PutLookup(k: K, v: V, k': K)
      ensures Put(k, v).Has(k') <==> k' == k || Has(k')
      ensures Put(k, v).Has(k) && Put(k, v).Get(k) == v
      ensures k' != k && Has(k') ==> Put(k, v).Get(k') == Get(k')
    {
      var i := IndexOf(entries, k);
      var d := Put(k, v);
      Located(d.entries, k, if i < |entries| then i else |entries|);
      var i' := IndexOf(entries, k');
      if k' != k {
        if i' < |entries| {
          Located(d.entries, k', i');
        } else {
          NotLocated(d.entries, k');
        }
      }
    }

    /** The same for all keys at once, and the effect on the key order. */
    lemma PutEffect(k: K, v: V)
      ensures Put(k, v).Has(k) && Put(k, v).Get(k) == v
      ensures forall k' :: k' != k ==>
        (Put(k, v).Has(k') <==> Has(k')) && (Has(k') ==> Put(k, v).Get(k') == Get(k'))
      ensures Put(k, v).Keys() == Keys() + (if Has(k) then [] else [k])
    {
      forall k' | k' != k
        ensures (Put(k, v).Has(k') <==> Has(k')) && (Has(k') ==> Put(k, v).Get(k') == Get(k'))
      {
        PutLookup(k, v, k');
      }
      PutLookup(k, v, k);
    }
  }

  lemma Located<K, V>(es: seq<Entry<K, V>>, k: K, i: nat)
    requires i < |es| && es[i].key == k
    requires forall j :: 0 <= j < i ==> es[j].key != k
    ensures IndexOf(es, k) == i
  {
  }

  lemma NotLocated<K, V>(es: seq<Entry<K, V>>, k: K)
    requires forall j :: 0 <= j < |es| ==> es[j].key != k
    ensures IndexOf(es, k) == |es|
  {
  }

  function Empty<K(==, !new), V>(): (d: Dict<K, V>)
    ensures d.Valid()
  {
    Dict([])
  }
}
