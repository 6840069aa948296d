/**
 * `DictionaryExtensions.Merge`: copy every entry of a second dictionary into
 * the first one, in place, the second dictionary winning on a shared key.
 */
module DictionaryExtensions {

  /** A mutable `IDictionary<K, V>`; `items` is its current content. */
  class Dictionary<K(==), V> {
    var items: map<K, V>

    constructor (items: map<K, V>)
      ensures this.items == items
    {
      this.items := items;
    }

    /** `IDictionary.Count`. */
    function Count(): nat
      reads this
    {
      |items|
    }
  }

  /**
   * The content a merge produces: every key of either map, with the value of
   * `second` where it has one and the value of `first` otherwise.
   */
  function Merged<K, V>(first: map<K, V>, second: map<K, V>): (r: map<K, V>)
    ensures r.Keys == first.Keys + second.Keys
    ensures forall k :: k in second ==> r[k] == second[k]
    ensures forall k :: k in first && k !in second ==> r[k] == first[k]
  {
    map k | k in first.Keys + second.Keys :: if k in second then second[k] else first[k]
  }

  /**
   * `dict1.Merge(dict2)`. A null or empty `dict2` gives back `dict1` (null or
   * not) untouched; a null `dict1` gives back `dict2` itself; otherwise every
   * entry of `dict2` is written into `dict1`, which is returned. The entries
   * are visited in an order the model leaves open, as an enumeration of a
   * dictionary does. When `dict1` and `dict2` are the same object the model
   * lets every overwrite during the enumeration through, as a dictionary
   * that tolerates that does.
   */
  method Merge<K(==), V>(dict1: Dictionary?<K, V>, dict2: Dictionary?<K, V>) returns (r: Dictionary?<K, V>)
    modifies dict1
    ensures dict2 == null || old(dict2.Count()) == 0 ==>
              r == dict1 && (dict1 != null ==> dict1.items == old(dict1.items))
    ensures dict2 != null && old(dict2.Count()) != 0 && dict1 == null ==>
              r == dict2 && dict2.items == old(dict2.items)
    ensures dict2 != null && old(dict2.Count()) != 0 && dict1 != null ==>
              r == dict1 && dict1.items == Merged(old(dict1.items), old(dict2.items))
    ensures dict2 != null && dict2 != dict1 ==> dict2.items == old(dict2.items)
  {
    if dict2 == null || dict2.Count() == 0 {
      return dict1;
    }
    if dict1 == null {
      return dict2;
    }
    CopyEntries(dict1, dict2);
    r := dict1;
  }

  /** The `foreach` of `Merge`: write every entry of `src` into `dst`. */
  method CopyEntries<K(==), V>(dst: Dictionary<K, V>, src: Dictionary<K, V>)
    modifies dst
    ensures dst.items == Merged(old(dst.items), old(src.items))
    ensures src != dst ==> src.items == old(src.items)
  {
    ghost var source := src.items;
    ghost var copied: map<K, V> := map[];
    var pending := src.items.Keys;
    while pending != {}
      invariant pending <= source.Keys
      invariant copied.Keys == source.Keys - pending
      invariant forall k :: k in copied ==> copied[k] == source[k]
      invariant forall k :: k in pending ==> k in src.items && src.items[k] == source[k]
      invariant dst.items == Merged(old(dst.items), copied)
      invariant src != dst ==> src.items == source
      decreases pending
    {
      var k :| k in pending;
      MergedUpdate(old(dst.items), copied, k, source[k]);
      dst.items := dst.items[k := src.items[k]];
      copied := copied[k := source[k]];
      pending := pending - {k};
    }
    assert copied == source;
  }

  /** Writing one more entry after a merge is merging one more entry. */
  lemma MergedUpdate<K, V>(first: map<K, V>, second: map<K, V>, k: K, v: V)
    ensures Merged(first, second[k := v]) == Merged(first, second)[k := v]
  {
  }

  /** Merging into an empty dictionary gives the second dictionary's content. */
  lemma MergedIntoEmpty<K, V>(m: map<K, V>)
    ensures Merged(map[], m) == m
  {
  }

  /** Merging the same second map again changes nothing. */
  lemma MergedIdempotent<K, V>(first: map<K, V>, second: map<K, V>)
    ensures Merged(Merged(first, second), second) == Merged(first, second)
  {
  }

  /** Merging a dictionary into itself (`dict1 == dict2`) changes nothing. */
  lemma MergedWithItself<K, V>(m: map<K, V>)
    ensures Merged(m, m) == m
  {
  }

  /** The merge is Dafny's right-biased map union. */
  lemma MergedIsUnion<K, V>(first: map<K, V>, second: map<K, V>)
    ensures Merged(first, second) == first + second
  {
  }
}
