/**
 * The key under which `PersistentData.update` and `PersistentData.load` address `localStorage`:
 * a key is namespaced by the page's path, `pathname + "." + key`, unless it already starts with
 * that path.
 */
module StorageKeys {
  import opened Wrappers
  import opened ResilientFetch

  /** The item a key names, within the page at `pathname`. */
  function NamespacedKey(pathname: string, key: string): (r: string)
    ensures pathname <= r
    ensures r == key <==> pathname <= key
    ensures r == key || r == pathname + "." + key
  {
    if pathname <= key then key else pathname + "." + key
  }

  /** Both `update` and `load` return at once for a null key and otherwise use the namespaced key. */
  function StorageKey(pathname: string, key: Option<string>): (r: Option<string>)
    ensures r.Some? <==> key.Some?
    ensures r.Some? ==> pathname <= r.value
    ensures r.Some? && pathname <= key.value ==> r.value == key.value
    ensures key.Some? ==> r == Some(NamespacedKey(pathname, key.value))
  {
    match key
    case None => None
    case Some(k) => Some(NamespacedKey(pathname, k))
  }

  /** Namespacing a namespaced key changes nothing. */
  lemma NamespacedKeyIdempotent(pathname: string, key: string)
    ensures NamespacedKey(pathname, NamespacedKey(pathname, key)) == NamespacedKey(pathname, key)
  {
  }

  /** Keys that do not carry the path yet are kept apart, and the original key can be read back from the item name. */
  lemma NamespacedKeyRecoversKey(pathname: string, key: string)
    requires !(pathname <= key)
    ensures NamespacedKey(pathname, key)[|pathname| + 1..] == key
  {
  }

  /** A key and the same key already namespaced by hand name one and the same item. */
  lemma NamespacedKeyAlias(pathname: string, key: string)
    requires !(pathname <= key)
    ensures NamespacedKey(pathname, pathname + "." + key) == NamespacedKey(pathname, key)
  {
    assert pathname <= pathname + "." + key;
  }

  /**
   * The key expression as written calls `startswith`, which strings do not have: it throws a
   * TypeError for every non-null key, so neither `update` nor `load` ever reaches storage.
   */
  function StorageKeyAsWritten(pathname: string, key: Option<string>): (r: Result<Option<string>, Thrown<()>>)
    ensures r.Success? <==> key.None?
    ensures r.Success? ==> r.value.None?
  {
    match key
    case None => Success(None)
    case Some(_) => Failure(TypeError)
  }

  /** For every key the written expression throws where the intended one names an item under the path. */
  lemma AsWrittenNeverNamespaces(pathname: string, key: string)
    ensures StorageKeyAsWritten(pathname, Some(key)) == Failure(TypeError)
    ensures StorageKey(pathname, Some(key)) == Some(NamespacedKey(pathname, key))
    ensures pathname <= NamespacedKey(pathname, key)
  {
  }
}
