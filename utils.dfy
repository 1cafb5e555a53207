/** The `lazy_property` memoising descriptor: the first access computes the value and stores it on the
    instance under a slot named after the wrapped function; every later access returns the stored value. */
module Utils {

  const LazyPrefix: string := "_lazy_"

  /** The instance attribute that caches the property wrapping the function called `funcName`. */
  function SlotName(funcName: string): (slot: string)
    ensures |slot| == |LazyPrefix| + |funcName|
  {
    LazyPrefix + funcName
  }

  /** One access to a lazy property: the value returned, the instance attributes afterwards, and whether
      the wrapped function was called. */
  datatype Access<V> = Access(value: V, attrs: map<string, V>, called: bool)

  /** Accessing the property wrapping `funcName` on an instance whose attributes are `attrs`, where
      `computed` is what the wrapped function would return if it were called now. */
  function LazyGet<V>(attrs: map<string, V>, funcName: string, computed: V): Access<V> {
    var slot := SlotName(funcName);
    if slot in attrs then Access(attrs[slot], attrs, false)
    else Access(computed, attrs[slot := computed], true)
  }

  /** The function is called exactly when the slot is absent; afterwards the slot holds the value returned,
      which is the fresh result or the cached one; only that slot is added and no existing attribute
      changes. */
  lemma LazyGetBehaviour<V>(attrs: map<string, V>, funcName: string, computed: V)
    ensures var a := LazyGet(attrs, funcName, computed);
            (a.called <==> SlotName(funcName) !in attrs) &&
            SlotName(funcName) in a.attrs && a.attrs[SlotName(funcName)] == a.value &&
            a.attrs.Keys == attrs.Keys + {SlotName(funcName)} &&
            (forall k :: k in attrs ==> a.attrs[k] == attrs[k]) &&
            a.value == if a.called then computed else attrs[SlotName(funcName)]
  {
  }

  /** Different wrapped functions get different cache slots. */
  lemma SlotNameInjective(f: string, g: string)
    requires SlotName(f) == SlotName(g)
    ensures f == g
  {
    assert f == SlotName(f)[|LazyPrefix|..];
    assert g == SlotName(g)[|LazyPrefix|..];
  }

  /** Accessing the property twice calls the function at most once, and the second access returns the
      first access's value and changes nothing, whatever the function would return by then. */
  lemma SecondAccessIsCached<V>(attrs: map<string, V>, funcName: string, first: V, later: V)
    ensures var a := LazyGet(attrs, funcName, first);
            var b := LazyGet(a.attrs, funcName, later);
            !b.called && b.value == a.value && b.attrs == a.attrs
  {
  }

  /** Accessing one lazy property neither fills nor changes the slot of a property wrapping a function
      with another name. */
  lemma DistinctPropertiesIndependent<V>(attrs: map<string, V>, f: string, g: string, computed: V)
    requires f != g
    ensures var a := LazyGet(attrs, f, computed);
            (SlotName(g) in a.attrs <==> SlotName(g) in attrs) &&
            (SlotName(g) in attrs ==> a.attrs[SlotName(g)] == attrs[SlotName(g)])
  {
    if SlotName(g) == SlotName(f) {
      SlotNameInjective(f, g);
    }
  }
}
