/**
 * The Result envelope returned by every HttpClient operation: an optional
 * value, an optional error and a metadata mapping.  The envelope is frozen
 * (its three fields are `const`), but the metadata mapping it refers to is an
 * ordinary mutable dictionary that callers may change in place.
 */
module Types {
  import opened Wrappers
  import opened Errors

  /**
   * A metadata mapping `dict[str, Any]`; the type of its values is the
   * parameter V.  Each object is a distinct dictionary on the heap.
   */
  class Meta<V> {
    var entries: map<string, V>

    /** A new, empty mapping: what `_default_meta()` and the literal `{}` produce. */
    constructor ()
      ensures entries == map[]
    {
      entries := map[];
    }

    /** `meta[key] = x`: adds or overwrites one entry, nothing else. */
    method Set(key: string, x: V)
      modifies this
      ensures entries == old(entries)[key := x]
    {
      entries := entries[key := x];
    }
  }

  /**
   * A frozen record: value, error and the reference to the metadata mapping
   * are fixed at construction; only the mapping's contents can change.
   */
  class Result<T, E, V> {
    const value: Option<T>
    const error: Option<E>
    const meta: Meta<V>

    /**
     * The dataclass constructor.  An explicit meta (Some) is stored as given,
     * even when empty; an omitted meta (None) is replaced by a freshly
     * allocated empty mapping, one per Result.  Value and error are stored as
     * given: nothing forces exactly one of them to be present.
     */
    constructor (value: Option<T>, error: Option<E>, meta: Option<Meta<V>> := None)
      ensures this.value == value && this.error == error
      ensures meta.Some? ==> this.meta == meta.value
      ensures meta.None? ==> fresh(this.meta) && this.meta.entries == map[]
    {
      var m: Meta<V>;
      if meta.Some? {
        m := meta.value;
      } else {
        m := new Meta();
      }
      this.value := value;
      this.error := error;
      this.meta := m;
    }

    /** The `ok` property: true exactly when no error is held, whatever the value. */
    predicate IsOk() {
      error.None?
    }
  }

  /** Whether a Result is ok depends on its error alone, never on its value. */
  lemma OkIgnoresValue<T, E, V>(r: Result<T, E, V>, s: Result<T, E, V>)
    requires r.error == s.error
    ensures r.IsOk() <==> r.error == None
    ensures r.IsOk() == s.IsOk()
    ensures r.value == None && r.error == None ==> r.IsOk()
    ensures r.value.Some? && r.error.Some? ==> !r.IsOk()
  {
  }

  /**
   * `meta or {}`: a non-empty mapping passes through as the same object (it
   * is not copied); a missing or empty one is replaced by a new empty mapping.
   */
  method OrEmpty<V>(meta: Option<Meta<V>>) returns (m: Meta<V>)
    ensures meta.Some? && |meta.value.entries| > 0 ==> m == meta.value
    ensures meta.None? || |meta.value.entries| == 0 ==> fresh(m) && m.entries == map[]
  {
    if meta.Some? && |meta.value.entries| > 0 {
      m := meta.value;
    } else {
      m := new Meta();
    }
  }

  /** `Ok(value, meta)`: a successful Result holding value and no error. */
  method Ok<T, V>(value: T, meta: Option<Meta<V>> := None) returns (r: Result<T, ClientError, V>)
    ensures fresh(r)
    ensures r.value == Some(value) && r.error == None && r.IsOk()
    ensures meta.Some? && |meta.value.entries| > 0 ==> r.meta == meta.value
    ensures meta.None? || |meta.value.entries| == 0 ==> fresh(r.meta) && r.meta.entries == map[]
  {
    var m := OrEmpty(meta);
    r := new Result(Some(value), None, Some(m));
  }

  /** `Err(error, meta)`: a failed Result holding exactly the given error and no value. */
  method Err<T, V>(error: ClientError, meta: Option<Meta<V>> := None) returns (r: Result<T, ClientError, V>)
    ensures fresh(r)
    ensures r.value == None && r.error == Some(error) && !r.IsOk()
    ensures meta.Some? && |meta.value.entries| > 0 ==> r.meta == meta.value
    ensures meta.None? || |meta.value.entries| == 0 ==> fresh(r.meta) && r.meta.entries == map[]
  {
    var m := OrEmpty(meta);
    r := new Result(None, Some(error), Some(m));
  }

  /**
   * Two Results built with the default metadata are independent: a key
   * written into the first's mapping is absent from the second's.
   */
  method DefaultMetasAreIndependent<T, E, V>(v1: T, v2: T, key: string, x: V)
    returns (inFirst: bool, inSecond: bool)
    ensures inFirst && !inSecond
  {
    var first := new Result<T, E, V>(Some(v1), None);
    var second := new Result<T, E, V>(Some(v2), None);
    first.meta.Set(key, x);
    inFirst := key in first.meta.entries;
    inSecond := key in second.meta.entries;
  }

  /**
   * A non-empty mapping handed to Ok or Err is shared with the Result, not
   * copied: a later write through the caller's reference shows up in the
   * Result's metadata.
   */
  method NonEmptyMetaIsShared<T, V>(v: T, k: ClientError, key: string, x: V, later: string, y: V)
    returns (seenByOk: bool, seenByErr: bool)
    ensures seenByOk && seenByErr
  {
    var d := new Meta<V>();
    d.Set(key, x);
    var ok := Ok(v, Some(d));
    var err := Err<T, V>(k, Some(d));
    d.Set(later, y);
    seenByOk := later in ok.meta.entries;
    seenByErr := later in err.meta.entries;
  }

  /**
   * An empty mapping handed to Ok or Err is replaced, not shared: a later
   * write through the caller's reference leaves the Result's metadata empty.
   */
  method EmptyMetaIsReplaced<T, V>(v: T, k: ClientError, key: string, x: V)
    returns (okMetaEmpty: bool, errMetaEmpty: bool)
    ensures okMetaEmpty && errMetaEmpty
  {
    var d := new Meta<V>();
    var ok := Ok(v, Some(d));
    var err := Err<T, V>(k, Some(d));
    d.Set(key, x);
    okMetaEmpty := |ok.meta.entries| == 0;
    errMetaEmpty := |err.meta.entries| == 0;
  }
}
