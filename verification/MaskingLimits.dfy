/** What masking leaves readable, and the kernel of masking for dictionaries compared without regard to
    the order of their entries. */
module MaskingLimits {
  import opened LogMasking

  // ---------------------------------------------------------------- what stays readable

  /** Somewhere in the value, looking into dictionaries and lists, a sensitive key holds something other
      than the mask. */
  ghost predicate Bare(lower: Folding, words: set<string>, value: Value) {
    match value
    case Dict(data) => exists i :: 0 <= i < |data| && BareEntry(lower, words, data[i])
    case List(items) => exists i :: 0 <= i < |items| && Bare(lower, words, items[i])
    case _ => false
  }

  ghost predicate BareEntry(lower: Folding, words: set<string>, e: Entry) {
    (IsSensitive(lower, words, e.key) && e.value != MASK) || Bare(lower, words, e.value)
  }

  /** Some list that is reached through dictionaries and their non-sensitive keys is bare. */
  ghost predicate BareBehindList(lower: Folding, words: set<string>, value: Value) {
    match value
    case Dict(data) =>
      exists i :: 0 <= i < |data|
                  && !IsSensitive(lower, words, data[i].key) && BareBehindList(lower, words, data[i].value)
    case List(_) => Bare(lower, words, value)
    case _ => false
  }

  /** A sensitive entry stays readable exactly where it lies behind a list: at every level that is reached
      through dictionaries alone it is masked. */
  lemma {:induction false} ReadableExactly(lower: Folding, words: set<string>, value: Value)
    ensures Bare(lower, words, MaskValue(lower, words, value)) <==> BareBehindList(lower, words, value)
    decreases value
  {
    if value.Dict? {
      var data := value.entries;
      var masked := Mask(lower, words, data);
      hide Mask, IsSensitive;
      forall i | 0 <= i < |data|
        ensures BareEntry(lower, words, masked[i])
                <==> !IsSensitive(lower, words, data[i].key) && BareBehindList(lower, words, data[i].value)
      {
        ReadableExactly(lower, words, data[i].value);
        assert masked[i] == MaskEntry(lower, words, data[i]);
      }
    }
  }

  /** There is no list anywhere. */
  ghost predicate ListFree(value: Value) {
    match value
    case Dict(data) => forall i :: 0 <= i < |data| ==> ListFree(data[i].value)
    case List(_) => false
    case _ => true
  }

  /** In particular nothing stays readable in nested dictionaries without lists. */
  lemma {:induction false} NothingReadableWithoutLists(lower: Folding, words: set<string>, value: Value)
    requires ListFree(value)
    ensures !Bare(lower, words, MaskValue(lower, words, value))
  {
    NotBehindList(lower, words, value);
    ReadableExactly(lower, words, value);
  }

  lemma {:induction false} NotBehindList(lower: Folding, words: set<string>, value: Value)
    requires ListFree(value)
    ensures !BareBehindList(lower, words, value)
    decreases value
  {
    if value.Dict? {
      forall i | 0 <= i < |value.entries| ensures !BareBehindList(lower, words, value.entries[i].value) {
        NotBehindList(lower, words, value.entries[i].value);
      }
    }
  }

  /** Dictionaries inside lists are not reached: this password stays readable. */
  lemma ListsAreNotSearched(lower: Folding, words: set<string>, secret: string)
    requires !IsSensitive(lower, words, "users")
    ensures var data := [Entry("users", List([Dict([Entry("password", Text(secret))])]))];
            && Mask(lower, words, data) == data
            && (IsSensitive(lower, words, "password") && Text(secret) != MASK ==> Bare(lower, words, Dict(data)))
  {
    var inner := Dict([Entry("password", Text(secret))]);
    var data := [Entry("users", List([inner]))];
    assert Mask(lower, words, data)[0] == MaskEntry(lower, words, data[0]);
    hide IsSensitive, Mask;
    if IsSensitive(lower, words, "password") && Text(secret) != MASK {
      assert BareEntry(lower, words, inner.entries[0]);
      assert Bare(lower, words, data[0].value.items[0]);
      assert BareEntry(lower, words, data[0]);
    }
  }

  // ---------------------------------------------------------------- equality of dictionaries

  /** Python's `==`: dictionaries are equal when they have the same keys and equal values under each,
      whatever the order; lists are compared item by item. */
  ghost predicate Equal(a: Value, b: Value) {
    match a
    case Dict(da) =>
      && b.Dict? && SameKeys(da, b.entries)
      && forall i, j :: 0 <= i < |da| && 0 <= j < |b.entries| && da[i].key == b.entries[j].key ==>
           Equal(da[i].value, b.entries[j].value)
    case List(ia) => b.List? && |ia| == |b.items| && forall i :: 0 <= i < |ia| ==> Equal(ia[i], b.items[i])
    case _ => a == b
  }

  function KeySet(data: seq<Entry>): set<string> {
    set i | 0 <= i < |data| :: data[i].key
  }

  predicate SameKeys(a: seq<Entry>, b: seq<Entry>) {
    KeySet(a) == KeySet(b)
  }

  /** What is seen at the end of a path, with that equality: the keys as a set. */
  ghost predicate SameSeen(x: Seen, y: Seen) {
    match x
    case Keys(keys) => y.Keys? && (set key | key in keys) == (set key | key in y.keys)
    case Leaf(value) => y.Leaf? && Equal(value, y.value)
    case _ => x == y
  }

  ghost predicate LookEqual(lower: Folding, words: set<string>, a: Value, b: Value) {
    forall path :: SameSeen(See(lower, words, a, path), See(lower, words, b, path))
  }

  lemma KeySetOfKeys(data: seq<Entry>)
    ensures (set key | key in KeysOf(data)) == KeySet(data)
  {
    forall key ensures key in KeysOf(data) <==> key in KeySet(data) {
      if key in KeysOf(data) {
        var i :| 0 <= i < |data| && KeysOf(data)[i] == key;
        assert data[i].key == key;
      }
      if key in KeySet(data) {
        var i :| 0 <= i < |data| && data[i].key == key;
        assert KeysOf(data)[i] == key;
      }
    }
  }

  lemma FoundIfKey(data: seq<Entry>, key: string)
    ensures Find(data, key) < |data| <==> key in KeySet(data)
  {
    if key in KeySet(data) {
      var i :| 0 <= i < |data| && data[i].key == key;
    }
  }

  /** Equal values look equal along every path. */
  lemma {:induction false} EqualLookEqual(lower: Folding, words: set<string>, a: Value, b: Value, path: seq<string>)
    requires Equal(a, b)
    ensures SameSeen(See(lower, words, a, path), See(lower, words, b, path))
    decreases |path|
  {
    hide IsSensitive;
    if a.Dict? {
      KeySetOfKeys(a.entries);
      KeySetOfKeys(b.entries);
      if |path| > 0 {
        FoundIfKey(a.entries, path[0]);
        FoundIfKey(b.entries, path[0]);
        var i, j := Find(a.entries, path[0]), Find(b.entries, path[0]);
        if i < |a.entries| {
          EqualLookEqual(lower, words, a.entries[i].value, b.entries[j].value, path[1..]);
        }
      }
    }
  }

  /** The kernel of masking, for dictionaries compared as Python compares them: the masked results are
      equal if and only if the originals have equal key sets and equal values along every path of
      non-sensitive keys. */
  lemma EqualKernel(lower: Folding, words: set<string>, a: Value, b: Value)
    requires WellFormed(a) && WellFormed(b)
    ensures Equal(MaskValue(lower, words, a), MaskValue(lower, words, b)) <==> LookEqual(lower, words, a, b)
  {
    hide MaskValue, See, Equal, SameSeen;
    if Equal(MaskValue(lower, words, a), MaskValue(lower, words, b)) {
      forall path ensures SameSeen(See(lower, words, a, path), See(lower, words, b, path)) {
        EqualLookEqual(lower, words, MaskValue(lower, words, a), MaskValue(lower, words, b), path);
        MaskingKeepsVisible(lower, words, a, path);
        MaskingKeepsVisible(lower, words, b, path);
      }
    }
    if LookEqual(lower, words, a, b) {
      LookEqualMaskEqual(lower, words, a, b);
    }
  }

  lemma {:induction false} LookEqualMaskEqual(lower: Folding, words: set<string>, a: Value, b: Value)
    requires WellFormed(a) && WellFormed(b) && LookEqual(lower, words, a, b)
    ensures Equal(MaskValue(lower, words, a), MaskValue(lower, words, b))
    decreases a
  {
    assert SameSeen(See(lower, words, a, []), See(lower, words, b, []));
    if a.Dict? {
      hide IsSensitive, LookEqual;
      var da, db := a.entries, b.entries;
      var ma, mb := Mask(lower, words, da), Mask(lower, words, db);
      KeySetOfKeys(da);
      KeySetOfKeys(db);
      MaskedKeySet(lower, words, da);
      MaskedKeySet(lower, words, db);
      hide SameSeen, KeySet, Mask;
      forall i, j | 0 <= i < |da| && 0 <= j < |db| && ma[i].key == mb[j].key ensures Equal(ma[i].value, mb[j].value) {
        assert ma[i] == MaskEntry(lower, words, da[i]) && mb[j] == MaskEntry(lower, words, db[j]);
        if !IsSensitive(lower, words, da[i].key) {
          LookEqualBelow(lower, words, a, b, i, j);
          LookEqualMaskEqual(lower, words, da[i].value, db[j].value);
        }
      }
    }
  }

  lemma LookEqualBelow(lower: Folding, words: set<string>, a: Value, b: Value, i: nat, j: nat)
    requires WellFormed(a) && WellFormed(b) && LookEqual(lower, words, a, b) && a.Dict? && b.Dict?
    requires i < |a.entries| && j < |b.entries| && a.entries[i].key == b.entries[j].key
    requires !IsSensitive(lower, words, a.entries[i].key)
    ensures LookEqual(lower, words, a.entries[i].value, b.entries[j].value)
  {
    hide IsSensitive, SameSeen;
    var da, db, k := a.entries, b.entries, a.entries[i].key;
    assert Find(da, k) == i && Find(db, k) == j;
    forall path ensures SameSeen(See(lower, words, da[i].value, path), See(lower, words, db[j].value, path)) {
      assert ([k] + path)[1..] == path;
      assert SameSeen(See(lower, words, a, [k] + path), See(lower, words, b, [k] + path));
    }
  }

  lemma MaskedKeySet(lower: Folding, words: set<string>, data: seq<Entry>)
    ensures KeySet(Mask(lower, words, data)) == KeySet(data)
  {
    KeySetOfKeys(data);
    KeySetOfKeys(Mask(lower, words, data));
    MaskKeepsKeys(lower, words, data);
  }
}
