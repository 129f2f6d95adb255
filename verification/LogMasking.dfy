/** Masking of sensitive entries in nested log dictionaries. */
module LogMasking {
  // A dictionary is its entries in insertion order.  `lower` stands for `str.lower`; nothing below
  // depends on how it folds case.  `words` is the set of sensitive words.

  datatype Entry = Entry(key: string, value: Value)

  /** Only dictionaries are searched; a list is a value like any other. */
  datatype Value = Dict(entries: seq<Entry>) | List(items: seq<Value>) | Text(text: string) | Other(id: int)

  type Folding = string -> string

  const SENSITIVE_KEYS: set<string> :=
    {"password", "secret", "token", "authorization", "api_key", "key_hash", "access_token"}

  const MASK := Text("******")

  predicate OccursAt(text: string, part: string, i: int) {
    0 <= i <= |text| - |part| && forall n :: 0 <= n < |part| ==> text[i + n] == part[n]
  }

  /** Python's `part in text`. */
  predicate Contains(text: string, part: string) {
    exists i :: 0 <= i <= |text| && OccursAt(text, part, i)
  }

  predicate IsSensitive(lower: Folding, words: set<string>, key: string) {
    exists w :: w in words && Contains(lower(key), w)
  }

  function MaskValue(lower: Folding, words: set<string>, value: Value): Value
    decreases value, 1
  {
    if value.Dict? then Dict(Mask(lower, words, value.entries)) else value
  }

  function MaskEntry(lower: Folding, words: set<string>, e: Entry): Entry
    decreases e, 2
  {
    Entry(e.key, if IsSensitive(lower, words, e.key) then MASK else MaskValue(lower, words, e.value))
  }

  /** The masked entries, one for one and in the same order. */
  function Mask(lower: Folding, words: set<string>, data: seq<Entry>): (masked: seq<Entry>)
    ensures |masked| == |data|
    ensures forall i :: 0 <= i < |data| ==> masked[i] == MaskEntry(lower, words, data[i])
    decreases data, 0
  {
    if |data| == 0 then []
    else Mask(lower, words, data[..|data| - 1]) + [MaskEntry(lower, words, data[|data| - 1])]
  }

  /** The keys of a dictionary are distinct, at every level. */
  ghost predicate WellFormed(value: Value) {
    value.Dict? ==> WellFormedEntries(value.entries)
  }

  ghost predicate WellFormedEntries(data: seq<Entry>) {
    && (forall i, j :: 0 <= i < j < |data| ==> data[i].key != data[j].key)
    && (forall i :: 0 <= i < |data| ==> WellFormed(data[i].value))
  }

  /** `d[key] = value` on a dictionary: replace in place, or append. */
  function Put(data: seq<Entry>, key: string, value: Value): seq<Entry> {
    if |data| == 0 then [Entry(key, value)]
    else if data[0].key == key then [Entry(key, value)] + data[1..]
    else [data[0]] + Put(data[1..], key, value)
  }

  lemma {:induction false} PutFresh(data: seq<Entry>, key: string, value: Value)
    requires forall i :: 0 <= i < |data| ==> data[i].key != key
    ensures Put(data, key, value) == data + [Entry(key, value)]
  {
    if |data| > 0 {
      PutFresh(data[1..], key, value);
      assert [data[0]] + (data[1..] + [Entry(key, value)]) == data + [Entry(key, value)];
    }
  }

  lemma MaskSnoc(lower: Folding, words: set<string>, data: seq<Entry>, i: nat)
    requires i < |data|
    ensures Mask(lower, words, data[..i + 1])
         == Mask(lower, words, data[..i]) + [MaskEntry(lower, words, data[i])]
    ensures forall j :: 0 <= j < i ==> Mask(lower, words, data[..i])[j].key == data[j].key
  {
    assert data[..i + 1][..i] == data[..i];
  }

  /** `part in text` says that the text can be cut so that `part` is the middle piece. */
  lemma ContainsExactly(text: string, part: string)
    ensures Contains(text, part) <==> exists a: string, b: string :: text == a + part + b
  {
    if i :| 0 <= i <= |text| && OccursAt(text, part, i) {
      assert text == text[..i] + part + text[i + |part|..];
    }
    if a: string, b: string :| text == a + part + b {
      assert OccursAt(text, part, |a|);
    }
  }

  lemma SensitiveExactly(lower: Folding, words: set<string>, key: string)
    ensures IsSensitive(lower, words, key)
            <==> exists w, a: string, b: string :: w in words && lower(key) == a + w + b
  {
    hide Contains;
    forall w ensures Contains(lower(key), w) <==> exists a: string, b: string :: lower(key) == a + w + b {
      ContainsExactly(lower(key), w);
    }
    if w :| w in words && Contains(lower(key), w) {
      var a: string, b: string :| lower(key) == a + w + b;
      assert w in words && lower(key) == a + w + b;
    }
  }

  /** An entry is masked when some word is a piece of its folded key, wherever in the key; otherwise a
      dictionary is masked in turn and any other value is kept. */
  lemma MaskedExactly(lower: Folding, words: set<string>, data: seq<Entry>, i: nat)
    requires i < |data|
    ensures Mask(lower, words, data)[i].key == data[i].key
    ensures var text, value := lower(data[i].key), data[i].value;
            Mask(lower, words, data)[i].value
            == if exists w, a: string, b: string :: w in words && text == a + w + b then Text("******")
               else if value.Dict? then Dict(Mask(lower, words, value.entries)) else value
  {
    hide IsSensitive, Mask;
    SensitiveExactly(lower, words, data[i].key);
    assert Mask(lower, words, data)[i] == MaskEntry(lower, words, data[i]);
  }

  /** Seven words are sensitive and no others: they mask an entry wherever they occur in its key, as in
      `password_hash`, and a key without any of them is left alone. */
  lemma SourceWordsAreMasked(lower: Folding, data: seq<Entry>, i: nat)
    requires i < |data|
    ensures var listed := ["password", "secret", "token", "authorization", "api_key", "key_hash", "access_token"];
            var text, value := lower(data[i].key), data[i].value;
            Mask(lower, SENSITIVE_KEYS, data)[i].value
            == if exists w, a: string, b: string :: w in listed && text == a + w + b then Text("******")
               else if value.Dict? then Dict(Mask(lower, SENSITIVE_KEYS, value.entries)) else value
    ensures lower(data[i].key) == "password_hash" ==> Mask(lower, SENSITIVE_KEYS, data)[i].value == Text("******")
  {
    hide Mask;
    MaskedExactly(lower, SENSITIVE_KEYS, data, i);
    assert "password_hash" == "" + "password" + "_hash";
  }

  /** `mask_dict`: a fresh dictionary is filled entry by entry. */
  method MaskDict(lower: Folding, words: set<string>, data: seq<Entry>) returns (masked: seq<Entry>)
    requires WellFormedEntries(data)
    ensures masked == Mask(lower, words, data)
    ensures |masked| == |data| && forall i :: 0 <= i < |data| ==> masked[i].key == data[i].key
    ensures forall i, w, a: string, b: string ::
              0 <= i < |data| && w in words && lower(data[i].key) == a + w + b ==> masked[i].value == Text("******")
    ensures forall i :: 0 <= i < |data| && (forall w, a: string, b: string :: w in words ==>
                          lower(data[i].key) != a + w + b) ==>
              masked[i].value == if data[i].value.Dict? then Dict(Mask(lower, words, data[i].value.entries))
                                 else data[i].value
    decreases data
  {
    masked := [];
    for i := 0 to |data|
      invariant masked == Mask(lower, words, data[..i])
    {
      hide Mask, IsSensitive, Put;
      var k, v := data[i].key, data[i].value;
      var m: Value;
      if IsSensitive(lower, words, k) {
        m := MASK;
      } else if v.Dict? {
        var inner := MaskDict(lower, words, v.entries);
        m := Dict(inner);
      } else {
        m := v;
      }
      MaskSnoc(lower, words, data, i);
      PutFresh(masked, k, m);
      masked := Put(masked, k, m);
    }
    assert data[..|data|] == data;
    forall i: nat | i < |data| {
      MaskedExactly(lower, words, data, i);
    }
  }

  // ---------------------------------------------------------------- what can still be seen

  /** What a reader finds at the end of a path of keys. */
  datatype Seen = Absent | Hidden | Keys(keys: seq<string>) | Leaf(value: Value)

  function KeysOf(data: seq<Entry>): (keys: seq<string>)
    ensures |keys| == |data|
  {
    seq(|data|, i requires 0 <= i < |data| => data[i].key)
  }

  /** Position of a key, or the length when it is absent. */
  function Find(data: seq<Entry>, key: string): (i: nat)
    ensures i <= |data|
    ensures i < |data| ==> data[i].key == key
    ensures forall j :: 0 <= j < i ==> data[j].key != key
  {
    if |data| == 0 || data[0].key == key then 0 else 1 + Find(data[1..], key)
  }

  /** Follow `path` through nested dictionaries without ever looking behind a sensitive key. */
  function See(lower: Folding, words: set<string>, value: Value, path: seq<string>): Seen
    decreases |path|
  {
    if |path| == 0 then
      if value.Dict? then Keys(KeysOf(value.entries)) else Leaf(value)
    else if !value.Dict? then Absent
    else
      var i := Find(value.entries, path[0]);
      if i == |value.entries| then Absent
      else if IsSensitive(lower, words, path[0]) then if |path| == 1 then Hidden else Absent
      else See(lower, words, value.entries[i].value, path[1..])
  }

  /** The same keys and the same values along every path of non-sensitive keys. */
  ghost predicate LookSame(lower: Folding, words: set<string>, a: Value, b: Value) {
    forall path :: See(lower, words, a, path) == See(lower, words, b, path)
  }

  lemma FindByKeys(a: seq<Entry>, b: seq<Entry>, key: string)
    requires KeysOf(a) == KeysOf(b)
    ensures Find(a, key) == Find(b, key)
  {
    var i, j := Find(a, key), Find(b, key);
    assert |a| == |b|;
    assert forall n :: 0 <= n < |a| ==> a[n].key == KeysOf(a)[n] && b[n].key == KeysOf(b)[n];
  }

  lemma MaskKeepsKeys(lower: Folding, words: set<string>, data: seq<Entry>)
    ensures KeysOf(Mask(lower, words, data)) == KeysOf(data)
  {
  }

  /** Masking changes nothing that is visible: the keys at every level, their order, and every value
      reached through non-sensitive keys are kept, and what is hidden stays hidden. */
  lemma {:induction false} MaskingKeepsVisible(lower: Folding, words: set<string>, value: Value, path: seq<string>)
    ensures See(lower, words, MaskValue(lower, words, value), path) == See(lower, words, value, path)
    decreases |path|
  {
    if value.Dict? {
      var data := value.entries;
      var masked := Mask(lower, words, data);
      MaskKeepsKeys(lower, words, data);
      if |path| > 0 {
        FindByKeys(masked, data, path[0]);
        var i := Find(data, path[0]);
        if i < |data| && !IsSensitive(lower, words, path[0]) {
          MaskingKeepsVisible(lower, words, data[i].value, path[1..]);
        }
      }
    }
  }

  /** Two dictionaries that look the same along every path mask to the same result. */
  lemma {:induction false} SameVisibleSameMask(lower: Folding, words: set<string>, a: Value, b: Value)
    requires WellFormed(a) && WellFormed(b)
    requires LookSame(lower, words, a, b)
    ensures MaskValue(lower, words, a) == MaskValue(lower, words, b)
    decreases a
  {
    assert See(lower, words, a, []) == See(lower, words, b, []);
    if a.Dict? {
      var da, db := a.entries, b.entries;
      var ma, mb := Mask(lower, words, da), Mask(lower, words, db);
      assert KeysOf(da) == KeysOf(db);
      forall i | 0 <= i < |da| ensures ma[i] == mb[i] {
        assert da[i].key == KeysOf(da)[i] == KeysOf(db)[i] == db[i].key;
        var k := da[i].key;
        if !IsSensitive(lower, words, k) {
          assert Find(da, k) == i && Find(db, k) == i;
          forall path ensures See(lower, words, da[i].value, path) == See(lower, words, db[i].value, path) {
            assert ([k] + path)[1..] == path;
            assert See(lower, words, a, [k] + path) == See(lower, words, b, [k] + path);
          }
          SameVisibleSameMask(lower, words, da[i].value, db[i].value);
        }
      }
      assert ma == mb;
    }
  }

  /** The kernel of masking: two dictionaries mask to equal results if and only if they have the
      same keys and the same values along every path of non-sensitive keys. */
  lemma MaskingKernel(lower: Folding, words: set<string>, a: Value, b: Value)
    requires WellFormed(a) && WellFormed(b)
    ensures MaskValue(lower, words, a) == MaskValue(lower, words, b)
            <==> LookSame(lower, words, a, b)
  {
    if MaskValue(lower, words, a) == MaskValue(lower, words, b) {
      SameMaskSameVisible(lower, words, a, b);
    } else if LookSame(lower, words, a, b) {
      SameVisibleSameMask(lower, words, a, b);
    }
  }

  lemma SameMaskSameVisible(lower: Folding, words: set<string>, a: Value, b: Value)
    requires MaskValue(lower, words, a) == MaskValue(lower, words, b)
    ensures LookSame(lower, words, a, b)
  {
    hide See, MaskValue;
    forall path ensures See(lower, words, a, path) == See(lower, words, b, path) {
      MaskingKeepsVisible(lower, words, a, path);
      MaskingKeepsVisible(lower, words, b, path);
    }
  }

  lemma {:induction false} MaskWellFormed(lower: Folding, words: set<string>, value: Value)
    requires WellFormed(value)
    ensures WellFormed(MaskValue(lower, words, value))
    decreases value
  {
    if value.Dict? {
      var data := value.entries;
      forall i | 0 <= i < |data| ensures WellFormed(Mask(lower, words, data)[i].value) {
        MaskWellFormed(lower, words, data[i].value);
      }
    }
  }

  /** Masking twice is masking once. */
  lemma MaskIdempotent(lower: Folding, words: set<string>, data: seq<Entry>)
    requires WellFormedEntries(data)
    ensures Mask(lower, words, Mask(lower, words, data)) == Mask(lower, words, data)
  {
    var d := Dict(data);
    MaskWellFormed(lower, words, d);
    forall path
      ensures See(lower, words, MaskValue(lower, words, d), path) == See(lower, words, d, path)
    {
      MaskingKeepsVisible(lower, words, d, path);
    }
    SameVisibleSameMask(lower, words, MaskValue(lower, words, d), d);
  }

  // ---------------------------------------------------------------- redundant words

  lemma ContainsTransitive(text: string, middle: string, part: string)
    requires Contains(text, middle) && Contains(middle, part)
    ensures Contains(text, part)
  {
    var i :| 0 <= i <= |text| && OccursAt(text, middle, i);
    var j :| 0 <= j <= |middle| && OccursAt(middle, part, j);
    forall n | 0 <= n < |part| ensures text[i + j + n] == part[n] {
      assert text[i + (j + n)] == middle[j + n];
    }
    assert OccursAt(text, part, i + j);
  }

  lemma ContainsItself(text: string)
    ensures Contains(text, text)
  {
    assert OccursAt(text, text, 0);
  }

  lemma {:induction false} SameTestSameMask(lower: Folding, words: set<string>, words': set<string>, value: Value)
    requires forall key :: IsSensitive(lower, words, key) <==> IsSensitive(lower, words', key)
    ensures MaskValue(lower, words, value) == MaskValue(lower, words', value)
    decreases value
  {
    if value.Dict? {
      var data := value.entries;
      forall i | 0 <= i < |data| ensures Mask(lower, words, data)[i] == Mask(lower, words', data)[i] {
        SameTestSameMask(lower, words, words', data[i].value);
      }
      assert Mask(lower, words, data) == Mask(lower, words', data);
    }
  }

  /** A lower-case word can be dropped without any effect exactly when it contains another word. */
  lemma RedundantWord(lower: Folding, words: set<string>, w: string)
    requires w in words && lower(w) == w
    ensures (forall data :: Mask(lower, words, data) == Mask(lower, words - {w}, data))
            <==> exists part :: part in words - {w} && Contains(w, part)
  {
    var fewer := words - {w};
    if part :| part in fewer && Contains(w, part) {
      forall key ensures IsSensitive(lower, words, key) <==> IsSensitive(lower, fewer, key) {
        if x :| x in words && Contains(lower(key), x) {
          if x == w {
            ContainsTransitive(lower(key), w, part);
          }
        }
      }
      forall data ensures Mask(lower, words, data) == Mask(lower, fewer, data) {
        SameTestSameMask(lower, words, fewer, Dict(data));
      }
    } else {
      var data := [Entry(w, Other(0))];
      ContainsItself(w);
      assert IsSensitive(lower, words, w);
      assert !IsSensitive(lower, fewer, w);
      assert data[0] == Entry(w, Other(0));
      assert Mask(lower, words, data)[0] == MaskEntry(lower, words, data[0]);
      assert Mask(lower, fewer, data)[0] == MaskEntry(lower, fewer, data[0]);
      assert Mask(lower, words, data) != Mask(lower, fewer, data);
    }
  }

  /** Dropping `access_token` changes nothing, since every key that contains it contains `token`. */
  lemma AccessTokenIsRedundant(lower: Folding, data: seq<Entry>)
    ensures Mask(lower, SENSITIVE_KEYS, data) == Mask(lower, SENSITIVE_KEYS - {"access_token"}, data)
  {
    var w, part := "access_token", "token";
    assert OccursAt(w, part, 7);
    assert part in SENSITIVE_KEYS - {w};
    forall key ensures IsSensitive(lower, SENSITIVE_KEYS, key) <==> IsSensitive(lower, SENSITIVE_KEYS - {w}, key) {
      if x :| x in SENSITIVE_KEYS && Contains(lower(key), x) {
        if x == w {
          ContainsTransitive(lower(key), w, part);
        }
      }
    }
    SameTestSameMask(lower, SENSITIVE_KEYS, SENSITIVE_KEYS - {w}, Dict(data));
  }
}
