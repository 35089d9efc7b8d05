/** YAML frontmatter of an exported Markdown file: the key merge and its schema order. */
module Frontmatter {
  import opened Wrappers

  /** Schema keys by name; every other key of the file is custom. */
  datatype Key =
    | Title | Source | SourceId | DrivePath | ExportedAt | Archived | ArchivedAt
    | Tags | AccessTier
    | Custom(name: string)

  datatype Value = Text(text: string) | Flag(flag: bool) | Null | Items(items: seq<Value>)

  type Values = map<Key, Value>

  ghost predicate Distinct(keys: seq<Key>) {
    forall i, j :: 0 <= i < j < |keys| ==> keys[i] != keys[j]
  }

  /** A dictionary that remembers insertion order. */
  datatype Dict = Dict(keys: seq<Key>, values: Values) {
    ghost predicate Valid() {
      Distinct(keys) && forall k :: k in keys <==> k in values
    }

    function Put(k: Key, v: Value): (d: Dict)
      requires Valid()
      ensures d.Valid() && d.values == values[k := v]
    {
      Dict(if k in values then keys else keys + [k], values[k := v])
    }

    function Remove(k: Key): (d: Dict)
      requires Valid()
      ensures d.Valid() && d.values == values - {k}
    {
      WithoutKeepsOrder(keys, k);
      Dict(Without(keys, k), values - {k})
    }
  }

  const EMPTY := Dict([], map[])

  /** A YAML document: a mapping, null, another empty or zero value, anything else, or no YAML at all. */
  datatype Parsed = Mapping(dict: Dict) | NullDocument | FalsyOther | Other | Malformed

  function Without(keys: seq<Key>, k: Key): (r: seq<Key>)
    ensures forall x :: x in r <==> x in keys && x != k
  {
    if keys == [] then []
    else if keys[0] == k then Without(keys[1..], k)
    else [keys[0]] + Without(keys[1..], k)
  }

  lemma {:induction false} WithoutKeepsOrder(keys: seq<Key>, k: Key)
    requires Distinct(keys)
    ensures Distinct(Without(keys, k))
  {
    if keys != [] {
      var rest := keys[1..];
      assert forall i :: 0 <= i < |rest| ==> rest[i] == keys[i + 1];
      WithoutKeepsOrder(rest, k);
      assert keys[0] !in Without(rest, k);
    }
  }

  const SCRIPT_KEYS := [Title, Source, SourceId, DrivePath, ExportedAt, Archived, ArchivedAt]
  const KEY_ORDER := SCRIPT_KEYS + [Tags, AccessTier]
  const USER_DEFAULTS: Values := map[Tags := Items([]), AccessTier := Text("public")]

  predicate IsScriptKey(k: Key) {
    !k.Tags? && !k.AccessTier? && !k.Custom?
  }

  /** The script-managed values are given for exactly the seven script keys. */
  ghost predicate IsScript(script: Values) {
    forall k :: k in script <==> IsScriptKey(k)
  }

  lemma SchemaKeys(k: Key)
    ensures k in SCRIPT_KEYS <==> IsScriptKey(k)
    ensures k in KEY_ORDER <==> !k.Custom?
  {
    assert SCRIPT_KEYS == [Title, Source, SourceId, DrivePath, ExportedAt, Archived, ArchivedAt];
    match k
    case Title => assert SCRIPT_KEYS[0] == k;
    case Source => assert SCRIPT_KEYS[1] == k;
    case SourceId => assert SCRIPT_KEYS[2] == k;
    case DrivePath => assert SCRIPT_KEYS[3] == k;
    case ExportedAt => assert SCRIPT_KEYS[4] == k;
    case Archived => assert SCRIPT_KEYS[5] == k;
    case ArchivedAt => assert SCRIPT_KEYS[6] == k;
    case Tags => assert KEY_ORDER[7] == k;
    case AccessTier => assert KEY_ORDER[8] == k;
    case Custom(_) =>
  }

  /** The simple merge: script keys win, user keys fall back to their defaults. */
  function SimpleMerge(existing: Values, script: Values): Values {
    USER_DEFAULTS + existing + script
  }

  /** Nothing is stored for an archive time that is not set. */
  function DropNull(m: Values): Values {
    if ArchivedAt in m && m[ArchivedAt] == Null then m - {ArchivedAt} else m
  }

  /** The first `n` entries of a dictionary. */
  ghost function FirstOf(d: Dict, n: nat): Values
    requires d.Valid() && n <= |d.keys|
  {
    map k | k in d.keys[..n] :: d.values[k]
  }

  lemma FirstOfStep(d: Dict, n: nat)
    requires d.Valid() && n <= |d.keys|
    ensures n == 0 ==> FirstOf(d, n) == map[]
    ensures n == |d.keys| ==> FirstOf(d, n) == d.values
    ensures n < |d.keys| ==> FirstOf(d, n + 1) == FirstOf(d, n)[d.keys[n] := d.values[d.keys[n]]]
  {
    assert d.keys[..|d.keys|] == d.keys;
    if n < |d.keys| {
      assert d.keys[..n + 1] == d.keys[..n] + [d.keys[n]];
    }
  }

  /** Every key of `script` overwrites the copy, one by one. */
  method Overwrite(existing: Dict, script: Dict) returns (merged: Dict)
    requires existing.Valid() && script.Valid()
    ensures merged.Valid() && merged.values == existing.values + script.values
  {
    hide Distinct, FirstOf, Dict.Put;
    merged := existing;
    FirstOfStep(script, 0);
    for i := 0 to |script.keys|
      invariant merged.Valid()
      invariant merged.values == existing.values + FirstOf(script, i)
    {
      FirstOfStep(script, i);
      merged := merged.Put(script.keys[i], script.values[script.keys[i]]);
    }
    FirstOfStep(script, |script.keys|);
  }

  /** Copy, overwrite, then add the missing user defaults; a block that is neither a mapping nor null is an error. */
  method BuildMerged(existing: Option<Parsed>, script: Dict) returns (merged: Option<Dict>)
    requires existing.Some? && existing.value.Mapping? ==> existing.value.dict.Valid()
    requires script.Valid()
    ensures merged.None? <==> existing.Some? && !existing.value.Mapping? && !existing.value.NullDocument?
    ensures merged.Some? ==>
              && merged.value.Valid()
              && merged.value.values ==
                 SimpleMerge(if existing.Some? && existing.value.Mapping? then existing.value.dict.values else map[],
                             script.values)
  {
    hide Distinct, Dict.Valid, Dict.Put;
    var start := EMPTY;
    EmptyIsValid();
    if existing.Some? {
      if existing.value.Mapping? {
        start := existing.value.dict;
      } else if !existing.value.NullDocument? {
        return None;
      }
    }
    var all := Overwrite(start, script);
    if Tags !in all.values {
      all := all.Put(Tags, Items([]));
    }
    if AccessTier !in all.values {
      all := all.Put(AccessTier, Text("public"));
    }
    return Some(all);
  }

  lemma EmptyIsValid()
    ensures EMPTY.Valid()
  {}

  /** The value of one schema key in the ordered merge. */
  function OrderedValue(existing: Values, script: Values, key: Key): Option<Value> {
    if key in script then Some(script[key])
    else if key in existing then Some(existing[key])
    else if key == Tags then Some(Items([]))
    else if key == AccessTier then Some(Text("public"))
    else if key == Archived then Some(Flag(false))
    else if key == ArchivedAt then Some(Null)
    else None
  }

  function Lookup(m: Values, k: Key): Option<Value> {
    if k in m then Some(m[k]) else None
  }

  /** The keys of `order` that carry a value, in that order. */
  function SchemaPart(existing: Values, script: Values, order: seq<Key>): (d: Dict)
    ensures d.Valid()
  {
    if order == [] then EMPTY
    else
      var last := order[|order| - 1];
      var d, v := SchemaPart(existing, script, order[..|order| - 1]), OrderedValue(existing, script, last);
      if v.Some? then d.Put(last, v.value) else d
  }

  lemma {:induction false} SchemaPartAt(existing: Values, script: Values, order: seq<Key>, k: Key)
    ensures Lookup(SchemaPart(existing, script, order).values, k) ==
            if k in order then OrderedValue(existing, script, k) else None
  {
    hide OrderedValue, Dict.Valid, Dict.Put;
    if order != [] {
      var rest, last := order[..|order| - 1], order[|order| - 1];
      SchemaPartAt(existing, script, rest, k);
      assert order == rest + [last];
    }
  }

  /** The whole schema part under one key. */
  lemma SchemaAt(existing: Values, script: Values, k: Key)
    ensures Lookup(SchemaPart(existing, script, KEY_ORDER).values, k) ==
            if k.Custom? then None else OrderedValue(existing, script, k)
  {
    hide SchemaPart, OrderedValue;
    SchemaPartAt(existing, script, KEY_ORDER, k);
    SchemaKeys(k);
  }

  /** The remaining keys follow in their existing order. */
  function CustomPart(d: Dict, existing: Dict, script: Values, n: nat): (r: Dict)
    requires d.Valid() && existing.Valid() && n <= |existing.keys|
    ensures r.Valid()
  {
    if n == 0 then d
    else
      var r := CustomPart(d, existing, script, n - 1);
      var k := existing.keys[n - 1];
      if k !in r.values && k !in script then r.Put(k, existing.values[k]) else r
  }

  lemma {:induction false} CustomPartAt(d: Dict, existing: Dict, script: Values, n: nat, k: Key)
    requires d.Valid() && existing.Valid() && n <= |existing.keys|
    ensures Lookup(CustomPart(d, existing, script, n).values, k) ==
            if k in d.values then Some(d.values[k])
            else if k in existing.keys[..n] && k !in script && k in existing.values then Some(existing.values[k])
            else None
  {
    hide Distinct, Dict.Put;
    if n > 0 {
      CustomPartAt(d, existing, script, n - 1, k);
      assert existing.keys[..n] == existing.keys[..n - 1] + [existing.keys[n - 1]];
    }
  }

  /** The whole merge, before a null archive time is dropped, under one key. */
  lemma CustomAt(d: Dict, existing: Dict, script: Values, k: Key)
    requires d.Valid() && existing.Valid()
    ensures Lookup(CustomPart(d, existing, script, |existing.keys|).values, k) ==
            if k in d.values then Some(d.values[k])
            else if k in existing.values && k !in script then Some(existing.values[k])
            else None
  {
    hide CustomPart;
    CustomPartAt(d, existing, script, |existing.keys|, k);
    assert existing.keys[..|existing.keys|] == existing.keys;
  }

  function OrderedMerge(existing: Dict, script: Dict): (r: Dict)
    requires existing.Valid() && script.Valid()
    ensures r.Valid()
  {
    var schema := SchemaPart(existing.values, script.values, KEY_ORDER);
    var all := CustomPart(schema, existing, script.values, |existing.keys|);
    if ArchivedAt in all.values && all.values[ArchivedAt] == Null then all.Remove(ArchivedAt) else all
  }

  method SchemaPass(existing: Dict, script: Dict, order: seq<Key>) returns (ordered: Dict)
    requires existing.Valid() && script.Valid()
    ensures ordered == SchemaPart(existing.values, script.values, order)
  {
    hide Dict.Valid, Dict.Put;
    ordered := SchemaPart(existing.values, script.values, []);
    for i := 0 to |order|
      invariant ordered.Valid() && ordered == SchemaPart(existing.values, script.values, order[..i])
    {
      assert order[..i + 1][..i] == order[..i];
      var key := order[i];
      if key in script.values {
        ordered := ordered.Put(key, script.values[key]);
      } else if key in existing.values {
        ordered := ordered.Put(key, existing.values[key]);
      } else if key == Tags {
        ordered := ordered.Put(key, Items([]));
      } else if key == AccessTier {
        ordered := ordered.Put(key, Text("public"));
      } else if key == Archived {
        ordered := ordered.Put(key, Flag(false));
      } else if key == ArchivedAt {
        ordered := ordered.Put(key, Null);
      }
    }
    assert order[..|order|] == order;
  }

  method CustomPass(schema: Dict, existing: Dict, script: Dict) returns (ordered: Dict)
    requires schema.Valid() && existing.Valid() && script.Valid()
    ensures ordered == CustomPart(schema, existing, script.values, |existing.keys|)
  {
    hide Dict.Put;
    ordered := schema;
    for i := 0 to |existing.keys|
      invariant ordered.Valid() && ordered == CustomPart(schema, existing, script.values, i)
    {
      var key := existing.keys[i];
      if key !in ordered.values && key !in script.values {
        ordered := ordered.Put(key, existing.values[key]);
      }
    }
  }

  /** One pass over the schema, one over the existing keys, then a null archive time is dropped. */
  method BuildOrdered(existing: Dict, script: Dict) returns (ordered: Dict)
    requires existing.Valid() && script.Valid()
    ensures ordered == OrderedMerge(existing, script)
  {
    hide Dict.Put, SchemaPart, CustomPart, OrderedValue;
    var schema := SchemaPass(existing, script, KEY_ORDER);
    ordered := CustomPass(schema, existing, script);
    ArchiveTimeIsKept(existing, script);
    if ordered.values[ArchivedAt] == Null {
      ordered := ordered.Remove(ArchivedAt);
    }
  }

  /** The key that may be deleted at the end is always there. */
  lemma ArchiveTimeIsKept(existing: Dict, script: Dict)
    requires existing.Valid() && script.Valid()
    ensures var schema := SchemaPart(existing.values, script.values, KEY_ORDER);
            ArchivedAt in CustomPart(schema, existing, script.values, |existing.keys|).values
  {
    hide SchemaPart, CustomPart;
    SchemaAt(existing.values, script.values, ArchivedAt);
    CustomAt(SchemaPart(existing.values, script.values, KEY_ORDER), existing, script.values, ArchivedAt);
  }

  /** Before the null archive time is dropped, both merges hold the same value under a key. */
  lemma SameUnder(existing: Dict, script: Dict, k: Key)
    requires existing.Valid() && script.Valid() && IsScript(script.values)
    ensures var schema := SchemaPart(existing.values, script.values, KEY_ORDER);
            var all := CustomPart(schema, existing, script.values, |existing.keys|).values;
            var simple := SimpleMerge(existing.values, script.values);
            (k in all <==> k in simple) && (k in all ==> all[k] == simple[k])
  {
    hide SchemaPart, CustomPart, Dict.Valid;
    SchemaAt(existing.values, script.values, k);
    CustomAt(SchemaPart(existing.values, script.values, KEY_ORDER), existing, script.values, k);
  }

  /** As a map, the ordered merge is the simple merge without a null archive time. */
  lemma OrderedIsSimple(existing: Dict, script: Dict)
    requires existing.Valid() && script.Valid() && IsScript(script.values)
    ensures OrderedMerge(existing, script).values == DropNull(SimpleMerge(existing.values, script.values))
  {
    hide SchemaPart, CustomPart, SimpleMerge, Dict.Valid, IsScript;
    var schema := SchemaPart(existing.values, script.values, KEY_ORDER);
    var all := CustomPart(schema, existing, script.values, |existing.keys|).values;
    var simple := SimpleMerge(existing.values, script.values);
    forall k
      ensures k in all <==> k in simple
      ensures k in all ==> all[k] == simple[k]
    {
      SameUnder(existing, script, k);
    }
    assert all == simple;
  }

  /** Position in the schema; custom keys come after every schema key. */
  function Rank(k: Key): nat {
    match k
    case Title => 0
    case Source => 1
    case SourceId => 2
    case DrivePath => 3
    case ExportedAt => 4
    case Archived => 5
    case ArchivedAt => 6
    case Tags => 7
    case AccessTier => 8
    case Custom(_) => 9
  }

  /** Schema keys only, in schema order. */
  ghost predicate SchemaOrdered(keys: seq<Key>) {
    && (forall i :: 0 <= i < |keys| ==> !keys[i].Custom?)
    && (forall i, j :: 0 <= i < j < |keys| ==> Rank(keys[i]) < Rank(keys[j]))
  }

  /** The custom keys of a dictionary, in order. */
  function CustomKeys(keys: seq<Key>): (r: seq<Key>)
    ensures forall i :: 0 <= i < |r| ==> r[i].Custom?
  {
    if keys == [] then []
    else
      var last := keys[|keys| - 1];
      CustomKeys(keys[..|keys| - 1]) + (if last.Custom? then [last] else [])
  }

  /** The merge writes schema keys in schema order, then the custom keys in their old order. */
  lemma OrderedKeepsSchemaOrder(existing: Dict, script: Dict)
    requires existing.Valid() && script.Valid() && IsScript(script.values)
    ensures var keys, custom := OrderedMerge(existing, script).keys, CustomKeys(existing.keys);
            && |custom| <= |keys|
            && keys[|keys| - |custom|..] == custom
            && SchemaOrdered(keys[..|keys| - |custom|])
  {
    hide SchemaPart, CustomPart;
    var schema := SchemaPart(existing.values, script.values, KEY_ORDER);
    var all := CustomPart(schema, existing, script.values, |existing.keys|);
    var custom := CustomKeys(existing.keys);
    SchemaPartOrdered(existing.values, script.values, |KEY_ORDER|);
    assert KEY_ORDER[..|KEY_ORDER|] == KEY_ORDER;
    CustomPartAppends(existing, script.values, |existing.keys|);
    assert existing.keys[..|existing.keys|] == existing.keys;
    assert all.keys == schema.keys + custom;
    WithoutSchemaKey(schema.keys, custom, ArchivedAt);
    WithoutKeepsSchemaOrder(schema.keys, ArchivedAt);
  }

  lemma SchemaRank(n: nat)
    requires n < |KEY_ORDER|
    ensures Rank(KEY_ORDER[n]) == n && !KEY_ORDER[n].Custom?
  {}

  lemma SchemaOrderedSnoc(keys: seq<Key>, k: Key)
    requires SchemaOrdered(keys) && !k.Custom? && forall i :: 0 <= i < |keys| ==> Rank(keys[i]) < Rank(k)
    ensures SchemaOrdered(keys + [k])
  {
    hide Rank;
  }

  lemma {:induction false} SchemaPartOrdered(existing: Values, script: Values, n: nat)
    requires n <= |KEY_ORDER|
    ensures var keys := SchemaPart(existing, script, KEY_ORDER[..n]).keys;
            SchemaOrdered(keys) && forall i :: 0 <= i < |keys| ==> Rank(keys[i]) < n
  {
    hide OrderedValue, Rank, Dict.Valid, SchemaOrdered;
    if n == 0 {
      EmptyIsOrdered();
    } else {
      assert KEY_ORDER[..n][..n - 1] == KEY_ORDER[..n - 1] && KEY_ORDER[..n][n - 1] == KEY_ORDER[n - 1];
      SchemaPartOrdered(existing, script, n - 1);
      SchemaRank(n - 1);
      SchemaOrderedSnoc(SchemaPart(existing, script, KEY_ORDER[..n - 1]).keys, KEY_ORDER[n - 1]);
    }
  }

  lemma EmptyIsOrdered()
    ensures SchemaOrdered([])
  {}

  /** After the schema pass, exactly the custom keys of the old file are still to be copied. */
  lemma LeftToCopy(existing: Dict, script: Values, k: Key)
    requires IsScript(script) && k in existing.values
    ensures k.Custom? <==>
              k !in SchemaPart(existing.values, script, KEY_ORDER).values && k !in script
  {
    hide SchemaPart;
    SchemaAt(existing.values, script, k);
  }

  lemma NewKey(existing: Dict, n: nat)
    requires existing.Valid() && 0 < n <= |existing.keys|
    ensures existing.keys[n - 1] in existing.values && existing.keys[n - 1] !in existing.keys[..n - 1]
  {}

  /** Copying one more key appends it exactly when it is a custom one. */
  lemma CustomStep(existing: Dict, script: Values, n: nat)
    requires existing.Valid() && IsScript(script) && 0 < n <= |existing.keys|
    ensures var schema, k := SchemaPart(existing.values, script, KEY_ORDER), existing.keys[n - 1];
            CustomPart(schema, existing, script, n).keys ==
            CustomPart(schema, existing, script, n - 1).keys + if k.Custom? then [k] else []
  {
    hide SchemaPart, IsScript, Distinct, Dict.Valid;
    var schema, k := SchemaPart(existing.values, script, KEY_ORDER), existing.keys[n - 1];
    NewKey(existing, n);
    LeftToCopy(existing, script, k);
    CustomPartAt(schema, existing, script, n - 1, k);
  }

  lemma {:induction false} CustomPartAppends(existing: Dict, script: Values, n: nat)
    requires existing.Valid() && IsScript(script) && n <= |existing.keys|
    ensures var schema := SchemaPart(existing.values, script, KEY_ORDER);
            CustomPart(schema, existing, script, n).keys == schema.keys + CustomKeys(existing.keys[..n])
  {
    hide SchemaPart, IsScript, Dict.Valid;
    if n > 0 {
      CustomPartAppends(existing, script, n - 1);
      CustomStep(existing, script, n);
      assert existing.keys[..n][..n - 1] == existing.keys[..n - 1] && existing.keys[..n][n - 1] == existing.keys[n - 1];
    }
  }

  lemma {:induction false} WithoutSchemaKey(front: seq<Key>, custom: seq<Key>, k: Key)
    requires k !in custom
    ensures Without(front + custom, k) == Without(front, k) + custom
  {
    if front != [] {
      assert (front + custom)[1..] == front[1..] + custom;
      WithoutSchemaKey(front[1..], custom, k);
    } else if custom != [] {
      WithoutSchemaKey(front, custom[1..], k);
      assert front + custom == custom && front + custom[1..] == custom[1..];
    }
  }

  lemma {:induction false} WithoutKeepsSchemaOrder(keys: seq<Key>, k: Key)
    requires SchemaOrdered(keys)
    ensures SchemaOrdered(Without(keys, k))
  {
    if keys != [] {
      var rest := keys[1..];
      assert forall i :: 0 <= i < |rest| ==> rest[i] == keys[i + 1];
      WithoutKeepsSchemaOrder(rest, k);
      RankAtLeast(rest, k, Rank(keys[0]));
    }
  }

  lemma RankAtLeast(keys: seq<Key>, k: Key, r: nat)
    requires forall i :: 0 <= i < |keys| ==> r < Rank(keys[i])
    ensures forall i :: 0 <= i < |Without(keys, k)| ==> r < Rank(Without(keys, k)[i])
  {
    forall i | 0 <= i < |Without(keys, k)| ensures r < Rank(Without(keys, k)[i]) {
      assert Without(keys, k)[i] in keys;
    }
  }
}
