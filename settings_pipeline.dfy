/** The load/save pipeline shared by the four settings pages (offers, bundle
    cards, pack builder, ultimate pack). Each page's `loader` starts from a
    defaults object and overlays the shop metafields stored under its namespace,
    coercing each value by its key; each page's `action` turns the submitted form
    into an object, drops empty values, types each key, builds one metafield
    record per remaining entry and sends the records to the Admin API in
    batches of 25, stopping at the first batch that reports user errors.

    A page is described by a Schema value; the pages instantiate it. The
    GraphQL calls are replaced by inputs: the stored metafields the query
    returned, the shop id, and which mutation call reported user errors. */
module SettingsPipeline {
  import opened Wrappers
  import opened JsText

  // ------------------------------------------------------------ objects

  /** A JavaScript object with string keys, as its entries in insertion order. */
  type Obj<V> = seq<(string, V)>

  /** `o[k]`: the value of the last entry with that key (objects built by Put
      have one entry per key). */
  function Lookup<V>(o: Obj<V>, k: string): Option<V> {
    if o == [] then None
    else if o[|o| - 1].0 == k then Some(o[|o| - 1].1)
    else Lookup(o[..|o| - 1], k)
  }

  predicate DistinctKeys<V>(o: Obj<V>) {
    forall i, j :: 0 <= i < j < |o| ==> o[i].0 != o[j].0
  }

  /** In an object with one entry per key, every entry is what its key looks up. */
  lemma {:induction false} LookupMember<V>(o: Obj<V>, k: string, v: V)
    requires DistinctKeys(o) && (k, v) in o
    ensures Lookup(o, k) == Some(v)
  {
    if o[|o| - 1] != (k, v) {
      assert (k, v) in o[..|o| - 1];
      LookupMember(o[..|o| - 1], k, v);
    }
  }

  lemma {:induction false} LookupNone<V>(o: Obj<V>, k: string)
    ensures Lookup(o, k).None? <==> forall i :: 0 <= i < |o| ==> o[i].0 != k
  {
    if o != [] {
      LookupNone(o[..|o| - 1], k);
    }
  }

  /** Every entry with key `k` gets value `v`; positions and other entries stay. */
  function Replace<V>(o: Obj<V>, k: string, v: V): (r: Obj<V>)
    ensures |r| == |o|
    ensures forall i :: 0 <= i < |o| ==> r[i] == (if o[i].0 == k then (k, v) else o[i])
  {
    seq(|o|, i requires 0 <= i < |o| => if o[i].0 == k then (k, v) else o[i])
  }

  lemma {:induction false} ReplaceLookup<V>(o: Obj<V>, k: string, v: V, j: string)
    ensures Lookup(Replace(o, k, v), j) ==
              if j == k then (if Lookup(o, k).Some? then Some(v) else None) else Lookup(o, j)
  {
    if o != [] {
      var r := Replace(o, k, v);
      assert r[..|r| - 1] == Replace(o[..|o| - 1], k, v);
      ReplaceLookup(o[..|o| - 1], k, v, j);
    }
  }

  /** `o[k] = v` (also `{...o, [k]: v}`): an existing key keeps its position and
      takes the new value, a new key is appended. */
  function Put<V>(o: Obj<V>, k: string, v: V): (r: Obj<V>)
    ensures Lookup(r, k) == Some(v)
    ensures forall j :: j != k ==> Lookup(r, j) == Lookup(o, j)
    ensures |r| == if Lookup(o, k).Some? then |o| else |o| + 1
    ensures forall i :: 0 <= i < |o| ==> r[i].0 == o[i].0
    ensures |r| > |o| ==> r[|o|] == (k, v)
    ensures DistinctKeys(o) ==> DistinctKeys(r)
  {
    if Lookup(o, k).Some? then
      var r := Replace(o, k, v);
      forall j ensures Lookup(r, j) == if j == k then Some(v) else Lookup(o, j) {
        ReplaceLookup(o, k, v, j);
      }
      r
    else
      LookupNone(o, k);
      var r := o + [(k, v)];
      assert r[..|r| - 1] == o;
      r
  }

  /** Assigning the entries one after the other, as the `forEach` and `for … of`
      loops of the pages do: the last entry for a key wins, keys already in `o`
      keep their places. */
  function PutAll<V>(o: Obj<V>, entries: seq<(string, V)>): (r: Obj<V>)
    ensures forall k :: Lookup(r, k) == if Lookup(entries, k).Some? then Lookup(entries, k) else Lookup(o, k)
    ensures |r| >= |o| && forall i :: 0 <= i < |o| ==> r[i].0 == o[i].0
    ensures |r| <= |o| + |entries|
    ensures DistinctKeys(o) ==> DistinctKeys(r)
  {
    if entries == [] then o
    else
      var last := entries[|entries| - 1];
      Put(PutAll(o, entries[..|entries| - 1]), last.0, last.1)
  }

  lemma PutAllSnoc<V>(o: Obj<V>, entries: seq<(string, V)>, e: (string, V))
    ensures PutAll(o, entries + [e]) == Put(PutAll(o, entries), e.0, e.1)
  {
    assert (entries + [e])[..|entries|] == entries;
  }

  // ------------------------------------------------------------ values

  /** What a settings object holds: strings, booleans, integer numbers, NaN (an
      unparsable parseInt) and `Decimal(raw)`, the number parseFloat reads from
      `raw`, kept symbolic. */
  datatype Value = Str(s: string) | Bool(b: bool) | Num(n: int) | NaN | Decimal(raw: string)

  /** `String(v)`, which `FormData.append` applies. A NaN reaches the page
      through the loader's JSON answer, which turns it into `null`, so it is
      written "null". `Decimal(raw)` is written as `raw`, which is what
      JavaScript prints when `raw` is already in its canonical number form
      ("55", "12.5"). */
  function FormString(v: Value): string {
    match v
    case Str(s) => s
    case Bool(b) => if b then "true" else "false"
    case Num(n) => IntToString(n)
    case NaN => "null"
    case Decimal(raw) => raw
  }

  /** JavaScript truthiness of a looked-up value; `undefined` is falsy, and so
      is a decimal that is zero or NaN (spelled "0" and "NaN"). */
  predicate Truthy(v: Option<Value>) {
    match v
    case None => false
    case Some(Str(s)) => s != ""
    case Some(Bool(b)) => b
    case Some(Num(n)) => n != 0
    case Some(NaN) => false
    case Some(Decimal(raw)) => raw != "0" && raw != "NaN"
  }

  /** `String(o[k])`, which is "undefined" for a missing key. */
  function JsString(v: Option<Value>): (r: string)
    ensures v.Some? ==> r == FormString(v.value)
  {
    match v
    case None => "undefined"
    case Some(x) => FormString(x)
  }

  /** The text React renders for `{o[k]}`: nothing for `undefined`, for
      booleans and for a NaN, which the page receives as `null`. */
  function RenderText(v: Option<Value>): (r: string)
    ensures v.Some? && !v.value.Bool? && !v.value.NaN? ==> r == FormString(v.value)
    ensures v.None? || v.value.Bool? || v.value.NaN? ==> r == ""
  {
    match v
    case None => ""
    case Some(Bool(_)) => ""
    case Some(NaN) => ""
    case Some(x) => FormString(x)
  }

  /** The keys each loader's `switch` coerces: parseInt, `=== 'true'`, parseFloat;
      every other key keeps its raw string. */
  datatype Coercion = Coercion(intKeys: set<string>, boolKeys: set<string>, decimalKeys: set<string>)

  function Coerce(c: Coercion, key: string, raw: string): (v: Value)
    ensures key !in c.intKeys && key !in c.boolKeys && key !in c.decimalKeys ==> v == Str(raw)
    ensures key in c.boolKeys && key !in c.intKeys ==> v == Bool(raw == "true")
    ensures key in c.intKeys ==> v.Num? || v.NaN?
  {
    if key in c.intKeys then (match ParseInt(raw) case Some(n) => Num(n) case None => NaN)
    else if key in c.boolKeys then Bool(raw == "true")
    else if key in c.decimalKeys then Decimal(raw)
    else Str(raw)
  }

  /** The value has the shape its key is loaded as. */
  predicate Fits(c: Coercion, key: string, v: Value) {
    if key in c.intKeys then v.Num?
    else if key in c.boolKeys then v.Bool?
    else if key in c.decimalKeys then v.Decimal?
    else v.Str?
  }

  predicate WellTyped(c: Coercion, o: Obj<Value>) {
    forall i :: 0 <= i < |o| ==> Fits(c, o[i].0, o[i].1)
  }

  /** A value of the right shape survives `String(v)` followed by the loader's coercion. */
  lemma CoerceFormString(c: Coercion, key: string, v: Value)
    requires Fits(c, key, v)
    ensures Coerce(c, key, FormString(v)) == v
  {
    if v.Num? {
      ParseIntOfString(v.n);
    }
  }

  // ------------------------------------------------------------ metafield types

  datatype MetafieldType = SingleLineTextField | Boolean | NumberDecimal | NumberInteger
  {
    function Name(): string {
      match this
      case SingleLineTextField => "single_line_text_field"
      case Boolean => "boolean"
      case NumberDecimal => "number_decimal"
      case NumberInteger => "number_integer"
    }
  }

  /** How an action picks a key's metafield type: fixed key lists (integer keys
      take precedence), or a key prefix for booleans, which wins over a key infix for
      decimals. Everything else is a single-line text field. */
  datatype Classifier =
    | ByKeyLists(integerKeys: set<string>, booleanKeys: set<string>)
    | ByKeyPattern(booleanPrefix: string, decimalInfix: string)

  function Classify(c: Classifier, key: string): (t: MetafieldType)
    ensures c.ByKeyLists? ==> (t == NumberInteger <==> key in c.integerKeys)
    ensures c.ByKeyLists? ==> (t == Boolean <==> key !in c.integerKeys && key in c.booleanKeys)
    ensures c.ByKeyLists? ==> t != NumberDecimal
    ensures c.ByKeyPattern? ==> (t == Boolean <==> StartsWith(key, c.booleanPrefix))
    ensures c.ByKeyPattern? ==> (t == NumberDecimal <==> !StartsWith(key, c.booleanPrefix) && Includes(key, c.decimalInfix))
    ensures c.ByKeyPattern? ==> t != NumberInteger
  {
    match c
    case ByKeyLists(ints, bools) =>
      if key in ints then NumberInteger else if key in bools then Boolean else SingleLineTextField
    case ByKeyPattern(prefix, infix) =>
      if StartsWith(key, prefix) then Boolean else if Includes(key, infix) then NumberDecimal else SingleLineTextField
  }

  // ------------------------------------------------------------ a page

  /** One settings page: its metafield namespace, its defaults object, how its
      loader coerces and its action types the keys, and its success message. */
  datatype Schema = Schema(namespace: string, defaults: Obj<Value>, coercion: Coercion,
                           classifier: Classifier, savedMessage: string)

  // ------------------------------------------------------------ loader

  /** `metafields(namespace: …, first: 100)`: the query returns at most 100 nodes. */
  const QueryLimit: nat := 100

  /** The stored metafields as (key, value) pairs, in the order the platform lists them. */
  type Stored = seq<(string, string)>

  function Fetched(stored: Stored): (r: Stored)
    ensures |r| <= QueryLimit && r <= stored
    ensures |stored| <= QueryLimit ==> r == stored
  {
    if |stored| <= QueryLimit then stored else stored[..QueryLimit]
  }

  /** The nodes with their values coerced by key. */
  function Coerced(c: Coercion, nodes: Stored): (r: Obj<Value>)
    ensures |r| == |nodes|
    ensures forall k :: Lookup(r, k) == match Lookup(nodes, k)
                                        case Some(raw) => Some(Coerce(c, k, raw))
                                        case None => None
  {
    if nodes == [] then []
    else
      var last := nodes[|nodes| - 1];
      var r := Coerced(c, nodes[..|nodes| - 1]) + [(last.0, Coerce(c, last.0, last.1))];
      assert r[..|r| - 1] == Coerced(c, nodes[..|nodes| - 1]);
      r
  }

  lemma CoercedSnoc(c: Coercion, nodes: Stored, n: (string, string))
    ensures Coerced(c, nodes + [n]) == Coerced(c, nodes) + [(n.0, Coerce(c, n.0, n.1))]
  {
    assert (nodes + [n])[..|nodes|] == nodes;
  }

  /** What a page's loader returns as its settings object: a key the query
      returned takes its (last) stored value coerced by key, every other key
      keeps its default; the defaults' keys come first, in their order. */
  function LoadedSettings(schema: Schema, stored: Stored): (settings: Obj<Value>)
    ensures forall k :: Lookup(settings, k) == match Lookup(Fetched(stored), k)
                                               case Some(raw) => Some(Coerce(schema.coercion, k, raw))
                                               case None => Lookup(schema.defaults, k)
    ensures |settings| >= |schema.defaults|
    ensures forall i :: 0 <= i < |schema.defaults| ==> settings[i].0 == schema.defaults[i].0
    ensures DistinctKeys(schema.defaults) ==> DistinctKeys(settings)
  {
    var coerced := Coerced(schema.coercion, Fetched(stored));
    var settings := PutAll(schema.defaults, coerced);
    forall k ensures Lookup(settings, k) == match Lookup(Fetched(stored), k)
                                           case Some(raw) => Some(Coerce(schema.coercion, k, raw))
                                           case None => Lookup(schema.defaults, k)
    {
      assert Lookup(coerced, k).Some? <==> Lookup(Fetched(stored), k).Some?;
    }
    settings
  }

  /** The loader's `forEach` over the returned metafield nodes. */
  method Load(schema: Schema, stored: Stored) returns (settings: Obj<Value>)
    ensures settings == LoadedSettings(schema, stored)
  {
    var nodes := Fetched(stored);
    settings := schema.defaults;
    var i := 0;
    while i < |nodes|
      invariant 0 <= i <= |nodes|
      invariant settings == PutAll(schema.defaults, Coerced(schema.coercion, nodes[..i]))
    {
      LoadStep(schema, nodes, i);
      settings := Put(settings, nodes[i].0, Coerce(schema.coercion, nodes[i].0, nodes[i].1));
      i := i + 1;
    }
    assert nodes[..i] == nodes;
  }

  /** One turn of the loader's loop assigns one more coerced node. */
  lemma LoadStep(schema: Schema, nodes: Stored, i: nat)
    requires i < |nodes|
    ensures PutAll(schema.defaults, Coerced(schema.coercion, nodes[..i + 1])) ==
              Put(PutAll(schema.defaults, Coerced(schema.coercion, nodes[..i])), nodes[i].0,
                  Coerce(schema.coercion, nodes[i].0, nodes[i].1))
  {
    var n := nodes[i];
    assert nodes[..i + 1] == nodes[..i] + [n];
    CoercedSnoc(schema.coercion, nodes[..i], n);
    PutAllSnoc(schema.defaults, Coerced(schema.coercion, nodes[..i]), (n.0, Coerce(schema.coercion, n.0, n.1)));
  }

  // ------------------------------------------------------------ action

  /** The submitted form: its entries in order, keys possibly repeated. */
  type Form = seq<(string, string)>

  /** `for (const [key, value] of formData.entries()) settings[key] = value`. */
  function SettingsOf(form: Form): (settings: Obj<string>)
    ensures DistinctKeys(settings)
    ensures forall k :: Lookup(settings, k) == Lookup(form, k)
  {
    PutAll([], form)
  }

  method CollectSettings(form: Form) returns (settings: Obj<string>)
    ensures settings == SettingsOf(form)
  {
    settings := [];
    var i := 0;
    while i < |form|
      invariant 0 <= i <= |form|
      invariant settings == PutAll([], form[..i])
    {
      CollectStep(form, i);
      settings := Put(settings, form[i].0, form[i].1);
      i := i + 1;
    }
    assert form[..i] == form;
  }

  /** One turn of the form loop assigns one more entry. */
  lemma CollectStep(form: Form, i: nat)
    requires i < |form|
    ensures PutAll([], form[..i + 1]) == Put(PutAll([], form[..i]), form[i].0, form[i].1)
  {
    assert form[..i + 1] == form[..i] + [form[i]];
    PutAllSnoc([], form[..i], form[i]);
  }

  /** One `metafieldsSet` input. */
  datatype MetafieldInput = MetafieldInput(namespace: string, key: string, mtype: MetafieldType, value: string, ownerId: string)

  function Record(schema: Schema, shopId: string, key: string, value: string): MetafieldInput {
    MetafieldInput(schema.namespace, key, Classify(schema.classifier, key), value, shopId)
  }

  /** One record per entry whose value is not empty, in entry order. */
  function RecordsOf(schema: Schema, shopId: string, settings: Obj<string>): (records: seq<MetafieldInput>)
    ensures |records| <= |settings|
    ensures forall i :: 0 <= i < |records| ==>
              && records[i].namespace == schema.namespace
              && records[i].ownerId == shopId
              && records[i].value != ""
              && records[i].mtype == Classify(schema.classifier, records[i].key)
              && (records[i].key, records[i].value) in settings
    ensures forall e :: e in settings && e.1 != "" ==> Record(schema, shopId, e.0, e.1) in records
  {
    if settings == [] then []
    else
      var last := settings[|settings| - 1];
      var front := settings[..|settings| - 1];
      assert forall e :: e in front ==> e in settings;
      RecordsOf(schema, shopId, front) + (if last.1 == "" then [] else [Record(schema, shopId, last.0, last.1)])
  }

  /** Entries are turned into records independently and in order. */
  lemma {:induction false} RecordsOfConcat(schema: Schema, shopId: string, a: Obj<string>, b: Obj<string>)
    ensures RecordsOf(schema, shopId, a + b) == RecordsOf(schema, shopId, a) + RecordsOf(schema, shopId, b)
  {
    if b != [] {
      var b' := b[..|b| - 1];
      assert (a + b)[..|a + b| - 1] == a + b';
      assert (a + b)[|a + b| - 1] == b[|b| - 1];
      RecordsOfConcat(schema, shopId, a, b');
    } else {
      assert a + b == a;
    }
  }

  method BuildRecords(schema: Schema, shopId: string, settings: Obj<string>) returns (records: seq<MetafieldInput>)
    ensures records == RecordsOf(schema, shopId, settings)
  {
    records := [];
    var i := 0;
    while i < |settings|
      invariant 0 <= i <= |settings|
      invariant records == RecordsOf(schema, shopId, settings[..i])
    {
      var key := settings[i].0;
      var value := settings[i].1;
      assert settings[..i + 1][..i] == settings[..i];
      if value != "" {
        records := records + [Record(schema, shopId, key, value)];
      }
      i := i + 1;
    }
    assert settings[..i] == settings;
  }

  // ------------------------------------------------------------ batches

  const BatchSize: nat := 25

  function Flatten<T>(bs: seq<seq<T>>): seq<T> {
    if bs == [] then [] else bs[0] + Flatten(bs[1..])
  }

  lemma FlattenCons<T>(b: seq<T>, bs: seq<seq<T>>)
    ensures Flatten([b] + bs) == b + Flatten(bs)
  {
    assert ([b] + bs)[1..] == bs;
  }

  lemma {:induction false} FlattenMember<T>(bs: seq<seq<T>>, b: seq<T>, x: T)
    requires b in bs && x in b
    ensures x in Flatten(bs)
  {
    if bs[0] != b {
      FlattenMember(bs[1..], b, x);
    }
  }

  /** Consecutive slices of `BatchSize` elements, the last one possibly shorter. */
  function Batches<T>(s: seq<T>): (bs: seq<seq<T>>)
    decreases |s|
    ensures forall i :: 0 <= i < |bs| ==> 0 < |bs[i]| <= BatchSize
    ensures forall i :: 0 <= i < |bs| - 1 ==> |bs[i]| == BatchSize
    ensures |bs| == (|s| + BatchSize - 1) / BatchSize
  {
    if s == [] then []
    else if |s| <= BatchSize then [s]
    else
      [s[..BatchSize]] + Batches(s[BatchSize..])
  }

  /** Concatenating the batches gives back the records: each is sent once, in order. */
  lemma {:induction false} BatchesFlatten<T>(s: seq<T>)
    decreases |s|
    ensures Flatten(Batches(s)) == s
  {
    if |s| > BatchSize {
      BatchesFlatten(s[BatchSize..]);
      FlattenCons(s[..BatchSize], Batches(s[BatchSize..]));
    } else if s != [] {
      FlattenCons(s, []);
    }
  }

  /** The batch that starts at `i` is `s[i..min(i + 25, |s|)]`. */
  lemma BatchesFrom<T>(s: seq<T>, i: nat, end: nat)
    requires i < |s| && end == if i + BatchSize <= |s| then i + BatchSize else |s|
    ensures Batches(s[i..]) == [s[i..end]] + Batches(s[end..])
  {
    var rest := s[i..];
    if |rest| > BatchSize {
      assert rest[..BatchSize] == s[i..end];
      assert rest[BatchSize..] == s[end..];
    } else {
      assert rest == s[i..end];
      assert s[end..] == [];
    }
  }

  /** `for (let i = 0; i < metafields.length; i += 25) batches.push(metafields.slice(i, i + 25))`. */
  method SliceBatches(records: seq<MetafieldInput>) returns (batches: seq<seq<MetafieldInput>>)
    ensures batches == Batches(records)
  {
    batches := [];
    var i := 0;
    assert records[0..] == records;
    while i < |records|
      invariant 0 <= i
      invariant i <= |records| ==> batches + Batches(records[i..]) == Batches(records)
      invariant i > |records| ==> batches == Batches(records)
    {
      var end := if i + BatchSize <= |records| then i + BatchSize else |records|;
      BatchesFrom(records, i, end);
      batches := batches + [records[i..end]];
      i := i + BatchSize;
      if i > |records| {
        assert records[end..] == [];
      }
    }
  }

  /** The index of the first of `n` mutation calls that reported user errors. */
  function FirstFailing(n: nat, userErrors: nat -> bool): (r: Option<nat>)
    ensures r.Some? ==> r.value < n && userErrors(r.value)
    ensures r.Some? ==> forall j :: 0 <= j < r.value ==> !userErrors(j)
    ensures r.None? ==> forall j :: 0 <= j < n ==> !userErrors(j)
  {
    if n == 0 then None
    else
      match FirstFailing(n - 1, userErrors)
      case Some(i) => Some(i)
      case None => if userErrors(n - 1) then Some(n - 1) else None
  }

  /** The sequential `for (const batch of metafieldBatches)` loop: each batch is
      sent, and the first response with user errors throws out of the loop.
      `userErrors(i)` is whether the i-th call reported user errors. */
  method SendBatches(batches: seq<seq<MetafieldInput>>, userErrors: nat -> bool)
    returns (sent: seq<seq<MetafieldInput>>, failedAt: Option<nat>)
    ensures failedAt == FirstFailing(|batches|, userErrors)
    ensures failedAt.Some? ==> sent == batches[..failedAt.value + 1]
    ensures failedAt.None? ==> sent == batches
  {
    sent := [];
    var i := 0;
    while i < |batches|
      invariant 0 <= i <= |batches|
      invariant sent == batches[..i]
      invariant FirstFailing(i, userErrors).None?
    {
      sent := sent + [batches[i]];
      if userErrors(i) {
        assert FirstFailing(i + 1, userErrors) == Some(i);
        return sent, Some(i);
      }
      i := i + 1;
    }
    assert batches[..i] == batches;
    return sent, None;
  }

  // ------------------------------------------------------------ outcome

  datatype SaveError = MissingShopId | UserErrors(batch: nat)

  /** The action's JSON answer, with the batches it sent. */
  datatype ActionResult =
    | Saved(message: string, settings: Obj<string>, sent: seq<seq<MetafieldInput>>)
    | Failed(error: SaveError, sent: seq<seq<MetafieldInput>>)

  const NothingToSave := "Aucune modification à enregistrer"
  const MissingShopIdMessage := "Impossible de récupérer l'ID de la boutique"

  const FailurePrefix := "Une erreur est survenue lors de l'enregistrement: "

  /** The `message` of the JSON answer. A user-errors failure embeds the
      platform's error list, which is not modelled, so it has no text here. */
  function Message(r: ActionResult): (m: Option<string>)
    ensures r.Saved? ==> m == Some(r.message)
    ensures r.Failed? && r.error.MissingShopId? ==> m == Some(FailurePrefix + MissingShopIdMessage)
  {
    match r
    case Saved(message, _, _) => Some(message)
    case Failed(MissingShopId, _) => Some(FailurePrefix + MissingShopIdMessage)
    case Failed(UserErrors(_), _) => None
  }

  /** `!shopId`: an absent or empty id. */
  predicate ShopIdMissing(shopId: Option<string>) {
    shopId.None? || shopId.value == ""
  }

  /** The action, as a function of the form, the shop id the query returned and
      which mutation calls report user errors. */
  function ActionOutcome(schema: Schema, form: Form, shopId: Option<string>, userErrors: nat -> bool): ActionResult {
    var settings := SettingsOf(form);
    if ShopIdMissing(shopId) then Failed(MissingShopId, [])
    else
      var records := RecordsOf(schema, shopId.value, settings);
      if records == [] then Saved(NothingToSave, settings, [])
      else
        var batches := Batches(records);
        match FirstFailing(|batches|, userErrors)
        case Some(i) => Failed(UserErrors(i), batches[..i + 1])
        case None => Saved(schema.savedMessage, settings, batches)
  }

  /** A page's `action`: collect the form, refuse a missing shop id, build the
      records, slice them into batches and send the batches in order. */
  method Action(schema: Schema, form: Form, shopId: Option<string>, userErrors: nat -> bool) returns (result: ActionResult)
    ensures result == ActionOutcome(schema, form, shopId, userErrors)
  {
    var settings := CollectSettings(form);
    if shopId.None? || shopId.value == "" {
      return Failed(MissingShopId, []);
    }
    var records := BuildRecords(schema, shopId.value, settings);
    if |records| == 0 {
      return Saved(NothingToSave, settings, []);
    }
    var batches := SliceBatches(records);
    var sent, failedAt := SendBatches(batches, userErrors);
    if failedAt.Some? {
      result := Failed(UserErrors(failedAt.value), sent);
    } else {
      result := Saved(schema.savedMessage, settings, sent);
    }
  }

  /** How the action ends: without a shop id nothing is sent; with nothing to
      save it says so; a success has sent every record exactly once, in
      order; a failure is the first batch whose call reported user errors,
      after every batch up to and including it was sent. */
  lemma ActionCases(schema: Schema, form: Form, shopId: Option<string>, userErrors: nat -> bool)
    ensures var result := ActionOutcome(schema, form, shopId, userErrors);
            && (ShopIdMissing(shopId) ==> result == Failed(MissingShopId, []))
            && (!ShopIdMissing(shopId) ==>
                  var records := RecordsOf(schema, shopId.value, SettingsOf(form));
                  && (records == [] ==> result == Saved(NothingToSave, SettingsOf(form), []))
                  && (result.Saved? ==> Flatten(result.sent) == records)
                  && (result.Failed? ==> result.error.UserErrors? && userErrors(result.error.batch) &&
                                         result.sent == Batches(records)[..result.error.batch + 1]))
            && (result.Failed? && result.error.UserErrors? ==>
                  forall j :: 0 <= j < result.error.batch ==> !userErrors(j))
            && (result.Saved? && result.sent != [] ==> result.message == schema.savedMessage)
  {
    if !ShopIdMissing(shopId) {
      BatchesFlatten(RecordsOf(schema, shopId.value, SettingsOf(form)));
    }
  }

  /** What was sent: batches of 1 to 25 records, each record one of the
      form's non-empty entries, carrying the value the form submitted last
      for its key. */
  lemma ActionSent(schema: Schema, form: Form, shopId: Option<string>, userErrors: nat -> bool)
    ensures var result := ActionOutcome(schema, form, shopId, userErrors);
            && (forall b :: b in result.sent ==> 0 < |b| <= BatchSize)
            && (!ShopIdMissing(shopId) ==>
                  forall b, r :: b in result.sent && r in b ==>
                    && r in RecordsOf(schema, shopId.value, SettingsOf(form))
                    && r.namespace == schema.namespace && r.ownerId == shopId.value && r.value != ""
                    && r.mtype == Classify(schema.classifier, r.key)
                    && Lookup(form, r.key) == Some(r.value))
  {
    var result := ActionOutcome(schema, form, shopId, userErrors);
    if !ShopIdMissing(shopId) {
      var settings := SettingsOf(form);
      var records := RecordsOf(schema, shopId.value, settings);
      var batches := Batches(records);
      assert forall b :: b in result.sent ==> b in batches;
      BatchesFlatten(records);
      forall b, r | b in result.sent && r in b
        ensures && r in records && r.namespace == schema.namespace && r.ownerId == shopId.value && r.value != ""
                && r.mtype == Classify(schema.classifier, r.key) && Lookup(form, r.key) == Some(r.value)
      {
        FlattenMember(batches, b, r);
        var i :| 0 <= i < |records| && records[i] == r;
        LookupMember(settings, r.key, r.value);
      }
    }
  }

  // ------------------------------------------------------------ handleSubmit

  /** The form data a settings object is submitted as: each entry stringified, in order. */
  function FormEntries(settings: Obj<Value>): (form: Form)
    ensures |form| == |settings|
    ensures forall k :: Lookup(form, k) == match Lookup(settings, k)
                                           case Some(v) => Some(FormString(v))
                                           case None => None
  {
    if settings == [] then []
    else
      var last := settings[|settings| - 1];
      var form := FormEntries(settings[..|settings| - 1]) + [(last.0, FormString(last.1))];
      assert form[..|form| - 1] == FormEntries(settings[..|settings| - 1]);
      form
  }

  /** `Object.entries(settings).forEach(([k, v]) => formData.append(k, v))`. */
  method HandleSubmit(settings: Obj<Value>) returns (form: Form)
    ensures form == FormEntries(settings)
  {
    form := [];
    var i := 0;
    while i < |settings|
      invariant 0 <= i <= |settings|
      invariant form == FormEntries(settings[..i])
    {
      form := form + [(settings[i].0, FormString(settings[i].1))];
      i := i + 1;
      assert settings[..i][..i - 1] == settings[..i - 1];
    }
    assert settings[..i] == settings;
  }

  // ------------------------------------------------------------ round trip

  /** The (key, value) pairs `metafieldsSet` writes. */
  function Pairs(records: seq<MetafieldInput>): (r: Stored)
    ensures |r| == |records|
  {
    if records == [] then []
    else
      var last := records[|records| - 1];
      Pairs(records[..|records| - 1]) + [(last.key, last.value)]
  }

  lemma PairsAppend(records: seq<MetafieldInput>, extra: seq<MetafieldInput>)
    requires |extra| <= 1
    ensures Pairs(records + extra) == Pairs(records) + Pairs(extra)
  {
    if extra != [] {
      assert (records + extra)[..|records + extra| - 1] == records;
    } else {
      assert records + extra == records;
    }
  }

  /** The page's metafields after `metafieldsSet` has written `records`: an
      upsert by key, as the platform performs it. */
  function Written(store: Stored, records: seq<MetafieldInput>): Stored {
    PutAll(store, Pairs(records))
  }

  /** From an object with one entry per key, the written pairs hold exactly the
      non-empty values. */
  lemma {:induction false} RecordsLookup(schema: Schema, shopId: string, o: Obj<string>, k: string)
    requires DistinctKeys(o)
    ensures Lookup(Pairs(RecordsOf(schema, shopId, o)), k) ==
              match Lookup(o, k)
              case Some(v) => if v == "" then None else Some(v)
              case None => None
  {
    if o != [] {
      var front := o[..|o| - 1];
      var last := o[|o| - 1];
      var extra := if last.1 == "" then [] else [Record(schema, shopId, last.0, last.1)];
      var before := Pairs(RecordsOf(schema, shopId, front));
      RecordsLookup(schema, shopId, front, k);
      PairsAppend(RecordsOf(schema, shopId, front), extra);
      if extra != [] {
        var after := before + [(last.0, last.1)];
        assert after[..|after| - 1] == before;
      } else {
        assert before + Pairs(extra) == before;
      }
      if last.0 == k {
        LookupNone(front, k);
      }
    }
  }

  lemma LookupEntry<V>(o: Obj<V>, k: string) returns (i: nat)
    requires Lookup(o, k).Some?
    ensures i < |o| && o[i] == (k, Lookup(o, k).value)
  {
    if o[|o| - 1].0 == k {
      i := |o| - 1;
    } else {
      i := LookupEntry(o[..|o| - 1], k);
    }
  }

  /** Writing the records of a submitted settings object and loading the page
      again: a key whose value has a non-empty string form reloads as that
      string coerced by the key; a key whose value is empty, or that the object
      does not have, keeps what the page loaded before (an empty value never
      clears a stored one). */
  lemma RecordsThenLoad(schema: Schema, s: Obj<Value>, shopId: string, store: Stored, k: string)
    requires |store| + |s| <= QueryLimit
    ensures var saved := Written(store, RecordsOf(schema, shopId, SettingsOf(FormEntries(s))));
            Lookup(LoadedSettings(schema, saved), k) == Resubmitted(schema, s, store, k)
  {
    var settings := SettingsOf(FormEntries(s));
    var saved := Written(store, RecordsOf(schema, shopId, settings));
    assert Fetched(saved) == saved && Fetched(store) == store;
    RecordsLookup(schema, shopId, settings, k);
  }

  /** What a key should load as once `s` has been submitted and saved. */
  function Resubmitted(schema: Schema, s: Obj<Value>, store: Stored, k: string): Option<Value> {
    match Lookup(s, k)
    case Some(v) =>
      if FormString(v) != "" then Some(Coerce(schema.coercion, k, FormString(v)))
      else Lookup(LoadedSettings(schema, store), k)
    case None => Lookup(LoadedSettings(schema, store), k)
  }

  /** The page's metafields once the action has returned: the batches it sent
      were written. */
  function AfterAction(store: Stored, result: ActionResult): Stored {
    Written(store, Flatten(result.sent))
  }

  /** Submitting a settings object to the action and loading the page again.
      When the action answers that it saved, every key reloads as
      `Resubmitted` says: a non-empty string form coerced by the key, the
      previous load otherwise. When the shop id is missing nothing was
      written and every key loads as before. */
  lemma SaveThenLoad(schema: Schema, s: Obj<Value>, shopId: Option<string>, userErrors: nat -> bool,
                     store: Stored, k: string)
    requires |store| + |s| <= QueryLimit
    ensures var result := ActionOutcome(schema, FormEntries(s), shopId, userErrors);
            var reloaded := Lookup(LoadedSettings(schema, AfterAction(store, result)), k);
            && (result.Saved? ==> reloaded == Resubmitted(schema, s, store, k))
            && (ShopIdMissing(shopId) ==> reloaded == Lookup(LoadedSettings(schema, store), k))
  {
    var result := ActionOutcome(schema, FormEntries(s), shopId, userErrors);
    ActionCases(schema, FormEntries(s), shopId, userErrors);
    if ShopIdMissing(shopId) {
      assert AfterAction(store, result) == store;
    } else if result.Saved? {
      RecordsThenLoad(schema, s, shopId.value, store, k);
    }
  }

  /** For values of the shape their keys are loaded as, a successful save
      gives back the value itself. */
  lemma SaveThenLoadWellTyped(schema: Schema, s: Obj<Value>, shopId: Option<string>, userErrors: nat -> bool,
                              store: Stored, k: string)
    requires WellTyped(schema.coercion, s)
    requires |store| + |s| <= QueryLimit
    ensures var result := ActionOutcome(schema, FormEntries(s), shopId, userErrors);
            result.Saved? ==>
              Lookup(LoadedSettings(schema, AfterAction(store, result)), k) ==
                match Lookup(s, k)
                case Some(v) => if FormString(v) != "" then Some(v) else Lookup(LoadedSettings(schema, store), k)
                case None => Lookup(LoadedSettings(schema, store), k)
  {
    SaveThenLoad(schema, s, shopId, userErrors, store, k);
    if Lookup(s, k).Some? && FormString(Lookup(s, k).value) != "" {
      var i := LookupEntry(s, k);
      CoerceFormString(schema.coercion, k, s[i].1);
    }
  }

  /** A field edited to a non-empty text and saved reloads as that text coerced by its key. */
  lemma EditThenLoad(schema: Schema, s: Obj<Value>, shopId: Option<string>, userErrors: nat -> bool,
                     store: Stored, k: string, text: string)
    requires text != ""
    requires |store| + |s| + 1 <= QueryLimit
    ensures var result := ActionOutcome(schema, FormEntries(Put(s, k, Str(text))), shopId, userErrors);
            result.Saved? ==>
              Lookup(LoadedSettings(schema, AfterAction(store, result)), k) == Some(Coerce(schema.coercion, k, text))
  {
    var edited := Put(s, k, Str(text));
    assert Lookup(edited, k) == Some(Str(text)) && |edited| <= |s| + 1;
    SaveThenLoad(schema, edited, shopId, userErrors, store, k);
  }
}
