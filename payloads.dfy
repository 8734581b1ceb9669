/** Fake request payloads synthesized from a schema (payloads.go).

    The synthesis is specified by the functions `Synthesize` and
    `SynthesizeSchema` and computed by the methods `CreateFakePayload`,
    `CreateFakePayloadFromSchema`, `IterateObject` and `IterateArray`, which
    are proved to return what the functions say. The lemmas after them state
    what the synthesis promises. */
module Payloads {
  import opened Base

  /** A decoded JSON/YAML value, Go's `interface{}` as the parser and the
      synthesizer produce it; `Null` is Go's `nil`. Go decodes every
      number as a `float64`; here a number is an exact `real`, which the
      synthesizer only ever sets to zero. */
  datatype Value =
    | Null
    | Bool(b: bool)
    | Num(n: real)
    | Str(s: string)
    | Arr(items: seq<Value>)
    | Obj(fields: map<string, Value>)

  /** What one call of `SchemaProxy.BuildSchema` gives. */
  datatype Build = Built(schema: Schema) | BuildError(reason: string)

  /** A schema reference. Each call of `BuildSchema` may resolve it anew:
      call 0 gives `first`, call `i > 0` gives `rebuilds[i - 1]`, and once
      the rebuilds run out the last one is given again. */
  datatype Proxy = Proxy(first: Build, rebuilds: seq<Build>)

  /** The `items` keyword: a boolean schema or a schema. */
  datatype Items = ItemsBool(allowed: bool) | ItemsSchema(proxy: Proxy)

  /** The schema keywords the synthesizer reads. `properties` keeps the
      order the caller supplies (a Go map has none). */
  datatype Schema = Schema(
    types: seq<string>,
    format: string,
    title: string,
    defaultValue: Option<Value>,
    example: Option<Value>,
    examples: seq<Value>,
    oneOf: seq<Proxy>,
    anyOf: seq<Proxy>,
    allOf: seq<Proxy>,
    properties: seq<(string, Proxy)>,
    items: Option<Items>)

  /** `createFakePayload` tries at most this many builds. */
  const MaxAttempts := 5

  /** The media type `getPayloadFromType` can serialize. */
  const JsonMediaType := "application/json"

  /** The result of the `i`-th call of `BuildSchema` on `p`. */
  function BuildAt(p: Proxy, i: nat): (b: Build)
    ensures b < p
  {
    if i == 0 || |p.rebuilds| == 0 then p.first
    else if i - 1 < |p.rebuilds| then p.rebuilds[i - 1]
    else p.rebuilds[|p.rebuilds| - 1]
  }

  // ---------------------------------------------------------------------
  // Specification

  /** What `createFakePayload` returns for a proxy. */
  function Synthesize(p: Proxy): Result<Value>
    decreases p, 1
  {
    Retry(p, 0)
  }

  /** The retry loop of `createFakePayload` from attempt `i` on: a build
      error or a failure other than `TryRebuild` ends it at once, and after
      `MaxAttempts` retryable failures it yields `Null` without an error. */
  function Retry(p: Proxy, i: nat): Result<Value>
    decreases p, 0, MaxAttempts - i
  {
    if i >= MaxAttempts then Ok(Null)
    else
      match BuildAt(p, i)
      case BuildError(reason) => Err(SchemaBuildFailed(reason))
      case Built(s) =>
        match SynthesizeSchema(s)
        case Ok(v) => Ok(v)
        case Err(e) => if e == TryRebuild then Retry(p, i + 1) else Err(e)
  }

  /** What `createFakePayloadFromSchema` returns: the first source that
      applies among default, example, examples, oneOf, anyOf, a non-empty
      allOf merge, and the type tag. */
  function SynthesizeSchema(s: Schema): Result<Value>
    decreases s, 2
  {
    if s.defaultValue.Some? then Ok(s.defaultValue.value)
    else if s.example.Some? then Ok(s.example.value)
    else if |s.examples| > 0 then Ok(s.examples[0])
    else if |s.oneOf| > 0 then Synthesize(s.oneOf[0])
    else if |s.anyOf| > 0 then Synthesize(s.anyOf[0])
    else
      match MergeAllOf(s, 0, map[])
      case Err(e) => Err(e)
      case Ok(merged) => if |merged| > 0 then Ok(Obj(merged)) else ByType(s)
  }

  /** Merges the objects synthesized for `s.allOf[k..]` into `acc`; a later
      member's key overwrites an earlier one, and a member that does not
      give an object is an error. */
  function MergeAllOf(s: Schema, k: nat, acc: map<string, Value>): Result<map<string, Value>>
    requires k <= |s.allOf|
    decreases s, 1, |s.allOf| - k
  {
    if k == |s.allOf| then Ok(acc)
    else
      match Synthesize(s.allOf[k])
      case Err(e) => Err(e)
      case Ok(v) => if v.Obj? then MergeAllOf(s, k + 1, acc + v.fields) else Err(NotAnObject)
  }

  /** The dispatch on the first type tag, or on the structure when there is
      no tag. */
  function ByType(s: Schema): Result<Value>
    decreases s, 1
  {
    if |s.types| > 0 then
      var t := s.types[0];
      if t == "object" then ObjectPayload(s)
      else if t == "array" then ArrayPayload(s)
      else if t == "null" then Ok(Null)
      else if t == "boolean" then Ok(Bool(true))
      else if t == "number" || t == "integer" then Ok(Num(0.0))
      else if t == "string" then Ok(Str("test"))
      else Err(UnknownSchemaType(t))
    else if |s.properties| > 0 then ObjectPayload(s)
    else if s.items.Some? then ArrayPayload(s)
    else Err(TryRebuild)
  }

  /** What `iterateObject` returns. */
  function ObjectPayload(s: Schema): Result<Value>
    decreases s, 0, |s.properties| + 1
  {
    match ObjectFields(s, 0, map[])
    case Err(e) => Err(e)
    case Ok(m) => Ok(Obj(m))
  }

  /** Adds a synthesized value for each of `s.properties[k..]` to `acc`. */
  function ObjectFields(s: Schema, k: nat, acc: map<string, Value>): Result<map<string, Value>>
    requires k <= |s.properties|
    decreases s, 0, |s.properties| - k
  {
    if k == |s.properties| then Ok(acc)
    else
      match Synthesize(s.properties[k].1)
      case Err(e) => Err(e)
      case Ok(v) => ObjectFields(s, k + 1, acc[s.properties[k].0 := v])
  }

  /** What `iterateArray` returns. Without `items` the program dereferences
      a nil `Items`. */
  function ArrayPayload(s: Schema): Result<Value>
    decreases s, 0
  {
    match s.items
    case None => Err(NilDereference("items"))
    case Some(ItemsBool(allowed)) =>
      if allowed then Ok(Arr([])) else Err(UnsynthesizableArray(s.title))
    case Some(ItemsSchema(p)) =>
      match Synthesize(p)
      case Err(e) => Err(e)
      case Ok(v) => Ok(Arr([v]))
  }

  /** `getPayloadFromType`: only JSON is supported; a string that already
      holds `{` or `[` is taken as encoded, anything else goes through
      `json.Marshal`, which is the parameter `marshal`. */
  function PayloadFromType(mediaType: string, data: Value, marshal: Value -> string): (r: Result<string>)
    ensures r.Err? <==> mediaType != JsonMediaType
    ensures r.Err? ==> r.error == UnsupportedMediaType(mediaType)
    ensures r.Ok? && PreEncoded(data) ==> r.value == data.s
    ensures r.Ok? && !PreEncoded(data) ==> r.value == marshal(data)
  {
    if mediaType == JsonMediaType then
      if PreEncoded(data) then Ok(data.s) else Ok(marshal(data))
    else Err(UnsupportedMediaType(mediaType))
  }

  /** A string value that looks already serialized. */
  predicate PreEncoded(data: Value) {
    data.Str? && ('{' in data.s || '[' in data.s)
  }

  // ---------------------------------------------------------------------
  // Implementation

  method CreateFakePayload(schemaProxy: Proxy) returns (r: Result<Value>)
    ensures r == Synthesize(schemaProxy)
    decreases schemaProxy, 1
  {
    var output := Null;
    var i := 0;
    while i < MaxAttempts
      invariant 0 <= i <= MaxAttempts
      invariant Retry(schemaProxy, i) == Synthesize(schemaProxy)
      invariant output == Null
    {
      var schemaOption := BuildAt(schemaProxy, i);
      if schemaOption.BuildError? {
        return Err(SchemaBuildFailed(schemaOption.reason));
      }
      var attempt := CreateFakePayloadFromSchema(schemaOption.schema);
      // a failed call hands back nil beside its error
      output := if attempt.Ok? then attempt.value else Null;
      if attempt.Ok? {
        break;
      }
      if attempt.error == TryRebuild {
        i := i + 1;
        continue;
      }
      return Err(attempt.error);
    }
    return Ok(output);
  }

  method CreateFakePayloadFromSchema(schema: Schema) returns (r: Result<Value>)
    ensures r == SynthesizeSchema(schema)
    decreases schema, 2
  {
    if schema.defaultValue.Some? {
      return Ok(schema.defaultValue.value);
    }
    if schema.example.Some? {
      return Ok(schema.example.value);
    }
    if |schema.examples| > 0 {
      return Ok(schema.examples[0]);
    }
    if |schema.oneOf| > 0 {
      r := CreateFakePayload(schema.oneOf[0]);
      return;
    }
    if |schema.anyOf| > 0 {
      r := CreateFakePayload(schema.anyOf[0]);
      return;
    }

    var payload: map<string, Value> := map[];
    var k := 0;
    while k < |schema.allOf|
      invariant 0 <= k <= |schema.allOf|
      invariant MergeAllOf(schema, k, payload) == MergeAllOf(schema, 0, map[])
    {
      var partialPayload := CreateFakePayload(schema.allOf[k]);
      if partialPayload.Err? {
        return Err(partialPayload.error);
      }
      if !partialPayload.value.Obj? {
        return Err(NotAnObject);
      }
      payload := payload + partialPayload.value.fields;
      k := k + 1;
    }
    if |payload| > 0 {
      return Ok(Obj(payload));
    }

    if |schema.types| > 0 {
      var t := schema.types[0];
      if t == "object" {
        r := IterateObject(schema);
      } else if t == "array" {
        r := IterateArray(schema);
      } else if t == "null" {
        r := Ok(Null);
      } else if t == "boolean" {
        r := Ok(Bool(true));
      } else if t == "number" || t == "integer" {
        r := Ok(Num(0.0));
      } else if t == "string" {
        r := Ok(Str("test"));
      } else {
        r := Err(UnknownSchemaType(t));
      }
      return;
    }

    if |schema.properties| > 0 {
      r := IterateObject(schema);
    } else if schema.items.Some? {
      r := IterateArray(schema);
    } else {
      r := Err(TryRebuild);
    }
  }

  method IterateObject(schema: Schema) returns (r: Result<Value>)
    ensures r == ObjectPayload(schema)
    decreases schema, 1
  {
    var output: map<string, Value> := map[];
    var k := 0;
    while k < |schema.properties|
      invariant 0 <= k <= |schema.properties|
      invariant ObjectFields(schema, k, output) == ObjectFields(schema, 0, map[])
    {
      var (name, proxy) := schema.properties[k];
      var payload := CreateFakePayload(proxy);
      if payload.Err? {
        return Err(payload.error);
      }
      output := output[name := payload.value];
      k := k + 1;
    }
    return Ok(Obj(output));
  }

  method IterateArray(schema: Schema) returns (r: Result<Value>)
    ensures r == ArrayPayload(schema)
    decreases schema, 1
  {
    if schema.items.None? {
      return Err(NilDereference("items"));
    }
    match schema.items.value
    case ItemsBool(allowed) =>
      if allowed {
        return Ok(Arr([]));
      }
      return Err(UnsynthesizableArray(schema.title));
    case ItemsSchema(proxy) =>
      var payload := CreateFakePayload(proxy);
      if payload.Err? {
        return Err(payload.error);
      }
      return Ok(Arr([payload.value]));
  }

  // ---------------------------------------------------------------------
  // Properties

  /** A schema whose value comes from its type tag: no literal value and no
      composition keyword. */
  predicate Plain(s: Schema) {
    && s.defaultValue.None? && s.example.None? && |s.examples| == 0
    && |s.oneOf| == 0 && |s.anyOf| == 0 && |s.allOf| == 0
  }

  /** A proxy that always resolves to the same schema. */
  function Fixed(s: Schema): Proxy {
    Proxy(Built(s), [])
  }

  /** The literal sources win in the order default, example, first entry
      of examples, each returned as it is; then oneOf's first member, then
      anyOf's first member. */
  lemma Precedence(s: Schema)
    ensures s.defaultValue.Some? ==> SynthesizeSchema(s) == Ok(s.defaultValue.value)
    ensures s.defaultValue.None? && s.example.Some? ==> SynthesizeSchema(s) == Ok(s.example.value)
    ensures s.defaultValue.None? && s.example.None? && |s.examples| > 0 ==>
              SynthesizeSchema(s) == Ok(s.examples[0])
    ensures s.defaultValue.None? && s.example.None? && |s.examples| == 0 && |s.oneOf| > 0 ==>
              SynthesizeSchema(s) == Synthesize(s.oneOf[0])
    ensures s.defaultValue.None? && s.example.None? && |s.examples| == 0 && |s.oneOf| == 0 && |s.anyOf| > 0 ==>
              SynthesizeSchema(s) == Synthesize(s.anyOf[0])
  {
  }

  /** The value a type tag asks for. */
  predicate Conforms(v: Value, tag: string) {
    if tag == "object" then v.Obj?
    else if tag == "array" then v.Arr?
    else if tag == "null" then v.Null?
    else if tag == "boolean" then v == Bool(true)
    else if tag == "number" || tag == "integer" then v == Num(0.0)
    else if tag == "string" then v == Str("test")
    else false
  }

  /** For a plain schema only the first type tag decides: a value, when
      there is one, has the shape that tag names, and an unknown tag is an
      error. */
  lemma PlainSchemaConforms(s: Schema)
    requires Plain(s) && |s.types| > 0
    ensures SynthesizeSchema(s).Ok? ==> Conforms(SynthesizeSchema(s).value, s.types[0])
    ensures s.types[0] in {"null", "boolean", "number", "integer", "string"} ==> SynthesizeSchema(s).Ok?
    ensures !(s.types[0] in {"object", "array", "null", "boolean", "number", "integer", "string"}) ==>
              SynthesizeSchema(s) == Err(UnknownSchemaType(s.types[0]))
  {
    assert MergeAllOf(s, 0, map[]) == Ok(map[]);
    assert SynthesizeSchema(s) == ByType(s);
    var t := s.types[0];
    if t == "object" {
      assert ByType(s) == ObjectPayload(s);
    } else if t == "array" {
      assert ByType(s) == ArrayPayload(s);
    }
  }

  /** Without a type tag the structure decides: properties give an object,
      an items schema an array, and nothing at all is the retryable
      failure. */
  lemma UntypedSchema(s: Schema)
    requires Plain(s) && |s.types| == 0
    ensures |s.properties| > 0 ==> SynthesizeSchema(s) == ObjectPayload(s)
    ensures |s.properties| == 0 && s.items.Some? ==> SynthesizeSchema(s) == ArrayPayload(s)
    ensures |s.properties| == 0 && s.items.None? ==> SynthesizeSchema(s) == Err(TryRebuild)
  {
    assert MergeAllOf(s, 0, map[]) == Ok(map[]);
  }

  /** Every property name becomes a key of the synthesized object, and no
      other key does. */
  lemma ObjectKeysArePropertyNames(s: Schema)
    ensures ObjectPayload(s).Ok? ==>
              ObjectPayload(s).value.Obj? &&
              ObjectPayload(s).value.fields.Keys == set k | 0 <= k < |s.properties| :: s.properties[k].0
  {
    ObjectFieldsKeys(s, 0, map[]);
  }

  lemma {:induction false} ObjectFieldsKeys(s: Schema, k: nat, acc: map<string, Value>)
    requires k <= |s.properties|
    ensures ObjectFields(s, k, acc).Ok? ==>
              ObjectFields(s, k, acc).value.Keys ==
              acc.Keys + set j | k <= j < |s.properties| :: s.properties[j].0
    decreases |s.properties| - k
  {
    if k < |s.properties| {
      match Synthesize(s.properties[k].1) {
        case Err(e) =>
        case Ok(v) =>
          var acc' := acc[s.properties[k].0 := v];
          ObjectFieldsKeys(s, k + 1, acc');
          var later := set j | k + 1 <= j < |s.properties| :: s.properties[j].0;
          var here := set j | k <= j < |s.properties| :: s.properties[j].0;
          assert here == {s.properties[k].0} + later;
      }
    }
  }

  /** Items `true` give an empty array, items `false` an error, and an
      items schema an array of exactly one synthesized element. */
  lemma ArrayShape(s: Schema)
    ensures s.items == Some(ItemsBool(true)) ==> ArrayPayload(s) == Ok(Arr([]))
    ensures s.items == Some(ItemsBool(false)) ==> ArrayPayload(s).Err?
    ensures s.items.Some? && s.items.value.ItemsSchema? ==>
              (ArrayPayload(s).Ok? <==> Synthesize(s.items.value.proxy).Ok?) &&
              (ArrayPayload(s).Ok? ==> ArrayPayload(s).value == Arr([Synthesize(s.items.value.proxy).value]))
  {
  }

  /** The union of objects, later ones overwriting earlier keys. */
  function UnionAll(ms: seq<map<string, Value>>): map<string, Value> {
    if |ms| == 0 then map[] else UnionAll(ms[..|ms| - 1]) + ms[|ms| - 1]
  }

  /** A key of the union holds the value of the last object that has it. */
  lemma {:induction false} UnionAllLastWins(ms: seq<map<string, Value>>, k: nat, key: string)
    requires k < |ms| && key in ms[k]
    requires forall j :: k < j < |ms| ==> key !in ms[j]
    ensures key in UnionAll(ms) && UnionAll(ms)[key] == ms[k][key]
  {
    if k < |ms| - 1 {
      UnionAllLastWins(ms[..|ms| - 1], k, key);
    }
  }

  /** The keys of the union are the keys of the parts. */
  lemma {:induction false} UnionAllKeys(ms: seq<map<string, Value>>, key: string)
    ensures key in UnionAll(ms) <==> exists j :: 0 <= j < |ms| && key in ms[j]
  {
    if |ms| > 0 {
      UnionAllKeys(ms[..|ms| - 1], key);
      if key in UnionAll(ms[..|ms| - 1]) {
        var j :| 0 <= j < |ms| - 1 && key in ms[..|ms| - 1][j];
        assert key in ms[j];
      }
    }
  }

  /** The allOf merge succeeds exactly when every member gives an object,
      and then it is the union of those objects in member order. */
  lemma AllOfMerge(s: Schema, ms: seq<map<string, Value>>)
    requires |ms| == |s.allOf|
    requires forall k :: 0 <= k < |s.allOf| ==> Synthesize(s.allOf[k]) == Ok(Obj(ms[k]))
    ensures MergeAllOf(s, 0, map[]) == Ok(UnionAll(ms))
  {
    MergeAllOfFrom(s, ms, 0, map[]);
    assert ms[..0] == [];
  }

  /** Without a default, an example, examples, `oneOf` or `anyOf`, an
      `allOf` whose members all give objects decides the payload: a
      non-empty union is the payload, and an empty one falls through to
      the dispatch on the type. */
  lemma AllOfPayload(s: Schema, ms: seq<map<string, Value>>)
    requires s.defaultValue.None? && s.example.None? && |s.examples| == 0 && |s.oneOf| == 0 && |s.anyOf| == 0
    requires |ms| == |s.allOf|
    requires forall k :: 0 <= k < |s.allOf| ==> Synthesize(s.allOf[k]) == Ok(Obj(ms[k]))
    ensures |UnionAll(ms)| > 0 ==> SynthesizeSchema(s) == Ok(Obj(UnionAll(ms)))
    ensures |UnionAll(ms)| == 0 ==> SynthesizeSchema(s) == ByType(s)
  {
    AllOfMerge(s, ms);
  }

  lemma {:induction false} MergeAllOfFrom(s: Schema, ms: seq<map<string, Value>>, k: nat, acc: map<string, Value>)
    requires |ms| == |s.allOf| && k <= |s.allOf|
    requires forall j :: 0 <= j < |s.allOf| ==> Synthesize(s.allOf[j]) == Ok(Obj(ms[j]))
    requires acc == UnionAll(ms[..k])
    ensures MergeAllOf(s, k, acc) == Ok(UnionAll(ms))
    decreases |s.allOf| - k
  {
    if k == |s.allOf| {
      assert ms[..k] == ms;
    } else {
      assert ms[..k + 1][..k] == ms[..k];
      MergeAllOfFrom(s, ms, k + 1, acc + ms[k]);
    }
  }

  /** A member that gives something other than an object fails the merge
      when every member before it gave an object. */
  lemma {:induction false} AllOfNonObjectFails(s: Schema, k: nat, acc: map<string, Value>, bad: nat)
    requires k <= bad < |s.allOf|
    requires forall j :: k <= j < bad ==> Synthesize(s.allOf[j]).Ok? && Synthesize(s.allOf[j]).value.Obj?
    requires Synthesize(s.allOf[bad]).Ok? && !Synthesize(s.allOf[bad]).value.Obj?
    ensures MergeAllOf(s, k, acc) == Err(NotAnObject)
    decreases bad - k
  {
    if k < bad {
      AllOfNonObjectFails(s, k + 1, acc + Synthesize(s.allOf[k]).value.fields, bad);
    }
  }

  /** The retryable failure never leaves `createFakePayload`: retries end
      in a value, in `Null` once the attempts run out, or in another error. */
  lemma {:induction false} RetryableNeverEscapes(p: Proxy, i: nat)
    ensures Retry(p, i) != Err(TryRebuild)
    decreases MaxAttempts - i
  {
    if i < MaxAttempts {
      match BuildAt(p, i) {
        case BuildError(_) =>
        case Built(s) =>
          if SynthesizeSchema(s) == Err(TryRebuild) {
            RetryableNeverEscapes(p, i + 1);
          }
      }
    }
  }

  /** Five retryable failures in a row end in `Null` and no error. */
  lemma {:induction false} ExhaustedRetriesYieldNull(p: Proxy, i: nat)
    requires forall j :: i <= j < MaxAttempts ==>
               BuildAt(p, j).Built? && SynthesizeSchema(BuildAt(p, j).schema) == Err(TryRebuild)
    ensures Retry(p, i) == Ok(Null)
    decreases MaxAttempts - i
  {
    if i < MaxAttempts {
      ExhaustedRetriesYieldNull(p, i + 1);
    }
  }

  /** A schema that is always rebuilt the same way and always asks for a
      rebuild synthesizes to `Null` without an error. */
  lemma FixedRetryableYieldsNull(s: Schema)
    requires SynthesizeSchema(s) == Err(TryRebuild)
    ensures Synthesize(Fixed(s)) == Ok(Null)
  {
    ExhaustedRetriesYieldNull(Fixed(s), 0);
  }

  /** Only the first `MaxAttempts` builds of a proxy matter. */
  lemma {:induction false} OnlyFirstAttemptsMatter(p: Proxy, q: Proxy, i: nat)
    requires forall j :: i <= j < MaxAttempts ==> BuildAt(p, j) == BuildAt(q, j)
    ensures Retry(p, i) == Retry(q, i)
    decreases MaxAttempts - i
  {
    if i < MaxAttempts {
      OnlyFirstAttemptsMatter(p, q, i + 1);
    }
  }

  /** A build error or a non-retryable failure at the first attempt is
      returned as it is. */
  lemma FirstAttemptFailure(p: Proxy)
    ensures p.first.BuildError? ==> Synthesize(p) == Err(SchemaBuildFailed(p.first.reason))
    ensures p.first.Built? && SynthesizeSchema(p.first.schema).Err? && SynthesizeSchema(p.first.schema) != Err(TryRebuild) ==>
              Synthesize(p) == SynthesizeSchema(p.first.schema)
  {
  }

  /** A string schema with nothing else synthesizes to "test". */
  lemma PlainStringIsTest(s: Schema)
    requires Plain(s) && |s.types| > 0 && s.types[0] == "string"
    ensures Synthesize(Fixed(s)) == Ok(Str("test"))
  {
    assert MergeAllOf(s, 0, map[]) == Ok(map[]);
    assert SynthesizeSchema(s) == Ok(Str("test"));
    assert BuildAt(Fixed(s), 0) == Built(s);
  }
}
