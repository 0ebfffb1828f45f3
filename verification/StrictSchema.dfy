/** The rewrite of a JSON schema into one that strict structured output accepts. */
module StrictSchema {
  import opened Common

  /** JSON, with object fields in order. */
  datatype Json =
    | Null
    | Bool(b: bool)
    | Number(n: real)
    | Str(s: string)
    | Arr(items: seq<Json>)
    | Obj(fields: seq<Field>)

  datatype Field = Field(key: string, value: Json)

  const UNSUPPORTED := {
    "default", "examples", "format", "maxItems", "maxLength", "maxProperties", "maximum", "minItems",
    "minLength", "minProperties", "minimum", "multipleOf", "pattern", "patternProperties", "propertyNames",
    "uniqueItems", "unevaluatedItems", "unevaluatedProperties"}

  /** The keywords the rewrite itself reads and writes are not among those it drops. */
  ghost predicate KeepsKeywords(drop: set<string>) {
    "properties" !in drop && "required" !in drop && "additionalProperties" !in drop && "type" !in drop
  }

  // ---------------------------------------------------------------- ordered dictionaries

  function Get(fields: seq<Field>, key: string): Option<Json> {
    if fields == [] then None
    else if fields[0].key == key then Some(fields[0].value)
    else Get(fields[1..], key)
  }

  /** Assignment to a key: in place if it is there, at the end if it is not. */
  function Put(fields: seq<Field>, key: string, value: Json): seq<Field> {
    if fields == [] then [Field(key, value)]
    else if fields[0].key == key then [Field(key, value)] + fields[1..]
    else [fields[0]] + Put(fields[1..], key, value)
  }

  function Names(fields: seq<Field>): seq<Json> {
    seq(|fields|, i requires 0 <= i < |fields| => Str(fields[i].key))
  }

  ghost predicate UniqueKeys(fields: seq<Field>) {
    forall i, j :: 0 <= i < j < |fields| ==> fields[i].key != fields[j].key
  }

  // ---------------------------------------------------------------- the rewrite

  function Supported(drop: set<string>, fields: seq<Field>): seq<Field> {
    if fields == [] then []
    else if fields[0].key in drop then Supported(drop, fields[1..])
    else [fields[0]] + Supported(drop, fields[1..])
  }

  predicate IsOpenMap(node: Json) {
    && node.Obj?
    && Get(node.fields, "type") == Some(Str("object"))
    && Get(node.fields, "properties").None?
    && Get(node.fields, "additionalProperties") != Some(Bool(false))
  }

  /** The properties whose original is not an open map. */
  function Closed(properties: seq<Field>, original: seq<Field>): seq<Field> {
    if properties == [] then []
    else
      var was := Get(original, properties[0].key);
      if was.Some? && IsOpenMap(was.value) then Closed(properties[1..], original)
      else [properties[0]] + Closed(properties[1..], original)
  }

  /** The fields of the original `properties` object, which is what the open-map test looks at. */
  function OriginalProperties(fields: seq<Field>): seq<Field> {
    match Get(fields, "properties")
    case Some(Obj(ps)) => ps
    case _ => []
  }

  /** Setting the three keywords of an object with properties. */
  function Sealed(result: seq<Field>, properties: seq<Field>): seq<Field> {
    Put(Put(Put(result, "properties", Obj(properties)), "required", Arr(Names(properties))), "additionalProperties",
        Bool(false))
  }

  function Finish(fields: seq<Field>, result: seq<Field>): seq<Field> {
    match Get(result, "properties")
    case Some(Obj(ps)) =>
      Sealed(result, Closed(ps, OriginalProperties(fields)))
    case _ =>
      if Get(result, "type") == Some(Str("object")) then Put(result, "additionalProperties", Bool(false)) else result
  }

  function Rewrite(drop: set<string>, node: Json): Json
    decreases node
  {
    match node
    case Arr(items) => Arr(seq(|items|, i requires 0 <= i < |items| => Rewrite(drop, items[i])))
    case Obj(fields) => Obj(Finish(fields, Supported(drop, Rewritten(drop, node))))
    case _ => node
  }

  /** The fields of an object with every value rewritten. */
  function Rewritten(drop: set<string>, node: Json): seq<Field>
    requires node.Obj?
    decreases node, 0
  {
    seq(|node.fields|,
        i requires 0 <= i < |node.fields| => Field(node.fields[i].key, Rewrite(drop, node.fields[i].value)))
  }

  // ---------------------------------------------------------------- facts about ordered dictionaries

  lemma GetCons(f: Field, rest: seq<Field>, key: string)
    ensures Get([f] + rest, key) == if f.key == key then Some(f.value) else Get(rest, key)
  {
    assert ([f] + rest)[1..] == rest;
  }

  /** What is found is there, and what is not found is not. */
  lemma {:induction false} GetFinds(fields: seq<Field>, key: string)
    ensures Get(fields, key).Some? ==> Field(key, Get(fields, key).value) in fields
    ensures Get(fields, key).None? <==> forall f :: f in fields ==> f.key != key
  {
    if fields != [] {
      assert fields == [fields[0]] + fields[1..];
      GetFinds(fields[1..], key);
    }
  }

  lemma {:induction false} GetPut(fields: seq<Field>, k: string, v: Json, key: string)
    ensures Get(Put(fields, k, v), key) == if key == k then Some(v) else Get(fields, key)
  {
    if fields == [] || fields[0].key == k {
      GetCons(Field(k, v), if fields == [] then [] else fields[1..], key);
    } else {
      GetCons(fields[0], Put(fields[1..], k, v), key);
      GetPut(fields[1..], k, v, key);
    }
  }

  lemma {:induction false} PutKeeps(fields: seq<Field>, k: string, v: Json)
    requires UniqueKeys(fields)
    ensures UniqueKeys(Put(fields, k, v))
    ensures forall f :: f in Put(fields, k, v) ==> f in fields || f == Field(k, v)
  {
    if fields != [] && fields[0].key != k {
      var rest := Put(fields[1..], k, v);
      PutKeeps(fields[1..], k, v);
      forall i | 0 <= i < |rest| ensures rest[i].key != fields[0].key {
        assert rest[i] in rest;
      }
    }
  }

  lemma {:induction false} PutSame(fields: seq<Field>, k: string, v: Json)
    requires Get(fields, k) == Some(v)
    ensures Put(fields, k, v) == fields
  {
    if fields[0].key != k {
      PutSame(fields[1..], k, v);
    }
  }

  lemma {:induction false} GetSupported(drop: set<string>, fields: seq<Field>, key: string)
    ensures Get(Supported(drop, fields), key) == if key in drop then None else Get(fields, key)
  {
    if fields != [] {
      GetSupported(drop, fields[1..], key);
      GetCons(fields[0], Supported(drop, fields[1..]), key);
    }
  }

  lemma {:induction false} SupportedAre(drop: set<string>, fields: seq<Field>)
    ensures forall f :: f in Supported(drop, fields) <==> f in fields && f.key !in drop
  {
    if fields != [] {
      assert fields == [fields[0]] + fields[1..];
      SupportedAre(drop, fields[1..]);
    }
  }

  lemma {:induction false} SupportedUnique(drop: set<string>, fields: seq<Field>)
    requires UniqueKeys(fields)
    ensures UniqueKeys(Supported(drop, fields))
  {
    if fields != [] {
      SupportedUnique(drop, fields[1..]);
      var rest := Supported(drop, fields[1..]);
      SupportedAre(drop, fields[1..]);
      forall i | 0 <= i < |rest| ensures rest[i].key != fields[0].key {
        assert rest[i] in rest;
      }
    }
  }

  lemma {:induction false} AllSupported(drop: set<string>, fields: seq<Field>)
    requires forall f :: f in fields ==> f.key !in drop
    ensures Supported(drop, fields) == fields
  {
    if fields != [] {
      assert fields[0] in fields;
      AllSupported(drop, fields[1..]);
    }
  }

  lemma {:induction false} ClosedKeeps(properties: seq<Field>, original: seq<Field>)
    ensures forall f :: f in Closed(properties, original) <==>
              f in properties && !(Get(original, f.key).Some? && IsOpenMap(Get(original, f.key).value))
    ensures UniqueKeys(properties) ==> UniqueKeys(Closed(properties, original))
  {
    if properties != [] {
      ClosedKeeps(properties[1..], original);
    }
  }

  lemma {:induction false} NothingToClose(properties: seq<Field>, original: seq<Field>)
    requires forall f :: f in original ==> !IsOpenMap(f.value)
    ensures Closed(properties, original) == properties
  {
    if properties != [] {
      GetFinds(original, properties[0].key);
      NothingToClose(properties[1..], original);
    }
  }

  lemma {:induction false} GetRewritten(drop: set<string>, fields: seq<Field>, key: string)
    ensures Get(Rewritten(drop, Obj(fields)), key)
         == match Get(fields, key) case None => None case Some(v) => Some(Rewrite(drop, v))
  {
    if fields != [] {
      assert Rewritten(drop, Obj(fields))[1..] == Rewritten(drop, Obj(fields[1..]));
      GetRewritten(drop, fields[1..], key);
    }
  }

  // ---------------------------------------------------------------- strict schemas

  /** A list of exactly the keys of some properties, in their order. */
  ghost predicate RequiresAll(required: Option<Json>, ps: seq<Field>) {
    && required.Some? && required.value.Arr? && |required.value.items| == |ps|
    && forall i :: 0 <= i < |ps| ==> required.value.items[i] == Str(ps[i].key)
  }

  /** The strict-mode rules for one object: all properties required, closed. */
  ghost predicate StrictHere(fields: seq<Field>) {
    match Get(fields, "properties")
    case Some(Obj(ps)) =>
      && RequiresAll(Get(fields, "required"), ps)
      && Get(fields, "additionalProperties") == Some(Bool(false))
    case _ =>
      Get(fields, "type") == Some(Str("object")) ==> Get(fields, "additionalProperties") == Some(Bool(false))
  }

  /** The rules at every depth, and no unsupported keyword anywhere. */
  ghost predicate Strict(drop: set<string>, node: Json)
    decreases node
  {
    match node
    case Arr(items) => forall i :: 0 <= i < |items| ==> Strict(drop, items[i])
    case Obj(fields) =>
      && StrictHere(fields)
      && forall i :: 0 <= i < |fields| ==> fields[i].key !in drop && Strict(drop, fields[i].value)
    case _ => true
  }

  ghost predicate PlainProperties(ps: seq<Field>) {
    forall p :: p in ps ==> p.value.Obj? && p.key != "properties"
  }

  /** Every `properties` maps names other than `properties` to objects, at every depth. */
  ghost predicate Plain(node: Json)
    decreases node
  {
    match node
    case Arr(items) => forall i :: 0 <= i < |items| ==> Plain(items[i])
    case Obj(fields) =>
      && UniqueKeys(fields)
      && (match Get(fields, "properties") case Some(Obj(ps)) => PlainProperties(ps) case _ => true)
      && forall i :: 0 <= i < |fields| ==> Plain(fields[i].value)
    case _ => true
  }

  /** The map of properties is itself rewritten as if it were a schema, which then only rewrites its values. */
  lemma PropertiesRewrite(drop: set<string>, ps: seq<Field>)
    requires KeepsKeywords(drop)
    requires PlainProperties(ps)
    ensures Rewrite(drop, Obj(ps)) == Obj(Supported(drop, Rewritten(drop, Obj(ps))))
    ensures PlainProperties(Supported(drop, Rewritten(drop, Obj(ps))))
  {
    var result := Supported(drop, Rewritten(drop, Obj(ps)));
    GetFinds(ps, "properties");
    GetFinds(ps, "type");
    GetKept(drop, ps, "properties");
    GetKept(drop, ps, "type");
    SupportedAre(drop, Rewritten(drop, Obj(ps)));
    forall p | p in result ensures p.value.Obj? && p.key != "properties" {
      var i :| 0 <= i < |ps| && p == Rewritten(drop, Obj(ps))[i];
      assert ps[i] in ps;
    }
  }

  lemma StrictFields(drop: set<string>, fields: seq<Field>)
    requires StrictHere(fields) && forall f :: f in fields ==> f.key !in drop && Strict(drop, f.value)
    ensures Strict(drop, Obj(fields))
  {
  }

  lemma PlainFields(fields: seq<Field>)
    requires UniqueKeys(fields) && forall f :: f in fields ==> Plain(f.value)
    requires match Get(fields, "properties") case Some(Obj(ps)) => PlainProperties(ps) case _ => true
    ensures Plain(Obj(fields))
  {
  }

  /** Fields that meet every rule except possibly those for this object. */
  ghost predicate Ready(drop: set<string>, fields: seq<Field>) {
    && UniqueKeys(fields)
    && forall f :: f in fields ==> f.key !in drop && Strict(drop, f.value) && Plain(f.value)
  }

  lemma PutReady(drop: set<string>, fields: seq<Field>, k: string, v: Json)
    requires Ready(drop, fields) && k !in drop && Strict(drop, v) && Plain(v)
    ensures Ready(drop, Put(fields, k, v))
  {
    PutKeeps(fields, k, v);
  }

  /** A map of rewritten properties, closed, is strict and plain in its own right. */
  lemma ClosedIsReady(drop: set<string>, ps: seq<Field>, original: seq<Field>)
    requires Strict(drop, Obj(ps)) && Plain(Obj(ps)) && PlainProperties(ps)
    ensures var cs := Closed(ps, original); Strict(drop, Obj(cs)) && Plain(Obj(cs)) && PlainProperties(cs)
  {
    var cs := Closed(ps, original);
    ClosedKeeps(ps, original);
    assert forall f :: f in ps ==> f.key !in drop && Strict(drop, f.value) && Plain(f.value);
    GetFinds(cs, "properties");
    GetFinds(cs, "type");
    StrictFields(drop, cs);
    PlainFields(cs);
  }

  lemma NamesAreStrict(drop: set<string>, fields: seq<Field>)
    ensures Strict(drop, Arr(Names(fields))) && Plain(Arr(Names(fields)))
  {
  }

  lemma GetSealed(result: seq<Field>, cs: seq<Field>)
    ensures Get(Sealed(result, cs), "properties") == Some(Obj(cs))
    ensures Get(Sealed(result, cs), "required") == Some(Arr(Names(cs)))
    ensures Get(Sealed(result, cs), "additionalProperties") == Some(Bool(false))
  {
    var r1 := Put(result, "properties", Obj(cs));
    var r2 := Put(r1, "required", Arr(Names(cs)));
    GetPut(result, "properties", Obj(cs), "properties");
    GetPut(r1, "required", Arr(Names(cs)), "properties");
    GetPut(r1, "required", Arr(Names(cs)), "required");
    GetPut(r2, "additionalProperties", Bool(false), "properties");
    GetPut(r2, "additionalProperties", Bool(false), "required");
    GetPut(r2, "additionalProperties", Bool(false), "additionalProperties");
  }

  lemma SealedIsStrict(drop: set<string>, result: seq<Field>, cs: seq<Field>)
    requires KeepsKeywords(drop) && Ready(drop, result)
    requires Strict(drop, Obj(cs)) && Plain(Obj(cs)) && PlainProperties(cs)
    ensures Strict(drop, Obj(Sealed(result, cs))) && Plain(Obj(Sealed(result, cs)))
  {
    var r1 := Put(result, "properties", Obj(cs));
    NamesAreStrict(drop, cs);
    PutReady(drop, result, "properties", Obj(cs));
    PutReady(drop, r1, "required", Arr(Names(cs)));
    PutReady(drop, Put(r1, "required", Arr(Names(cs))), "additionalProperties", Bool(false));
    GetSealed(result, cs);
    StrictFields(drop, Sealed(result, cs));
    PlainFields(Sealed(result, cs));
  }

  /** An object without properties only needs closing. */
  lemma ClosingIsStrict(drop: set<string>, result: seq<Field>)
    requires KeepsKeywords(drop) && Ready(drop, result)
    requires !(Get(result, "properties").Some? && Get(result, "properties").value.Obj?)
    ensures var closed := Put(result, "additionalProperties", Bool(false));
            Strict(drop, Obj(closed)) && Plain(Obj(closed))
  {
    var closed := Put(result, "additionalProperties", Bool(false));
    PutReady(drop, result, "additionalProperties", Bool(false));
    GetPut(result, "additionalProperties", Bool(false), "properties");
    GetPut(result, "additionalProperties", Bool(false), "additionalProperties");
    StrictFields(drop, closed);
    PlainFields(closed);
  }

  /** The last step of the rewrite establishes the rules for this object. */
  lemma FinishIsStrict(drop: set<string>, fields: seq<Field>, result: seq<Field>)
    requires KeepsKeywords(drop) && Ready(drop, result)
    requires Get(result, "properties").Some? && Get(result, "properties").value.Obj? ==>
               PlainProperties(Get(result, "properties").value.fields)
    ensures Strict(drop, Obj(Finish(fields, result))) && Plain(Obj(Finish(fields, result)))
  {
    GetFinds(result, "properties");
    match Get(result, "properties")
    case Some(Obj(ps)) =>
      ClosedIsReady(drop, ps, OriginalProperties(fields));
      SealedIsStrict(drop, result, Closed(ps, OriginalProperties(fields)));
    case _ =>
      ClosingIsStrict(drop, result);
      if Get(result, "type") != Some(Str("object")) {
        StrictFields(drop, result);
        PlainFields(result);
      }
  }

  /** The rewrite of a plain schema meets the strict-mode rules at every depth, and stays plain. */
  lemma {:induction false} RewriteIsStrict(drop: set<string>, node: Json)
    requires KeepsKeywords(drop)
    requires Plain(node)
    ensures Strict(drop, Rewrite(drop, node)) && Plain(Rewrite(drop, node))
    decreases node
  {
    match node
    case Arr(items) =>
      forall i | 0 <= i < |items| ensures Strict(drop, Rewrite(drop, items[i])) && Plain(Rewrite(drop, items[i])) {
        RewriteIsStrict(drop, items[i]);
      }
    case Obj(fields) =>
      forall i | 0 <= i < |fields|
        ensures Strict(drop, Rewrite(drop, fields[i].value)) && Plain(Rewrite(drop, fields[i].value)) {
        RewriteIsStrict(drop, fields[i].value);
      }
      var result := Supported(drop, Rewritten(drop, node));
      SupportedAre(drop, Rewritten(drop, node));
      SupportedUnique(drop, Rewritten(drop, node));
      GetSupported(drop, Rewritten(drop, node), "properties");
      GetRewritten(drop, fields, "properties");
      match Get(fields, "properties") {
        case Some(Obj(ps)) => PropertiesRewrite(drop, ps);
        case _ =>
      }
      FinishIsStrict(drop, fields, result);
    case _ =>
  }

  /** A strict plain schema is left alone. */
  lemma {:induction false} StrictIsFixed(drop: set<string>, node: Json)
    requires KeepsKeywords(drop)
    requires Strict(drop, node) && Plain(node)
    ensures Rewrite(drop, node) == node
    decreases node
  {
    match node
    case Arr(items) =>
      forall i | 0 <= i < |items| ensures Rewrite(drop, items[i]) == items[i] {
        StrictIsFixed(drop, items[i]);
      }
    case Obj(fields) =>
      forall i | 0 <= i < |fields| ensures Rewrite(drop, fields[i].value) == fields[i].value {
        StrictIsFixed(drop, fields[i].value);
      }
      assert Rewritten(drop, node) == fields;
      AllSupported(drop, fields);
      FinishIsDone(drop, fields);
    case _ =>
  }

  lemma RequiringAllIsNames(required: Option<Json>, ps: seq<Field>)
    requires RequiresAll(required, ps)
    ensures required == Some(Arr(Names(ps)))
  {
    assert required.value.items == Names(ps);
  }

  /** No rule leaves an open map, so on strict fields the last step has nothing to do. */
  lemma FinishIsDone(drop: set<string>, fields: seq<Field>)
    requires KeepsKeywords(drop)
    requires Strict(drop, Obj(fields)) && Plain(Obj(fields))
    ensures Finish(fields, fields) == fields
  {
    match Get(fields, "properties")
    case Some(Obj(ps)) =>
      GetFinds(fields, "properties");
      var i :| 0 <= i < |fields| && fields[i] == Field("properties", Obj(ps));
      assert Strict(drop, fields[i].value);
      forall f | f in ps ensures !IsOpenMap(f.value) {
        var j :| 0 <= j < |ps| && ps[j] == f;
        assert Strict(drop, ps[j].value);
      }
      NothingToClose(ps, ps);
      PutSame(fields, "properties", Obj(ps));
      RequiringAllIsNames(Get(fields, "required"), ps);
      PutSame(fields, "required", Arr(Names(ps)));
      PutSame(fields, "additionalProperties", Bool(false));
    case _ =>
      if Get(fields, "type") == Some(Str("object")) {
        PutSame(fields, "additionalProperties", Bool(false));
      }
  }

  /** Rewriting twice is rewriting once. */
  lemma RewriteIsIdempotent(drop: set<string>, node: Json)
    requires KeepsKeywords(drop)
    requires Plain(node)
    ensures Rewrite(drop, Rewrite(drop, node)) == Rewrite(drop, node)
  {
    RewriteIsStrict(drop, node);
    StrictIsFixed(drop, Rewrite(drop, node));
  }

  // ---------------------------------------------------------------- what the rewrite keeps

  lemma GetKept(drop: set<string>, fields: seq<Field>, key: string)
    ensures Get(Supported(drop, Rewritten(drop, Obj(fields))), key)
         == match Get(fields, key) case None => None case Some(v) => if key in drop then None
             else Some(Rewrite(drop, v))
  {
    GetSupported(drop, Rewritten(drop, Obj(fields)), key);
    GetRewritten(drop, fields, key);
  }

  /** Every keyword it does not drop or set itself is kept, with its value rewritten. */
  lemma RewriteKeeps(drop: set<string>, fields: seq<Field>, key: string)
    requires key !in {"properties", "required", "additionalProperties"}
    ensures Get(Rewrite(drop, Obj(fields)).fields, key)
         == match Get(fields, key) case None => None case Some(v) => if key in drop then None
             else Some(Rewrite(drop, v))
  {
    var result := Supported(drop, Rewritten(drop, Obj(fields)));
    GetKept(drop, fields, key);
    GetPut(result, "additionalProperties", Bool(false), key);
    match Get(result, "properties")
    case Some(Obj(ps)) =>
      var cs := Closed(ps, OriginalProperties(fields));
      var r1 := Put(result, "properties", Obj(cs));
      GetPut(result, "properties", Obj(cs), key);
      GetPut(r1, "required", Arr(Names(cs)), key);
      GetPut(Put(r1, "required", Arr(Names(cs))), "additionalProperties", Bool(false), key);
    case _ =>
  }

  lemma {:induction false} GetClosed(properties: seq<Field>, original: seq<Field>, name: string)
    ensures Get(Closed(properties, original), name)
         == if Get(original, name).Some? && IsOpenMap(Get(original, name).value) then None else Get(properties, name)
  {
    if properties != [] {
      GetClosed(properties[1..], original, name);
      GetCons(properties[0], Closed(properties[1..], original), name);
    }
  }

  /**
   What a property becomes, if it stays: one is lost if its name is dropped, or if it is an object that
   declares no properties and does not forbid others.
   */
  function Property(drop: set<string>, ps: seq<Field>, name: string): Option<Json> {
    match Get(ps, name)
    case None => None
    case Some(v) =>
      if name in drop then None
      else if v.Obj? && Get(v.fields, "type") == Some(Str("object")) && Get(v.fields, "properties") == None
              && Get(v.fields, "additionalProperties") != Some(Bool(false)) then None
      else Some(Rewrite(drop, v))
  }

  lemma RewrittenProperties(drop: set<string>, fields: seq<Field>, ps: seq<Field>)
    requires KeepsKeywords(drop) && PlainProperties(ps) && Get(fields, "properties") == Some(Obj(ps))
    ensures Get(Rewrite(drop, Obj(fields)).fields, "properties")
         == Some(Obj(Closed(Supported(drop, Rewritten(drop, Obj(ps))), ps)))
  {
    var result := Supported(drop, Rewritten(drop, Obj(fields)));
    GetKept(drop, fields, "properties");
    PropertiesRewrite(drop, ps);
    GetSealed(result, Closed(Supported(drop, Rewritten(drop, Obj(ps))), ps));
  }

  /** The properties of a rewritten object: those not open maps, under the names not dropped, rewritten. */
  lemma PropertiesKept(drop: set<string>, fields: seq<Field>, ps: seq<Field>, name: string)
    requires KeepsKeywords(drop) && PlainProperties(ps) && Get(fields, "properties") == Some(Obj(ps))
    ensures var kept := Get(Rewrite(drop, Obj(fields)).fields, "properties");
            kept.Some? && kept.value.Obj? && Get(kept.value.fields, name) == Property(drop, ps, name)
  {
    RewrittenProperties(drop, fields, ps);
    GetClosed(Supported(drop, Rewritten(drop, Obj(ps))), ps, name);
    GetKept(drop, ps, name);
  }

  /** What the rewritten object requires are exactly the properties that stay. */
  lemma RequiredAreKept(drop: set<string>, fields: seq<Field>, ps: seq<Field>, name: string)
    requires KeepsKeywords(drop) && PlainProperties(ps) && Get(fields, "properties") == Some(Obj(ps))
    ensures var result := Rewrite(drop, Obj(fields)).fields;
            && Get(result, "properties").Some? && Get(result, "properties").value.Obj?
            && RequiresAll(Get(result, "required"), Get(result, "properties").value.fields)
            && (Str(name) in Get(result, "required").value.items <==> Property(drop, ps, name).Some?)
  {
    var result := Rewrite(drop, Obj(fields)).fields;
    RewrittenProperties(drop, fields, ps);
    RequiredNames(drop, fields, ps);
    PropertiesKept(drop, fields, ps, name);
    var kept := Get(result, "properties").value.fields;
    GetFinds(kept, name);
    if Str(name) in Get(result, "required").value.items {
      var i :| 0 <= i < |kept| && Get(result, "required").value.items[i] == Str(name);
      assert kept[i] in kept;
    }
    if f :| f in kept && f.key == name {
      var i :| 0 <= i < |kept| && kept[i] == f;
      assert Get(result, "required").value.items[i] == Str(name);
    }
  }

  lemma RequiredNames(drop: set<string>, fields: seq<Field>, ps: seq<Field>)
    requires KeepsKeywords(drop) && PlainProperties(ps) && Get(fields, "properties") == Some(Obj(ps))
    ensures var kept := Closed(Supported(drop, Rewritten(drop, Obj(ps))), ps);
            RequiresAll(Get(Rewrite(drop, Obj(fields)).fields, "required"), kept)
  {
    GetKept(drop, fields, "properties");
    PropertiesRewrite(drop, ps);
    GetSealed(Supported(drop, Rewritten(drop, Obj(fields))), Closed(Supported(drop, Rewritten(drop, Obj(ps))), ps));
  }

  // ---------------------------------------------------------------- when it raises

  /** The rewrite looks every rewritten property up in the original, and fails on one that is not there. */
  ghost predicate LookupFails(properties: seq<Field>, original: seq<Field>) {
    exists name :: Get(properties, name).Some? && Get(original, name).None?
  }

  ghost predicate Raises(drop: set<string>, node: Json)
    decreases node
  {
    match node
    case Arr(items) => exists i :: 0 <= i < |items| && Raises(drop, items[i])
    case Obj(fields) =>
      || (exists i :: 0 <= i < |fields| && fields[i].key !in drop && Raises(drop, fields[i].value))
      || (match Get(Supported(drop, Rewritten(drop, node)), "properties")
          case Some(Obj(ps)) => LookupFails(ps, OriginalProperties(fields))
          case _ => false)
    case _ => false
  }

  /** A map of properties that itself looks like an object schema whose keywords are not all there yet. */
  ghost predicate Collides(ps: seq<Field>) {
    if Get(ps, "properties").Some? && Get(ps, "properties").value.Obj? then
      Get(ps, "required").None? || Get(ps, "additionalProperties").None?
    else
      Get(ps, "type") == Some(Str("object")) && Get(ps, "additionalProperties").None?
  }

  ghost predicate CollidesSomewhere(drop: set<string>, node: Json)
    decreases node
  {
    match node
    case Arr(items) => exists i :: 0 <= i < |items| && CollidesSomewhere(drop, items[i])
    case Obj(fields) =>
      || (exists i :: 0 <= i < |fields| && fields[i].key !in drop && CollidesSomewhere(drop, fields[i].value))
      || (match Get(fields, "properties") case Some(Obj(ps)) => Collides(ps) case _ => false)
    case _ => false
  }

  predicate IsKeyword(name: string) {
    name == "properties" || name == "required" || name == "additionalProperties"
  }

  lemma OtherNamesAreFound(drop: set<string>, ps: seq<Field>, name: string)
    requires !IsKeyword(name)
    ensures Get(Rewrite(drop, Obj(ps)).fields, name).Some? ==> Get(ps, name).Some?
  {
    RewriteKeeps(drop, ps, name);
  }

  ghost predicate Gained(result: seq<Field>, ps: seq<Field>, name: string) {
    Get(result, name).Some? && Get(ps, name).None?
  }

  /** The names a rewritten map of properties gains are the keywords the last step sets. */
  lemma NamesGained(drop: set<string>, ps: seq<Field>)
    requires KeepsKeywords(drop)
    ensures var result := Rewrite(drop, Obj(ps)).fields;
            LookupFails(result, ps) <==>
              Gained(result, ps, "properties") || Gained(result, ps, "required")
              || Gained(result, ps, "additionalProperties")
  {
    var result := Rewrite(drop, Obj(ps)).fields;
    if name :| Get(result, name).Some? && Get(ps, name).None? {
      if !IsKeyword(name) { OtherNamesAreFound(drop, ps, name); }
      assert Gained(result, ps, name);
    }
  }

  lemma LookupFailsOnCollision(drop: set<string>, ps: seq<Field>)
    requires KeepsKeywords(drop)
    ensures LookupFails(Rewrite(drop, Obj(ps)).fields, ps) <==> Collides(ps)
  {
    NamesGained(drop, ps);
    GetKept(drop, ps, "properties");
    if Get(ps, "properties").Some? && Get(ps, "properties").value.Obj? {
      GainedBySealing(drop, ps);
    } else {
      GainedByClosing(drop, ps);
    }
  }

  lemma GainedBySealing(drop: set<string>, ps: seq<Field>)
    requires KeepsKeywords(drop) && Get(ps, "properties").Some? && Get(ps, "properties").value.Obj?
    ensures var final := Rewrite(drop, Obj(ps)).fields;
            Get(final, "required").Some? && Get(final, "additionalProperties").Some?
  {
    var result := Supported(drop, Rewritten(drop, Obj(ps)));
    GetKept(drop, ps, "properties");
    GetSealed(result, Closed(Get(result, "properties").value.fields, OriginalProperties(ps)));
  }

  lemma GainedByClosing(drop: set<string>, ps: seq<Field>)
    requires KeepsKeywords(drop) && !(Get(ps, "properties").Some? && Get(ps, "properties").value.Obj?)
    ensures var final := Rewrite(drop, Obj(ps)).fields;
            && Get(final, "properties").Some? == Get(ps, "properties").Some?
            && Get(final, "required").Some? == Get(ps, "required").Some?
            && (Get(final, "additionalProperties").Some? <==>
                Get(ps, "additionalProperties").Some? || Get(ps, "type") == Some(Str("object")))
  {
    var result := Supported(drop, Rewritten(drop, Obj(ps)));
    GetKept(drop, ps, "properties");
    GetKept(drop, ps, "type");
    GetKept(drop, ps, "required");
    GetKept(drop, ps, "additionalProperties");
    GetPut(result, "additionalProperties", Bool(false), "additionalProperties");
    GetPut(result, "additionalProperties", Bool(false), "properties");
    GetPut(result, "additionalProperties", Bool(false), "required");
  }

  /** The rewrite raises exactly on schemas with a colliding map of properties. */
  lemma {:induction false} RaisesExactly(drop: set<string>, node: Json)
    requires KeepsKeywords(drop)
    ensures Raises(drop, node) <==> CollidesSomewhere(drop, node)
    decreases node
  {
    match node
    case Arr(items) =>
      forall i | 0 <= i < |items| ensures Raises(drop, items[i]) <==> CollidesSomewhere(drop, items[i]) {
        RaisesExactly(drop, items[i]);
      }
    case Obj(fields) =>
      forall i | 0 <= i < |fields| ensures Raises(drop, fields[i].value) <==> CollidesSomewhere(drop, fields[i].value) {
        RaisesExactly(drop, fields[i].value);
      }
      GetSupported(drop, Rewritten(drop, node), "properties");
      GetRewritten(drop, fields, "properties");
      match Get(fields, "properties") {
        case Some(Obj(ps)) => LookupFailsOnCollision(drop, ps);
        case _ =>
      }
    case _ =>
  }

  /** Plain schemas never collide. */
  lemma {:induction false} PlainDoesNotCollide(drop: set<string>, node: Json)
    requires Plain(node)
    ensures !CollidesSomewhere(drop, node)
    decreases node
  {
    match node
    case Arr(items) =>
      forall i | 0 <= i < |items| ensures !CollidesSomewhere(drop, items[i]) {
        PlainDoesNotCollide(drop, items[i]);
      }
    case Obj(fields) =>
      forall i | 0 <= i < |fields| ensures !CollidesSomewhere(drop, fields[i].value) {
        PlainDoesNotCollide(drop, fields[i].value);
      }
      match Get(fields, "properties") {
        case Some(Obj(ps)) =>
          GetFinds(ps, "properties");
          GetFinds(ps, "type");
        case _ =>
      }
    case _ =>
  }

  // ---------------------------------------------------------------- the keywords in use

  function ToStrictSchema(schema: Json): Json {
    Rewrite(UNSUPPORTED, schema)
  }

  lemma UnsupportedKeepsKeywords()
    ensures KeepsKeywords(UNSUPPORTED)
  {
  }

  /** On a plain schema: it does not raise, the result is strict at every depth, and rewriting again changes nothing. */
  lemma ToStrictSchemaIsStrict(schema: Json)
    requires Plain(schema)
    ensures !Raises(UNSUPPORTED, schema)
    ensures Strict(UNSUPPORTED, ToStrictSchema(schema))
    ensures ToStrictSchema(ToStrictSchema(schema)) == ToStrictSchema(schema)
  {
    UnsupportedKeepsKeywords();
    PlainDoesNotCollide(UNSUPPORTED, schema);
    RaisesExactly(UNSUPPORTED, schema);
    RewriteIsStrict(UNSUPPORTED, schema);
    RewriteIsIdempotent(UNSUPPORTED, schema);
  }

  /** A property named `properties` makes it raise. */
  lemma PropertyNamedPropertiesRaises()
    ensures var schema := Obj([Field("properties", Obj([Field("properties", Obj([]))]))]);
            Raises(UNSUPPORTED, schema)
  {
    var ps := [Field("properties", Obj([]))];
    var schema := Obj([Field("properties", Obj(ps))]);
    UnsupportedKeepsKeywords();
    GetCons(ps[0], [], "properties");
    GetCons(ps[0], [], "required");
    assert ps == [ps[0]] + [];
    assert Collides(ps);
    GetCons(schema.fields[0], [], "properties");
    assert schema.fields == [schema.fields[0]] + [];
    RaisesExactly(UNSUPPORTED, schema);
  }

  /** A property named like a dropped keyword disappears, although nothing is wrong with it. */
  lemma PropertyNamedFormatDisappears()
    ensures var text := Obj([Field("type", Str("string"))]);
            var ps := [Field("format", text)];
            var fields := [Field("type", Str("object")), Field("properties", Obj(ps))];
            && Plain(Obj(fields)) && Get(ps, "format") == Some(text) && !IsOpenMap(text)
            && var kept := Get(ToStrictSchema(Obj(fields)).fields, "properties");
               kept.Some? && kept.value.Obj? && Get(kept.value.fields, "format") == None
  {
    var text := Obj([Field("type", Str("string"))]);
    var ps := [Field("format", text)];
    var fields := [Field("type", Str("object")), Field("properties", Obj(ps))];
    assert ps == [ps[0]] + [] && fields == [fields[0]] + [fields[1]] && [fields[1]] == [fields[1]] + [];
    assert text.fields == [text.fields[0]] + [];
    GetCons(ps[0], [], "format");
    GetCons(ps[0], [], "properties");
    GetCons(fields[0], [fields[1]], "properties");
    GetCons(fields[1], [], "properties");
    GetCons(text.fields[0], [], "properties");
    GetCons(text.fields[0], [], "type");
    UnsupportedKeepsKeywords();
    PropertiesKept(UNSUPPORTED, fields, ps, "format");
  }
}
