/**
 The canonical invocation identity: method and params as one JSON object in canonical
 text, the params without their own `_meta` entry, refused when an integer in it is
 outside the JSON safe range.  The digest step is left out, so an identity carries the
 text itself.
 */
module Canonical {
  import opened Lru
  import opened Jcs
  import AuthorizationStore

  const MAX_SAFE_INTEGER: int := 9_007_199_254_740_991

  datatype Result<T> = Ok(value: T) | Canonicalize(name: string)

  /** Only an object carries the reserved `_meta`, and only its own top-level entry goes. */
  function Semantic(p: Json): (r: Json) {
    if p.Obj? && "_meta" in p.fields then Obj(p.fields - {"_meta"}) else p
  }

  function Stripped(params: Option<Json>): (r: Option<Json>) {
    match params
    case None => None
    case Some(p) => Some(Semantic(p))
  }

  function Payload(name: string, params: Option<Json>): (r: Json) {
    match Stripped(params)
    case None => Obj(map["method" := Str(name)])
    case Some(p) => Obj(map["method" := Str(name), "params" := p])
  }

  predicate UnsafeInteger(n: Integer) {
    if -0x8000_0000_0000_0000 <= n < 0x8000_0000_0000_0000 then !(-MAX_SAFE_INTEGER <= n <= MAX_SAFE_INTEGER)
    else n > MAX_SAFE_INTEGER
  }

  predicate ContainsUnsafeInteger(j: Json) {
    match j
    case Int(n) => UnsafeInteger(n)
    case Arr(items) => exists i :: 0 <= i < |items| && ContainsUnsafeInteger(items[i])
    case Obj(m) => exists k :: k in m && ContainsUnsafeInteger(m[k])
    case _ => false
  }

  ghost function PayloadString(name: string, params: Option<Json>): (r: Result<string>) {
    if ContainsUnsafeInteger(Payload(name, params)) then Canonicalize(name)
    else Ok(Print(Payload(name, params)))
  }

  ghost function ComputeIdentity(pubkey: string, name: string, params: Option<Json>)
    : (r: Result<AuthorizationStore.Identity>)
  {
    match PayloadString(name, params)
    case Ok(text) => Ok(AuthorizationStore.Identity(pubkey, text))
    case Canonicalize(m) => Canonicalize(m)
  }

  /** The authorization key of an invocation, if it has one. */
  ghost function KeyFor(pubkey: string, name: string, params: Option<Json>): (k: Option<Lru.Key>) {
    match ComputeIdentity(pubkey, name, params)
    case Ok(id) => Some(AuthorizationStore.KeyOf(id))
    case Canonicalize(_) => None
  }

  // ---------- When canonicalization fails ----------

  /** One step from a value to a value inside it. */
  datatype Step = Index(i: nat) | Field(k: string)

  /** The value found by following a path, if the path leads anywhere. */
  function At(j: Json, path: seq<Step>): (r: Option<Json>)
    decreases |path|
  {
    if path == [] then Some(j)
    else match path[0]
      case Index(i) => if j.Arr? && i < |j.items| then At(j.items[i], path[1..]) else None
      case Field(k) => if j.Obj? && k in j.fields then At(j.fields[k], path[1..]) else None
  }

  ghost predicate UnsafeAt(j: Json, path: seq<Step>) {
    match At(j, path)
    case Some(Int(n)) => n < -9_007_199_254_740_991 || 9_007_199_254_740_991 < n
    case _ => false
  }

  lemma {:induction false} ScanFinds(j: Json) returns (path: seq<Step>)
    requires ContainsUnsafeInteger(j)
    ensures UnsafeAt(j, path)
    decreases j
  {
    match j {
      case Int(_) => path := [];
      case Arr(items) =>
        var i :| 0 <= i < |items| && ContainsUnsafeInteger(items[i]);
        var rest := ScanFinds(items[i]);
        path := [Index(i)] + rest;
        assert path[1..] == rest;
      case Obj(m) =>
        var k :| k in m && ContainsUnsafeInteger(m[k]);
        var rest := ScanFinds(m[k]);
        path := [Field(k)] + rest;
        assert path[1..] == rest;
    }
  }

  lemma {:induction false} ScanIsComplete(j: Json, path: seq<Step>)
    requires UnsafeAt(j, path)
    ensures ContainsUnsafeInteger(j)
    decreases |path|
  {
    if path == [] {
    } else {
      match path[0]
      case Index(i) => ScanIsComplete(j.items[i], path[1..]);
      case Field(k) => ScanIsComplete(j.fields[k], path[1..]);
    }
  }

  /** The method is a string, so only the params can hold an integer. */
  lemma PayloadScan(name: string, params: Option<Json>)
    ensures ContainsUnsafeInteger(Payload(name, params)) <==>
            Stripped(params).Some? && ContainsUnsafeInteger(Stripped(params).value)
  {
    var m := Payload(name, params).fields;
    assert m["method"] == Str(name) && !ContainsUnsafeInteger(m["method"]);
    if Stripped(params).Some? {
      assert m["params"] == Stripped(params).value;
      assert forall k :: k in m ==> k == "method" || k == "params";
    } else {
      assert forall k :: k in m ==> k == "method";
    }
  }

  /** A path into the params that does not start at their `_meta`. */
  predicate OutsideMeta(path: seq<Step>) {
    path == [] || path[0] != Field("_meta")
  }

  /** Stripping changes nothing that a path outside `_meta` leads to, and leaves nothing else. */
  lemma StrippedAt(p: Json, path: seq<Step>)
    ensures OutsideMeta(path) && path != [] ==> At(Semantic(p), path) == At(p, path)
    ensures !OutsideMeta(path) ==> At(Semantic(p), path).None?
    ensures Semantic(p).Int? || p.Int? ==> Semantic(p) == p
  {
  }

  lemma UnsafeOutsideMeta(p: Json, path: seq<Step>)
    ensures UnsafeAt(Semantic(p), path) <==> OutsideMeta(path) && UnsafeAt(p, path)
  {
    StrippedAt(p, path);
  }

  /**
   Canonicalization fails exactly when the params hold, at any depth but not inside their
   own `_meta`, an integer beyond 2^53 - 1 in magnitude.
   */
  lemma FailsExactlyOnUnsafeIntegers(name: string, params: Option<Json>)
    ensures PayloadString(name, params).Canonicalize? <==>
            params.Some? && exists path :: OutsideMeta(path) && UnsafeAt(params.value, path)
  {
    PayloadScan(name, params);
    if params.Some? {
      var p := params.value;
      if ContainsUnsafeInteger(Semantic(p)) {
        var path := ScanFinds(Semantic(p));
        UnsafeOutsideMeta(p, path);
      } else {
        forall path ensures !(OutsideMeta(path) && UnsafeAt(p, path)) {
          UnsafeOutsideMeta(p, path);
          if UnsafeAt(Semantic(p), path) {
            ScanIsComplete(Semantic(p), path);
            assert false;
          }
        }
      }
    }
  }

  // ---------- When identities agree ----------

  /** Equal, but for the `_meta` entry of two objects. */
  ghost predicate SameButMeta(p: Json, q: Json) {
    if p.Obj? && q.Obj? then
      forall k :: k != "_meta" ==>
        (k in p.fields <==> k in q.fields) && (k in p.fields ==> p.fields[k] == q.fields[k])
    else p == q
  }

  /** Both absent, or both present and equal but for `_meta`; an absent one is not a `null` one. */
  ghost predicate SameParams(p: Option<Json>, q: Option<Json>) {
    if p.Some? && q.Some? then SameButMeta(p.value, q.value) else p == q
  }

  lemma SemanticIs(p: Json)
    ensures p.Obj? <==> Semantic(p).Obj?
    ensures !p.Obj? ==> Semantic(p) == p
    ensures p.Obj? ==> forall k :: k in Semantic(p).fields <==> k in p.fields && k != "_meta"
    ensures p.Obj? ==> forall k :: k in Semantic(p).fields ==> Semantic(p).fields[k] == p.fields[k]
  {
  }

  lemma StrippedSame(p: Json, q: Json)
    ensures Semantic(p) == Semantic(q) <==> SameButMeta(p, q)
  {
    SemanticIs(p);
    SemanticIs(q);
    if p.Obj? && q.Obj? && SameButMeta(p, q) {
      assert Semantic(p).fields == Semantic(q).fields;
    }
  }

  lemma SamePayload(m1: string, p1: Option<Json>, m2: string, p2: Option<Json>)
    ensures Payload(m1, p1) == Payload(m2, p2) <==> m1 == m2 && Stripped(p1) == Stripped(p2)
  {
    var a, b := Payload(m1, p1), Payload(m2, p2);
    if a == b {
      assert a.fields["method"] == b.fields["method"];
      assert "params" in a.fields <==> "params" in b.fields;
      if "params" in a.fields {
        assert a.fields["params"] == b.fields["params"];
      }
    }
  }

  /**
   Two invocations have the same canonical text if and only if their methods agree and
   their params agree but for the top-level `_meta`; absent params and `null` params stay
   distinct.
   */
  lemma SameTextIffSameInvocation(m1: string, p1: Option<Json>, m2: string, p2: Option<Json>)
    requires PayloadString(m1, p1).Ok? && PayloadString(m2, p2).Ok?
    ensures PayloadString(m1, p1) == PayloadString(m2, p2) <==> m1 == m2 && SameParams(p1, p2)
  {
    var a, b := Payload(m1, p1), Payload(m2, p2);
    if Print(a) == Print(b) {
      assert Print(a) + "" == Print(b) + "";
      PrintDecode(a, b, "", "");
    }
    SamePayload(m1, p1, m2, p2);
    if p1.Some? && p2.Some? {
      StrippedSame(p1.value, p2.value);
    }
  }

  /** The JSON object of this method and these params, the params without `_meta`, and nothing else. */
  ghost predicate Describes(j: Json, name: string, params: Option<Json>) {
    && j.Obj? && "method" in j.fields && j.fields["method"] == Str(name)
    && ("params" in j.fields <==> params.Some?)
    && (params.Some? ==> SameButMeta(j.fields["params"], params.value))
    && (params.Some? && params.value.Obj? ==> j.fields["params"].Obj? && "_meta" !in j.fields["params"].fields)
    && (forall k :: k in j.fields ==> k == "method" || k == "params")
  }

  lemma PayloadDescribes(name: string, params: Option<Json>)
    ensures Describes(Payload(name, params), name, params)
  {
    if params.Some? {
      SemanticIs(params.value);
      assert Payload(name, params).fields["params"] == Semantic(params.value);
    }
  }

  /** The text is JSON, and read as such it is the invocation. */
  lemma TextIsTheInvocation(name: string, params: Option<Json>)
    requires PayloadString(name, params).Ok?
    ensures var r := ReadValue(PayloadString(name, params).value);
            r.Got? && r.rest == "" && Describes(r.value, name, params)
  {
    var j := Payload(name, params);
    assert Print(j) + "" == Print(j);
    ReadsBack(j, "");
    PayloadDescribes(name, params);
  }

  /** Whatever `_meta` carries, safe or not, the answer is the same: `_meta` takes no part in the identity. */
  lemma MetaIsIgnored(name: string, fields: map<string, Json>, meta: Json)
    ensures PayloadString(name, Some(Obj(fields["_meta" := meta])))
            == PayloadString(name, Some(Obj(fields - {"_meta"})))
  {
    assert fields["_meta" := meta] - {"_meta"} == fields - {"_meta"};
  }

  /** Two callers share an authorization key exactly when they are the same client making the same invocation. */
  lemma SameKeyIffSameInvocation(
    c1: string, m1: string, p1: Option<Json>, c2: string, m2: string, p2: Option<Json>)
    requires ':' !in c1 && ':' !in c2
    requires ComputeIdentity(c1, m1, p1).Ok? && ComputeIdentity(c2, m2, p2).Ok?
    ensures AuthorizationStore.KeyOf(ComputeIdentity(c1, m1, p1).value)
            == AuthorizationStore.KeyOf(ComputeIdentity(c2, m2, p2).value)
            <==> c1 == c2 && m1 == m2 && SameParams(p1, p2)
  {
    AuthorizationStore.KeyOfInjective(ComputeIdentity(c1, m1, p1).value, ComputeIdentity(c2, m2, p2).value);
    SameTextIffSameInvocation(m1, p1, m2, p2);
  }
}
