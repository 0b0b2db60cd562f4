/**
  The `Request` struct of fetch.go and the JSON object that encoding/json
  builds from it: which keys appear, in which order, holding which values.
  The text rendering of that object lives in module `RequestJson`.
 */
module FetchRequest {
  import opened Results

  /** The fetch options of fetch.go, one field per struct field. */
  datatype Request = Request(
    httpMethod: string,
    headers: map<string, string>,
    body: string,
    mode: string,
    credentials: string,
    cache: string,
    redirect: string,
    referrer: string,
    integrity: string)

  /** The struct fields, named after their Go names. */
  datatype Field = Method | Headers | Body | Mode | Credentials | Cache | Redirect | Referrer | Integrity

  /** The order in which the fields are declared, which is the order encoding/json emits them in. */
  const DeclarationOrder: seq<Field> :=
    [Method, Headers, Body, Mode, Credentials, Cache, Redirect, Referrer, Integrity]

  /** Where a field stands in the declaration order. */
  function Position(f: Field): (i: nat)
    ensures i < |DeclarationOrder| && DeclarationOrder[i] == f
  {
    match f
    case Method => 0
    case Headers => 1
    case Body => 2
    case Mode => 3
    case Credentials => 4
    case Cache => 5
    case Redirect => 6
    case Referrer => 7
    case Integrity => 8
  }

  /** Positions are distinct: the field at position `n` has position `n`. */
  lemma PositionOfDeclared(n: nat)
    requires n < |DeclarationOrder|
    ensures Position(DeclarationOrder[n]) == n
  {
  }

  /** The name in the field's `json:"..."` tag. */
  function Key(f: Field): string
  {
    match f
    case Method => "method"
    case Headers => "headers"
    case Body => "body"
    case Mode => "mode"
    case Credentials => "credentials"
    case Cache => "cache"
    case Redirect => "redirect"
    case Referrer => "referrer"
    case Integrity => "integrity"
  }

  /** Distinct fields carry distinct tag names. */
  lemma KeyInjective(f: Field, g: Field)
    requires Key(f) == Key(g)
    ensures f == g
  {
  }

  /** Whether the field's tag carries `omitempty`: every field but `headers`. */
  predicate OmitEmpty(f: Field)
  {
    f != Headers
  }

  /** A JSON value as far as this model needs it: a string or an object of strings. */
  datatype Value = Str(s: string) | StrMap(entries: map<string, string>)

  /** encoding/json's test for `omitempty`: an empty string or an empty map. */
  predicate IsEmptyValue(v: Value)
  {
    match v
    case Str(s) => |s| == 0
    case StrMap(m) => |m| == 0
  }

  /** The value a request holds in a field. */
  function FieldValue(r: Request, f: Field): Value
  {
    match f
    case Method => Str(r.httpMethod)
    case Headers => StrMap(r.headers)
    case Body => Str(r.body)
    case Mode => Str(r.mode)
    case Credentials => Str(r.credentials)
    case Cache => Str(r.cache)
    case Redirect => Str(r.redirect)
    case Referrer => Str(r.referrer)
    case Integrity => Str(r.integrity)
  }

  /** Whether encoding/json writes the field: always without `omitempty`, else only when non-empty. */
  predicate Emitted(r: Request, f: Field)
  {
    !OmitEmpty(f) || !IsEmptyValue(FieldValue(r, f))
  }

  /** One `"key": value` pair of the object; its key is the tag of `field`. */
  datatype Member = Member(field: Field, value: Value)
  {
    function Name(): string { Key(field) }
  }

  /** A JSON object as the sequence of its members, in the order they are written. */
  type Object = seq<Member>

  /** Whether some member of the object has key `k`. */
  predicate HasKey(obj: Object, k: string)
  {
    exists i :: 0 <= i < |obj| && obj[i].Name() == k
  }

  /** Every member holds the value of its field in `r`. */
  ghost predicate Describes(obj: Object, r: Request)
  {
    forall i :: 0 <= i < |obj| ==> obj[i].value == FieldValue(r, obj[i].field)
  }

  /** Members follow the declaration order strictly, so no key repeats. */
  ghost predicate InDeclarationOrder(obj: Object)
  {
    forall i, j :: 0 <= i < j < |obj| ==> Position(obj[i].field) < Position(obj[j].field)
  }

  /** The members encoding/json writes for the fields from position `n` of the declaration order on. */
  function EncodeFrom(r: Request, n: nat): (obj: Object)
    requires n <= |DeclarationOrder|
    decreases |DeclarationOrder| - n
    ensures Describes(obj, r)
    ensures InDeclarationOrder(obj)
    ensures forall i :: 0 <= i < |obj| ==> n <= Position(obj[i].field)
  {
    if n == |DeclarationOrder| then []
    else
      var f := DeclarationOrder[n];
      var rest := EncodeFrom(r, n + 1);
      PositionOfDeclared(n);
      if Emitted(r, f) then
        var obj := [Member(f, FieldValue(r, f))] + rest;
        assert forall i :: 0 < i < |obj| ==> obj[i] == rest[i - 1];
        assert InDeclarationOrder(obj) by {
          forall i, j | 0 <= i < j < |obj| ensures Position(obj[i].field) < Position(obj[j].field) {
            assert obj[j] == rest[j - 1];
          }
        }
        obj
      else rest
  }

  /** One step of `EncodeFrom`: the field at position `n` comes first when it is emitted. */
  lemma EncodeFromStep(r: Request, n: nat)
    requires n < |DeclarationOrder|
    ensures Emitted(r, DeclarationOrder[n]) ==>
      EncodeFrom(r, n) == [Member(DeclarationOrder[n], FieldValue(r, DeclarationOrder[n]))] + EncodeFrom(r, n + 1)
    ensures !Emitted(r, DeclarationOrder[n]) ==> EncodeFrom(r, n) == EncodeFrom(r, n + 1)
  {
  }

  /** `json.Marshal(req)` at the level of the object it writes (fetch.go:19-39). */
  function ToObject(r: Request): (obj: Object)
    ensures Describes(obj, r)
    ensures InDeclarationOrder(obj)
  {
    EncodeFrom(r, 0)
  }

  /** The value `json.Unmarshal` would keep for key `k`: the last member with that key. */
  function Lookup(obj: Object, k: string): (v: Option<Value>)
    ensures v.None? <==> !HasKey(obj, k)
    decreases |obj|
  {
    if |obj| == 0 then None
    else
      var later := Lookup(obj[1..], k);
      assert forall i :: 0 < i < |obj| ==> obj[i] == obj[1..][i - 1];
      if later.Some? then later
      else if obj[0].Name() == k then Some(obj[0].value)
      else None
  }

  /** The value of the last member written for field `f`, if any. */
  function Find(obj: Object, f: Field): Option<Value>
    decreases |obj|
  {
    if |obj| == 0 then None
    else
      var later := Find(obj[1..], f);
      if later.Some? then later
      else if obj[0].field == f then Some(obj[0].value)
      else None
  }

  /** Since tag names are distinct, looking up a field's key finds that field's member. */
  lemma {:induction false} LookupIsFind(obj: Object, f: Field)
    ensures Lookup(obj, Key(f)) == Find(obj, f)
    decreases |obj|
  {
    if |obj| > 0 {
      LookupIsFind(obj[1..], f);
      if obj[0].Name() == Key(f) {
        KeyInjective(obj[0].field, f);
      }
    }
  }

  /** A field of the encoded object is found exactly when it was emitted, with its value. */
  lemma {:induction false} FindEncodeFrom(r: Request, n: nat, f: Field)
    requires n <= |DeclarationOrder|
    decreases |DeclarationOrder| - n
    ensures Find(EncodeFrom(r, n), f)
         == if n <= Position(f) && Emitted(r, f) then Some(FieldValue(r, f)) else None
  {
    if n < |DeclarationOrder| {
      var g := DeclarationOrder[n];
      PositionOfDeclared(n);
      EncodeFromStep(r, n);
      FindEncodeFrom(r, n + 1, f);
      if Emitted(r, g) {
        var rest := EncodeFrom(r, n + 1);
        assert ([Member(g, FieldValue(r, g))] + rest)[1..] == rest;
      }
    }
  }

  /** A field of the encoded object can be read back by its key exactly when it was emitted, with its value. */
  lemma LookupEncodeFrom(r: Request, n: nat, f: Field)
    requires n <= |DeclarationOrder|
    ensures Lookup(EncodeFrom(r, n), Key(f))
         == if n <= Position(f) && Emitted(r, f) then Some(FieldValue(r, f)) else None
  {
    LookupIsFind(EncodeFrom(r, n), f);
    FindEncodeFrom(r, n, f);
  }

  /** A field's key is in the object exactly when encoding/json emits the field (fetch.go:19-35). */
  lemma KeyPresentIffEmitted(r: Request, f: Field)
    ensures HasKey(ToObject(r), Key(f)) <==> Emitted(r, f)
  {
    LookupEncodeFrom(r, 0, f);
  }

  /** Nothing is written when no field from position `n` on is emitted. */
  lemma EncodeFromNothing(r: Request, n: nat)
    requires n <= |DeclarationOrder|
    requires forall f :: n <= Position(f) ==> !Emitted(r, f)
    ensures EncodeFrom(r, n) == []
  {
    var obj := EncodeFrom(r, n);
    if |obj| > 0 {
      var f := obj[0].field;
      LookupEncodeFrom(r, n, f);
    }
  }

  /** The string a decoder leaves in a string field: the zero value when the key is absent. */
  function StringOf(v: Option<Value>): string
  {
    match v
    case Some(Str(s)) => s
    case _ => ""
  }

  /** The map a decoder leaves in the header field: empty when the key is absent. */
  function MapOf(v: Option<Value>): map<string, string>
  {
    match v
    case Some(StrMap(m)) => m
    case _ => map[]
  }

  /** Reads an object back into a zero-valued `Request`, as `json.Unmarshal` would. */
  function FromObject(obj: Object): Request
  {
    Request(
      StringOf(Lookup(obj, Key(Method))),
      MapOf(Lookup(obj, Key(Headers))),
      StringOf(Lookup(obj, Key(Body))),
      StringOf(Lookup(obj, Key(Mode))),
      StringOf(Lookup(obj, Key(Credentials))),
      StringOf(Lookup(obj, Key(Cache))),
      StringOf(Lookup(obj, Key(Redirect))),
      StringOf(Lookup(obj, Key(Referrer))),
      StringOf(Lookup(obj, Key(Integrity))))
  }

  /** A string option reads back as the string the request holds, empty when it was omitted. */
  lemma StringFieldReadBack(r: Request, f: Field)
    requires f != Headers
    ensures StringOf(Lookup(ToObject(r), Key(f))) == FieldValue(r, f).s
  {
    LookupEncodeFrom(r, 0, f);
  }

  /** An object decodes to `r` once each of its keys reads back as the matching field of `r`. */
  lemma FromObjectFields(obj: Object, r: Request)
    requires StringOf(Lookup(obj, Key(Method))) == r.httpMethod
    requires MapOf(Lookup(obj, Key(Headers))) == r.headers
    requires StringOf(Lookup(obj, Key(Body))) == r.body
    requires StringOf(Lookup(obj, Key(Mode))) == r.mode
    requires StringOf(Lookup(obj, Key(Credentials))) == r.credentials
    requires StringOf(Lookup(obj, Key(Cache))) == r.cache
    requires StringOf(Lookup(obj, Key(Redirect))) == r.redirect
    requires StringOf(Lookup(obj, Key(Referrer))) == r.referrer
    requires StringOf(Lookup(obj, Key(Integrity))) == r.integrity
    ensures FromObject(obj) == r
  {
  }

  /** Omitting empty options loses nothing: decoding the encoded object gives the request back. */
  lemma DecodeEncode(r: Request)
    ensures FromObject(ToObject(r)) == r
  {
    var obj := ToObject(r);
    LookupEncodeFrom(r, 0, Headers);
    StringFieldReadBack(r, Method);
    StringFieldReadBack(r, Body);
    StringFieldReadBack(r, Mode);
    StringFieldReadBack(r, Credentials);
    StringFieldReadBack(r, Cache);
    StringFieldReadBack(r, Redirect);
    StringFieldReadBack(r, Referrer);
    StringFieldReadBack(r, Integrity);
    FromObjectFields(obj, r);
  }

  /** Each of the eight string options has its key in the object exactly when it is non-empty. */
  lemma StringOptionsOmittedWhenEmpty(r: Request)
    ensures HasKey(ToObject(r), "method") <==> r.httpMethod != ""
    ensures HasKey(ToObject(r), "body") <==> r.body != ""
    ensures HasKey(ToObject(r), "mode") <==> r.mode != ""
    ensures HasKey(ToObject(r), "credentials") <==> r.credentials != ""
    ensures HasKey(ToObject(r), "cache") <==> r.cache != ""
    ensures HasKey(ToObject(r), "redirect") <==> r.redirect != ""
    ensures HasKey(ToObject(r), "referrer") <==> r.referrer != ""
    ensures HasKey(ToObject(r), "integrity") <==> r.integrity != ""
  {
    KeyPresentIffEmitted(r, Method);
    KeyPresentIffEmitted(r, Body);
    KeyPresentIffEmitted(r, Mode);
    KeyPresentIffEmitted(r, Credentials);
    KeyPresentIffEmitted(r, Cache);
    KeyPresentIffEmitted(r, Redirect);
    KeyPresentIffEmitted(r, Referrer);
    KeyPresentIffEmitted(r, Integrity);
  }

  /** The `headers` key is present whatever the map holds, even when it is empty. */
  lemma HeadersAlwaysPresent(r: Request)
    ensures HasKey(ToObject(r), "headers")
    ensures Lookup(ToObject(r), "headers") == Some(StrMap(r.headers))
  {
    LookupEncodeFrom(r, 0, Headers);
  }
}
