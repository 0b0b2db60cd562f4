/**
  The text `Request.Marshall` returns (fetch.go:37-39): encoding/json writes the
  object of `FetchRequest.ToObject` as `{"key":value,...}`. How a string or a
  map of strings is rendered (escaping, the order of map keys) is left to an
  abstract `Encoder`.
 */
module RequestJson {
  import opened Results
  import opened FetchRequest

  /** encoding/json's rendering of a JSON string and of a string-keyed map of strings. */
  datatype Encoder = Encoder(str: string -> string, strMap: map<string, string> -> string)

  /** Whether `s` begins with `p`. */
  predicate StartsWith(s: string, p: string)
  {
    |p| <= |s| && s[..|p|] == p
  }

  function RenderValue(enc: Encoder, v: Value): string
  {
    match v
    case Str(s) => enc.str(s)
    case StrMap(m) => enc.strMap(m)
  }

  /** `"key":value`; the tag names are lower-case ASCII words, which need no escaping. */
  function RenderMember(enc: Encoder, m: Member): string
  {
    "\"" + m.Name() + "\":" + RenderValue(enc, m.value)
  }

  /** The members separated by commas. */
  function RenderMembers(enc: Encoder, obj: Object): string
    decreases |obj|
  {
    if |obj| == 0 then ""
    else if |obj| == 1 then RenderMember(enc, obj[0])
    else RenderMember(enc, obj[0]) + "," + RenderMembers(enc, obj[1..])
  }

  /** An object in braces. */
  function Render(enc: Encoder, obj: Object): (text: string)
    ensures |text| >= 2 && text[0] == '{' && text[|text| - 1] == '}'
  {
    "{" + RenderMembers(enc, obj) + "}"
  }

  /**
    `req.Marshall()`, that is `json.Marshal(req)`. It cannot fail on this
    struct, whose fields are all strings or a string-keyed map of strings.
   */
  function Marshall<E>(r: Request, enc: Encoder): (res: Result<string, E>)
    ensures res.Ok?
    ensures StartsWith(res.value, "{\"") && res.value[|res.value| - 1] == '}'
  {
    var obj := ToObject(r);
    KeyPresentIffEmitted(r, Headers);
    Ok(Render(enc, obj))
  }

  /** The text `"method":...,` leads the object exactly when a method is set. */
  function MethodPart(enc: Encoder, r: Request): string
  {
    if r.httpMethod == "" then "" else "\"method\":" + enc.str(r.httpMethod) + ","
  }

  /** A string starts with each of its prefixes. */
  lemma StartsWithPrefix(p: string, t: string)
    ensures StartsWith(p + t, p)
  {
    assert (p + t)[..|p|] == p;
  }

  lemma RenderedHeaders(enc: Encoder, h: map<string, string>)
    ensures RenderMember(enc, Member(Headers, StrMap(h))) == "\"headers\":" + enc.strMap(h)
  {
    assert "\"" + "headers" + "\":" == "\"headers\":";
  }

  lemma RenderedMethod(enc: Encoder, s: string)
    ensures RenderMember(enc, Member(Method, Str(s))) == "\"method\":" + enc.str(s)
  {
    assert "\"" + "method" + "\":" == "\"method\":";
  }

  /** Rendering a member in front of others: the member, then a comma and the others if any. */
  lemma RenderCons(enc: Encoder, m: Member, rest: Object)
    ensures RenderMembers(enc, [m] + rest) == RenderMember(enc, m) + TailText(enc, rest)
  {
    assert ([m] + rest)[1..] == rest;
  }

  /** The members written from the headers on: the headers, then whatever follows. */
  lemma RenderFromHeaders(r: Request, enc: Encoder)
    ensures RenderMembers(enc, EncodeFrom(r, 1))
         == "\"headers\":" + enc.strMap(r.headers) + TailText(enc, EncodeFrom(r, 2))
  {
    EncodeFromStep(r, 1);
    RenderCons(enc, Member(Headers, StrMap(r.headers)), EncodeFrom(r, 2));
    RenderedHeaders(enc, r.headers);
  }

  /** The text after the first member: nothing, or a comma and the remaining members. */
  function TailText(enc: Encoder, rest: Object): string
  {
    if |rest| == 0 then "" else "," + RenderMembers(enc, rest)
  }

  /** The members of the whole object: the method when set, then the members from the headers on. */
  lemma RenderFromMethod(r: Request, enc: Encoder)
    ensures RenderMembers(enc, ToObject(r)) == MethodPart(enc, r) + RenderMembers(enc, EncodeFrom(r, 1))
  {
    var all := ToObject(r);
    var fromHeaders := EncodeFrom(r, 1);
    EncodeFromStep(r, 0);
    EncodeFromStep(r, 1);
    if r.httpMethod != "" {
      assert 0 < |fromHeaders| by { EncodeFromStep(r, 1); }
      RenderCons(enc, Member(Method, Str(r.httpMethod)), fromHeaders);
      RenderedMethod(enc, r.httpMethod);
    }
  }

  /** Regrouping a concatenation of six pieces. */
  lemma Regroup(a: string, b: string, c: string, d: string, e: string, f: string)
    ensures (a + (b + ((c + d) + e))) + f == (((a + b) + c) + d) + (e + f)
  {
  }

  /** The options object opens with the method when one is set, then always with the headers. */
  lemma MarshallLeadsWithMethodAndHeaders<E>(r: Request, enc: Encoder)
    ensures StartsWith(Marshall<E>(r, enc).value,
                       "{" + MethodPart(enc, r) + "\"headers\":" + enc.strMap(r.headers))
  {
    var tail := TailText(enc, EncodeFrom(r, 2));
    RenderFromHeaders(r, enc);
    RenderFromMethod(r, enc);
    Regroup("{", MethodPart(enc, r), "\"headers\":", enc.strMap(r.headers), tail, "}");
    StartsWithPrefix("{" + MethodPart(enc, r) + "\"headers\":" + enc.strMap(r.headers), tail + "}");
  }

  /** The braces around a lone headers member. */
  lemma HeadersInBraces(x: string)
    ensures "{" + ("\"headers\":" + x) + "}" == "{\"headers\":" + x + "}"
  {
    assert "{" + "\"headers\":" == "{\"headers\":";
  }

  /** With every string option empty, the options object holds the headers and nothing else. */
  lemma MarshallOnlyHeaders<E>(r: Request, enc: Encoder)
    requires r.httpMethod == "" && r.body == "" && r.mode == "" && r.credentials == ""
    requires r.cache == "" && r.redirect == "" && r.referrer == "" && r.integrity == ""
    ensures Marshall<E>(r, enc) == Ok("{\"headers\":" + enc.strMap(r.headers) + "}")
  {
    var x := enc.strMap(r.headers);
    assert RenderMembers(enc, ToObject(r)) == "\"headers\":" + x by {
      EncodeFromNothing(r, 2);
      RenderFromHeaders(r, enc);
      RenderFromMethod(r, enc);
      assert TailText(enc, EncodeFrom(r, 2)) == "";
      assert MethodPart(enc, r) == "";
    }
    HeadersInBraces(x);
  }
}
