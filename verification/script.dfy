/**
  `makeFetchJS` (fetch.go:65-86): the asynchronous JavaScript function that
  performs the fetch inside the page. It is built by plain concatenation: a
  fixed head, the URL as given, the serialised options as given, a fixed tail.
  Nothing is escaped.
 */
module FetchScript {
  import opened Results
  import opened FetchRequest
  import opened RequestJson

  /** `async _ =>{` and the opening of the fetch call, up to the quote before the URL. */
  const Head: string := "async _ =>{" + "const resp = await fetch(\""

  /** The quote closing the URL literal and the comma before the options object. */
  const UrlClose: string := "\","

  /** Closing the fetch call, flattening the headers, reading the body, returning, and closing the function. */
  const Tail: string :=
    ");"
    + "headers={}; for (let e of resp.headers.entries()){headers[e[0]]=e.slice(1)};"
    + "const body = await resp.text();"
    + "return {type:resp.type,url:resp.url,status:resp.status,headers,body};"
    + "}"

  /** The script for `url` and the serialised options `reqBytes`. */
  function Script(url: string, reqBytes: string): (src: string)
    ensures |src| == 218 + |url| + |reqBytes|
    ensures StartsWith(src, Head) && |Head| == 37
    ensures src[|Head|..|Head| + |url|] == url
    ensures src[|Head| + |url|..|Head| + |url| + 2] == UrlClose
    ensures src[|Head| + |url| + 2..|src| - |Tail|] == reqBytes
    ensures src[|src| - |Tail|..] == Tail && |Tail| == 179
  {
    Head + url + UrlClose + reqBytes + Tail
  }

  /**
    `makeFetchJS(url, req)` once `req.Marshall()` has produced `marshalled`:
    the error comes back with an empty script, and otherwise the script with no error.
   */
  function Assemble<E>(url: string, marshalled: Result<string, E>): (out: (string, Option<E>))
    ensures out.1.Some? <==> marshalled.Err?
    ensures marshalled.Err? ==> out.0 == "" && out.1 == Some(marshalled.error)
    ensures marshalled.Ok? ==> out.0 == Script(url, marshalled.value)
  {
    match marshalled
    case Err(e) => ("", Some(e))
    case Ok(reqBytes) => (Script(url, reqBytes), None)
  }

  /** `makeFetchJS(url, req)`: never fails, since `Marshall` never does. */
  function MakeFetchJS<E>(url: string, req: Request, enc: Encoder): (out: (string, Option<E>))
    ensures out.1.None?
    ensures out.0 == Script(url, Marshall<E>(req, enc).value)
  {
    Assemble(url, Marshall<E>(req, enc))
  }

  /** The text of `s` before its first double quote (all of `s` when it has none). */
  function UpToQuote(s: string): (p: string)
    ensures |p| <= |s| && p == s[..|p|] && '"' !in p
  {
    if |s| == 0 || s[0] == '"' then "" else [s[0]] + UpToQuote(s[1..])
  }

  /** A quote-free text followed by a quote is read back up to that quote. */
  lemma {:induction false} UpToQuoteStops(u: string, t: string)
    requires '"' !in u
    ensures UpToQuote(u + "\"" + t) == u
    decreases |u|
  {
    if |u| > 0 {
      assert (u + "\"" + t)[1..] == u[1..] + "\"" + t;
      UpToQuoteStops(u[1..], t);
    }
  }

  /**
    The text between the head and the first double quote after it. This is
    not a JavaScript reading of the literal: backslash escapes and line breaks
    are not interpreted.
   */
  function UrlOf(src: string): Option<string>
  {
    if StartsWith(src, Head) then Some(UpToQuote(src[|Head|..])) else None
  }

  /** After the head, the script is the URL, the closing quote, and the rest. */
  lemma ScriptAfterHead(url: string, reqBytes: string)
    ensures Script(url, reqBytes)[|Head|..] == url + "\"" + ("," + reqBytes + Tail)
  {
    assert UrlClose == "\"" + ",";
    Reslice(Head, url, "\"", ",", reqBytes, Tail);
  }

  /** Dropping a prefix from a concatenation of six pieces, regrouped. */
  lemma Reslice(h: string, u: string, q: string, k: string, b: string, t: string)
    ensures ((((h + u) + (q + k)) + b) + t)[|h|..] == (u + q) + ((k + b) + t)
  {
    assert ((((h + u) + (q + k)) + b) + t) == h + ((u + q) + ((k + b) + t));
  }

  /** For a URL without a double quote, the text between the head and the first quote is that URL. */
  lemma UrlRecovered(url: string, reqBytes: string)
    requires '"' !in url
    ensures UrlOf(Script(url, reqBytes)) == Some(url)
  {
    ScriptAfterHead(url, reqBytes);
    UpToQuoteStops(url, "," + reqBytes + Tail);
  }

  /** For URLs without a double quote, the script determines both the URL and the options. */
  lemma ScriptInjective(u1: string, b1: string, u2: string, b2: string)
    requires '"' !in u1 && '"' !in u2
    requires Script(u1, b1) == Script(u2, b2)
    ensures u1 == u2 && b1 == b2
  {
    UrlRecovered(u1, b1);
    UrlRecovered(u2, b2);
    var src := Script(u1, b1);
    assert src[|Head| + |u1| + 2..|src| - |Tail|] == b1;
  }

  /**
    The URL is not escaped: a URL holding `",` puts a quote where the URL should
    end, and two different (URL, options) pairs give the same script.
   */
  lemma UrlNotEscaped()
    ensures Script("a\",x", "y") == Script("a", "x\",y")
    ensures UrlOf(Script("a\",x", "y")) == Some("a")
  {
    UrlRecovered("a", "x\",y");
  }
}
