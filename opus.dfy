/** The OPUS Health partner interface: the SOAP envelope asking for the next available
    document number, and the lookup of that number in the parsed response. */
module OpusHealth {
  import opened Base

  const SoapHeaders: map<string, string> := map[
    "Content-Type" := "text/xml;charset=utf-8",
    "Accept-Encoding" := "gzip,deflate"]

  /** The template text around the three interpolated values. */
  const BeforeUser :=
    "\n        <soapenv:Envelope xmlns:soapenv=\"http://schemas.xmlsoap.org/soap/envelope/\" xmlns:par=\"http://www.tripleiesampling.com/PartnerInterfaceWS/\">\n"
    + "        <soapenv:Header>\n"
    + "            <par:ESamplingSoapHeader>\n"
    + "                <par:UserName>"
  const BeforePassword := "</par:UserName>\n                <par:Password>"
  const BeforeGroup :=
    "</par:Password>\n"
    + "            </par:ESamplingSoapHeader>\n"
    + "        </soapenv:Header>\n"
    + "        <soapenv:Body>\n"
    + "            <par:GetNextAvailableDocumentNumber>\n"
    + "                <par:groupNumber>"
  const AfterGroup :=
    "</par:groupNumber>\n"
    + "            </par:GetNextAvailableDocumentNumber>\n"
    + "        </soapenv:Body>\n"
    + "    </soapenv:Envelope>"

  /** Where the three interpolated values sit in a text made of four fixed parts
      around them. */
  predicate Interpolates(r: string, parts: seq<string>, holes: seq<string>)
    requires |parts| == 4 && |holes| == 3
  {
    var a := |parts[0]|;
    var b := a + |holes[0]| + |parts[1]|;
    var c := b + |holes[1]| + |parts[2]|;
    && |r| == c + |holes[2]| + |parts[3]|
    && r[..a] == parts[0] && r[a..a + |holes[0]|] == holes[0]
    && r[a + |holes[0]|..b] == parts[1] && r[b..b + |holes[1]|] == holes[1]
    && r[b + |holes[1]|..c] == parts[2] && r[c..c + |holes[2]|] == holes[2]
    && r[c + |holes[2]|..] == parts[3]
  }

  /** Joining four parts around three values places each value between its two parts. */
  lemma JoinInterpolates(p0: string, h0: string, p1: string, h1: string, p2: string, h2: string, p3: string)
    ensures Interpolates(p0 + h0 + p1 + h1 + p2 + h2 + p3, [p0, p1, p2, p3], [h0, h1, h2])
  {
    var r := p0 + h0 + p1 + h1 + p2 + h2 + p3;
    var a := |p0|;
    var b := a + |h0| + |p1|;
    var c := b + |h1| + |p2|;
    assert r[..a] == p0;
    assert r[a..a + |h0|] == h0;
    assert r[a + |h0|..b] == p1;
    assert r[b..b + |h1|] == h1;
    assert r[b + |h1|..c] == p2;
    assert r[c..c + |h2|] == h2;
    assert r[c + |h2|..] == p3;
  }

  const EnvelopeParts: seq<string> := [BeforeUser, BeforePassword, BeforeGroup, AfterGroup]

  /** The `set_payload` envelope for the given meta values: the user name, password and
      group number sit inside their elements, and an unset value is interpolated as
      the text "None". */
  function Envelope(user: Option<string>, password: Option<string>, groupid: Option<string>): (r: string)
    ensures Interpolates(r, EnvelopeParts, [PyStr(user), PyStr(password), PyStr(groupid)])
  {
    var u, p, g := PyStr(user), PyStr(password), PyStr(groupid);
    JoinInterpolates(BeforeUser, u, BeforePassword, p, BeforeGroup, g, AfterGroup);
    BeforeUser + u + BeforePassword + p + BeforeGroup + g + AfterGroup
  }

  /** The value at the end of a path of dictionary keys, or None where the Python
      subscript would raise (a missing key, or a value that is not a dictionary). */
  function Lookup(v: Json, path: seq<string>): Option<Json>
    decreases |path|
  {
    if path == [] then Some(v)
    else if v.JObject? && path[0] in v.fields then Lookup(v.fields[path[0]], path[1..])
    else None
  }

  /** The document that holds `leaf` under the keys of `path`, one level each. */
  function Nest(path: seq<string>, leaf: Json): Json
    decreases |path|
  {
    if path == [] then leaf else JObject(map[path[0] := Nest(path[1..], leaf)])
  }

  /** Looking a path up is looking its first part up, then the rest from there. */
  lemma {:induction false} LookupAppend(v: Json, p: seq<string>, q: seq<string>)
    ensures Lookup(v, p + q) == (match Lookup(v, p) case Some(w) => Lookup(w, q) case None => None)
  {
    if p == [] {
      assert p + q == q;
    } else {
      assert (p + q)[0] == p[0] && (p + q)[1..] == p[1..] + q;
      if v.JObject? && p[0] in v.fields {
        LookupAppend(v.fields[p[0]], p[1..], q);
      }
    }
  }

  /** Nesting a value under a path and looking that path up gives the value back. */
  lemma {:induction false} LookupNest(path: seq<string>, leaf: Json)
    ensures Lookup(Nest(path, leaf), path) == Some(leaf)
  {
    if path != [] {
      LookupNest(path[1..], leaf);
    }
  }

  const DocumentNumberPath: seq<string> := [
    "soap:Envelope", "soap:Body", "GetNextAvailableDocumentNumberResponse",
    "GetNextAvailableDocumentNumberResult", "DocumentNumber"]

  /** `get_document_number`, on the dictionary `xmltodict` makes of the response. */
  function GetDocumentNumber(response: Json): (r: Exit<Json>)
    ensures r.Return? <==> Lookup(response, DocumentNumberPath).Some?
    ensures r.Return? ==> Lookup(response, DocumentNumberPath) == Some(r.value)
  {
    match Lookup(response, DocumentNumberPath)
    case Some(n) => Return(n)
    case None => Raise("KeyError")
  }

  /** A response whose body nests the number along the five keys yields that number. */
  lemma DocumentNumberOfNestedResponse(number: Json)
    ensures GetDocumentNumber(Nest(DocumentNumberPath, number)) == Return(number)
  {
    LookupNest(DocumentNumberPath, number);
  }

  /** A response whose body lacks the SOAP envelope yields no number. */
  lemma NoEnvelopeNoNumber(response: Json)
    requires response.JObject? ==> "soap:Envelope" !in response.fields
    ensures GetDocumentNumber(response).Raise?
  {
  }

  /** An HTTP response as `post_request` hands it back. */
  datatype HttpResponse = HttpResponse(status: int, text: string)

  /** The POST `post_request` makes. */
  datatype SoapPost = SoapPost(url: Option<string>, data: string, headers: map<string, string>)

  class OpusHealthPartnerInterface {
    const headers: map<string, string>
    var url: Option<string>
    var payload: Option<string>
    var user: Option<string>
    var password: Option<string>
    var groupid: Option<string>

    constructor ()
      ensures headers == SoapHeaders
      ensures url == None && payload == None && user == None && password == None && groupid == None
    {
      headers := SoapHeaders;
      url := None;
      payload := None;
      user := None;
      password := None;
      groupid := None;
    }

    method SetMeta(url: string, user: string, password: string, groupid: string) returns (ok: bool)
      modifies this`url, this`user, this`password, this`groupid
      ensures this.url == Some(url) && this.user == Some(user)
      ensures this.password == Some(password) && this.groupid == Some(groupid)
      ensures ok
    {
      this.url := Some(url);
      this.user := Some(user);
      this.password := Some(password);
      this.groupid := Some(groupid);
      ok := true;
    }

    method SetPayload()
      modifies this`payload
      ensures payload == Some(Envelope(user, password, groupid))
    {
      payload := Some(Envelope(user, password, groupid));
    }

    /** `post_request` when the POST returns a response: the envelope is rebuilt from
        the current meta first, then sent with the fixed headers. */
    method PostRequest(response: HttpResponse) returns (r: HttpResponse, post: SoapPost)
      modifies this`payload
      ensures payload == Some(Envelope(user, password, groupid))
      ensures post == SoapPost(url, payload.value, headers)
      ensures r == response
    {
      SetPayload();
      post := SoapPost(url, payload.value, headers);
      r := response;
    }
  }
}
