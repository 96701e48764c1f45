/** The Firestore client class of `src/lib/firestore.ts`: a null-guarded encoder, an access-token
    cache with two fields, and document operations that go through one authorised request. */
module FirestoreClient {
  import opened Wrappers
  import opened Strings
  import opened Values
  import opened Http
  import opened FirestoreCodec

  /** `toFirestoreFields`: a null or undefined record (`None`) encodes to `{ fields: {} }`. */
  method ToFirestoreFields(obj: Option<Record>) returns (fields: Fields)
    ensures obj.None? ==> fields == map[]
    ensures obj.Some? ==> fields == EncodedFields(obj.value)
  {
    if obj.None? {
      return map[];
    }
    fields := EncodeFields(obj.value);
  }

  /** What the OAuth token endpoint answered: `resp.ok` and the body `resp.json()` reads. The text
      `JSON.stringify(tokenResponse)` that the error messages carry is given as `shown`. */
  datatype TokenExchange = TokenExchange(ok: bool, body: JsonText, shown: string)

  /** The cache test `this.accessToken && Date.now() < this.tokenExpiry`, with `now` in milliseconds. */
  predicate CacheHit(accessToken: Option<string>, tokenExpiry: int, now: int)
  {
    accessToken.Some? && accessToken.value != "" && now < tokenExpiry
  }

  /** The expiry written on a refresh: `Math.floor(now / 1000) + 3500`, in seconds. */
  function RefreshedExpiry(now: int): (expiry: int)
    ensures (expiry - 3500) * 1000 <= now < (expiry - 3499) * 1000
  {
    now / 1000 + 3500
  }

  /** The token a parsed answer carries: a non-empty `access_token` string. */
  predicate CarriesToken(v: Value)
  {
    v.Obj? && Get(v.fields, "access_token").Str? && Get(v.fields, "access_token").s != ""
  }

  /** The outcome of a token exchange, in the source's order: the body is parsed first, then
      `resp.ok` is tested, then `access_token` is read and must be truthy. */
  function Exchanged(e: TokenExchange): (r: Result<string, string>)
    ensures r.Success? <==> e.body.Serialized? && e.ok && CarriesToken(e.body.value)
    ensures r.Success? ==> r.value == Get(e.body.value.fields, "access_token").s
    ensures e.body.Malformed? ==> r == Failure(Parse(e.body).error)
    ensures e.body.Serialized? && !e.ok ==> r == Failure("Failed to get access token: " + e.shown)
    ensures e.body.Serialized? && e.ok && AccessTokenProperty(e.body.value, "tokenResponse").Failure? ==>
      r == Failure(AccessTokenProperty(e.body.value, "tokenResponse").error)
    ensures e.body.Serialized? && e.ok && AccessTokenProperty(e.body.value, "tokenResponse").Success? && !CarriesToken(e.body.value) ==>
      r == Failure("access_token not found in response: " + e.shown)
  {
    match Parse(e.body)
    case Failure(err) => Failure(err)
    case Success(tokenResponse) =>
      if !e.ok then Failure("Failed to get access token: " + e.shown)
      else
        match AccessTokenProperty(tokenResponse, "tokenResponse")
        case Failure(err) => Failure(err)
        case Success(token) =>
          if token.Str? && token.s != "" then Success(token.s)
          else Failure("access_token not found in response: " + e.shown)
  }

  /** The token `getAccessToken` yields for a cache state, a clock reading and the exchange's answer. */
  function TokenOutcome(accessToken: Option<string>, tokenExpiry: int, now: int, e: TokenExchange): (r: Result<string, string>)
    ensures CacheHit(accessToken, tokenExpiry, now) ==> r == Success(accessToken.value)
    ensures !CacheHit(accessToken, tokenExpiry, now) ==> r == Exchanged(e)
  {
    if CacheHit(accessToken, tokenExpiry, now) then Success(accessToken.value) else Exchanged(e)
  }

  /** The error `request` throws for a non-ok response. */
  function RestError<B>(response: Response<B>): string
  {
    "Firestore REST error " + NatToString(response.status) + ": " + response.text
  }

  /** One authorised call to the REST API. */
  datatype RestCall = RestCall(verb: string, url: string, authorization: string, body: Option<Fields>)

  /** The `documents` property of a list response, absent for an empty collection. */
  datatype DocumentList = DocumentList(documents: Option<seq<Option<Document>>>)

  /** `response.documents.map(fromFirestoreFields)`: fails with the first document that fails. */
  function DecodeAll(docs: seq<Option<Document>>): (r: Result<seq<Record>, string>)
    ensures r.Success? <==> forall i :: 0 <= i < |docs| ==> DecodedDocument(docs[i]).Success?
    ensures r.Success? ==> |r.value| == |docs|
    ensures r.Success? ==> forall i :: 0 <= i < |docs| ==> Success(r.value[i]) == DecodedDocument(docs[i])
  {
    if |docs| == 0 then Success([])
    else
      match DecodedDocument(docs[0])
      case Failure(e) => Failure(e)
      case Success(d) =>
        match DecodeAll(docs[1..])
        case Failure(e) => Failure(e)
        case Success(rest) => Success([d] + rest)
  }

  class Firestore {
    /** `env.FIRESTORE_PROJECT_ID` and `env.FIRESTORE_CLIENT_EMAIL`. */
    const projectId: string
    const clientEmail: string
    /** The cache: a token (`null` is `None`) and its expiry. */
    var accessToken: Option<string>
    var tokenExpiry: int

    constructor(projectId: string, clientEmail: string)
      ensures this.projectId == projectId && this.clientEmail == clientEmail
      ensures accessToken == None && tokenExpiry == 0
    {
      this.projectId := projectId;
      this.clientEmail := clientEmail;
      accessToken := None;
      tokenExpiry := 0;
    }

    /** `getAccessToken`: the cached token while it is valid, else mint a JWT and exchange it.
        `claims` is the claim set signed, `None` when no exchange happens. */
    method GetAccessToken(now: int, exchange: TokenExchange) returns (r: Result<string, string>, claims: Option<Claims>)
      modifies this
      ensures r == TokenOutcome(old(accessToken), old(tokenExpiry), now, exchange)
      ensures CacheHit(old(accessToken), old(tokenExpiry), now) ==>
        claims == None && accessToken == old(accessToken) && tokenExpiry == old(tokenExpiry)
      ensures !CacheHit(old(accessToken), old(tokenExpiry), now) ==>
        && claims == Some(ServiceAccountClaims(now / 1000, clientEmail))
        && tokenExpiry == RefreshedExpiry(now)
        && accessToken == if r.Success? then Some(r.value) else old(accessToken)
    {
      if accessToken.Some? && accessToken.value != "" && now < tokenExpiry {
        return Success(accessToken.value), None;
      }
      var iat := now / 1000;
      tokenExpiry := iat + 3500;
      claims := Some(ServiceAccountClaims(iat, clientEmail));
      var tokenResponse := Parse(exchange.body);
      if tokenResponse.Failure? {
        return Failure(tokenResponse.error), claims;
      }
      if !exchange.ok {
        return Failure("Failed to get access token: " + exchange.shown), claims;
      }
      var property := AccessTokenProperty(tokenResponse.value, "tokenResponse");
      if property.Failure? {
        return Failure(property.error), claims;
      }
      if !property.value.Str? || property.value.s == "" {
        return Failure("access_token not found in response: " + exchange.shown), claims;
      }
      accessToken := Some(property.value.s);
      r := Success(property.value.s);
    }

    /** `getUrl(path)`. */
    function GetUrl(path: string): (u: string)
      ensures "https://firestore.googleapis.com/v1/projects/" + projectId + "/" <= u
      ensures EndsWith(u, "/databases/(default)/documents/" + path)
    {
      DocumentsUrl(projectId, path)
    }

    /** `request`: obtain a token, then issue one call; a non-ok response throws with its status. */
    method Request<B>(url: string, verb: string, body: Option<Fields>, now: int, exchange: TokenExchange, response: Response<B>)
      returns (r: Result<B, string>, call: Option<RestCall>)
      modifies this
      ensures var t := TokenOutcome(old(accessToken), old(tokenExpiry), now, exchange);
        && (t.Failure? ==> r == Failure(t.error) && call == None)
        && (t.Success? ==> call == Some(RestCall(verb, url, "Bearer " + t.value, body)))
        && (t.Success? ==> r == if response.Ok() then Success(response.body) else Failure(RestError(response)))
      ensures CacheHit(old(accessToken), old(tokenExpiry), now) ==>
        accessToken == old(accessToken) && tokenExpiry == old(tokenExpiry)
      ensures !CacheHit(old(accessToken), old(tokenExpiry), now) ==>
        && tokenExpiry == RefreshedExpiry(now)
        && accessToken == if Exchanged(exchange).Success? then Some(Exchanged(exchange).value) else old(accessToken)
    {
      var token, _ := GetAccessToken(now, exchange);
      if token.Failure? {
        return Failure(token.error), None;
      }
      call := Some(RestCall(verb, url, "Bearer " + token.value, body));
      if !response.Ok() {
        return Failure(RestError(response)), call;
      }
      r := Success(response.body);
    }

    /** `addDocument`: POST the encoded record to the collection, decode the stored document. */
    method AddDocument(collection: string, data: Option<Record>, now: int, exchange: TokenExchange, response: Response<Option<Document>>)
      returns (r: Result<Record, string>, call: Option<RestCall>)
      modifies this
      ensures CacheHit(old(accessToken), old(tokenExpiry), now) ==>
        accessToken == old(accessToken) && tokenExpiry == old(tokenExpiry)
      ensures !CacheHit(old(accessToken), old(tokenExpiry), now) ==>
        && tokenExpiry == RefreshedExpiry(now)
        && accessToken == if Exchanged(exchange).Success? then Some(Exchanged(exchange).value) else old(accessToken)
      ensures var t := TokenOutcome(old(accessToken), old(tokenExpiry), now, exchange);
        && (t.Failure? ==> r == Failure(t.error) && call == None)
        && (t.Success? ==> call == Some(RestCall("POST", DocumentsUrl(projectId, collection), "Bearer " + t.value,
                                                 Some(if data.None? then map[] else EncodedFields(data.value)))))
        && (t.Success? && !response.Ok() ==> r == Failure(RestError(response)))
        && (t.Success? && response.Ok() ==> r == DecodedDocument(response.body))
    {
      var body := ToFirestoreFields(data);
      var reply;
      reply, call := Request(GetUrl(collection), "POST", Some(body), now, exchange, response);
      if reply.Failure? {
        return Failure(reply.error), call;
      }
      r := DecodeDocument(reply.value);
    }

    /** `listDocuments`: no `documents` property means an empty list; otherwise every document decoded, in order. */
    method ListDocuments(collection: string, now: int, exchange: TokenExchange, response: Response<DocumentList>)
      returns (r: Result<seq<Record>, string>, call: Option<RestCall>)
      modifies this
      ensures CacheHit(old(accessToken), old(tokenExpiry), now) ==>
        accessToken == old(accessToken) && tokenExpiry == old(tokenExpiry)
      ensures !CacheHit(old(accessToken), old(tokenExpiry), now) ==>
        && tokenExpiry == RefreshedExpiry(now)
        && accessToken == if Exchanged(exchange).Success? then Some(Exchanged(exchange).value) else old(accessToken)
      ensures var t := TokenOutcome(old(accessToken), old(tokenExpiry), now, exchange);
        && (t.Failure? ==> r == Failure(t.error) && call == None)
        && (t.Success? ==> call == Some(RestCall("GET", DocumentsUrl(projectId, collection), "Bearer " + t.value, None)))
        && (t.Success? && !response.Ok() ==> r == Failure(RestError(response)))
        && (t.Success? && response.Ok() && response.body.documents.None? ==> r == Success([]))
        && (t.Success? && response.Ok() && response.body.documents.Some? ==> r == DecodeAll(response.body.documents.value))
    {
      var reply;
      reply, call := Request(GetUrl(collection), "GET", None, now, exchange, response);
      if reply.Failure? {
        return Failure(reply.error), call;
      }
      if reply.value.documents.None? {
        return Success([]), call;
      }
      r := DecodeAll(reply.value.documents.value);
    }

    /** `getDocument`: GET `<collection>/<id>` and decode it. */
    method GetDocument(collection: string, id: string, now: int, exchange: TokenExchange, response: Response<Option<Document>>)
      returns (r: Result<Record, string>, call: Option<RestCall>)
      modifies this
      ensures CacheHit(old(accessToken), old(tokenExpiry), now) ==>
        accessToken == old(accessToken) && tokenExpiry == old(tokenExpiry)
      ensures !CacheHit(old(accessToken), old(tokenExpiry), now) ==>
        && tokenExpiry == RefreshedExpiry(now)
        && accessToken == if Exchanged(exchange).Success? then Some(Exchanged(exchange).value) else old(accessToken)
      ensures var t := TokenOutcome(old(accessToken), old(tokenExpiry), now, exchange);
        && (t.Failure? ==> r == Failure(t.error) && call == None)
        && (t.Success? ==> call == Some(RestCall("GET", DocumentsUrl(projectId, collection + "/" + id), "Bearer " + t.value, None)))
        && (t.Success? && !response.Ok() ==> r == Failure(RestError(response)))
        && (t.Success? && response.Ok() ==> r == DecodedDocument(response.body))
    {
      var reply;
      reply, call := Request(GetUrl(collection + "/" + id), "GET", None, now, exchange, response);
      if reply.Failure? {
        return Failure(reply.error), call;
      }
      r := DecodeDocument(reply.value);
    }

    /** `updateDocument`: PATCH the encoded record to `<collection>/<id>` and decode the result. */
    method UpdateDocument(collection: string, id: string, data: Option<Record>, now: int, exchange: TokenExchange, response: Response<Option<Document>>)
      returns (r: Result<Record, string>, call: Option<RestCall>)
      modifies this
      ensures CacheHit(old(accessToken), old(tokenExpiry), now) ==>
        accessToken == old(accessToken) && tokenExpiry == old(tokenExpiry)
      ensures !CacheHit(old(accessToken), old(tokenExpiry), now) ==>
        && tokenExpiry == RefreshedExpiry(now)
        && accessToken == if Exchanged(exchange).Success? then Some(Exchanged(exchange).value) else old(accessToken)
      ensures var t := TokenOutcome(old(accessToken), old(tokenExpiry), now, exchange);
        && (t.Failure? ==> r == Failure(t.error) && call == None)
        && (t.Success? ==> call == Some(RestCall("PATCH", DocumentsUrl(projectId, collection + "/" + id), "Bearer " + t.value,
                                                 Some(if data.None? then map[] else EncodedFields(data.value)))))
        && (t.Success? && !response.Ok() ==> r == Failure(RestError(response)))
        && (t.Success? && response.Ok() ==> r == DecodedDocument(response.body))
    {
      var body := ToFirestoreFields(data);
      var reply;
      reply, call := Request(GetUrl(collection + "/" + id), "PATCH", Some(body), now, exchange, response);
      if reply.Failure? {
        return Failure(reply.error), call;
      }
      r := DecodeDocument(reply.value);
    }

    /** `deleteDocument`: DELETE `<collection>/<id>`; the answer is `{ id }`, whatever the response body. */
    method DeleteDocument<B>(collection: string, id: string, now: int, exchange: TokenExchange, response: Response<B>)
      returns (r: Result<Record, string>, call: Option<RestCall>)
      modifies this
      ensures CacheHit(old(accessToken), old(tokenExpiry), now) ==>
        accessToken == old(accessToken) && tokenExpiry == old(tokenExpiry)
      ensures !CacheHit(old(accessToken), old(tokenExpiry), now) ==>
        && tokenExpiry == RefreshedExpiry(now)
        && accessToken == if Exchanged(exchange).Success? then Some(Exchanged(exchange).value) else old(accessToken)
      ensures var t := TokenOutcome(old(accessToken), old(tokenExpiry), now, exchange);
        && (t.Failure? ==> r == Failure(t.error) && call == None)
        && (t.Success? ==> call == Some(RestCall("DELETE", DocumentsUrl(projectId, collection + "/" + id), "Bearer " + t.value, None)))
        && (t.Success? && !response.Ok() ==> r == Failure(RestError(response)))
        && (t.Success? && response.Ok() ==> r == Success(map["id" := Str(id)]))
    {
      var reply;
      reply, call := Request(GetUrl(collection + "/" + id), "DELETE", None, now, exchange, response);
      if reply.Failure? {
        return Failure(reply.error), call;
      }
      r := Success(map["id" := Str(id)]);
    }
  }

  /** The expiry is stored in seconds but compared with a clock in milliseconds: once the clock
      reads 3504 ms or more, a refreshed token is never found valid again, so every call refreshes. */
  lemma RefreshedTokenNeverReused(token: Option<string>, now: int, later: int)
    requires 3504 <= now <= later
    ensures !CacheHit(token, RefreshedExpiry(now), later)
  {
  }

  /** A cached token is served only while it is non-empty and the clock is below the expiry; the
      exchange's answer plays no part then. */
  lemma CachedTokenIgnoresExchange(token: string, expiry: int, now: int, e1: TokenExchange, e2: TokenExchange)
    requires token != "" && now < expiry
    ensures TokenOutcome(Some(token), expiry, now, e1) == TokenOutcome(Some(token), expiry, now, e2) == Success(token)
  {
  }

  /** The cache gives a token up 100 seconds before the JWT it was exchanged for expires. */
  lemma CacheExpiryPrecedesJwtExpiry(now: int, clientEmail: string)
    ensures RefreshedExpiry(now) == ServiceAccountClaims(now / 1000, clientEmail).exp - 100
  {
  }
}
