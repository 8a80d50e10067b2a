/**
 * The request pipeline of the GitHub HTTP/JSON client: building GET and POST
 * methods, applying the stored credentials, dispatching on the response
 * status, decoding JSON, and releasing the connection on every exit path.
 *
 * The HTTP library and the JSON library stay abstract: what executing a
 * method gave is an `Exchange` handed in by the caller, and decoding is a
 * function from a body to a `Decoded` value.
 */
module GitHubClient {
  import opened Wrappers
  import opened Decimal

  /** A user name and password, as stored in the HTTP library's state. */
  datatype Credentials = UsernamePasswordCredentials(user: string, password: string)

  /** A request parameter, as sent in a query string or a form body. */
  datatype NameValuePair = NameValuePair(name: string, value: string)

  /** One entry of a parameter map; a map is the sequence of its entries in iteration order. */
  datatype Entry = Entry(key: string, value: string)

  /** What the JSON decoder makes of a body: a value, or a parse exception with its message. */
  datatype Decoded<T> = Parsed(value: T) | JsonParseException(message: string)

  /**
   * What executing a method gave: the response status, status text and body
   * (`None` when there is no body stream), or an I/O failure of the transport.
   */
  datatype Exchange =
    | Responded(status: Int32, statusText: string, body: Option<string>)
    | TransportFailure(message: string)

  /** The cause an `IOException` carries. */
  datatype IOFailure =
    | StatusText(text: string)       // an unexpected status, with the server's status text
    | WrappedParse(message: string)  // a JSON parse exception, wrapped
    | Transport(message: string)     // raised by the transport itself

  /** How a request ends. */
  datatype Outcome<V, E> =
    | Value(value: V)              // the decoded response
    | NoValue                      // null: a POST without a target type
    | StructuredError(error: E)    // a request exception around the decoded error payload
    | IOError(failure: IOFailure)  // an IOException
    | ParseError(message: string)  // a JSON parse exception that escapes unwrapped

  datatype Verb = GET | POST

  /** The message of the parse exception raised for a missing body. */
  const EmptyBody: string := "Empty body"

  /** Decodes a body; a missing body is a parse exception, never handed to the decoder. */
  function ParseJson<T>(body: Option<string>, decode: string -> Decoded<T>): (r: Decoded<T>)
    ensures body.None? ==> r == JsonParseException(EmptyBody)
    ensures r.Parsed? <==> body.Some? && decode(body.value).Parsed?
    ensures r.Parsed? ==> r.value == decode(body.value).value
  {
    if body.None? then JsonParseException(EmptyBody) else decode(body.value)
  }

  /** Parameters are sent only when the map is present and has entries. */
  predicate HasParams(params: Option<seq<Entry>>) {
    params.Some? && |params.value| > 0
  }

  /** `pairs` holds the entries of `data`, slot for slot, in iteration order. */
  ghost predicate PairsOf(pairs: seq<NameValuePair>, data: seq<Entry>) {
    |pairs| == |data| &&
    forall i :: 0 <= i < |data| ==> pairs[i] == NameValuePair(data[i].key, data[i].value)
  }

  /**
   * An HTTP method object of the HTTP library, reduced to the settings the
   * client touches. A new method follows no redirects, handles
   * authentication challenges, and is neither preemptive nor bound to an
   * authentication scheme.
   */
  class HttpMethod {
    const verb: Verb
    const uri: string
    var doAuthentication: bool
    var followRedirects: bool
    var preemptive: bool
    var basicScheme: bool
    var queryString: Option<seq<NameValuePair>>
    var parameters: seq<NameValuePair>
    /** How often the method's connection was released. */
    ghost var releaseCount: nat

    constructor (verb: Verb, uri: string)
      ensures this.verb == verb && this.uri == uri
      ensures doAuthentication && !followRedirects && !preemptive && !basicScheme
      ensures queryString.None? && parameters == [] && releaseCount == 0
    {
      this.verb := verb;
      this.uri := uri;
      doAuthentication := true;
      followRedirects := false;
      preemptive := false;
      basicScheme := false;
      queryString := None;
      parameters := [];
      releaseCount := 0;
    }

    /** Credentials go out with the first request, under the Basic scheme. */
    ghost predicate SendsCredentialsPreemptively()
      reads this
    {
      doAuthentication && preemptive && basicScheme
    }

    method SetFollowRedirects(follow: bool)
      modifies this`followRedirects
      ensures followRedirects == follow
    {
      followRedirects := follow;
    }

    method SetDoAuthentication(authenticate: bool)
      modifies this`doAuthentication
      ensures doAuthentication == authenticate
    {
      doAuthentication := authenticate;
    }

    method SetPreemptive()
      modifies this`preemptive
      ensures preemptive
    {
      preemptive := true;
    }

    method SetBasicScheme()
      modifies this`basicScheme
      ensures basicScheme
    {
      basicScheme := true;
    }

    method SetQueryString(pairs: array<NameValuePair>)
      modifies this`queryString
      ensures queryString == Some(pairs[..])
    {
      queryString := Some(pairs[..]);
    }

    method AddParameter(name: string, value: string)
      modifies this`parameters
      ensures parameters == old(parameters) + [NameValuePair(name, value)]
    {
      parameters := parameters + [NameValuePair(name, value)];
    }

    method ReleaseConnection()
      modifies this`releaseCount
      ensures releaseCount == old(releaseCount) + 1
    {
      releaseCount := releaseCount + 1;
    }
  }

  /** The client: whether to send credentials, and the credentials the HTTP state holds. */
  class GitHubClient {
    var sendCredentials: bool
    /** The credentials stored for any host and any port; `None` when cleared. */
    var credentials: Option<Credentials>

    /** Credentials are sent exactly when some are stored. */
    ghost predicate Valid()
      reads this
    {
      sendCredentials <==> credentials.Some?
    }

    constructor ()
      ensures Valid() && !sendCredentials
    {
      sendCredentials := false;
      credentials := None;
    }

    /**
     * Stores the credentials when both parts are present and clears them
     * otherwise; either way the earlier credentials are replaced.
     */
    method SetCredentials(user: Option<string>, password: Option<string>)
      modifies this
      ensures Valid()
      ensures sendCredentials <==> user.Some? && password.Some?
      ensures sendCredentials ==> credentials == Some(UsernamePasswordCredentials(user.value, password.value))
    {
      sendCredentials := user.Some? && password.Some?;
      var stored: Option<Credentials> := None;
      if sendCredentials {
        stored := Some(UsernamePasswordCredentials(user.value, password.value));
      }
      credentials := stored;
    }

    /** Makes `m` send the credentials preemptively when credentials are to be sent. */
    method SetMethodDefaults(m: HttpMethod) returns (r: HttpMethod)
      modifies m`doAuthentication, m`preemptive, m`basicScheme
      ensures r == m
      ensures sendCredentials ==> m.SendsCredentialsPreemptively()
      ensures !sendCredentials ==> unchanged(m)
    {
      if sendCredentials {
        m.SetDoAuthentication(true);
        m.SetPreemptive();
        m.SetBasicScheme();
      }
      r := m;
    }

    /** The authentication settings of a new method after `SetMethodDefaults`. */
    ghost predicate HasDefaults(m: HttpMethod)
      reads this, m
    {
      m.doAuthentication && m.preemptive == sendCredentials && m.basicScheme == sendCredentials
    }

    method CreatePost(uri: string) returns (m: HttpMethod)
      ensures fresh(m) && m.verb == POST && m.uri == uri
      ensures !m.followRedirects && HasDefaults(m)
      ensures m.queryString.None? && m.parameters == [] && m.releaseCount == 0
    {
      m := new HttpMethod(POST, uri);
      m := SetMethodDefaults(m);
    }

    method CreateGet(uri: string) returns (m: HttpMethod)
      ensures fresh(m) && m.verb == GET && m.uri == uri
      ensures m.followRedirects && HasDefaults(m)
      ensures m.queryString.None? && m.parameters == [] && m.releaseCount == 0
    {
      m := new HttpMethod(GET, uri);
      m.SetFollowRedirects(true);
      m := SetMethodDefaults(m);
    }

    /** Copies the entries of a parameter map into a new array, in iteration order. */
    method GetPairs(data: seq<Entry>) returns (pairs: array<NameValuePair>)
      ensures fresh(pairs) && PairsOf(pairs[..], data)
    {
      pairs := new NameValuePair[|data|];
      var i := 0;
      while i < |data|
        invariant 0 <= i <= |data|
        invariant forall k :: 0 <= k < i ==> pairs[k] == NameValuePair(data[k].key, data[k].value)
      {
        pairs[i] := NameValuePair(data[i].key, data[i].value);
        i := i + 1;
      }
    }

    /**
     * A GET request: 200 decodes the body into the target type, 404 and 500
     * decode the error payload into a request exception, any other status is
     * an I/O exception with the status text, and every parse exception comes
     * back wrapped in an I/O exception. The connection is released once,
     * whatever the outcome.
     */
    method Get<V, E>(uri: string, params: Option<seq<Entry>>, decode: string -> Decoded<V>,
                     decodeError: string -> Decoded<E>, exchange: Exchange)
      returns (o: Outcome<V, E>, ghost m: HttpMethod)
      requires Valid()
      ensures fresh(m) && m.verb == GET && m.uri == uri && m.followRedirects && HasDefaults(m)
      ensures m.preemptive ==> credentials.Some?
      ensures m.queryString.Some? <==> HasParams(params)
      ensures HasParams(params) ==> PairsOf(m.queryString.value, params.value)
      ensures m.parameters == []
      ensures m.releaseCount == 1
      ensures exchange.TransportFailure? ==> o == IOError(Transport(exchange.message))
      ensures exchange.Responded? && exchange.status == 200 ==>
                o == match ParseJson(exchange.body, decode)
                     case Parsed(v) => Value(v)
                     case JsonParseException(msg) => IOError(WrappedParse(msg))
      ensures exchange.Responded? && exchange.status in {404, 500} ==>
                o == match ParseJson(exchange.body, decodeError)
                     case Parsed(e) => StructuredError(e)
                     case JsonParseException(msg) => IOError(WrappedParse(msg))
      ensures exchange.Responded? && exchange.status !in {200, 404, 500} ==>
                o == IOError(StatusText(exchange.statusText))
      ensures !o.NoValue? && !o.ParseError?
    {
      var request: HttpMethod := CreateGet(uri);
      if params.Some? && |params.value| > 0 {
        var pairs := GetPairs(params.value);
        request.SetQueryString(pairs);
      }
      match exchange {
        case TransportFailure(message) =>
          o := IOError(Transport(message));
        case Responded(status, statusText, body) =>
          if status == 200 {
            var d := ParseJson(body, decode);
            o := if d.Parsed? then Value(d.value) else IOError(WrappedParse(d.message));
          } else if status == 404 || status == 500 {
            var d := ParseJson(body, decodeError);
            o := if d.Parsed? then StructuredError(d.value) else IOError(WrappedParse(d.message));
          } else {
            o := IOError(StatusText(statusText));
          }
      }
      request.ReleaseConnection();
      m := request;
    }

    /**
     * A POST request with the parameters as form fields: 200 and 201 decode
     * the body when a target type is given and give no value otherwise, 404
     * and 500 decode the error payload into a request exception, any other
     * status is an I/O exception with the status text. Parse exceptions are
     * not caught and escape unwrapped. The connection is released once,
     * whatever the outcome.
     */
    method Post<V, E>(uri: string, params: Option<seq<Entry>>, decode: Option<string -> Decoded<V>>,
                      decodeError: string -> Decoded<E>, exchange: Exchange)
      returns (o: Outcome<V, E>, ghost m: HttpMethod)
      requires Valid()
      ensures fresh(m) && m.verb == POST && m.uri == uri && !m.followRedirects && HasDefaults(m)
      ensures m.preemptive ==> credentials.Some?
      ensures m.queryString.None?
      ensures if HasParams(params) then PairsOf(m.parameters, params.value) else m.parameters == []
      ensures m.releaseCount == 1
      ensures exchange.TransportFailure? ==> o == IOError(Transport(exchange.message))
      ensures exchange.Responded? && exchange.status in {200, 201} && decode.None? ==> o == NoValue
      ensures exchange.Responded? && exchange.status in {200, 201} && decode.Some? ==>
                o == match ParseJson(exchange.body, decode.value)
                     case Parsed(v) => Value(v)
                     case JsonParseException(msg) => ParseError(msg)
      ensures exchange.Responded? && exchange.status in {404, 500} ==>
                o == match ParseJson(exchange.body, decodeError)
                     case Parsed(e) => StructuredError(e)
                     case JsonParseException(msg) => ParseError(msg)
      ensures exchange.Responded? && exchange.status !in {200, 201, 404, 500} ==>
                o == IOError(StatusText(exchange.statusText))
      ensures o.IOError? ==> !o.failure.WrappedParse?
    {
      var request: HttpMethod := CreatePost(uri);
      if params.Some? && |params.value| > 0 {
        var entries := params.value;
        for i := 0 to |entries|
          invariant PairsOf(request.parameters, entries[..i])
          modifies request`parameters
        {
          request.AddParameter(entries[i].key, entries[i].value);
        }
        assert entries[..|entries|] == entries;
      }
      match exchange {
        case TransportFailure(message) =>
          o := IOError(Transport(message));
        case Responded(status, statusText, body) =>
          if status == 200 || status == 201 {
            if decode.Some? {
              var d := ParseJson(body, decode.value);
              o := if d.Parsed? then Value(d.value) else ParseError(d.message);
            } else {
              o := NoValue;
            }
          } else if status == 404 || status == 500 {
            var d := ParseJson(body, decodeError);
            o := if d.Parsed? then StructuredError(d.value) else ParseError(d.message);
          } else {
            o := IOError(StatusText(statusText));
          }
      }
      request.ReleaseConnection();
      m := request;
    }
  }
}
