/** The response serialiser of net/HttpData.cc (section 2.1 of RFC 9112) and a decoder that knows only the format. */
module HttpResponse {
  import opened Sequences
  import Numerals
  import Buffer

  const CRLF := "\r\n"

  datatype Header = Header(key: string, value: string)

  /** `std::string`'s order: bytes, then length. */
  predicate Less(a: string, b: string) {
    b != "" && (a == "" || a[0] < b[0] || (a[0] == b[0] && Less(a[1..], b[1..])))
  }

  /** `std::map`: headers in strictly increasing key order. */
  ghost predicate Ordered(headers: seq<Header>) {
    forall i, j | 0 <= i < j < |headers| :: Less(headers[i].key, headers[j].key)
  }

  function AsMap(headers: seq<Header>): map<string, string> {
    if headers == [] then map[]
    else AsMap(headers[..|headers| - 1])[headers[|headers| - 1].key := headers[|headers| - 1].value]
  }

  /** `headers_[key] = value`. */
  function AddHeader(headers: seq<Header>, key: string, value: string): seq<Header> {
    if headers == [] then [Header(key, value)]
    else
      var last := headers[|headers| - 1];
      if last.key == key then headers[..|headers| - 1] + [Header(key, value)]
      else if Less(last.key, key) then headers + [Header(key, value)]
      else AddHeader(headers[..|headers| - 1], key, value) + [last]
  }

  datatype Message = Message(line: string, headers: seq<Header>, body: string)

  function HeaderBytes(header: Header): string {
    header.key + ": " + header.value + CRLF
  }

  function HeadersBytes(headers: seq<Header>): string {
    if headers == [] then "" else HeaderBytes(headers[0]) + HeadersBytes(headers[1..])
  }

  /** What `appendToBuffer` writes. */
  function Serialised(m: Message): string {
    m.line + CRLF + HeadersBytes(m.headers) + CRLF + m.body
  }

  // ---- The decoder.

  /** The position of the first CRLF, or the length. */
  function FirstCRLF(s: string): (k: nat)
    ensures k <= |s| && (k < |s| ==> Buffer.CRLFAt(s, k))
  {
    if s == "" || Buffer.CRLFAt(s, 0) then 0 else 1 + FirstCRLF(s[1..])
  }

  function DecodedField(field: string): Option<Header> {
    var colon := Find(field, ':', 0, |field|);
    if colon + 2 <= |field| && field[colon + 1] == ' ' then Some(Header(field[..colon], field[colon + 2..])) else None
  }

  /** Field lines up to an empty line, then the body. */
  function DecodedRest(s: string, line: string, headers: seq<Header>): Option<Message>
    decreases |s|
  {
    var k := FirstCRLF(s);
    if k == |s| then None
    else if k == 0 then Some(Message(line, headers, s[2..]))
    else
      var field := DecodedField(s[..k]);
      if field.None? then None else DecodedRest(s[k + 2..], line, headers + [field.value])
  }

  function Decoded(s: string): Option<Message> {
    var k := FirstCRLF(s);
    if k == |s| then None else DecodedRest(s[k + 2..], s[..k], [])
  }

  /** No CRLF inside; a lone CR or LF is harmless. */
  ghost predicate OneLine(s: string) {
    forall k: nat :: !Buffer.CRLFAt(s, k)
  }

  ghost predicate FieldOK(h: Header) {
    ':' !in h.key && OneLine(h.key) && OneLine(h.value)
  }

  ghost predicate Decodable(m: Message) {
    OneLine(m.line) && forall h <- m.headers :: FieldOK(h)
  }

  lemma {:induction false} FirstCRLFAfter(s: string, rest: string)
    requires OneLine(s)
    ensures FirstCRLF(s + CRLF + rest) == |s|
  {
    var t := s + CRLF + rest;
    if s == "" {
      assert Buffer.CRLFAt(t, 0);
    } else {
      assert !Buffer.CRLFAt(s, 0);
      assert t[0] == s[0] && (|s| > 1 ==> t[1] == s[1]) && (|s| == 1 ==> t[1] == '\r');
      forall k: nat
        ensures !Buffer.CRLFAt(s[1..], k)
      {
        assert !Buffer.CRLFAt(s, k + 1);
      }
      assert t[1..] == s[1..] + CRLF + rest;
      FirstCRLFAfter(s[1..], rest);
    }
  }

  lemma FieldRoundTrip(h: Header)
    requires FieldOK(h)
    ensures DecodedField(h.key + ": " + h.value) == Some(h)
    ensures OneLine(h.key + ": " + h.value)
  {
    var field := h.key + ": " + h.value;
    var colon := Find(field, ':', 0, |field|);
    assert field[|h.key|] == ':' && field[|h.key| + 1] == ' ';
    assert colon == |h.key| by {
      assert forall k | 0 <= k < |h.key| :: field[k] == h.key[k];
    }
    assert field[..colon] == h.key && field[colon + 2..] == h.value;
    forall k: nat
      ensures !Buffer.CRLFAt(field, k)
    {
      assert !Buffer.CRLFAt(h.key, k);
      if k >= |h.key| + 2 { assert !Buffer.CRLFAt(h.value, k - (|h.key| + 2)); }
    }
  }

  lemma FieldLineDecodes(field: string, h: Header, rest: string, line: string, done: seq<Header>)
    requires |field| > 0 && OneLine(field) && DecodedField(field) == Some(h)
    ensures DecodedRest(field + CRLF + rest, line, done) == DecodedRest(rest, line, done + [h])
  {
    var s := field + CRLF + rest;
    FirstCRLFAfter(field, rest);
    assert s[..|field|] == field && s[|field| + 2..] == rest;
  }

  lemma EmptyLineDecodes(body: string, line: string, done: seq<Header>)
    ensures DecodedRest(CRLF + body, line, done) == Some(Message(line, done, body))
  {
    FirstCRLFAfter("", body);
    assert CRLF + body == "" + CRLF + body && (CRLF + body)[2..] == body;
  }

  lemma HeadersSplit(headers: seq<Header>, body: string)
    requires headers != []
    ensures var h := headers[0];
            HeadersBytes(headers) + CRLF + body
            == (h.key + ": " + h.value) + CRLF + (HeadersBytes(headers[1..]) + CRLF + body)
  {
  }

  lemma OneHeaderDecodes(headers: seq<Header>, line: string, done: seq<Header>, body: string)
    requires headers != []
    requires FieldOK(headers[0])
    ensures DecodedRest(HeadersBytes(headers) + CRLF + body, line, done)
         == DecodedRest(HeadersBytes(headers[1..]) + CRLF + body, line, done + [headers[0]])
  {
    hide *;
    var h := headers[0];
    HeadersSplit(headers, body);
    FieldRoundTrip(h);
    FieldLineDecodes(h.key + ": " + h.value, h, HeadersBytes(headers[1..]) + CRLF + body, line, done);
  }

  lemma {:induction false} RestRoundTrip(headers: seq<Header>, line: string, done: seq<Header>, body: string)
    requires forall h <- headers :: FieldOK(h)
    ensures DecodedRest(HeadersBytes(headers) + CRLF + body, line, done) == Some(Message(line, done + headers, body))
  {
    hide DecodedRest, OneLine;
    if headers == [] {
      EmptyLineDecodes(body, line, done);
      assert "" + CRLF + body == CRLF + body;
      assert done + headers == done;
    } else {
      OneHeaderDecodes(headers, line, done, body);
      RestRoundTrip(headers[1..], line, done + [headers[0]], body);
      assert done + [headers[0]] + headers[1..] == done + headers;
    }
  }

  /** The decoder recovers the status line, all headers and the body from the bytes written. */
  lemma SerialisationRoundTrip(m: Message)
    requires Decodable(m)
    ensures Decoded(Serialised(m)) == Some(m)
  {
    hide DecodedRest, HeadersBytes, OneLine, FieldOK;
    var rest := HeadersBytes(m.headers) + CRLF + m.body;
    assert Serialised(m) == m.line + CRLF + rest;
    FirstCRLFAfter(m.line, rest);
    assert Serialised(m)[..|m.line|] == m.line && Serialised(m)[|m.line| + 2..] == rest;
    RestRoundTrip(m.headers, m.line, [], m.body);
    assert [] + m.headers == m.headers;
  }

  lemma SerialisationInjective(m: Message, n: Message)
    requires Decodable(m) && Decodable(n) && Serialised(m) == Serialised(n)
    ensures m == n
  {
    SerialisationRoundTrip(m);
    SerialisationRoundTrip(n);
  }

  // ---- The header map.

  lemma {:induction false} LessOrders(a: string, b: string, c: string)
    ensures !(Less(a, b) && Less(b, a)) && !Less(a, a)
    ensures a != b ==> Less(a, b) || Less(b, a)
    ensures Less(a, b) && Less(b, c) ==> Less(a, c)
  {
    if a != "" && b != "" {
      LessOrders(a[1..], b[1..], if c == "" then c else c[1..]);
      assert a == [a[0]] + a[1..] && b == [b[0]] + b[1..];
    } else if a != "" {
      LessOrders(a[1..], a[1..], a[1..]);
    }
  }

  /** After what the two have in common, the first ends or has the smaller character. */
  predicate SplitsAt(a: string, b: string, k: nat) {
    k <= |a| && k < |b| && a[..k] == b[..k] && (k == |a| || a[k] < b[k])
  }

  lemma {:induction false} LessIsFirstDifference(a: string, b: string)
    ensures Less(a, b) <==> exists k: nat :: SplitsAt(a, b, k)
  {
    if b != "" && a == "" {
      assert SplitsAt(a, b, 0);
    } else if b != "" && a[0] < b[0] {
      assert SplitsAt(a, b, 0);
    } else if b != "" && a[0] == b[0] {
      LessIsFirstDifference(a[1..], b[1..]);
      forall k: nat | SplitsAt(a[1..], b[1..], k)
        ensures SplitsAt(a, b, k + 1)
      {
        assert a[..k + 1] == [a[0]] + a[1..][..k] && b[..k + 1] == [b[0]] + b[1..][..k];
      }
      forall k: nat | SplitsAt(a, b, k)
        ensures k > 0 && SplitsAt(a[1..], b[1..], k - 1)
      {
        assert a[1..][..k - 1] == a[..k][1..] && b[1..][..k - 1] == b[..k][1..];
      }
    } else if b != "" {
      forall k: nat
        ensures !SplitsAt(a, b, k)
      {
        if 0 < k <= |a| && k <= |b| { assert a[..k][0] == a[0] && b[..k][0] == b[0]; }
      }
    }
  }

  lemma AppendedHeader(headers: seq<Header>, h: Header)
    requires Ordered(headers) && forall g <- headers :: Less(g.key, h.key)
    ensures Ordered(headers + [h]) && AsMap(headers + [h]) == AsMap(headers)[h.key := h.value]
  {
    assert (headers + [h])[..|headers|] == headers;
  }

  lemma LastIsGreatest(headers: seq<Header>, key: string)
    requires Ordered(headers) && headers != []
    ensures var last, front := headers[|headers| - 1], headers[..|headers| - 1];
            && Ordered(front) && AsMap(headers) == AsMap(front)[last.key := last.value]
            && (last.key == key || Less(last.key, key) ==> forall g <- front :: Less(g.key, key))
            && (Less(last.key, key) ==> forall g <- headers :: Less(g.key, key))
            && (forall g <- front :: Less(g.key, last.key))
  {
    var last := headers[|headers| - 1];
    forall g <- headers[..|headers| - 1]
      ensures Less(g.key, last.key) && (Less(last.key, key) ==> Less(g.key, key))
    {
      LessOrders(g.key, last.key, key);
    }
  }

  /** `headers_[key] = value` keeps the order of the map and changes that one key. */
  lemma {:induction false} AddHeaderUpdatesMap(headers: seq<Header>, key: string, value: string)
    requires Ordered(headers)
    ensures Ordered(AddHeader(headers, key, value))
    ensures AsMap(AddHeader(headers, key, value)) == AsMap(headers)[key := value]
    ensures forall h <- AddHeader(headers, key, value) :: h in headers || h == Header(key, value)
  {
    hide Less, AsMap, Ordered;
    if headers == [] {
      AppendedHeader([], Header(key, value));
      assert [] + [Header(key, value)] == [Header(key, value)];
    } else {
      var last, front := headers[|headers| - 1], headers[..|headers| - 1];
      LessOrders(key, last.key, key);
      LastIsGreatest(headers, key);
      if last.key == key || Less(last.key, key) {
        AppendedHeader(if last.key == key then front else headers, Header(key, value));
      } else {
        AddHeaderUpdatesMap(front, key, value);
        AppendedHeader(AddHeader(front, key, value), last);
      }
    }
  }

  // ---- setResponse.

  import Http = HttpRequest

  const BODY := "Hi, bro, I'm glad to recv your connection,I need your advice :-)"

  function VersionText(version: Http.Version): string {
    match version
    case Http09 => "HTTP/0.9 "
    case Http10 => "HTTP/1.0 "
    case Http11 => "HTTP/1.1 "
  }

  function StatusLine(version: Http.Version): string {
    VersionText(version) + "200 OK"
  }

  /** `setResponse` on a response that already has some headers; `connection` is the request's Connection header. */
  function Response(headers: seq<Header>, version: Http.Version, connection: string): Message {
    var typed := AddHeader(headers, "Content-Type", "text/plain");
    Message(
      StatusLine(version),
      if connection == "close" then AddHeader(typed, "Connection", "close")
      else AddHeader(AddHeader(typed, "Content-Length", Numerals.Numeral(|BODY|)), "Connection", "Keep-Alive"),
      BODY)
  }

  lemma StatusLines()
    ensures StatusLine(Http.Http09) == "HTTP/0.9 200 OK"
    ensures StatusLine(Http.Http10) == "HTTP/1.0 200 OK"
    ensures StatusLine(Http.Http11) == "HTTP/1.1 200 OK"
  {
  }

  lemma BodyLength()
    ensures Numerals.Numeral(|BODY|) == "64"
  {
    assert |BODY| == 64;
    assert Numerals.NatNumeral(6, Numerals.Decimal) == "6";
  }

  /** Every field of the response: the headers it had, with these set. */
  lemma ResponseFields(headers: seq<Header>, version: Http.Version, connection: string)
    requires Ordered(headers)
    ensures var r := Response(headers, version, connection);
            var typed := AsMap(headers)["Content-Type" := "text/plain"];
            && Ordered(r.headers) && r.body == BODY
            && AsMap(r.headers) == if connection == "close" then typed["Connection" := "close"]
                                   else typed["Content-Length" := "64"]["Connection" := "Keep-Alive"]
  {
    hide AddHeader, AsMap, Ordered;
    var typed := AddHeader(headers, "Content-Type", "text/plain");
    AddHeaderUpdatesMap(headers, "Content-Type", "text/plain");
    BodyLength();
    if connection == "close" {
      AddHeaderUpdatesMap(typed, "Connection", "close");
    } else {
      AddHeaderUpdatesMap(typed, "Content-Length", "64");
      AddHeaderUpdatesMap(AddHeader(typed, "Content-Length", "64"), "Connection", "Keep-Alive");
    }
  }

  lemma {:induction false} NumeralIsOneLine(n: nat, radix: Numerals.Radix)
    ensures '\r' !in Numerals.NatNumeral(n, radix)
  {
    if n >= radix.Base() {
      NumeralIsOneLine(radix.Quotient(n), radix);
    }
  }

  lemma NoReturnOneLine(s: string)
    requires '\r' !in s
    ensures OneLine(s)
  {
  }

  ghost predicate HeadersOK(headers: seq<Header>) {
    Ordered(headers) && forall h <- headers :: FieldOK(h)
  }

  lemma AddedFieldsOK(headers: seq<Header>, key: string, value: string)
    requires HeadersOK(headers) && FieldOK(Header(key, value))
    ensures HeadersOK(AddHeader(headers, key, value))
  {
    AddHeaderUpdatesMap(headers, key, value);
  }

  lemma PlainField(h: Header)
    requires '\r' !in h.key && ':' !in h.key && '\r' !in h.value
    ensures FieldOK(h)
  {
    NoReturnOneLine(h.key);
    NoReturnOneLine(h.value);
  }

  lemma StatusIsOneLine(version: Http.Version)
    ensures OneLine(StatusLine(version))
  {
    NoReturnOneLine(StatusLine(version));
  }

  lemma TypeField()
    ensures FieldOK(Header("Content-Type", "text/plain"))
  {
    PlainField(Header("Content-Type", "text/plain"));
  }

  lemma ConnectionFields()
    ensures FieldOK(Header("Connection", "close")) && FieldOK(Header("Connection", "Keep-Alive"))
  {
    PlainField(Header("Connection", "close"));
    PlainField(Header("Connection", "Keep-Alive"));
  }

  lemma LengthField(n: nat)
    ensures FieldOK(Header("Content-Length", Numerals.Numeral(n)))
  {
    NumeralIsOneLine(n, Numerals.Decimal);
    PlainField(Header("Content-Length", Numerals.Numeral(n)));
  }

  lemma ResponseIsDecodable(headers: seq<Header>, version: Http.Version, connection: string)
    requires HeadersOK(headers)
    ensures Decodable(Response(headers, version, connection))
  {
    StatusIsOneLine(version);
    TypeField();
    ConnectionFields();
    LengthField(|BODY|);
    hide OneLine, FieldOK, AddHeader;
    var typed := AddHeader(headers, "Content-Type", "text/plain");
    AddedFieldsOK(headers, "Content-Type", "text/plain");
    AddedFieldsOK(typed, "Connection", "close");
    AddedFieldsOK(typed, "Content-Length", Numerals.Numeral(|BODY|));
    AddedFieldsOK(AddHeader(typed, "Content-Length", Numerals.Numeral(|BODY|)), "Connection", "Keep-Alive");
  }

  /** The client decodes exactly the response, and from a keep-alive response a Content-Length that reads back as the
      length of the decoded body. */
  lemma ClientReadsResponse(headers: seq<Header>, version: Http.Version, connection: string)
    requires HeadersOK(headers)
    ensures var d := Decoded(Serialised(Response(headers, version, connection)));
            && d == Some(Response(headers, version, connection))
            && (connection != "close" ==>
                && "Content-Length" in AsMap(d.value.headers)
                && Numerals.ParseInt(AsMap(d.value.headers)["Content-Length"]) == Some(|d.value.body|))
  {
    ResponseIsDecodable(headers, version, connection);
    SerialisationRoundTrip(Response(headers, version, connection));
    if connection != "close" {
      ContentLength(headers, version, connection);
      Numerals.NumeralReads(|BODY|);
    }
  }

  lemma ContentLength(headers: seq<Header>, version: Http.Version, connection: string)
    requires Ordered(headers) && connection != "close"
    ensures var fields := AsMap(Response(headers, version, connection).headers);
            "Content-Length" in fields && fields["Content-Length"] == Numerals.Numeral(|BODY|)
  {
    hide AddHeader, AsMap;
    var typed := AddHeader(headers, "Content-Type", "text/plain");
    var sized := AddHeader(typed, "Content-Length", Numerals.Numeral(|BODY|));
    AddHeaderUpdatesMap(headers, "Content-Type", "text/plain");
    AddHeaderUpdatesMap(typed, "Content-Length", Numerals.Numeral(|BODY|));
    AddHeaderUpdatesMap(sized, "Connection", "Keep-Alive");
    assert |"Connection"| != |"Content-Length"|;
  }

  class HttpResponse {
    var closeConn: bool
    var line: string
    var headers: seq<Header>
    var body: string

    constructor ()
      ensures Fields() == Message("", [], "") && closeConn
    {
      closeConn, line, headers, body := true, "", [], "";
    }

    function Fields(): Message
      reads this
    {
      Message(line, headers, body)
    }

    method SetResponse(version: Http.Version, connection: string)
      modifies this
      ensures Fields() == Response(old(headers), version, connection)
      ensures closeConn <==> connection == "close"
    {
      hide AddHeader, VersionText;
      line := VersionText(version);
      line := line + "200 OK";
      body := BODY;
      headers := AddHeader(headers, "Content-Type", "text/plain");
      if connection == "close" {
        headers := AddHeader(headers, "Connection", "close");
        closeConn := true;
      } else {
        headers := AddHeader(headers, "Content-Length", Numerals.Numeral(|body|));
        headers := AddHeader(headers, "Connection", "Keep-Alive");
        closeConn := false;
      }
    }

    /** Several `append`s in a row. */
    static method AppendAll(output: Buffer.Buffer, parts: seq<string>)
      requires output.Valid()
      modifies output, output.buffer
      ensures output.Valid() && output.Readable() == old(output.Readable()) + Concat(parts)
      ensures output.buffer == old(output.buffer) || fresh(output.buffer)
    {
      hide Buffer.Appended, Buffer.Buffer.Shape;
      assert parts[..0] == [];
      for i := 0 to |parts|
        invariant output.Valid() && output.Readable() == old(output.Readable()) + Concat(parts[..i])
        invariant output.buffer == old(output.buffer) || fresh(output.buffer)
      {
        output.Append(parts[i]);
        assert parts[..i + 1] == parts[..i] + [parts[i]];
        ConcatSnoc(parts[..i], parts[i]);
      }
      assert parts[..|parts|] == parts;
    }

    /** The loop over `headers_`. */
    method AppendHeaders(output: Buffer.Buffer)
      requires output.Valid()
      modifies output, output.buffer
      ensures output.Valid() && output.Readable() == old(output.Readable()) + HeadersBytes(headers)
      ensures output.buffer == old(output.buffer) || fresh(output.buffer)
    {
      ghost var was := output.Readable();
      assert headers[..0] == [];
      for i := 0 to |headers|
        invariant output.Valid() && output.Readable() == was + HeadersBytes(headers[..i])
        invariant output.buffer == old(output.buffer) || fresh(output.buffer)
      {
        AppendAll(output, [headers[i].key, ": ", headers[i].value, CRLF]);
        HeaderParts(headers[i]);
        HeadersSnoc(headers, i);
      }
      assert headers[..|headers|] == headers;
    }

    /** `appendToBuffer`. */
    method AppendToBuffer(output: Buffer.Buffer)
      requires output.Valid()
      modifies output, output.buffer
      ensures output.Valid() && output.Readable() == old(output.Readable()) + Serialised(Fields())
      ensures output.buffer == old(output.buffer) || fresh(output.buffer)
    {
      hide HeadersBytes, Concat;
      AppendAll(output, [line, CRLF]);
      AppendHeaders(output);
      AppendAll(output, [CRLF, body]);
      MessageParts(Fields());
    }
  }

  lemma HeaderParts(h: Header)
    ensures Concat([h.key, ": ", h.value, CRLF]) == HeaderBytes(h)
  {
    hide Concat;
    ConcatFew(h.key, ": ", h.value, CRLF);
  }

  lemma MessageParts(m: Message)
    ensures Concat([m.line, CRLF]) + HeadersBytes(m.headers) + Concat([CRLF, m.body]) == Serialised(m)
  {
    hide Concat;
    ConcatFew(m.line, CRLF, "", "");
    ConcatFew(CRLF, m.body, "", "");
    var start, headers := m.line + CRLF, HeadersBytes(m.headers);
    assert start + headers + (CRLF + m.body) == start + headers + CRLF + m.body;
  }

  lemma {:induction false} HeadersSnoc(headers: seq<Header>, i: nat)
    requires i < |headers|
    ensures HeadersBytes(headers[..i + 1]) == HeadersBytes(headers[..i]) + HeaderBytes(headers[i])
  {
    var longer := headers[..i + 1];
    assert longer[0] == headers[0];
    if i > 0 {
      HeadersSnoc(headers[1..], i - 1);
      assert headers[1..][..i] == longer[1..] && headers[1..][..i - 1] == headers[..i][1..];
      var first, middle, last := HeaderBytes(headers[0]), HeadersBytes(headers[..i][1..]), HeaderBytes(headers[i]);
      assert first + (middle + last) == (first + middle) + last;
    } else {
      assert longer[1..] == [];
    }
  }
}
