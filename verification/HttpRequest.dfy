/** The request-line parser of net/HttpData.cc (section 3 of RFC 9112). */
module HttpRequest {
  import opened Sequences

  datatype Method = Get | Head | Put | Post | Trace | Options | Delete

  datatype Version = Http09 | Http10 | Http11

  datatype LineState = ExpectMethod | ExpectUri | ExpectVersion | LineFinished

  /** The fields `parseReqLine` assigns, and its local `begin`. */
  datatype Parser = Parser(state: LineState, method_: Option<Method>, uri: string, version: Version, begin: nat)

  /** A pass of the while loop leaves it running or finished. */
  datatype Turn = Continue(p: Parser) | Finished(p: Parser, success: bool)

  function Name(m: Method): string {
    match m
    case Get => "GET"
    case Head => "HEAD"
    case Put => "PUT"
    case Post => "POST"
    case Trace => "TRACE"
    case Options => "OPTIONS"
    case Delete => "DELETE"
  }

  /** The switch on the token's length, and its `strncmp`s. */
  function KnownMethod(token: string): Option<Method> {
    match |token|
    case 3 => if token == "GET" then Some(Get) else if token == "PUT" then Some(Put) else None
    case 4 => if token == "HEAD" then Some(Head) else if token == "POST" then Some(Post) else None
    case 5 => if token == "TRACE" then Some(Trace) else None
    case 6 => if token == "DELETE" then Some(Delete) else None
    case 7 => if token == "OPTIONS" then Some(Options) else None
    case _ => None
  }

  lemma MethodsAreSpelled()
    ensures KnownMethod("GET") == Some(Get) && KnownMethod("PUT") == Some(Put) && KnownMethod("HEAD") == Some(Head)
    ensures KnownMethod("POST") == Some(Post) && KnownMethod("TRACE") == Some(Trace)
    ensures KnownMethod("DELETE") == Some(Delete) && KnownMethod("OPTIONS") == Some(Options)
    ensures KnownMethod("get") == None && KnownMethod("PATCH") == None && KnownMethod("") == None
  {
  }

  lemma KnownMethodNames(token: string, m: Method)
    ensures KnownMethod(token) == Some(m) <==> token == Name(m)
    ensures 3 <= |Name(m)| <= 7 && ' ' !in Name(m)
  {
  }

  /** `strncmp` of the text at `begin` against "HTTP/1.0" and "HTTP/1.1". */
  function VersionOf(text: string): Version {
    if "HTTP/1.0" <= text then Http10 else if "HTTP/1.1" <= text then Http11 else Http09
  }

  /** The version is told by the first eight characters; whatever is neither 1.0 nor 1.1 is taken for 0.9. */
  lemma VersionIsPrefix(text: string)
    ensures VersionOf(text) == Http10 <==> |text| >= 8 && text[..8] == "HTTP/1.0"
    ensures VersionOf(text) == Http11 <==> |text| >= 8 && text[..8] == "HTTP/1.1"
  {
    if |text| >= 8 {
      assert "HTTP/1.0" <= text <==> text[..8] == "HTTP/1.0";
      assert "HTTP/1.1" <= text <==> text[..8] == "HTTP/1.1";
      assert "HTTP/1.0"[7] != "HTTP/1.1"[7];
    }
  }

  /** The line is text[start..end]; a CRLF follows it, as `findCRLF` found it. */
  predicate IsLine(text: string, start: nat, end: nat) {
    start <= end && end + 2 <= |text| && text[end] == '\r' && text[end + 1] == '\n'
  }

  predicate InLine(p: Parser, start: nat, end: nat) {
    start <= p.begin <= end && (p.state.ExpectMethod? ==> p.begin == start)
  }

  function MethodPass(text: string, start: nat, end: nat, p: Parser): Turn
    requires IsLine(text, start, end) && InLine(p, start, end) && p.state.ExpectMethod?
  {
    var space := Find(text, ' ', start, end);
    if space == end then Finished(p, false)
    else
      var token := text[p.begin..space];
      var m := KnownMethod(token);
      if m.Some? then Continue(p.(method_ := m, state := ExpectUri, begin := space + 1))
      else if 3 <= |token| <= 7 then Continue(p)
      else Finished(p, false)
  }

  function Pass(text: string, start: nat, end: nat, p: Parser): (t: Turn)
    requires IsLine(text, start, end) && InLine(p, start, end)
    ensures InLine(t.p, start, end)
  {
    match p.state
    case ExpectMethod => MethodPass(text, start, end, p)
    case ExpectUri =>
      var space := Find(text, ' ', p.begin, end);
      if space != end then Continue(p.(uri := text[p.begin..space], state := ExpectVersion, begin := space + 1))
      else Finished(p, false)
    case ExpectVersion => Continue(p.(version := VersionOf(text[p.begin..]), state := LineFinished))
    case LineFinished => Finished(p, true)
  }

  function Passes(text: string, start: nat, end: nat, p: Parser, n: nat): (t: Turn)
    requires IsLine(text, start, end) && InLine(p, start, end)
    ensures InLine(t.p, start, end)
    decreases n
  {
    if n == 0 then Continue(p)
    else
      var t := Pass(text, start, end, p);
      if t.Finished? then t else Passes(text, start, end, t.p, n - 1)
  }

  /** The parser is not waiting for a method in front of an unknown token of 3 to 7 characters. */
  predicate Terminates(text: string, start: nat, end: nat, p: Parser)
    requires IsLine(text, start, end) && InLine(p, start, end)
  {
    var space := Find(text, ' ', start, end);
    !(p.state.ExpectMethod? && space != end && 3 <= space - start <= 7 && KnownMethod(text[start..space]).None?)
  }

  function PassesLeft(state: LineState): nat {
    match state
    case ExpectMethod => 4
    case ExpectUri => 3
    case ExpectVersion => 2
    case LineFinished => 1
  }

  lemma {:induction false} EndsWithin(text: string, start: nat, end: nat, p: Parser, n: nat)
    requires IsLine(text, start, end) && InLine(p, start, end)
    requires Terminates(text, start, end, p) && n >= PassesLeft(p.state)
    ensures Passes(text, start, end, p, n).Finished?
    ensures Passes(text, start, end, p, n) == Passes(text, start, end, p, PassesLeft(p.state))
    decreases n
  {
    var t := Pass(text, start, end, p);
    if t.Continue? {
      EndsWithin(text, start, end, t.p, n - 1);
      EndsWithin(text, start, end, t.p, PassesLeft(p.state) - 1);
    }
  }

  lemma {:induction false} UnknownMethodIsFixedPoint(text: string, start: nat, end: nat, p: Parser, n: nat)
    requires IsLine(text, start, end) && InLine(p, start, end) && !Terminates(text, start, end, p)
    ensures Passes(text, start, end, p, n) == Continue(p)
    decreases n
  {
    if n > 0 {
      UnknownMethodIsFixedPoint(text, start, end, p, n - 1);
    }
  }

  /** The loop ends exactly when `Terminates` holds, and then within four passes; otherwise no pass changes a thing. */
  lemma LoopEndsIff(text: string, start: nat, end: nat, p: Parser)
    requires IsLine(text, start, end) && InLine(p, start, end)
    ensures Terminates(text, start, end, p) <==> exists n: nat :: Passes(text, start, end, p, n).Finished?
    ensures Terminates(text, start, end, p) ==> Passes(text, start, end, p, 4).Finished?
  {
    if Terminates(text, start, end, p) {
      EndsWithin(text, start, end, p, 4);
    } else {
      forall n: nat
        ensures !Passes(text, start, end, p, n).Finished?
      {
        UnknownMethodIsFixedPoint(text, start, end, p, n);
      }
    }
  }

  /** The value `parseReqLine` ends with. */
  function Parsed(text: string, start: nat, end: nat, p: Parser): Turn
    requires IsLine(text, start, end) && InLine(p, start, end)
  {
    Passes(text, start, end, p, 4)
  }

  /** A new `HttpRequest` at a line; `method_` is not initialised. */
  function Fresh(start: nat): Parser {
    Parser(ExpectMethod, None, "", Http11, start)
  }

  function RequestLine(m: Method, uri: string, rest: string): string {
    Name(m) + " " + uri + " " + rest
  }

  lemma VersionIgnoresLineEnd(rest: string, tail: string)
    requires |tail| > 0 && tail[0] == '\r'
    ensures VersionOf(rest + tail) == VersionOf(rest)
  {
    var full := rest + tail;
    if |rest| < 8 && |full| >= 8 {
      assert full[|rest|] == '\r';
    } else if |rest| >= 8 {
      assert full[..8] == rest[..8];
    }
  }

  lemma FindFirst(s: string, c: char, from: nat, to: nat, k: nat)
    requires from <= k <= to <= |s|
    requires (forall j | from <= j < k :: s[j] != c) && (k < to ==> s[k] == c)
    ensures Find(s, c, from, to) == k
  {
  }

  /** A known method, a URI without spaces and anything after the second space: the parser returns true with exactly
      them, the version being read off the front of what follows. */
  lemma WellFormedLineParses(text: string, start: nat, end: nat, m: Method, uri: string, rest: string)
    requires IsLine(text, start, end) && ' ' !in uri
    requires text[start..end] == RequestLine(m, uri, rest)
    ensures Terminates(text, start, end, Fresh(start))
    ensures Parsed(text, start, end, Fresh(start))
         == Finished(Parser(LineFinished, Some(m), uri, VersionOf(rest), end - |rest|), true)
  {
    var name := Name(m);
    var i, j := start + |name|, start + |name| + 1 + |uri|;
    KnownMethodNames(name, m);
    SplitLine(text, start, end, name, uri, rest);
    NoSpaceBefore(text, start, i, name);
    NoSpaceBefore(text, i + 1, j, uri);
    FindFirst(text, ' ', start, end, i);
    FindFirst(text, ' ', i + 1, end, j);
    VersionIgnoresLineEnd(rest, text[end..]);
    ThreePasses(text, start, end, m, uri, VersionOf(rest), i, j);
  }

  lemma NoSpaceBefore(text: string, from: nat, to: nat, word: string)
    requires from <= to <= |text| && text[from..to] == word && ' ' !in word
    ensures forall k | from <= k < to :: text[k] != ' '
  {
    forall k | from <= k < to
      ensures text[k] != ' '
    {
      assert text[k] == word[k - from];
    }
  }

  lemma SplitLine(text: string, start: nat, end: nat, a: string, u: string, r: string)
    requires start <= end <= |text| && text[start..end] == a + " " + u + " " + r
    ensures var i, j := start + |a|, start + |a| + 1 + |u|;
            && i < j < end && end - |r| == j + 1
            && text[start..i] == a && text[i] == ' ' && text[i + 1..j] == u && text[j] == ' '
            && text[j + 1..] == r + text[end..]
  {
    var line := a + " " + u + " " + r;
    var i, j := |a|, |a| + 1 + |u|;
    assert |line| == j + 1 + |r|;
    SubSlice(text, start, end, 0, i);
    SubSlice(text, start, end, i + 1, j);
    SubSlice(text, start, end, j + 1, |line|);
    assert line[0..i] == a && line[i + 1..j] == u && line[j + 1..|line|] == r;
    assert line[i] == ' ' && line[j] == ' ';
    assert text[start + i] == line[i] && text[start + j] == line[j];
    assert text[start + j + 1..] == text[start + j + 1..end] + text[end..];
  }

  lemma SubSlice(text: string, start: nat, end: nat, x: nat, y: nat)
    requires start <= end <= |text| && x <= y <= end - start
    ensures text[start..end][x..y] == text[start + x..start + y]
  {
    var outer, inner := text[start..end][x..y], text[start + x..start + y];
    forall k | 0 <= k < y - x
      ensures outer[k] == inner[k]
    {
      assert text[start..end][x + k] == text[start + x + k];
    }
  }

  lemma ThreePasses(text: string, start: nat, end: nat, m: Method, uri: string, version: Version, i: nat, j: nat)
    requires IsLine(text, start, end) && start <= i < j < end
    requires Find(text, ' ', start, end) == i && Find(text, ' ', i + 1, end) == j
    requires KnownMethod(text[start..i]) == Some(m) && text[i + 1..j] == uri && VersionOf(text[j + 1..]) == version
    ensures Parsed(text, start, end, Fresh(start))
         == Finished(Parser(LineFinished, Some(m), uri, version, j + 1), true)
  {
    var p1 := Parser(ExpectUri, Some(m), "", Http11, i + 1);
    var p2 := Parser(ExpectVersion, Some(m), uri, Http11, j + 1);
    var p3 := Parser(LineFinished, Some(m), uri, version, j + 1);
    assert Pass(text, start, end, Fresh(start)) == Continue(p1);
    assert Pass(text, start, end, p1) == Continue(p2);
    assert Pass(text, start, end, p2) == Continue(p3);
    assert Pass(text, start, end, p3) == Finished(p3, true);
    hide Pass;
    assert Passes(text, start, end, p3, 1) == Finished(p3, true);
    assert Passes(text, start, end, p2, 2) == Passes(text, start, end, p3, 1);
    assert Passes(text, start, end, p1, 3) == Passes(text, start, end, p2, 2);
  }

  /** Conversely, when the parser returns true the line is the request line of what it stored. */
  lemma ParsedLineIsWellFormed(text: string, start: nat, end: nat)
    requires IsLine(text, start, end) && Parsed(text, start, end, Fresh(start)).Finished?
    requires Parsed(text, start, end, Fresh(start)).success
    ensures var p := Parsed(text, start, end, Fresh(start)).p;
            && p.method_.Some? && ' ' !in p.uri && p.begin <= end
            && text[start..end] == RequestLine(p.method_.value, p.uri, text[p.begin..end])
            && p.version == VersionOf(text[p.begin..end])
  {
    hide Pass, Passes, VersionOf, KnownMethod, Find;
    var i := Find(text, ' ', start, end);
    FirstPassSucceeds(text, start, end);
    var j := Find(text, ' ', i + 1, end);
    var m, uri, rest := KnownMethod(text[start..i]).value, text[i + 1..j], text[j + 1..end];
    KnownMethodNames(text[start..i], m);
    JoinLine(text, start, end, i, j);
    VersionIgnoresLineEnd(rest, text[end..]);
    ThreePasses(text, start, end, m, uri, VersionOf(rest), i, j);
  }

  lemma JoinLine(text: string, start: nat, end: nat, i: nat, j: nat)
    requires start <= i < j < end <= |text| && text[i] == ' ' && text[j] == ' '
    ensures text[start..end] == text[start..i] + " " + text[i + 1..j] + " " + text[j + 1..end]
    ensures text[j + 1..] == text[j + 1..end] + text[end..]
  {
  }

  lemma FirstPassSucceeds(text: string, start: nat, end: nat)
    requires IsLine(text, start, end) && Parsed(text, start, end, Fresh(start)).Finished?
    requires Parsed(text, start, end, Fresh(start)).success
    ensures var i := Find(text, ' ', start, end);
            i < end && KnownMethod(text[start..i]).Some? && Find(text, ' ', i + 1, end) < end
  {
    var i := Find(text, ' ', start, end);
    var t := Pass(text, start, end, Fresh(start));
    if i == end || KnownMethod(text[start..i]).None? {
      if t.Continue? {
        UnknownMethodIsFixedPoint(text, start, end, Fresh(start), 4);
      }
      assert false;
    }
    assert Parsed(text, start, end, Fresh(start)) == Passes(text, start, end, t.p, 3);
  }

  /** When the loop ends at all, success means exactly that the line is a request line. */
  lemma AcceptsExactlyRequestLines(text: string, start: nat, end: nat)
    requires IsLine(text, start, end) && Terminates(text, start, end, Fresh(start))
    ensures var t := Parsed(text, start, end, Fresh(start));
            && t.Finished?
            && (t.success <==> exists m, uri, rest :: ' ' !in uri && text[start..end] == RequestLine(m, uri, rest))
  {
    EndsWithin(text, start, end, Fresh(start), 4);
    var t := Parsed(text, start, end, Fresh(start));
    if t.success {
      ParsedLineIsWellFormed(text, start, end);
    }
    forall m, uri, rest | ' ' !in uri && text[start..end] == RequestLine(m, uri, rest)
      ensures t.success
    {
      WellFormedLineParses(text, start, end, m, uri, rest);
    }
  }

  /** A line without a space, or whose first token is shorter than 3 or longer than 7, is refused in one pass. */
  lemma RefusedAtOnce(text: string, start: nat, end: nat)
    requires IsLine(text, start, end)
    requires var i := Find(text, ' ', start, end); i == end || i - start < 3 || i - start > 7
    ensures Passes(text, start, end, Fresh(start), 1) == Parsed(text, start, end, Fresh(start))
         == Finished(Fresh(start), false)
  {
    assert Pass(text, start, end, Fresh(start)) == Finished(Fresh(start), false);
  }

  /** A pass of an ending loop gets closer to the end. */
  lemma EndingPass(text: string, start: nat, end: nat, p: Parser, n: nat)
    requires IsLine(text, start, end) && InLine(p, start, end)
    requires Terminates(text, start, end, p) && n >= PassesLeft(p.state)
    ensures var t := Pass(text, start, end, p);
            && Passes(text, start, end, p, n) == (if t.Finished? then t else Passes(text, start, end, t.p, n - 1))
            && (t.Continue? ==> PassesLeft(t.p.state) < PassesLeft(p.state) && Terminates(text, start, end, t.p))
  {
  }

  class HttpRequest {
    var lineParseState: LineState
    /** None until assigned. */
    var method_: Option<Method>
    var uri: string
    var version: Version

    constructor ()
      ensures Fields(0) == Fresh(0)
    {
      lineParseState, method_, uri, version := ExpectMethod, None, "", Http11;
    }

    function Fields(begin: nat): Parser
      reads this
    {
      Parser(lineParseState, method_, uri, version, begin)
    }

    /** The switch on `lineParseState_`: one pass of the loop. */
    method OnePass(text: string, start: nat, end: nat, begin: nat)
        returns (finished: bool, success: bool, next: nat)
      requires IsLine(text, start, end) && InLine(Fields(begin), start, end)
      modifies this
      ensures Pass(text, start, end, old(Fields(begin)))
           == if finished then Finished(Fields(next), success) else Continue(Fields(next))
    {
      finished, success, next := false, false, begin;
      match lineParseState
      case ExpectMethod =>
        var space := Find(text, ' ', start, end);
        if space == end {
          finished := true;
        } else {
          var m := KnownMethod(text[begin..space]);
          if m.Some? {
            method_, lineParseState, next := m, ExpectUri, space + 1;
          } else if space - begin < 3 || space - begin > 7 {
            finished := true;
          }
        }
      case ExpectUri =>
        var uriSpace := Find(text, ' ', begin, end);
        if uriSpace != end {
          uri, lineParseState, next := text[begin..uriSpace], ExpectVersion, uriSpace + 1;
        } else {
          finished := true;
        }
      case ExpectVersion =>
        version, lineParseState := VersionOf(text[begin..]), LineFinished;
      case LineFinished =>
        finished, success := true, true;
    }

    /** `parseReqLine`, on every line and in every state in which its loop ends. */
    method ParseReqLine(text: string, start: nat, end: nat) returns (success: bool)
      requires IsLine(text, start, end) && Terminates(text, start, end, Fields(start))
      modifies this
      ensures var t := Parsed(text, start, end, old(Fields(start)));
              t.Finished? && success == t.success && Fields(t.p.begin) == t.p
    {
      ghost var entry, n := Fields(start), 4;
      EndsWithin(text, start, end, entry, 4);
      var begin: nat, finished := start, false;
      success := false;
      while !finished
        invariant if finished then Finished(Fields(begin), success) == Parsed(text, start, end, entry)
                  else && InLine(Fields(begin), start, end) && Terminates(text, start, end, Fields(begin))
                       && n >= PassesLeft(lineParseState)
                       && Passes(text, start, end, Fields(begin), n) == Parsed(text, start, end, entry)
        decreases if finished then 0 else PassesLeft(lineParseState)
      {
        EndingPass(text, start, end, Fields(begin), n);
        hide Passes, Pass, Terminates;
        n := n - 1;
        finished, success, begin := OnePass(text, start, end, begin);
      }
    }
  }
}
