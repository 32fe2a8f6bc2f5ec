/**
 The request header the client prints and the request header the server parses (sections 3.1.1 and 3.2 of
 RFC 7230).
 */
module HttpMessage {
  import opened Bytes
  import opened Text

  // ---- Lines ----

  /** getline on the rest of a stream: the text up to the first newline, and what follows it. */
  function Line(s: string): string { s[..FirstOf(s, '\n')] }

  function AfterLine(s: string): (rest: string)
    ensures s != "" ==> |rest| < |s|
  {
    var k := FirstOf(s, '\n');
    if k == |s| then "" else s[k + 1..]
  }

  predicate Free(s: string, c: char) { forall i :: 0 <= i < |s| ==> s[i] != c }

  lemma LineIs(line: string, rest: string)
    requires Free(line, '\n')
    ensures Line(line + "\n" + rest) == line && AfterLine(line + "\n" + rest) == rest
  {
    var s := line + "\n" + rest;
    FirstOfIs(s, '\n', |line|);
    assert s[..|line|] == line && s[|line| + 1..] == rest;
  }

  // ---- Header fields ----

  /** The first position from i on that is no space, or the last position of the line. */
  function SkipSpaces(line: string, i: nat): (k: nat)
    ensures i <= k && (i < |line| ==> k < |line|)
    ensures k + 1 < |line| ==> line[k] != ' '
    ensures i + 1 < |line| && line[i] == ' ' ==> i < k
    decreases |line| - i
  {
    if i + 1 < |line| && line[i] == ' ' then SkipSpaces(line, i + 1) else i
  }

  /** Where the value in a header line ends: before a carriage return, if that is the last character. */
  function ValueEnd(line: string): nat
    requires line != ""
  {
    if line[|line| - 1] == '\r' then |line| - 1 else |line|
  }

  /** The field in a line whose first colon is at k; none if nothing follows the colon. */
  function FieldAt(line: string, k: nat): seq<Field>
    requires k < |line|
  {
    var start := SkipSpaces(line, k + 1);
    if start < |line| then [Field(line[..k], line[start..ValueEnd(line)])] else []
  }

  /** The fields up to the first line without a colon, and the stream behind that line. */
  function Headers(s: string): (seq<Field>, string)
    decreases |s|
  {
    if s == "" then ([], "")
    else
      var line := Line(s);
      var k := FirstOf(line, ':');
      if k == |line| then ([], AfterLine(s))
      else
        var more := Headers(AfterLine(s));
        (FieldAt(line, k) + more.0, more.1)
  }

  /** HttpHeader::parse. */
  method ParseHeaders(stream: string) returns (result: seq<Field>, rest: string)
    ensures (result, rest) == Headers(stream)
  {
    hide Line, AfterLine, FirstOf, Headers;
    result, rest := [], stream;
    while rest != ""
      invariant result + Headers(rest).0 == Headers(stream).0
      invariant Headers(rest).1 == Headers(stream).1
      decreases |rest|
    {
      HeadersStep(rest);
      var line := Line(rest);
      var paramEnd := FirstOf(line, ':');
      rest := AfterLine(rest);
      if paramEnd == |line| {
        assert result + [] == result;
        return;
      }
      var valueStart := paramEnd + 1;
      while valueStart + 1 < |line| && line[valueStart] == ' '
        invariant paramEnd < valueStart
        invariant SkipSpaces(line, valueStart) == SkipSpaces(line, paramEnd + 1)
      {
        valueStart := valueStart + 1;
      }
      if valueStart < |line| {
        result := result + [Field(line[..paramEnd], line[valueStart..ValueEnd(line)])];
      }
    }
    NoHeaders();
    assert result + [] == result;
  }

  /** What one line adds. */
  lemma HeadersStep(s: string)
    requires s != ""
    ensures var line := Line(s);
            var k := FirstOf(line, ':');
            if k == |line| then Headers(s) == ([], AfterLine(s))
            else Headers(s).0 == FieldAt(line, k) + Headers(AfterLine(s)).0 && Headers(s).1 == Headers(AfterLine(s)).1
  {
    hide FieldAt, Line, AfterLine;
  }

  lemma NoHeaders()
    ensures Headers("") == ([], "")
  {}

  // ---- The request line ----

  datatype Target = Target(path: string, query: Option<string>)

  /** A request target is split at its last question mark. */
  function Split(target: string): (t: Target)
    ensures target == t.path + if t.query.Some? then "?" + t.query.value else ""
    ensures t.query.None? ==> Free(target, '?')
    ensures t.query.Some? ==> Free(t.query.value, '?')
  {
    var k := LastOf(target, '?');
    if k.None? then Target(target, None) else Target(target[..k.value], Some(target[k.value + 1..]))
  }

  datatype RequestLine = RequestLine(verb: string, target: Target, version: string)

  /** The version behind "HTTP/"; the line's last character is taken for its carriage return. */
  function Version(protocol: string): Option<string> {
    var slash := FirstOf(protocol, '/');
    if slash == |protocol| || protocol[..slash] != "HTTP" then None
    else if slash + 1 == |protocol| then Some("")
    else Some(protocol[slash + 1..|protocol| - 1])
  }

  /** What the request line means: verb, target and protocol between single spaces. */
  function ReadLine(line: string): Option<RequestLine> {
    var k := FirstOf(line, ' ');
    if k == |line| then None
    else
      var behind := line[k + 1..];
      var n := FirstOf(behind, ' ');
      if n == |behind| then None
      else
        var version := Version(behind[n + 1..]);
        if version.None? then None else Some(RequestLine(line[..k], Split(behind[..n]), version.value))
  }

  datatype Request = Request(line: RequestLine, header: seq<Field>)

  /** What parse makes of a stream: the request, and the stream left for its content. */
  function Parsed(s: string): Option<(Request, string)> {
    if s == "" then None
    else
      var line := ReadLine(Line(s));
      if line.None? then None
      else
        var headers := Headers(AfterLine(s));
        Some((Request(line.value, headers.0), headers.1))
  }

  /** The state of parse's loop: no space since from, and queryStart behind the last '?' since then. */
  ghost predicate InTarget(line: string, from: nat, i: nat, queryStart: Option<nat>) {
    from <= i <= |line| &&
    (forall j :: from <= j < i ==> line[j] != ' ') &&
    (if queryStart.None? then forall j :: from <= j < i && j + 1 < |line| ==> line[j] != '?'
     else from < queryStart.value <= i && line[queryStart.value - 1] == '?' &&
          forall j :: queryStart.value <= j < i && j + 1 < |line| ==> line[j] != '?')
  }

  /** Parse's loop finds the target's end and splits it as Split does. */
  lemma TargetCut(line: string, from: nat, end: nat, queryStart: Option<nat>)
    requires InTarget(line, from, end, queryStart) && end < |line| && line[end] == ' '
    ensures Split(line[from..end]) ==
            if queryStart.Some? then Target(line[from..queryStart.value - 1], Some(line[queryStart.value..end]))
            else Target(line[from..end], None)
  {
    hide LastOf;
    var target := line[from..end];
    if queryStart.Some? {
      var k := queryStart.value - 1 - from;
      LastOfIs(target, '?', k);
      assert target[..k] == line[from..queryStart.value - 1] && target[k + 1..] == line[queryStart.value..end];
    }
  }

  /** The parts of a request line whose first two spaces are at k and end. */
  lemma ReadLineIs(line: string, k: nat, end: nat)
    requires k < end < |line| && line[k] == ' ' && line[end] == ' '
    requires forall i :: 0 <= i < end && i != k ==> line[i] != ' '
    ensures ReadLine(line) == var version := Version(line[end + 1..]);
                              if version.None? then None
                              else Some(RequestLine(line[..k], Split(line[k + 1..end]), version.value))
  {
    hide Version, Split, FirstOf;
    FirstOfIs(line, ' ', k);
    var behind := line[k + 1..];
    FirstOfIs(behind, ' ', end - k - 1);
    assert behind[..end - k - 1] == line[k + 1..end] && behind[end - k..] == line[end + 1..];
  }

  /** A line with fewer than two spaces is no request line. */
  lemma ReadLineFails(line: string, k: nat)
    requires k <= |line| && forall i :: 0 <= i < |line| && i != k ==> line[i] != ' '
    ensures ReadLine(line) == None
  {
    hide Version, Split;
  }

  /** RequestMessage::parse; query is None where the query string is left as it was. */
  method Parse(stream: string)
    returns (ok: bool, verb: string, path: string, query: Option<string>, version: string, header: seq<Field>,
             rest: string)
    ensures ok <==> Parsed(stream).Some?
    ensures ok ==>
      Parsed(stream).value == (Request(RequestLine(verb, Target(path, query), version), header), rest)
  {
    hide Line, AfterLine, Split, Headers, ReadLine, FirstOf;
    ok, verb, path, query, version, header, rest := false, "", "", None, "", [], stream;
    if stream == "" {
      return;
    }
    var line := Line(stream);
    rest := AfterLine(stream);
    var verbEnd := FirstOf(line, ' ');
    if verbEnd == |line| {
      ReadLineFails(line, verbEnd);
      return;
    }
    verb := line[..verbEnd];
    var queryStart, targetEnd := FindTarget(line, verbEnd + 1);
    if targetEnd == |line| {
      ReadLineFails(line, verbEnd);
      return;
    }
    ReadLineIs(line, verbEnd, targetEnd);
    TargetCut(line, verbEnd + 1, targetEnd, queryStart);
    if queryStart.Some? {
      path, query := line[verbEnd + 1..queryStart.value - 1], Some(line[queryStart.value..targetEnd]);
    } else {
      path := line[verbEnd + 1..targetEnd];
    }
    var protocol := line[targetEnd + 1..];
    var protocolEnd := FirstOf(protocol, '/');
    if protocolEnd == |protocol| || protocol[..protocolEnd] != "HTTP" {
      return;
    }
    version := if protocolEnd + 1 == |protocol| then "" else protocol[protocolEnd + 1..|protocol| - 1];
    header, rest := ParseHeaders(rest);
    ok := true;
  }

  /** The loop of RequestMessage::parse over the target; end is the line's length if no space ends the target. */
  method FindTarget(line: string, from: nat) returns (queryStart: Option<nat>, end: nat)
    requires from <= |line|
    ensures end < |line| ==> InTarget(line, from, end, queryStart) && line[end] == ' '
    ensures end >= |line| ==> end == |line| && forall j :: from <= j < |line| ==> line[j] != ' '
  {
    queryStart, end := None, from;
    while end < |line|
      invariant InTarget(line, from, end, queryStart)
    {
      if line[end] == '?' && end + 1 < |line| {
        queryStart := Some(end + 1);
      } else if line[end] == ' ' {
        return;
      }
      end := end + 1;
    }
  }

  // ---- Printing ----

  /** What the client knows: the server, and a proxy that is only spelled out over plain sockets. */
  datatype Client = Client(host: string, port: nat, defaultPort: nat, proxied: bool)

  function FullTarget(c: Client, path: string): string {
    var corrected := if path == "" then "/" else path;
    if c.proxied then "http://" + c.host + ":" + Decimal(c.port) + corrected else corrected
  }

  function HostValue(c: Client): string { c.host + if c.port != c.defaultPort then ":" + Decimal(c.port) else "" }

  function HeaderLine(f: Field): string { f.name + ": " + f.value + "\r\n" }

  function Lines(fields: seq<Field>): string {
    if |fields| == 0 then "" else HeaderLine(fields[0]) + Lines(fields[1..])
  }

  /** The header block for given fields. */
  function Printed(verb: string, target: string, fields: seq<Field>): string {
    verb + " " + target + " HTTP/1.1\r\n" + Lines(fields)
  }

  lemma {:induction false} LinesSnoc(fields: seq<Field>, last: Field)
    ensures Lines(fields + [last]) == Lines(fields) + HeaderLine(last)
  {
    hide HeaderLine;
    if fields == [] {
      assert fields + [last] == [last];
      assert Lines([last]) == HeaderLine(last) + Lines([]);
    } else {
      LinesSnoc(fields[1..], last);
      assert (fields + [last])[1..] == fields[1..] + [last];
    }
  }

  /** ClientBase::create_request_header. */
  method CreateRequestHeader(c: Client, verb: string, path: string, header: seq<Field>) returns (stream: string)
    ensures stream == Printed(verb, FullTarget(c, path), [Field("Host", HostValue(c))] + header)
  {
    hide Lines;
    var corrected := path;
    if corrected == "" {
      corrected := "/";
    }
    if c.proxied {
      corrected := "http://" + c.host + ":" + Decimal(c.port) + corrected;
    }
    stream := verb + " " + corrected + " HTTP/1.1\r\n";
    ghost var requestLine := stream;
    stream := stream + "Host: " + c.host;
    if c.port != c.defaultPort {
      stream := stream + ":" + Decimal(c.port);
    }
    stream := stream + "\r\n";
    ghost var host := Field("Host", HostValue(c));
    NoLines();
    LinesSnoc([], host);
    assert [host] + header[..0] == [] + [host];
    var i := 0;
    while i < |header|
      invariant 0 <= i <= |header|
      invariant stream == requestLine + Lines([host] + header[..i])
    {
      LinesSnoc([host] + header[..i], header[i]);
      assert [host] + header[..i + 1] == [host] + header[..i] + [header[i]];
      stream := stream + header[i].name + ": " + header[i].value + "\r\n";
      i := i + 1;
    }
    assert header[..i] == header;
  }

  lemma NoLines()
    ensures Lines([]) == ""
  {}

  function Lower(c: char): char { if 'A' <= c <= 'Z' then (c as int + 32) as char else c }

  /** case_insensitive_equal. */
  predicate SameName(a: string, b: string) { |a| == |b| && forall i :: 0 <= i < |a| ==> Lower(a[i]) == Lower(b[i]) }

  /** Names are the same if they differ in the case of their letters only. */
  lemma SameNameWhen(a: string, b: string)
    ensures SameName(a, b) <==>
            |a| == |b| && forall i :: 0 <= i < |a| ==>
              a[i] == b[i] || ('A' <= a[i] <= 'Z' && b[i] as int == a[i] as int + 32) ||
              ('A' <= b[i] <= 'Z' && a[i] as int == b[i] as int + 32)
  {}

  /** The value of the first field of a name, as the multimap's find returns it. */
  function Find(header: seq<Field>, name: string): Option<string> {
    if header == [] then None
    else if SameName(header[0].name, name) then Some(header[0].value)
    else Find(header[1..], name)
  }

  /** The field that announces the content, unless the caller's header already does. */
  function Announced(header: seq<Field>, content: string): seq<Field> {
    if content == "" || Find(header, "Content-Length").Some? || Find(header, "Transfer-Encoding") == Some("chunked")
    then []
    else [Field("Content-Length", Decimal(|content|))]
  }

  function AllFields(c: Client, header: seq<Field>, content: string): seq<Field> {
    [Field("Host", HostValue(c))] + header + Announced(header, content)
  }

  /** What ClientBase::request writes: the header, the announcement, an empty line and the content. */
  method WriteRequest(c: Client, verb: string, path: string, content: string, header: seq<Field>)
        returns (stream: string)
    ensures stream == Printed(verb, FullTarget(c, path), AllFields(c, header, content)) + "\r\n" + content
  {
    hide Lines, Find, FullTarget, HostValue, Decimal;
    var fields := [Field("Host", HostValue(c))] + header;
    stream := CreateRequestHeader(c, verb, path, header);
    assert fields + [] == fields;
    if |content| > 0 {
      if Find(header, "Content-Length").None? {
        var encoding := Find(header, "Transfer-Encoding");
        if encoding.None? || encoding.value != "chunked" {
          LinesSnoc(fields, Field("Content-Length", Decimal(|content|)));
          stream := stream + "Content-Length: " + Decimal(|content|) + "\r\n";
        }
      }
    }
    stream := stream + "\r\n" + content;
  }

  // ---- Parsing undoes printing ----

  /** A field that stays on its line and in its place. */
  predicate Contained(f: Field) { Free(f.name, ':') && Free(f.name, '\n') && Free(f.value, '\n') }

  predicate AllContained(fields: seq<Field>) { forall i :: 0 <= i < |fields| ==> Contained(fields[i]) }

  predicate Indented(value: string) { value != "" && value[0] == ' ' }

  predicate NoneIndented(fields: seq<Field>) { forall i :: 0 <= i < |fields| ==> !Indented(fields[i].value) }

  /** A printed field line gives back its field exactly when the value has no leading space. */
  lemma FieldBack(f: Field)
    requires Contained(f)
    ensures var line := f.name + ": " + f.value + "\r";
            Free(line, '\n') && FirstOf(line, ':') == |f.name| &&
            exists value :: FieldAt(line, |f.name|) == [Field(f.name, value)] &&
                (value == f.value <==> !Indented(f.value))
  {
    var line := f.name + ": " + f.value + "\r";
    FirstOfIs(line, ':', |f.name|);
    hide FirstOf;
    var start := SkipSpaces(line, |f.name| + 1);
    assert start == SkipSpaces(line, |f.name| + 2);
    var value := line[start..ValueEnd(line)];
    assert line[..|f.name|] == f.name;
    if Indented(f.value) {
      assert |value| < |f.value|;
    } else {
      assert line[|f.name| + 2..|line| - 1] == f.value;
    }
    assert FieldAt(line, |f.name|) == [Field(f.name, value)];
  }

  /** A line that ends without a carriage return gives back the same field. */
  lemma BareFieldBack(f: Field)
    requires Contained(f) && !Indented(f.value) && f.value != "" && f.value[|f.value| - 1] != '\r'
    ensures var line := f.name + ": " + f.value; FirstOf(line, ':') == |f.name| && FieldAt(line, |f.name|) == [f]
  {
    var line := f.name + ": " + f.value;
    FirstOfIs(line, ':', |f.name|);
    hide FirstOf;
    var n := |f.name|;
    assert line[n + 1] == ' ' && line[n + 2] == f.value[0] && line[|line| - 1] == f.value[|f.value| - 1];
    assert SkipSpaces(line, n + 2) == n + 2;
    assert SkipSpaces(line, n + 1) == n + 2;
    assert line[..n] == f.name && line[n + 2..|line|] == f.value;
  }

  /** Printed header lines and the empty line behind them are read back, up to leading spaces of values. */
  lemma {:induction false} HeadersBack(fields: seq<Field>, content: string)
    requires AllContained(fields)
    ensures Headers(Lines(fields) + "\r\n" + content).1 == content
    ensures Headers(Lines(fields) + "\r\n" + content).0 == fields <==> NoneIndented(fields)
  {
    hide Headers, Line, AfterLine, FieldAt, Indented, FirstOf, Contained;
    var s := Lines(fields) + "\r\n" + content;
    HeadersStep(s);
    if fields == [] {
      NoLines();
      assert s == "\r" + "\n" + content;
      LineIs("\r", content);
      FirstOfIs("\r", ':', 1);
    } else {
      var line := fields[0].name + ": " + fields[0].value + "\r";
      var more := Lines(fields[1..]) + "\r\n" + content;
      assert s == line + "\n" + more;
      FieldBack(fields[0]);
      LineIs(line, more);
      HeadersBack(fields[1..], content);
      assert fields == [fields[0]] + fields[1..];
    }
  }

  lemma FieldIsContained(line: string, k: nat)
    requires Free(line, '\n') && FirstOf(line, ':') == k < |line|
    ensures AllContained(FieldAt(line, k))
  {}

  /** Whatever is read, no field comes out with a colon in its name or a newline. */
  lemma {:induction false} HeadersAreContained(s: string)
    ensures AllContained(Headers(s).0)
    decreases |s|
  {
    hide SkipSpaces, FirstOf, AfterLine, FieldAt, Contained;
    if s != "" {
      var line := Line(s);
      var k := FirstOf(line, ':');
      if k < |line| {
        HeadersAreContained(AfterLine(s));
        FieldIsContained(line, k);
        FieldsApart(FieldAt(line, k), Headers(AfterLine(s)).0);
      }
    }
  }

  /** A method or a target that stays where it is printed. */
  predicate Unbroken(s: string) { Free(s, ' ') && Free(s, '\n') }

  /** The printed request line is read back. */
  lemma LineBack(verb: string, target: string)
    requires Free(verb, ' ') && Free(target, ' ')
    ensures ReadLine(verb + " " + target + " HTTP/1.1\r") == Some(RequestLine(verb, Split(target), "1.1"))
  {
    hide FirstOf, Split, ReadLine;
    var line := verb + " " + target + " HTTP/1.1\r";
    var end := |verb| + 1 + |target|;
    ReadLineIs(line, |verb|, end);
    assert line[..|verb|] == verb && line[|verb| + 1..end] == target;
    var protocol := line[end + 1..];
    assert protocol == "HTTP/1.1\r";
    FirstOfIs(protocol, '/', 4);
    assert protocol[..4] == "HTTP" && protocol[5..8] == "1.1";
  }

  /** A target is unbroken when its parts are. */
  lemma SplitKeeps(target: string)
    ensures var t := Split(target);
            Unbroken(target) <==> Unbroken(t.path) && (t.query.Some? ==> Unbroken(t.query.value))
  {
    hide LastOf;
    var t := Split(target);
    if t.query.Some? {
      forall i | 0 <= i < |t.path|
        ensures t.path[i] == target[i]
      {
      }
      forall i | 0 <= i < |t.query.value|
        ensures t.query.value[i] == target[|t.path| + 1 + i]
      {
      }
    }
  }

  /** Whatever is read, the method and the target's parts come out without spaces or newlines. */
  lemma LinesAreUnbroken(s: string)
    requires ReadLine(Line(s)).Some?
    ensures var line := ReadLine(Line(s)).value;
            Unbroken(line.verb) && Unbroken(line.target.path) &&
            (line.target.query.Some? ==> Unbroken(line.target.query.value))
  {
    hide FirstOf, Version, Split;
    var line := Line(s);
    var k := FirstOf(line, ' ');
    var behind := line[k + 1..];
    var n := FirstOf(behind, ' ');
    assert Free(line, '\n');
    assert Unbroken(line[..k]) && Unbroken(behind[..n]);
    SplitKeeps(behind[..n]);
  }

  /** What the server should make of a printed request. */
  function Expected(verb: string, target: string, fields: seq<Field>): Request {
    Request(RequestLine(verb, Split(target), "1.1"), fields)
  }

  predicate Sendable(verb: string, target: string, fields: seq<Field>) {
    Unbroken(verb) && Unbroken(target) && AllContained(fields) && NoneIndented(fields)
  }

  /** The printed request, closed by an empty line, is cut at its first line. */
  lemma FirstLine(verb: string, target: string, fields: seq<Field>, content: string)
    requires Free(verb, '\n') && Free(target, '\n')
    ensures var s := Printed(verb, target, fields) + "\r\n" + content;
            Line(s) == verb + " " + target + " HTTP/1.1\r" && AfterLine(s) == Lines(fields) + "\r\n" + content
  {
    hide Line, AfterLine, Lines;
    var line := verb + " " + target + " HTTP/1.1\r";
    var more := Lines(fields) + "\r\n" + content;
    assert Printed(verb, target, fields) + "\r\n" + content == line + "\n" + more;
    LineIs(line, more);
  }

  /**
   The server reads what the client printed - method, version, every header in order, the target split at its last
   question mark, and the content left on the stream - exactly when method and target hold no space or newline, names
   no colon or newline, and values no newline or leading space.
   */
  lemma ParsePrinted(verb: string, target: string, fields: seq<Field>, content: string)
    ensures Parsed(Printed(verb, target, fields) + "\r\n" + content) ==
            Some((Expected(verb, target, fields), content)) <==>
            Sendable(verb, target, fields)
  {
    hide Line, AfterLine, ReadLine, Headers, Printed, Split, Contained, Indented;
    var s := Printed(verb, target, fields) + "\r\n" + content;
    if Parsed(s) == Some((Expected(verb, target, fields), content)) {
      LinesAreUnbroken(s);
      SplitKeeps(target);
      HeadersAreContained(AfterLine(s));
    }
    if Unbroken(verb) && Unbroken(target) && AllContained(fields) {
      FirstLine(verb, target, fields, content);
      LineBack(verb, target);
      HeadersBack(fields, content);
      assert s != "" by { assert s[|s| - |content| - 1] == '\n'; }
    }
  }

  /** What the caller of the client has to see to. */
  predicate Acceptable(c: Client, verb: string, path: string, header: seq<Field>) {
    Unbroken(verb) && Unbroken(path) && Free(c.host, '\n') && (c.proxied ==> Free(c.host, ' ')) &&
    !Indented(HostValue(c)) && AllContained(header) && NoneIndented(header)
  }

  lemma TargetUnbroken(c: Client, path: string)
    ensures Unbroken(FullTarget(c, path)) <==> Unbroken(path) && (c.proxied ==> Unbroken(c.host))
  {
    var prefix := "http://" + c.host + ":" + Decimal(c.port);
    var corrected := if path == "" then "/" else path;
    assert Unbroken(corrected) <==> Unbroken(path);
    if c.proxied {
      UnbrokenParts(prefix, corrected);
      UnbrokenParts("http://" + c.host + ":", Decimal(c.port));
      UnbrokenParts("http://" + c.host, ":");
      UnbrokenParts("http://", c.host);
    }
  }

  lemma UnbrokenParts(a: string, b: string)
    ensures Unbroken(a + b) <==> Unbroken(a) && Unbroken(b)
  {
    assert a == (a + b)[..|a|] && b == (a + b)[|a|..];
  }

  lemma HostContained(c: Client)
    ensures Contained(Field("Host", HostValue(c))) <==> Free(c.host, '\n')
  {
    var value := HostValue(c);
    assert forall i :: 0 <= i < |c.host| ==> value[i] == c.host[i];
  }

  /**
   The server reads the client's request, content included, exactly when the caller kept spaces and newlines out of
   the places where they separate.
   */
  lemma ServerReadsRequest(c: Client, verb: string, path: string, header: seq<Field>, content: string)
    ensures var target := FullTarget(c, path);
            var fields := AllFields(c, header, content);
            var read := Parsed(Printed(verb, target, fields) + "\r\n" + content);
            read == Some((Expected(verb, target, fields), content)) <==> Acceptable(c, verb, path, header)
  {
    hide Parsed, Printed, Expected, FullTarget, HostValue, Indented, Contained, Find, Free, Decimal;
    var target := FullTarget(c, path);
    var fields := AllFields(c, header, content);
    ParsePrinted(verb, target, fields, content);
    TargetUnbroken(c, path);
    HostContained(c);
    AnnouncedIsPlain(content);
    var host := Field("Host", HostValue(c));
    FieldsApart([host] + header, Announced(header, content));
    FieldsApart([host], header);
    assert [host][0] == host;
  }

  lemma FieldsApart(a: seq<Field>, b: seq<Field>)
    ensures AllContained(a + b) <==> AllContained(a) && AllContained(b)
    ensures NoneIndented(a + b) <==> NoneIndented(a) && NoneIndented(b)
  {
    hide Contained, Indented;
    var c := a + b;
    assert forall i :: 0 <= i < |b| ==> c[|a| + i] == b[i];
    assert forall i :: 0 <= i < |a| ==> c[i] == a[i];
  }

  lemma AnnouncedIsPlain(content: string)
    ensures var f := Field("Content-Length", Decimal(|content|)); Contained(f) && !Indented(f.value)
  {
    hide Decimal;
  }
}
