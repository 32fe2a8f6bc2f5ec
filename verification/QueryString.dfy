/** Query strings: fields joined by '&', names and percent-encoded values by '='. */
module QueryString {
  import opened Bytes
  import opened Percent
  import opened Text

  // ---- Creating ----

  function Pair(f: Field): string
    requires IsByteString(f.value)
  {
    f.name + "=" + Encoded(f.value)
  }

  predicate Encodable(fields: seq<Field>) { forall i :: 0 <= i < |fields| ==> IsByteString(fields[i].value) }

  /** What create returns. */
  function Created(fields: seq<Field>): string
    requires Encodable(fields)
  {
    if |fields| == 0 then []
    else if |fields| == 1 then Pair(fields[0])
    else Pair(fields[0]) + "&" + Created(fields[1..])
  }

  /** QueryString::create. */
  method Create(fields: seq<Field>) returns (result: string)
    requires Encodable(fields)
    ensures result == Created(fields)
  {
    hide Created, Encoded;
    result := [];
    var first := true;
    var i := 0;
    NothingCreated();
    while i < |fields|
      invariant 0 <= i <= |fields| && (first <==> i == 0)
      invariant result == Created(fields[..i])
    {
      CreatedStep(fields, i);
      var value := Encode(fields[i].value);
      result := result + (if !first then "&" else "") + fields[i].name + "=" + value;
      first := false;
      i := i + 1;
    }
    assert fields[..i] == fields;
  }

  lemma NothingCreated()
    ensures Created([]) == ""
  {}

  /** One turn of create's loop. */
  lemma CreatedStep(fields: seq<Field>, i: nat)
    requires Encodable(fields) && i < |fields|
    ensures Created(fields[..i + 1]) ==
            Created(fields[..i]) + (if i != 0 then "&" else "") + Pair(fields[i])
  {
    hide Pair;
    CreatedSnoc(fields[..i], fields[i]);
    assert fields[..i + 1] == fields[..i] + [fields[i]];
  }

  lemma {:induction false} CreatedSnoc(fields: seq<Field>, last: Field)
    requires Encodable(fields) && IsByteString(last.value)
    ensures Created(fields + [last]) == Created(fields) + (if fields != [] then "&" else "") + Pair(last)
  {
    hide Pair;
    if fields == [] {
      assert fields + [last] == [last];
    } else {
      var more := fields + [last];
      CreatedSnoc(fields[1..], last);
      assert more[1..] == fields[1..] + [last];
    }
  }

  // ---- Parsing ----

  /** The field in the text between two separators: split at the last '=', and dropped if it has no name. */
  function FieldOf(s: string): seq<Field> {
    var k := LastOf(s, '=');
    var name := if k.None? then s else s[..k.value];
    var value := if k.None? then "" else s[k.value + 1..];
    if name == "" then [] else [Field(name, Decoded(value))]
  }

  /** What parse returns. */
  function Parsed(s: string): seq<Field>
    decreases |s|
  {
    var k := FirstOf(s, '&');
    if k == |s| then FieldOf(s) else FieldOf(s[..k]) + Parsed(s[k + 1..])
  }

  /** The state of parse's loop: no separator since namePos, and nameEnd at the last '=' since then. */
  ghost predicate InField(s: string, namePos: nat, c: nat, nameEnd: Option<nat>) {
    namePos <= c <= |s| &&
    (forall i :: namePos <= i < c ==> s[i] != '&') &&
    (if nameEnd.None? then forall i :: namePos <= i < c ==> s[i] != '='
     else namePos <= nameEnd.value < c && s[nameEnd.value] == '=' &&
          forall i :: nameEnd.value < i < c ==> s[i] != '=')
  }

  /** The field between namePos and c, cut where the loop has found the last '='. */
  lemma FieldCut(s: string, namePos: nat, c: nat, nameEnd: Option<nat>)
    requires InField(s, namePos, c, nameEnd)
    ensures FieldOf(s[namePos..c]) ==
            var name := s[namePos..if nameEnd.None? then c else nameEnd.value];
            var value := if nameEnd.None? then "" else s[nameEnd.value + 1..c];
            if name == "" then [] else [Field(name, Decoded(value))]
  {
    hide Decoded;
    var field := s[namePos..c];
    if nameEnd.Some? {
      var k := nameEnd.value - namePos;
      LastOfIs(field, '=', k);
      assert field[..k] == s[namePos..nameEnd.value] && field[k + 1..] == s[nameEnd.value + 1..c];
    }
  }

  /** What is left to parse, split at the next separator or taken to the end. */
  lemma ParsedCut(s: string, namePos: nat, c: nat)
    requires namePos <= c <= |s| && (forall i :: namePos <= i < c ==> s[i] != '&') && (c < |s| ==> s[c] == '&')
    ensures Parsed(s[namePos..]) == FieldOf(s[namePos..c]) + if c < |s| then Parsed(s[c + 1..]) else []
  {
    hide FieldOf;
    var rest := s[namePos..];
    FirstOfIs(rest, '&', c - namePos);
    assert rest[..c - namePos] == s[namePos..c];
    if c < |s| {
      assert rest[c - namePos + 1..] == s[c + 1..];
    } else {
      assert rest == s[namePos..c];
    }
  }

  /** QueryString::parse. */
  method Parse(queryString: string) returns (result: seq<Field>)
    ensures result == Parsed(queryString)
  {
    hide Parsed, FieldOf, Decoded;
    result := [];
    if queryString == "" {
      NothingParsed();
      return;
    }
    var namePos := 0;
    var nameEnd: Option<nat> := None;
    var c := 0;
    assert queryString[0..] == queryString;
    while c < |queryString|
      invariant InField(queryString, namePos, c, nameEnd)
      invariant result + Parsed(queryString[namePos..]) == Parsed(queryString)
    {
      if queryString[c] == '&' {
        ParsedCut(queryString, namePos, c);
        FieldCut(queryString, namePos, c, nameEnd);
        var name := queryString[namePos..if nameEnd.None? then c else nameEnd.value];
        if name != "" {
          var value := if nameEnd.None? then "" else queryString[nameEnd.value + 1..c];
          var decoded := Decode(value);
          result := result + [Field(name, decoded)];
        }
        namePos := c + 1;
        nameEnd := None;
      } else if queryString[c] == '=' {
        nameEnd := Some(c);
      }
      c := c + 1;
    }
    ParsedCut(queryString, namePos, c);
    FieldCut(queryString, namePos, c, nameEnd);
    assert queryString[..c] == queryString;
    if namePos < |queryString| {
      var name := queryString[namePos..if nameEnd.None? then |queryString| else nameEnd.value];
      if name != "" {
        var value := if nameEnd.None? then "" else queryString[nameEnd.value + 1..];
        var decoded := Decode(value);
        result := result + [Field(name, decoded)];
      }
    }
  }

  // ---- Parsing undoes creating ----

  /** A name that survives: not empty, and in one piece between separators. */
  predicate PlainName(name: string) { name != "" && forall i :: 0 <= i < |name| ==> name[i] != '&' }

  predicate PlainNames(fields: seq<Field>) { forall i :: 0 <= i < |fields| ==> PlainName(fields[i].name) }

  lemma PairIsOneField(f: Field)
    requires PlainName(f.name) && IsByteString(f.value)
    ensures FieldOf(Pair(f)) == [f]
    ensures forall i :: 0 <= i < |Pair(f)| ==> Pair(f)[i] != '&'
  {
    hide Encoded, Decoded;
    var s := Pair(f);
    forall i | 0 <= i < |Encoded(f.value)|
      ensures Encoded(f.value)[i] != '&' && Encoded(f.value)[i] != '='
    {
      EncodedIsPlain(f.value, i);
    }
    LastOfIs(s, '=', |f.name|);
    assert s[..|f.name|] == f.name && s[|f.name| + 1..] == Encoded(f.value);
    DecodeEncoded(f.value);
  }

  lemma {:induction false} ParsePlain(fields: seq<Field>)
    requires Encodable(fields) && PlainNames(fields)
    ensures Parsed(Created(fields)) == fields
  {
    hide FieldOf, Pair;
    var s := Created(fields);
    if |fields| == 0 {
      NothingParsed();
    } else {
      var first := Pair(fields[0]);
      PairIsOneField(fields[0]);
      FirstOfIs(s, '&', |first|);
      if |fields| > 1 {
        ParsePlain(fields[1..]);
        assert s[..|first|] == first && s[|first| + 1..] == Created(fields[1..]);
      }
    }
  }

  lemma NothingParsed()
    ensures Parsed("") == []
  {}

  /** Whatever is parsed, no name comes out empty or with a separator in it. */
  lemma {:induction false} ParsedNamesArePlain(s: string)
    ensures PlainNames(Parsed(s))
    decreases |s|
  {
    hide Decoded;
    var k := FirstOf(s, '&');
    if k < |s| {
      ParsedNamesArePlain(s[k + 1..]);
      assert PlainNames(FieldOf(s[..k]));
    }
  }

  /** Parsing undoes creating exactly when every name is non-empty and free of '&'; '=' and every value survive. */
  lemma ParseCreated(fields: seq<Field>)
    requires Encodable(fields)
    ensures Parsed(Created(fields)) == fields <==> PlainNames(fields)
  {
    hide Parsed, Created;
    ParsedNamesArePlain(Created(fields));
    if PlainNames(fields) {
      ParsePlain(fields);
    }
  }
}
