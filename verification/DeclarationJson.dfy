/** The slice of JSON the `Declaracao` column needs: `JSON.stringify` of a
    flat object and `JSON.parse` of text made of one object whose member
    values are `true`, `false`, `null` or strings without escapes (or of one
    such scalar alone). */
module DeclarationJson {
  import opened Common

  datatype Json = JNull | JBool(b: bool) | JStr(s: string) | JObject(members: seq<Member>)

  datatype Member = Member(key: string, value: Json)

  predicate IsWs(c: char)
  {
    c == ' ' || c == '\t' || c == '\n' || c == '\r'
  }

  /** Characters a string literal may hold without an escape. */
  predicate PlainChar(c: char)
  {
    c != '"' && c != '\\' && c >= ' '
  }

  predicate Plain(s: string)
    decreases |s|
  {
    s == [] || (PlainChar(s[0]) && Plain(s[1..]))
  }

  /** `Plain` character by character. */
  lemma {:induction false} PlainChars(s: string)
    requires forall i :: 0 <= i < |s| ==> PlainChar(s[i])
    ensures Plain(s)
    decreases |s|
  {
    if s != [] {
      assert forall i :: 0 <= i < |s[1..]| ==> s[1..][i] == s[i + 1];
      PlainChars(s[1..]);
    }
  }

  function SkipWs(s: string): (r: string)
    ensures |r| <= |s|
    ensures r == [] || !IsWs(r[0])
    decreases |s|
  {
    if s != [] && IsWs(s[0]) then SkipWs(s[1..]) else s
  }

  /** The body of a string literal up to its closing quote, and what follows. */
  function ScanString(s: string, acc: string): (r: Option<(string, string)>)
    ensures r.Some? ==> |r.value.1| < |s|
    decreases |s|
  {
    if s == [] then None
    else if s[0] == '"' then Some((acc, s[1..]))
    else if !PlainChar(s[0]) then None
    else ScanString(s[1..], acc + [s[0]])
  }

  function ParseString(s: string): (r: Option<(string, string)>)
    ensures r.Some? ==> |r.value.1| < |s|
  {
    if s != [] && s[0] == '"' then ScanString(s[1..], []) else None
  }

  /** A scalar value: one of the three literals or a string. */
  function ParseScalar(s: string): (r: Option<(Json, string)>)
    ensures r.Some? ==> |r.value.1| < |s|
    ensures r.Some? ==> !r.value.0.JObject?
  {
    if StartsWith(s, "true") then Some((JBool(true), s[4..]))
    else if StartsWith(s, "false") then Some((JBool(false), s[5..]))
    else if StartsWith(s, "null") then Some((JNull, s[4..]))
    else match ParseString(s)
         case Some((str, rest)) => Some((JStr(str), rest))
         case None => None
  }

  /** `"key" : value` with optional whitespace around the colon. */
  function ParseMember(s: string): (r: Option<(Member, string)>)
    ensures r.Some? ==> |r.value.1| < |s|
  {
    match ParseString(SkipWs(s))
    case None => None
    case Some((key, rest)) =>
      var t := SkipWs(rest);
      if t != [] && t[0] == ':' then
        match ParseScalar(SkipWs(t[1..]))
        case None => None
        case Some((v, rest')) => Some((Member(key, v), rest'))
      else None
  }

  /** Members separated by commas, up to and including the closing brace. */
  function ParseMembers(s: string, acc: seq<Member>): (r: Option<(seq<Member>, string)>)
    ensures r.Some? ==> |r.value.1| < |s|
    decreases |s|
  {
    match ParseMember(s)
    case None => None
    case Some((m, rest)) =>
      var t := SkipWs(rest);
      if t != [] && t[0] == ',' then ParseMembers(t[1..], acc + [m])
      else if t != [] && t[0] == '}' then Some((acc + [m], t[1..]))
      else None
  }

  /** An object after its opening brace. */
  function ParseObject(s: string): (r: Option<(Json, string)>)
    ensures r.Some? ==> |r.value.1| < |s|
  {
    var t := SkipWs(s);
    if t != [] && t[0] == '}' then Some((JObject([]), t[1..]))
    else match ParseMembers(t, [])
         case None => None
         case Some((ms, rest)) => Some((JObject(ms), rest))
  }

  /** `JSON.parse(text)`; `None` where it would throw. */
  function Parse(text: string): Option<Json>
  {
    var t := SkipWs(text);
    var parsed := if t != [] && t[0] == '{' then ParseObject(t[1..]) else ParseScalar(t);
    match parsed
    case None => None
    case Some((v, rest)) => if SkipWs(rest) == [] then Some(v) else None
  }

  /** `parsed.key`: the last member with that key (later duplicates win); a
      scalar has no properties. */
  function Get(j: Json, key: string): Option<Json>
  {
    if j.JObject? then LastValue(j.members, key) else None
  }

  function LastValue(ms: seq<Member>, key: string): (r: Option<Json>)
    ensures r.Some? <==> exists i :: 0 <= i < |ms| && ms[i].key == key
    decreases |ms|
  {
    if ms == [] then None
    else if ms[|ms| - 1].key == key then Some(ms[|ms| - 1].value)
    else LastValue(ms[..|ms| - 1], key)
  }

  /** JavaScript truthiness of a property read (`undefined` is `None`). */
  predicate Truthy(v: Option<Json>)
  {
    match v
    case None => false
    case Some(JNull) => false
    case Some(JBool(b)) => b
    case Some(JStr(s)) => s != ""
    case Some(JObject(_)) => true
  }

  // ---- JSON.stringify for flat objects -------------------------------

  function Quote(s: string): string
  {
    ['"'] + s + ['"']
  }

  predicate EncodableScalar(v: Json)
  {
    match v
    case JStr(s) => Plain(s)
    case JObject(_) => false
    case _ => true
  }

  predicate Encodable(ms: seq<Member>)
    decreases |ms|
  {
    ms == [] || (Plain(ms[0].key) && EncodableScalar(ms[0].value) && Encodable(ms[1..]))
  }

  function EncodeScalar(v: Json): string
  {
    match v
    case JNull => "null"
    case JBool(b) => if b then "true" else "false"
    case JStr(s) => Quote(s)
    case JObject(_) => "{}"
  }

  function EncodeMember(m: Member): string
  {
    Quote(m.key) + ":" + EncodeScalar(m.value)
  }

  function EncodeMembers(ms: seq<Member>): string
    decreases |ms|
  {
    if ms == [] then ""
    else if |ms| == 1 then EncodeMember(ms[0])
    else EncodeMember(ms[0]) + "," + EncodeMembers(ms[1..])
  }

  /** `JSON.stringify` of a flat object: no whitespace, members in order. */
  function Encode(ms: seq<Member>): string
  {
    "{" + EncodeMembers(ms) + "}"
  }

  // ---- parse(stringify(x)) == x ---------------------------------------

  lemma {:induction false} ScanPlain(body: string, acc: string, rest: string)
    requires Plain(body)
    ensures ScanString(body + ['"'] + rest, acc) == Some((acc + body, rest))
    decreases |body|
  {
    var s := body + ['"'] + rest;
    if body == [] {
      assert s[0] == '"' && s[1..] == rest;
      assert acc + body == acc;
    } else {
      assert s[0] == body[0] && PlainChar(body[0]);
      assert s[1..] == body[1..] + ['"'] + rest;
      ScanPlain(body[1..], acc + [body[0]], rest);
      assert acc + [body[0]] + body[1..] == acc + body;
    }
  }

  lemma ParseQuoted(str: string, rest: string)
    requires Plain(str)
    ensures ParseString(Quote(str) + rest) == Some((str, rest))
  {
    var s := Quote(str) + rest;
    assert s == ['"'] + (str + ['"'] + rest);
    assert s[0] == '"';
    assert s[1..] == str + ['"'] + rest;
    ScanPlain(str, [], rest);
    assert [] + str == str;
  }

  lemma NotStartsWith(s: string, p: string)
    requires s != [] && p != [] && s[0] != p[0]
    ensures !StartsWith(s, p)
  {
    if |p| <= |s| {
      assert s[..|p|][0] == s[0];
    }
  }

  lemma StartsWithConcat(p: string, rest: string)
    ensures StartsWith(p + rest, p) && (p + rest)[|p|..] == rest
  {
    assert (p + rest)[..|p|] == p;
  }

  lemma ParseEncodedScalar(v: Json, rest: string)
    requires EncodableScalar(v)
    ensures ParseScalar(EncodeScalar(v) + rest) == Some((v, rest))
  {
    var s := EncodeScalar(v) + rest;
    match v
    case JNull =>
      NotStartsWith(s, "true");
      NotStartsWith(s, "false");
      StartsWithConcat("null", rest);
    case JBool(b) =>
      if b {
        StartsWithConcat("true", rest);
      } else {
        NotStartsWith(s, "true");
        StartsWithConcat("false", rest);
      }
    case JStr(str) =>
      assert s[0] == '"';
      NotStartsWith(s, "true");
      NotStartsWith(s, "false");
      NotStartsWith(s, "null");
      ParseQuoted(str, rest);
  }

  lemma SkipNoWs(s: string)
    requires s != [] && !IsWs(s[0])
    ensures SkipWs(s) == s
  {
  }

  /** The encoding of a scalar starts with a character that is not whitespace. */
  lemma ScalarStart(v: Json)
    ensures EncodeScalar(v) != [] && !IsWs(EncodeScalar(v)[0])
  {
  }

  lemma Regroup3(a: string, b: string, c: string, rest: string)
    ensures a + b + c + rest == a + (b + (c + rest))
  {
  }

  /** `ParseMember` in three steps: the key, the colon, the value. */
  lemma MemberSteps(s: string, key: string, tail: string, v: Json, rest: string)
    requires ParseString(SkipWs(s)) == Some((key, tail))
    requires tail != [] && tail[0] == ':'
    requires ParseScalar(SkipWs(tail[1..])) == Some((v, rest))
    ensures ParseMember(s) == Some((Member(key, v), rest))
  {
    SkipNoWs(tail);
  }

  lemma ParseEncodedMember(m: Member, rest: string)
    requires Plain(m.key) && EncodableScalar(m.value)
    ensures ParseMember(EncodeMember(m) + rest) == Some((m, rest))
  {
    var value := EncodeScalar(m.value);
    var after := value + rest;
    var tail := ":" + after;
    var s := EncodeMember(m) + rest;
    Regroup3(Quote(m.key), ":", value, rest);
    assert s == Quote(m.key) + tail;
    assert s[0] == '"';
    assert tail[1..] == after;
    ScalarStart(m.value);
    assert after[0] == value[0];
    SkipNoWs(s);
    SkipNoWs(after);
    ParseQuoted(m.key, tail);
    ParseEncodedScalar(m.value, rest);
    MemberSteps(s, m.key, tail, m.value, rest);
  }

  /** One member followed by a comma: parsing goes on after the comma. */
  lemma MembersComma(s: string, acc: seq<Member>, m: Member, tail: string)
    requires ParseMember(s) == Some((m, "," + tail))
    ensures ParseMembers(s, acc) == ParseMembers(tail, acc + [m])
  {
    SkipNoWs("," + tail);
    assert ("," + tail)[1..] == tail;
  }

  /** One member followed by the closing brace ends the object. */
  lemma MembersClose(s: string, acc: seq<Member>, m: Member, rest: string)
    requires ParseMember(s) == Some((m, "}" + rest))
    ensures ParseMembers(s, acc) == Some((acc + [m], rest))
  {
    SkipNoWs("}" + rest);
    assert ("}" + rest)[1..] == rest;
  }

  lemma SplitOne(ms: seq<Member>, rest: string)
    requires |ms| == 1
    ensures EncodeMembers(ms) + "}" + rest == EncodeMember(ms[0]) + ("}" + rest)
  {
  }

  lemma SplitMany(ms: seq<Member>, rest: string)
    requires |ms| >= 2
    ensures EncodeMembers(ms) + "}" + rest ==
            EncodeMember(ms[0]) + ("," + (EncodeMembers(ms[1..]) + "}" + rest))
  {
    var a, b := EncodeMember(ms[0]), EncodeMembers(ms[1..]);
    Regroup(a, ",", b, "}", rest);
  }

  lemma Regroup(a: string, c: string, b: string, d: string, rest: string)
    ensures a + c + b + d + rest == a + (c + (b + d + rest))
  {
  }

  lemma LastMember(m: Member, acc: seq<Member>, rest: string)
    requires Plain(m.key) && EncodableScalar(m.value)
    ensures ParseMembers(EncodeMember(m) + ("}" + rest), acc) == Some((acc + [m], rest))
  {
    ParseEncodedMember(m, "}" + rest);
    MembersClose(EncodeMember(m) + ("}" + rest), acc, m, rest);
  }

  lemma NextMember(m: Member, acc: seq<Member>, tail: string)
    requires Plain(m.key) && EncodableScalar(m.value)
    ensures ParseMembers(EncodeMember(m) + ("," + tail), acc) == ParseMembers(tail, acc + [m])
  {
    ParseEncodedMember(m, "," + tail);
    MembersComma(EncodeMember(m) + ("," + tail), acc, m, tail);
  }

  // The sequence identities are established before the parser facts enter
  // the context; the other order costs the solver far more.
  lemma {:induction false} ParseEncodedMembers(ms: seq<Member>, acc: seq<Member>, rest: string)
    requires ms != [] && Encodable(ms)
    ensures ParseMembers(EncodeMembers(ms) + "}" + rest, acc) == Some((acc + ms, rest))
    decreases |ms|
  {
    var m := ms[0];
    if |ms| == 1 {
      assert acc + [m] == acc + ms;
      SplitOne(ms, rest);
      LastMember(m, acc, rest);
    } else {
      assert acc + [m] + ms[1..] == acc + ms;
      var tail := EncodeMembers(ms[1..]) + "}" + rest;
      SplitMany(ms, rest);
      NextMember(m, acc, tail);
      ParseEncodedMembers(ms[1..], acc + [m], rest);
    }
  }

  lemma EncodedMembersStart(ms: seq<Member>)
    requires ms != []
    ensures EncodeMembers(ms) != [] && EncodeMembers(ms)[0] == '"'
  {
    var first := EncodeMember(ms[0]);
    assert first == ['"'] + (ms[0].key + ['"'] + ":" + EncodeScalar(ms[0].value));
    if |ms| >= 2 {
      var rest := "," + EncodeMembers(ms[1..]);
      assert EncodeMembers(ms) == first + rest;
      assert (first + rest)[0] == first[0];
    }
  }

  /** `ParseObject` on a non-empty member list. */
  lemma ObjectSteps(t: string, ms: seq<Member>, rest: string)
    requires t != [] && t[0] == '"'
    requires ParseMembers(t, []) == Some((ms, rest))
    ensures ParseObject(t) == Some((JObject(ms), rest))
  {
    SkipNoWs(t);
  }

  lemma ParseEncodedObject(ms: seq<Member>)
    requires Encodable(ms)
    ensures ParseObject(EncodeMembers(ms) + "}") == Some((JObject(ms), ""))
  {
    var body := EncodeMembers(ms) + "}";
    if ms == [] {
      assert body == "}";
    } else {
      assert EncodeMembers(ms) + "}" + "" == body;
      assert [] + ms == ms;
      EncodedMembersStart(ms);
      assert body[0] == '"';
      ParseEncodedMembers(ms, [], "");
      ObjectSteps(body, ms, "");
    }
  }

  /** `Parse` on text that starts with an opening brace. */
  lemma ParseSteps(text: string, j: Json)
    requires text != [] && text[0] == '{'
    requires ParseObject(text[1..]) == Some((j, ""))
    ensures Parse(text) == Some(j)
  {
    SkipNoWs(text);
  }

  lemma EncodeShape(ms: seq<Member>)
    ensures Encode(ms) != [] && Encode(ms)[0] == '{'
    ensures Encode(ms)[1..] == EncodeMembers(ms) + "}"
  {
  }

  /** Parsing what `Encode` wrote gives back the same object. */
  lemma RoundTrip(ms: seq<Member>)
    requires Encodable(ms)
    ensures Parse(Encode(ms)) == Some(JObject(ms))
  {
    EncodeShape(ms);
    ParseEncodedObject(ms);
    ParseSteps(Encode(ms), JObject(ms));
  }

  // ---- what JSON.parse yields can be written back ---------------------

  /** Every member value is a scalar `JSON.stringify` writes back. */
  predicate ScalarValues(ms: seq<Member>)
  {
    forall i :: 0 <= i < |ms| ==> EncodableScalar(ms[i].value)
  }

  lemma {:induction false} PlainAt(s: string, i: int)
    requires Plain(s) && 0 <= i < |s|
    ensures PlainChar(s[i])
    decreases |s|
  {
    if i > 0 {
      PlainAt(s[1..], i - 1);
    }
  }

  /** The body of a string literal holds plain characters only. */
  lemma {:induction false} ScanYieldsPlain(s: string, acc: string)
    requires Plain(acc)
    ensures ScanString(s, acc).Some? ==> Plain(ScanString(s, acc).value.0)
    decreases |s|
  {
    if s != [] && s[0] != '"' && PlainChar(s[0]) {
      var acc' := acc + [s[0]];
      forall i | 0 <= i < |acc'|
        ensures PlainChar(acc'[i])
      {
        if i < |acc| {
          PlainAt(acc, i);
        }
      }
      PlainChars(acc');
      ScanYieldsPlain(s[1..], acc');
    }
  }

  lemma ParsedScalarEncodable(s: string)
    ensures ParseScalar(s).Some? ==> EncodableScalar(ParseScalar(s).value.0)
  {
    if s != [] && s[0] == '"' {
      ScanYieldsPlain(s[1..], []);
    }
  }

  lemma ParsedMemberEncodable(s: string)
    ensures ParseMember(s).Some? ==> EncodableScalar(ParseMember(s).value.0.value)
  {
    match ParseString(SkipWs(s))
    case None =>
    case Some((key, rest)) =>
      var t := SkipWs(rest);
      if t != [] && t[0] == ':' {
        ParsedScalarEncodable(SkipWs(t[1..]));
      }
  }

  lemma {:induction false} ParsedMembersEncodable(s: string, acc: seq<Member>)
    requires ScalarValues(acc)
    ensures ParseMembers(s, acc).Some? ==> ScalarValues(ParseMembers(s, acc).value.0)
    decreases |s|
  {
    match ParseMember(s)
    case None =>
    case Some((m, rest)) =>
      ParsedMemberEncodable(s);
      var t := SkipWs(rest);
      assert ScalarValues(acc + [m]);
      if t != [] && t[0] == ',' {
        ParsedMembersEncodable(t[1..], acc + [m]);
      }
  }

  /** The value `LastValue` finds is the value of one of the members. */
  lemma {:induction false} LastValueMember(ms: seq<Member>, key: string)
    ensures LastValue(ms, key).Some? ==> exists i :: 0 <= i < |ms| && ms[i].value == LastValue(ms, key).value
    decreases |ms|
  {
    if ms != [] && ms[|ms| - 1].key != key {
      var front := ms[..|ms| - 1];
      LastValueMember(front, key);
      if LastValue(front, key).Some? {
        var i :| 0 <= i < |front| && front[i].value == LastValue(front, key).value;
        assert ms[i] == front[i];
      }
    }
  }

  /** Whatever property `JSON.parse`'s result has is a scalar that
      `JSON.stringify` writes back: an object's members are never nested,
      and a string never needs an escape. */
  lemma ParsedValuesEncodable(text: string, key: string)
    ensures Parse(text).Some? && Get(Parse(text).value, key).Some? ==>
              EncodableScalar(Get(Parse(text).value, key).value)
  {
    var t := SkipWs(text);
    if t != [] && t[0] == '{' {
      var u := SkipWs(t[1..]);
      if !(u != [] && u[0] == '}') {
        ParsedMembersEncodable(u, []);
      }
    }
    if Parse(text).Some? && Parse(text).value.JObject? {
      LastValueMember(Parse(text).value.members, key);
    }
  }
}
