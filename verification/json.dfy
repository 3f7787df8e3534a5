/**
 * The part of JSON that the theme store uses: `JSON.stringify` of a flat record whose
 * fields are all strings, and `JSON.parse` of an object whose member values are strings.
 * Characters are Unicode scalar values, so the lone-surrogate escapes of `JSON.stringify`
 * never arise, and a `\u` escape naming a surrogate is rejected by the parser.
 */
module Json {
  import opened Wrappers

  /** The members of a flat object, in text order: (key, string value). */
  type Fields = seq<(string, string)>

  // ---------------------------------------------------------------- hex digits

  function HexValue(c: char): (r: Option<nat>)
    ensures r.Some? ==> r.value < 16
  {
    if '0' <= c <= '9' then Some(c as int - '0' as int)
    else if 'a' <= c <= 'f' then Some(c as int - 'a' as int + 10)
    else if 'A' <= c <= 'F' then Some(c as int - 'A' as int + 10)
    else None
  }

  /** The lower-case hex digit `JSON.stringify` writes for `d`. */
  function HexDigit(d: nat): (c: char)
    requires d < 16
    ensures HexValue(c) == Some(d)
  {
    if d < 10 then ('0' as int + d) as char else ('a' as int + d - 10) as char
  }

  /** The value of four hex digits, if they are all hex digits. */
  function Hex4(s: string): (r: Option<nat>)
    requires |s| == 4
    ensures r.Some? ==> r.value < 0x1_0000
  {
    match (HexValue(s[0]), HexValue(s[1]), HexValue(s[2]), HexValue(s[3]))
    case (Some(a), Some(b), Some(c), Some(d)) => Some(((a * 16 + b) * 16 + c) * 16 + d)
    case _ => None
  }

  // ---------------------------------------------------------------- writing

  /** How `JSON.stringify` writes one character inside a string literal. */
  function EscapeChar(c: char): string
  {
    if c == '"' then "\\\""
    else if c == '\\' then "\\\\"
    else if c == 8 as char then "\\b"
    else if c == 12 as char then "\\f"
    else if c == '\n' then "\\n"
    else if c == '\r' then "\\r"
    else if c == '\t' then "\\t"
    else if c < ' ' then "\\u00" + [HexDigit(c as int / 16), HexDigit(c as int % 16)]
    else [c]
  }

  function Escape(s: string): string
  {
    if s == [] then [] else EscapeChar(s[0]) + Escape(s[1..])
  }

  /** `JSON.stringify` of a string. */
  function Quote(s: string): string
  {
    "\"" + Escape(s) + "\""
  }

  function Member(f: (string, string)): string
  {
    Quote(f.0) + ":" + Quote(f.1)
  }

  /** The members of a non-empty record, comma-separated, and the closing brace. */
  function Members(fs: Fields): (r: string)
    requires fs != []
  {
    Member(fs[0]) + (if |fs| == 1 then "}" else "," + Members(fs[1..]))
  }

  /** `JSON.stringify` of a flat record of strings: compact, members in the record's order. */
  function Stringify(fs: Fields): (r: string)
  {
    if fs == [] then "{}" else "{" + Members(fs)
  }

  // ---------------------------------------------------------------- reading

  predicate IsWs(c: char)
  {
    c == ' ' || c == '\t' || c == '\n' || c == '\r'
  }

  /** Drops the JSON whitespace at the front of `t`. */
  function SkipWs(t: string): (r: string)
    ensures |r| <= |t|
    ensures r == [] || !IsWs(r[0])
  {
    if t != [] && IsWs(t[0]) then SkipWs(t[1..]) else t
  }

  /** Reads the escape sequence that follows a backslash: the character it stands for and the rest. */
  function ParseEscape(t: string): (r: Option<(char, string)>)
    ensures r.Some? ==> |r.value.1| < |t|
  {
    if t == [] then None
    else if t[0] == '"' then Some(('"', t[1..]))
    else if t[0] == '\\' then Some(('\\', t[1..]))
    else if t[0] == '/' then Some(('/', t[1..]))
    else if t[0] == 'b' then Some((8 as char, t[1..]))
    else if t[0] == 'f' then Some((12 as char, t[1..]))
    else if t[0] == 'n' then Some(('\n', t[1..]))
    else if t[0] == 'r' then Some(('\r', t[1..]))
    else if t[0] == 't' then Some(('\t', t[1..]))
    else if t[0] == 'u' && |t| >= 5 then
      match Hex4(t[1..5])
      case Some(n) =>
        if n < 0xD800 || 0xE000 <= n then Some((n as char, t[5..])) else None
      case None => None
    else None
  }

  /**
   * Reads the characters of a string literal whose opening quote has been consumed:
   * the decoded string and the text after the closing quote. A raw control character
   * or an unknown escape is rejected, as JSON requires.
   */
  function ParseChars(t: string): (r: Option<(string, string)>)
    ensures r.Some? ==> |r.value.1| < |t|
    decreases |t|
  {
    if t == [] then None
    else if t[0] == '"' then Some(("", t[1..]))
    else if t[0] == '\\' then
      match ParseEscape(t[1..])
      case None => None
      case Some((c, t')) =>
        match ParseChars(t')
        case None => None
        case Some((s, rest)) => Some(([c] + s, rest))
    else if t[0] < ' ' then None
    else
      match ParseChars(t[1..])
      case None => None
      case Some((s, rest)) => Some(([t[0]] + s, rest))
  }

  /** Reads `"key" : "value"` at the front of `t`, and the whitespace after it. */
  function ParseMember(t: string): (r: Option<((string, string), string)>)
    ensures r.Some? ==> |r.value.1| < |t|
  {
    if t == [] || t[0] != '"' then None
    else
      match ParseChars(t[1..])
      case None => None
      case Some((k, r1)) =>
        var r2 := SkipWs(r1);
        if r2 == [] || r2[0] != ':' then None
        else
          var r3 := SkipWs(r2[1..]);
          if r3 == [] || r3[0] != '"' then None
          else
            match ParseChars(r3[1..])
            case None => None
            case Some((v, r4)) => Some(((k, v), SkipWs(r4)))
  }

  /** Reads `member (, member)* }` at the front of `t`: the members and the text after the brace. */
  function ParseMembers(t: string): (r: Option<(Fields, string)>)
    ensures r.Some? ==> |r.value.1| < |t|
    decreases |t|
  {
    match ParseMember(t)
    case None => None
    case Some((m, r1)) =>
      if r1 != [] && r1[0] == '}' then Some(([m], r1[1..]))
      else if r1 != [] && r1[0] == ',' then
        match ParseMembers(SkipWs(r1[1..]))
        case None => None
        case Some((ms, r2)) => Some(([m] + ms, r2))
      else None
  }

  /**
   * `JSON.parse` restricted to objects whose member values are strings. Any other text,
   * including well-formed JSON of another shape, gives None.
   */
  function ParseObject(text: string): Option<Fields>
  {
    var t1 := SkipWs(text);
    if t1 == [] || t1[0] != '{' then None
    else
      var t2 := SkipWs(t1[1..]);
      if t2 != [] && t2[0] == '}' then
        if SkipWs(t2[1..]) == [] then Some([]) else None
      else
        match ParseMembers(t2)
        case None => None
        case Some((fs, rest)) => if SkipWs(rest) == [] then Some(fs) else None
  }

  /** The value of property `key` of a parsed object; a repeated key keeps its last value. */
  function Lookup(fs: Fields, key: string): (r: Option<string>)
    ensures r.Some? <==> exists i :: 0 <= i < |fs| && fs[i].0 == key
    ensures r.Some? ==> exists i :: 0 <= i < |fs| && fs[i] == (key, r.value)
  {
    if fs == [] then None
    else
      match Lookup(fs[1..], key)
      case Some(v) => Some(v)
      case None => if fs[0].0 == key then Some(fs[0].1) else None
  }

  /** The parsed object has every one of the property names `keys`. */
  predicate HasAll(fs: Fields, keys: seq<string>)
  {
    forall k :: k in keys ==> Lookup(fs, k).Some?
  }

  /** Reading each property named in `expected` from the parsed object gives the value paired with it. */
  predicate ReadsAs(fs: Fields, expected: Fields)
  {
    forall i :: 0 <= i < |expected| ==> Lookup(fs, expected[i].0) == Some(expected[i].1)
  }

  /** When a key is repeated, the value read is that of its last occurrence, as with `JSON.parse`. */
  lemma {:induction false} LookupLastWins(fs: Fields, key: string)
    requires Lookup(fs, key).Some?
    ensures exists i :: 0 <= i < |fs| && fs[i] == (key, Lookup(fs, key).value) &&
                        forall j :: i < j < |fs| ==> fs[j].0 != key
  {
    if Lookup(fs[1..], key).Some? {
      LookupLastWins(fs[1..], key);
      var i :| 0 <= i < |fs[1..]| && fs[1..][i] == (key, Lookup(fs, key).value) &&
               forall j :: i < j < |fs[1..]| ==> fs[1..][j].0 != key;
      assert fs[i + 1] == (key, Lookup(fs, key).value);
      assert forall j :: i + 1 < j < |fs| ==> fs[j].0 != key by {
        forall j | i + 1 < j < |fs| ensures fs[j].0 != key {
          assert fs[j] == fs[1..][j - 1];
        }
      }
    } else {
      assert forall j :: 0 < j < |fs| ==> fs[j].0 != key by {
        forall j | 0 < j < |fs| ensures fs[j].0 != key {
          assert fs[1..][j - 1] == fs[j];
        }
      }
    }
  }

  // ---------------------------------------------------------------- round trip

  /** Each escaped character is either itself, plain, or a backslash escape that reads back as it. */
  lemma EscapeCharReadsBack(c: char, tail: string)
    ensures var e := EscapeChar(c);
      || (e == [c] && c != '"' && c != '\\' && c >= ' ')
      || (|e| >= 2 && e[0] == '\\' && ParseEscape(e[1..] + tail) == Some((c, tail)))
  {
    var e := EscapeChar(c);
    if c < ' ' && c != 8 as char && c != 12 as char && c != '\n' && c != '\r' && c != '\t' {
      var hi, lo := c as int / 16, c as int % 16;
      var t := e[1..] + tail;
      assert t[1..5] == ['0', '0', HexDigit(hi), HexDigit(lo)];
      assert Hex4(t[1..5]) == Some(c as int);
      assert t[5..] == tail;
    } else if c == '"' || c == '\\' || c == 8 as char || c == 12 as char || c == '\n' || c == '\r' || c == '\t' {
      assert (e[1..] + tail)[1..] == tail;
    }
  }

  lemma {:induction false} ParseCharsReadsBack(s: string, rest: string)
    ensures ParseChars(Escape(s) + "\"" + rest) == Some((s, rest))
  {
    if s == [] {
      assert Escape(s) + "\"" + rest == "\"" + rest;
    } else {
      var c, t := s[0], Escape(s[1..]) + "\"" + rest;
      var e := EscapeChar(c);
      assert Escape(s) + "\"" + rest == e + t;
      ParseCharsReadsBack(s[1..], rest);
      EscapeCharReadsBack(c, t);
      if e == [c] && c != '"' && c != '\\' && c >= ' ' {
        assert (e + t)[1..] == t;
      } else {
        assert (e + t)[1..] == e[1..] + t;
      }
      assert [c] + s[1..] == s;
    }
  }

  lemma SkipNoWs(t: string)
    requires t == [] || !IsWs(t[0])
    ensures SkipWs(t) == t
  {
  }

  lemma QuoteReadsBack(s: string, rest: string)
    ensures |Quote(s) + rest| > 0 && (Quote(s) + rest)[0] == '"'
    ensures ParseChars((Quote(s) + rest)[1..]) == Some((s, rest))
  {
    assert (Quote(s) + rest)[1..] == Escape(s) + "\"" + rest;
    ParseCharsReadsBack(s, rest);
  }

  /** The steps `ParseMember` takes, stated on their intermediate texts. */
  lemma ParseMemberSteps(t: string, k: string, r1: string, v: string, rest: string)
    requires t != [] && t[0] == '"' && ParseChars(t[1..]) == Some((k, r1))
    requires r1 != [] && r1[0] == ':' && r1[1..] != [] && r1[1] == '"'
    requires ParseChars(r1[2..]) == Some((v, rest))
    requires rest == [] || !IsWs(rest[0])
    ensures ParseMember(t) == Some(((k, v), rest))
  {
    SkipNoWs(r1);
    SkipNoWs(r1[1..]);
    SkipNoWs(rest);
    assert r1[1..][1..] == r1[2..];
  }

  lemma MemberShape(f: (string, string), rest: string)
    ensures Member(f) + rest == Quote(f.0) + (":" + (Quote(f.1) + rest))
  {
  }

  lemma MemberReadsBack(f: (string, string), rest: string)
    requires rest == [] || !IsWs(rest[0])
    ensures ParseMember(Member(f) + rest) == Some((f, rest))
  {
    var t := Member(f) + rest;
    var r3 := Quote(f.1) + rest;
    var r1 := ":" + r3;
    MemberShape(f, rest);
    QuoteReadsBack(f.0, r1);
    QuoteReadsBack(f.1, rest);
    assert r1[2..] == r3[1..];
    ParseMemberSteps(t, f.0, r1, f.1, rest);
  }

  /** The steps `ParseMembers` takes after one member, stated on the text that follows it. */
  lemma ParseMembersSteps(t: string, m: (string, string), r1: string, ms: Fields, rest: string)
    requires ParseMember(t) == Some((m, r1))
    requires r1 != [] && (r1[0] == '}' || r1[0] == ',')
    requires r1[0] == '}' ==> ms == [] && rest == r1[1..]
    requires r1[0] == ',' ==> ParseMembers(SkipWs(r1[1..])) == Some((ms, rest))
    ensures ParseMembers(t) == Some(([m] + ms, rest))
  {
    assert [m] + [] == [m];
  }

  lemma MembersShape(fs: Fields, rest: string)
    requires fs != []
    ensures |fs| == 1 ==> Members(fs) + rest == Member(fs[0]) + ("}" + rest)
    ensures |fs| > 1 ==> Members(fs) + rest == Member(fs[0]) + ("," + (Members(fs[1..]) + rest))
  {
    var m := Member(fs[0]);
    if |fs| == 1 {
      Assoc(m, "}", rest);
    } else {
      Assoc(m, "," + Members(fs[1..]), rest);
      Assoc(",", Members(fs[1..]), rest);
    }
  }

  lemma {:induction false} MembersReadBack(fs: Fields, rest: string)
    requires fs != []
    ensures ParseMembers(Members(fs) + rest) == Some((fs, rest))
  {
    var t := Members(fs) + rest;
    MembersShape(fs, rest);
    if |fs| == 1 {
      MemberReadsBack(fs[0], "}" + rest);
      assert ("}" + rest)[1..] == rest;
      ParseMembersSteps(t, fs[0], "}" + rest, [], rest);
    } else {
      var tail := Members(fs[1..]) + rest;
      MemberReadsBack(fs[0], "," + tail);
      assert ("," + tail)[1..] == tail;
      MembersStartWithQuote(fs[1..]);
      SkipNoWs(tail);
      MembersReadBack(fs[1..], rest);
      ParseMembersSteps(t, fs[0], "," + tail, fs[1..], rest);
    }
    assert [fs[0]] + fs[1..] == fs;
  }

  lemma Assoc(a: string, b: string, c: string)
    ensures a + b + c == a + (b + c)
  {
  }

  lemma MembersStartWithQuote(fs: Fields)
    requires fs != []
    ensures |Members(fs)| > 0 && Members(fs)[0] == '"'
  {
  }

  /** Reading back what `Stringify` wrote gives the same members, in the same order. */
  lemma ParseStringify(fs: Fields)
    ensures ParseObject(Stringify(fs)) == Some(fs)
  {
    var text := Stringify(fs);
    assert SkipWs(text) == text;
    if fs == [] {
      assert text[1..] == "}";
    } else {
      MembersStartWithQuote(fs);
      assert text[1..] == Members(fs) + "";
      SkipNoWs(text[1..]);
      MembersReadBack(fs, "");
    }
  }

  /** A key that occurs once is looked up to its own value. */
  lemma {:induction false} LookupSingle(fs: Fields, i: nat)
    requires i < |fs|
    requires forall j :: 0 <= j < |fs| && j != i ==> fs[j].0 != fs[i].0
    ensures Lookup(fs, fs[i].0) == Some(fs[i].1)
  {
    if i > 0 {
      LookupSingle(fs[1..], i - 1);
    } else if |fs| > 1 {
      assert Lookup(fs[1..], fs[0].0).None?;
    }
  }
}
