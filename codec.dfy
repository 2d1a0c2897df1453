/** The text codec for the arguments of a log line: a JSON array of scalars,
    as `serde_json` reads it.  Only the part of JSON the log uses is here:
    `null`, integers and strings, and one array around them. */
module Codec {
  import opened Wrappers
  import opened Decimal

  datatype Value = Null | Num(n: int) | Str(s: string)

  // ---------------------------------------------------------------- writing

  function EncodeInt(n: int): string
  {
    if n < 0 then "-" + ShowNat(-n) else ShowNat(n)
  }

  function EscapeChar(c: char): string
  {
    if c == '"' then "\\\""
    else if c == '\\' then "\\\\"
    else if c == '\n' then "\\n"
    else if c == '\r' then "\\r"
    else if c == '\t' then "\\t"
    else [c]
  }

  function Escape(s: string): string
  {
    if s == [] then [] else EscapeChar(s[0]) + Escape(s[1..])
  }

  function Encode(v: Value): string
  {
    match v
    case Null => "null"
    case Num(n) => EncodeInt(n)
    case Str(s) => "\"" + Escape(s) + "\""
  }

  /** The elements of an array, separated by a comma and a space. */
  function Join(vs: seq<Value>): string
  {
    if |vs| == 0 then ""
    else if |vs| == 1 then Encode(vs[0])
    else Encode(vs[0]) + ", " + Join(vs[1..])
  }

  function EncodeArray(vs: seq<Value>): string
  {
    "[" + Join(vs) + "]"
  }

  // ---------------------------------------------------------------- reading

  predicate IsSpace(c: char) { c == ' ' || c == '\t' || c == '\n' || c == '\r' }

  function SkipSpace(s: string): (r: string)
    ensures |r| <= |s|
    ensures r == [] || !IsSpace(r[0])
  {
    if s != [] && IsSpace(s[0]) then SkipSpace(s[1..]) else s
  }

  /** The number of leading decimal digits. */
  function DigitRun(s: string): (k: nat)
    ensures k <= |s| && AllDigits(s[..k])
    ensures k < |s| ==> !IsDigit(s[k])
  {
    if s != [] && IsDigit(s[0]) then
      var k := 1 + DigitRun(s[1..]);
      assert s[..k] == [s[0]] + s[1..][..k - 1];
      AllDigitsCons(s[0], s[1..][..k - 1]);
      k
    else 0
  }

  /** An integer: an optional minus sign and the longest run of digits. */
  function ParseNumber(s: string): (r: Option<(int, string)>)
    ensures r.Some? ==> |r.value.1| < |s|
  {
    var neg := |s| > 0 && s[0] == '-';
    var body := if neg then s[1..] else s;
    var k := DigitRun(body);
    if k == 0 then None
    else
      var m: int := DigitsValue(body[..k]);
      Some((if neg then -m else m, body[k..]))
  }

  function Unescape(c: char): Option<char>
  {
    if c == '"' then Some('"')
    else if c == '\\' then Some('\\')
    else if c == '/' then Some('/')
    else if c == 'n' then Some('\n')
    else if c == 'r' then Some('\r')
    else if c == 't' then Some('\t')
    else None
  }

  /** The rest of a string literal after its opening quote: its text and what
      follows the closing quote. */
  function ParseStringBody(s: string): (r: Option<(string, string)>)
    ensures r.Some? ==> |r.value.1| < |s|
  {
    if s == [] then None
    else if s[0] == '"' then Some(([], s[1..]))
    else if s[0] == '\\' then
      if |s| < 2 then None
      else match Unescape(s[1])
        case None => None
        case Some(c) =>
          match ParseStringBody(s[2..])
          case None => None
          case Some((x, rest)) => Some(([c] + x, rest))
    else
      match ParseStringBody(s[1..])
      case None => None
      case Some((x, rest)) => Some(([s[0]] + x, rest))
  }

  /** One scalar at the very start of `s`, and what follows it. */
  function ParseValue(s: string): (r: Option<(Value, string)>)
    ensures r.Some? ==> |r.value.1| < |s|
  {
    if |s| >= 4 && s[..4] == "null" then Some((Null, s[4..]))
    else if |s| > 0 && s[0] == '"' then
      match ParseStringBody(s[1..])
      case None => None
      case Some((x, rest)) => Some((Str(x), rest))
    else
      match ParseNumber(s)
      case None => None
      case Some((n, rest)) => Some((Num(n), rest))
  }

  /** The elements of a non-empty array from its first element on, and what
      follows the closing bracket. */
  function ParseItems(s: string): (r: Option<(seq<Value>, string)>)
    ensures r.Some? ==> |r.value.1| < |s| && |r.value.0| > 0
    decreases |s|
  {
    match ParseValue(s)
    case None => None
    case Some((v, rest)) =>
      var t := SkipSpace(rest);
      if |t| > 0 && t[0] == ']' then Some(([v], t[1..]))
      else if |t| > 0 && t[0] == ',' then
        match ParseItems(SkipSpace(t[1..]))
        case None => None
        case Some((vs, after)) => Some(([v] + vs, after))
      else None
  }

  /** `serde_json::from_str` of an array of scalars: white space around the
      tokens, nothing but white space after the closing bracket. */
  function DecodeArray(s: string): Option<seq<Value>>
  {
    var t := SkipSpace(s);
    if |t| == 0 || t[0] != '[' then None
    else
      var u := SkipSpace(t[1..]);
      if |u| > 0 && u[0] == ']' then
        if SkipSpace(u[1..]) == [] then Some([]) else None
      else match ParseItems(u)
        case None => None
        case Some((vs, rest)) => if SkipSpace(rest) == [] then Some(vs) else None
  }

  // ---------------------------------------------------------------- round trip

  predicate StartsWithNonDigit(rest: string) { rest == [] || !IsDigit(rest[0]) }

  lemma {:induction false} DigitRunOf(d: string, rest: string)
    requires AllDigits(d) && StartsWithNonDigit(rest)
    ensures DigitRun(d + rest) == |d|
  {
    if d != [] {
      assert (d + rest)[1..] == d[1..] + rest;
      DigitRunOf(d[1..], rest);
    }
  }

  lemma ParseEncodedInt(n: int, rest: string)
    requires StartsWithNonDigit(rest)
    ensures ParseNumber(EncodeInt(n) + rest) == Some((n, rest))
  {
    if n < 0 {
      ParseDigits(ShowNat(-n), rest);
      assert EncodeInt(n) + rest == "-" + (ShowNat(-n) + rest);
      assert ("-" + (ShowNat(-n) + rest))[1..] == ShowNat(-n) + rest;
    } else {
      ParseDigits(ShowNat(n), rest);
    }
  }

  /** A run of digits is read back up to the first non-digit. */
  lemma ParseDigits(d: string, rest: string)
    requires AllDigits(d) && d != [] && StartsWithNonDigit(rest)
    ensures DigitRun(d + rest) == |d| && (d + rest)[..|d|] == d && (d + rest)[|d|..] == rest
    ensures (d + rest)[0] != '-'
  {
    DigitRunOf(d, rest);
    assert (d + rest)[0] == d[0];
  }

  lemma {:induction false} ParseEscaped(x: string, rest: string)
    ensures ParseStringBody(Escape(x) + "\"" + rest) == Some((x, rest))
  {
    if x == [] {
      assert Escape(x) + "\"" + rest == "\"" + rest;
    } else {
      var tail := Escape(x[1..]) + "\"" + rest;
      ParseEscaped(x[1..], rest);
      assert Escape(x) + "\"" + rest == EscapeChar(x[0]) + tail;
      ParseEscapedChar(x[0], tail, x[1..], rest);
      assert x == [x[0]] + x[1..];
    }
  }

  /** One escaped character in front of a string body is read back. */
  lemma ParseEscapedChar(c: char, tail: string, x: string, rest: string)
    requires ParseStringBody(tail) == Some((x, rest))
    ensures ParseStringBody(EscapeChar(c) + tail) == Some(([c] + x, rest))
  {
    if c == '"' || c == '\\' || c == '\n' || c == '\r' || c == '\t' {
      ParseSpecialChar(c, tail, x, rest);
    } else {
      var s := EscapeChar(c) + tail;
      assert EscapeChar(c) == [c];
      assert s[0] == c && s[1..] == tail;
    }
  }

  lemma ParseSpecialChar(c: char, tail: string, x: string, rest: string)
    requires c == '"' || c == '\\' || c == '\n' || c == '\r' || c == '\t'
    requires ParseStringBody(tail) == Some((x, rest))
    ensures ParseStringBody(EscapeChar(c) + tail) == Some(([c] + x, rest))
  {
    var s := EscapeChar(c) + tail;
    assert |EscapeChar(c)| == 2 && s[1] == EscapeChar(c)[1];
    assert Unescape(s[1]) == Some(c);
    assert s[0] == '\\' && s[2..] == tail;
  }

  /** Any scalar is read back from its encoding, whatever non-digit follows. */
  lemma ParseEncoded(v: Value, rest: string)
    requires StartsWithNonDigit(rest)
    ensures ParseValue(Encode(v) + rest) == Some((v, rest))
  {
    match v
    case Null => ParseEncodedNull(rest);
    case Num(n) => ParseEncodedNum(n, rest);
    case Str(x) => ParseEncodedStr(x, rest);
  }

  lemma ParseEncodedNull(rest: string)
    ensures ParseValue(Encode(Null) + rest) == Some((Null, rest))
  {
    var s := Encode(Null) + rest;
    assert s[..4] == "null" && s[4..] == rest;
  }

  lemma ParseEncodedNum(n: int, rest: string)
    requires StartsWithNonDigit(rest)
    ensures ParseValue(Encode(Num(n)) + rest) == Some((Num(n), rest))
  {
    var s := EncodeInt(n) + rest;
    ParseEncodedInt(n, rest);
    assert s[0] == '-' || IsDigit(s[0]);
    assert !(|s| >= 4 && s[..4] == "null") by {
      assert |s| > 0 && s[0] != 'n';
      if |s| >= 4 { assert s[..4][0] == s[0]; }
    }
  }

  lemma ParseEncodedStr(x: string, rest: string)
    ensures ParseValue(Encode(Str(x)) + rest) == Some((Str(x), rest))
  {
    var body := Escape(x) + "\"" + rest;
    assert Encode(Str(x)) + rest == "\"" + body;
    ParseEscaped(x, rest);
    ParseQuoted(body, x, rest);
  }

  /** A quote followed by a string body is read as a string. */
  lemma ParseQuoted(body: string, x: string, rest: string)
    requires ParseStringBody(body) == Some((x, rest))
    ensures ParseValue("\"" + body) == Some((Str(x), rest))
  {
    var s := "\"" + body;
    assert s[0] == '"' && s[1..] == body;
    assert !(|s| >= 4 && s[..4] == "null") by {
      if |s| >= 4 { assert s[..4][0] == s[0]; }
    }
  }

  lemma {:induction false} ParseJoined(vs: seq<Value>, rest: string)
    requires |vs| > 0
    ensures ParseItems(Join(vs) + "]" + rest) == Some((vs, rest))
    decreases |vs|
  {
    if |vs| == 1 {
      assert vs == [vs[0]];
      JoinOne(vs[0], rest);
      ParseEncoded(vs[0], "]" + rest);
      ParseLastItem(Join(vs) + "]" + rest, vs[0], rest);
    } else {
      ParseJoined(vs[1..], rest);
      ParseJoinedCons(vs, rest);
    }
  }

  lemma {:induction false} ParseJoinedCons(vs: seq<Value>, rest: string)
    requires |vs| > 1
    requires ParseItems(Join(vs[1..]) + "]" + rest) == Some((vs[1..], rest))
    ensures ParseItems(Join(vs) + "]" + rest) == Some((vs, rest))
  {
    var more := Join(vs[1..]) + "]" + rest;
    var s := Join(vs) + "]" + rest;
    JoinCons(vs, rest);
    assert s == Encode(vs[0]) + (", " + more);
    ParseEncoded(vs[0], ", " + more);
    assert ParseValue(s) == Some((vs[0], ", " + more));
    JoinStart(vs[1..]);
    ParseNextItem(s, vs[0], more, vs[1..], rest);
    assert [vs[0]] + vs[1..] == vs;
  }

  lemma {:induction false} JoinOne(v: Value, rest: string)
    ensures Join([v]) + "]" + rest == Encode(v) + ("]" + rest)
  {
  }

  lemma {:induction false} JoinCons(vs: seq<Value>, rest: string)
    requires |vs| > 1
    ensures Join(vs) + "]" + rest == Encode(vs[0]) + (", " + (Join(vs[1..]) + "]" + rest))
    ensures |Join(vs[1..]) + "]" + rest| > 0 && (Join(vs[1..]) + "]" + rest)[0] == Join(vs[1..])[0]
  {
    var a, b := Encode(vs[0]), Join(vs[1..]);
    assert Join(vs) == a + ", " + b;
    assert (a + ", " + b) + "]" + rest == a + (", " + (b + "]" + rest));
    JoinStart(vs[1..]);
  }

  lemma ParseLastItem(s: string, v: Value, rest: string)
    requires ParseValue(s) == Some((v, "]" + rest))
    ensures ParseItems(s) == Some(([v], rest))
  {
    assert SkipSpace("]" + rest) == "]" + rest;
  }

  lemma ParseNextItem(s: string, v: Value, more: string, vs: seq<Value>, rest: string)
    requires |more| > 0 && !IsSpace(more[0])
    requires ParseValue(s) == Some((v, ", " + more))
    requires ParseItems(more) == Some((vs, rest))
    ensures ParseItems(s) == Some(([v] + vs, rest))
  {
    SkipSeparator(more);
  }

  lemma SkipSeparator(more: string)
    requires |more| > 0 && !IsSpace(more[0])
    ensures SkipSpace(", " + more) == ", " + more
    ensures (", " + more)[1..] == " " + more
    ensures SkipSpace(" " + more) == more
  {
    var s, t := ", " + more, " " + more;
    assert s[0] == ',';
    assert s[1..] == t;
    assert t[0] == ' ' && t[1..] == more;
    assert SkipSpace(t) == SkipSpace(more);
  }

  lemma {:induction false} EncodeStart(v: Value)
    ensures |Encode(v)| > 0 && !IsSpace(Encode(v)[0]) && Encode(v)[0] != ']'
  {
    match v
    case Null =>
    case Num(n) =>
      var d := ShowNat(if n < 0 then -n else n);
      assert Encode(v)[0] == '-' || Encode(v)[0] == d[0];
    case Str(x) =>
  }

  lemma {:induction false} JoinStart(vs: seq<Value>)
    requires |vs| > 0
    ensures |Join(vs)| > 0 && Join(vs)[0] == Encode(vs[0])[0] && !IsSpace(Join(vs)[0])
  {
    EncodeStart(vs[0]);
  }

  /** The array text the log writes after a tag decodes to the values written. */
  lemma {:induction false} DecodeEncodedArray(vs: seq<Value>)
    requires |vs| > 0
    ensures DecodeArray(" " + EncodeArray(vs)) == Some(vs)
  {
    var s := " " + EncodeArray(vs);
    assert SkipSpace(s) == EncodeArray(vs) by {
      assert s[1..] == EncodeArray(vs);
    }
    var body := Join(vs) + "]";
    assert EncodeArray(vs)[1..] == body;
    JoinStart(vs);
    EncodeStart(vs[0]);
    assert body[0] == Join(vs)[0];
    assert SkipSpace(body) == body;
    ParseJoined(vs, "");
    assert body + "" == body;
    assert SkipSpace("") == "";
  }

  // ---------------------------------------------------------------- line breaks

  predicate NoLineBreak(s: string) { forall i :: 0 <= i < |s| ==> s[i] != '\n' && s[i] != '\r' }

  lemma NoLineBreakConcat(a: string, b: string)
    requires NoLineBreak(a) && NoLineBreak(b)
    ensures NoLineBreak(a + b)
  {
    forall i | 0 <= i < |a + b| ensures (a + b)[i] != '\n' && (a + b)[i] != '\r' {
      if i >= |a| { assert (a + b)[i] == b[i - |a|]; }
    }
  }

  lemma {:induction false} EscapeNoLineBreak(s: string)
    ensures NoLineBreak(Escape(s))
  {
    if s != [] {
      EscapeNoLineBreak(s[1..]);
      NoLineBreakConcat(EscapeChar(s[0]), Escape(s[1..]));
    }
  }

  lemma DigitsNoLineBreak(s: string)
    requires AllDigits(s)
    ensures NoLineBreak(s)
  {
  }

  /** An encoded array never holds a line break, so a log line written with
      it is read back by `lines()` as one line. */
  lemma {:induction false} EncodeArrayNoLineBreak(vs: seq<Value>)
    ensures NoLineBreak(EncodeArray(vs))
  {
    JoinNoLineBreak(vs);
    NoLineBreakConcat("[", Join(vs));
    NoLineBreakConcat("[" + Join(vs), "]");
  }

  lemma {:induction false} JoinNoLineBreak(vs: seq<Value>)
    ensures NoLineBreak(Join(vs))
    decreases |vs|
  {
    if |vs| > 0 {
      var e := Encode(vs[0]);
      assert NoLineBreak(e) by {
        match vs[0]
        case Null =>
        case Num(n) =>
          DigitsNoLineBreak(ShowNat(if n < 0 then -n else n));
          if n < 0 { NoLineBreakConcat("-", ShowNat(-n)); }
        case Str(x) =>
          EscapeNoLineBreak(x);
          NoLineBreakConcat("\"", Escape(x));
          NoLineBreakConcat("\"" + Escape(x), "\"");
      }
      if |vs| > 1 {
        JoinNoLineBreak(vs[1..]);
        NoLineBreakConcat(e, ", ");
        NoLineBreakConcat(e + ", ", Join(vs[1..]));
      }
    }
  }
}
