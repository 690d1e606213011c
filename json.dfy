/**
 * The serialisation the session store uses for the `user` storage entry:
 * `JSON.stringify` of a `User` record and the `JSON.parse` that reads it
 * back.  Encoding is the canonical text `JSON.stringify` produces for the
 * record (keys in declaration order, no white space, strings escaped the
 * way `JSON.stringify` escapes them); decoding parses that form.
 */
module Json {
  import opened Wrappers
  import opened UserRecord

  /** The JSON values a `User` record is made of. */
  datatype Value = Num(n: int) | Str(s: string) | Bool(b: bool)

  // ---------------------------------------------------------------------
  // Numbers
  // ---------------------------------------------------------------------

  predicate IsDigit(c: char) {
    '0' <= c <= '9'
  }

  function DigitChar(d: int): (c: char)
    requires 0 <= d < 10
    ensures IsDigit(c) && c as int - '0' as int == d
  {
    ('0' as int + d) as char
  }

  function Pow10(k: nat): (p: nat)
    ensures p >= 1
  {
    if k == 0 then 1 else 10 * Pow10(k - 1)
  }

  /** Decimal digits of a natural number, most significant first. */
  function NatText(n: nat): (t: string)
    ensures |t| > 0 && IsDigit(t[0])
  {
    if n < 10 then [DigitChar(n)] else NatText(n / 10) + [DigitChar(n % 10)]
  }

  /** `JSON.stringify` of an integer. */
  function IntText(n: int): (t: string)
    ensures |t| > 0 && (t[0] == '-' || IsDigit(t[0]))
  {
    if n < 0 then "-" + NatText(-n) else NatText(n)
  }

  /** Reads the maximal run of digits at the front of `s` onto `acc`. */
  function ReadDigits(acc: nat, s: string): (nat, string)
    decreases |s|
  {
    if |s| > 0 && IsDigit(s[0]) then ReadDigits(acc * 10 + (s[0] as int - '0' as int), s[1..])
    else (acc, s)
  }

  /**
   * Reads an unsigned integer.  As in JSON, a leading `0` stands alone: a
   * `0` followed by another digit is refused.
   */
  function ParseUnsigned(s: string): Option<(nat, string)> {
    if |s| == 0 || !IsDigit(s[0]) then None
    else if s[0] == '0' && |s| > 1 && IsDigit(s[1]) then None
    else Some(ReadDigits(0, s))
  }

  function ParseNumber(s: string): Option<(int, string)> {
    if |s| > 0 && s[0] == '-' then
      match ParseUnsigned(s[1..])
      case None => None
      case Some((v, rest)) => Some((-(v as int), rest))
    else
      match ParseUnsigned(s)
      case None => None
      case Some((v, rest)) => Some((v as int, rest))
  }

  /** A number with a leading zero followed by a digit (`01`, `-01`) is refused, as `JSON.parse` refuses it. */
  lemma LeadingZeroRefused(s: string)
    requires |s| > 2 && (s[0] == '0' || (s[0] == '-' && s[1] == '0'))
    requires if s[0] == '-' then IsDigit(s[2]) else IsDigit(s[1])
    ensures ParseNumber(s) == None
  {
    if s[0] == '-' {
      assert s[1..][0] == '0' && s[1..][1] == s[2];
    }
  }

  /** `NatText` writes a leading zero only for zero itself. */
  lemma {:induction false} NatTextLeadingDigit(n: nat)
    ensures NatText(n)[0] == '0' <==> n == 0
    ensures n == 0 ==> NatText(n) == "0"
    decreases n
  {
    if n >= 10 {
      NatTextLeadingDigit(n / 10);
      assert NatText(n)[0] == NatText(n / 10)[0];
    }
  }

  lemma ReadOneDigit(acc: nat, d: int, t: string)
    requires 0 <= d < 10
    ensures ReadDigits(acc, [DigitChar(d)] + t) == ReadDigits(acc * 10 + d, t)
  {
    assert ([DigitChar(d)] + t)[1..] == t;
  }

  lemma ShiftDigit(acc: nat, p: nat, n: nat)
    ensures (acc * p + n / 10) * 10 + n % 10 == acc * (10 * p) + n
  {
    assert (acc * p) * 10 == acc * (10 * p);
  }

  lemma {:induction false} ReadNatText(acc: nat, n: nat, t: string)
    ensures ReadDigits(acc, NatText(n) + t) == ReadDigits(acc * Pow10(|NatText(n)|) + n, t)
    decreases n
  {
    if n < 10 {
      assert NatText(n) + t == [DigitChar(n)] + t;
      ReadOneDigit(acc, n, t);
    } else {
      var hi := NatText(n / 10);
      var d := n % 10;
      var p := Pow10(|hi|);
      assert NatText(n) + t == hi + ([DigitChar(d)] + t);
      ReadNatText(acc, n / 10, [DigitChar(d)] + t);
      ReadOneDigit(acc * p + n / 10, d, t);
      ShiftDigit(acc, p, n);
      assert Pow10(|NatText(n)|) == 10 * p;
    }
  }

  /** The text of a natural number followed by a non-digit reads back as that number. */
  lemma UnsignedRoundTrip(m: nat, t: string)
    requires |t| > 0 && !IsDigit(t[0])
    ensures ParseUnsigned(NatText(m) + t) == Some((m, t))
  {
    ReadNatText(0, m, t);
    assert ReadDigits(m, t) == (m, t);
    NatTextLeadingDigit(m);
    if m == 0 {
      assert (NatText(m) + t)[1] == t[0];
    }
  }

  /** A number followed by a delimiter that is not a digit reads back as itself. */
  lemma IntRoundTrip(n: int, t: string)
    requires |t| > 0 && !IsDigit(t[0])
    ensures ParseNumber(IntText(n) + t) == Some((n, t))
  {
    var m: nat := if n < 0 then -n else n;
    UnsignedRoundTrip(m, t);
    if n < 0 {
      assert ("-" + NatText(m) + t)[1..] == NatText(m) + t;
    }
  }

  // ---------------------------------------------------------------------
  // Strings
  // ---------------------------------------------------------------------

  function HexDigit(d: int): (c: char)
    requires 0 <= d < 16
  {
    if d < 10 then ('0' as int + d) as char else ('a' as int + d - 10) as char
  }

  /** The value of a hexadecimal digit (either case), or -1. */
  function HexValue(c: char): (v: int)
    ensures -1 <= v < 16
  {
    if '0' <= c <= '9' then c as int - '0' as int
    else if 'a' <= c <= 'f' then c as int - 'a' as int + 10
    else if 'A' <= c <= 'F' then c as int - 'A' as int + 10
    else -1
  }

  lemma HexValueOfDigit(d: int)
    requires 0 <= d < 16
    ensures HexValue(HexDigit(d)) == d
  {
  }

  /** How `JSON.stringify` writes one character inside a string literal. */
  function EscapeChar(c: char): (t: string)
    ensures |t| > 0
  {
    if c == '"' then "\\\""
    else if c == '\\' then "\\\\"
    else if c as int == 0x08 then "\\b"
    else if c == '\t' then "\\t"
    else if c == '\n' then "\\n"
    else if c as int == 0x0C then "\\f"
    else if c == '\r' then "\\r"
    else if c as int < 0x20 then "\\u00" + [HexDigit(c as int / 16), HexDigit(c as int % 16)]
    else [c]
  }

  function EscapeText(s: string): string {
    if s == [] then [] else EscapeChar(s[0]) + EscapeText(s[1..])
  }

  /** `JSON.stringify` of a string: quoted and escaped. */
  function Quote(s: string): (t: string)
    ensures |t| >= 2 && t[0] == '"'
  {
    "\"" + EscapeText(s) + "\""
  }

  /** Reads an escape sequence after its backslash; gives the character and what follows. */
  function Unescape(s: string): (r: Option<(char, string)>)
    ensures r.Some? ==> |r.value.1| < |s|
  {
    if |s| == 0 then None
    else if s[0] == '"' || s[0] == '\\' || s[0] == '/' then Some((s[0], s[1..]))
    else if s[0] == 'b' then Some((0x08 as char, s[1..]))
    else if s[0] == 'f' then Some((0x0C as char, s[1..]))
    else if s[0] == 'n' then Some(('\n', s[1..]))
    else if s[0] == 'r' then Some(('\r', s[1..]))
    else if s[0] == 't' then Some(('\t', s[1..]))
    else if s[0] == 'u' && |s| >= 5 then
      var h := [HexValue(s[1]), HexValue(s[2]), HexValue(s[3]), HexValue(s[4])];
      if h[0] < 0 || h[1] < 0 || h[2] < 0 || h[3] < 0 then None
      else
        var v := ((h[0] * 16 + h[1]) * 16 + h[2]) * 16 + h[3];
        if v < 0xD800 || 0xE000 <= v then Some((v as char, s[5..])) else None
    else None
  }

  /**
   * Reads the body of a string literal up to its closing quote; gives the
   * text and what follows the quote.  Raw control characters are refused,
   * as `JSON.parse` refuses them.
   */
  function ReadChars(s: string): (r: Option<(string, string)>)
    decreases |s|
  {
    if |s| == 0 then None
    else if s[0] == '"' then Some(([], s[1..]))
    else if s[0] == '\\' then
      match Unescape(s[1..])
      case None => None
      case Some((c, rest)) =>
        match ReadChars(rest)
        case None => None
        case Some((t, after)) => Some(([c] + t, after))
    else if (s[0] as int) < 0x20 then None
    else
      match ReadChars(s[1..])
      case None => None
      case Some((t, after)) => Some(([s[0]] + t, after))
  }

  function ParseString(s: string): Option<(string, string)> {
    if |s| > 0 && s[0] == '"' then ReadChars(s[1..]) else None
  }

  /** Reading an escaped character prepends that character to what is read after it. */
  lemma ReadEscapedChar(c: char, rest: string)
    ensures ReadChars(EscapeChar(c) + rest) ==
      match ReadChars(rest)
      case None => None
      case Some((t, after)) => Some(([c] + t, after))
  {
    var e := EscapeChar(c);
    if c == '"' || c == '\\' || c as int == 0x08 || c == '\t' || c == '\n' || c as int == 0x0C || c == '\r' {
      assert (e + rest)[1..] == [e[1]] + rest;
      assert ([e[1]] + rest)[1..] == rest;
    } else if c as int < 0x20 {
      var hi, lo := c as int / 16, c as int % 16;
      HexValueOfDigit(hi);
      HexValueOfDigit(lo);
      var u := (e + rest)[1..];
      assert u == ['u', '0', '0', HexDigit(hi), HexDigit(lo)] + rest;
      assert u[5..] == rest;
      assert ((0 * 16 + 0) * 16 + hi) * 16 + lo == c as int;
      assert Unescape(u) == Some((c, rest));
    } else {
      assert (e + rest)[1..] == rest;
    }
  }

  /** The escaped text of `s` followed by a closing quote reads back as `s`. */
  lemma {:induction false} ReadEscapedText(s: string, t: string)
    requires |t| > 0 && t[0] == '"'
    ensures ReadChars(EscapeText(s) + t) == Some((s, t[1..]))
    decreases |s|
  {
    if s == [] {
      assert EscapeText(s) + t == t;
    } else {
      var r1 := EscapeText(s[1..]) + t;
      assert EscapeText(s) + t == EscapeChar(s[0]) + r1;
      ReadEscapedText(s[1..], t);
      assert ReadChars(r1) == Some((s[1..], t[1..]));
      ReadEscapedChar(s[0], r1);
      assert ReadChars(EscapeChar(s[0]) + r1) == Some(([s[0]] + s[1..], t[1..]));
      assert [s[0]] + s[1..] == s;
    }
  }

  lemma StringRoundTrip(s: string, t: string)
    ensures ParseString(Quote(s) + t) == Some((s, t))
  {
    var q := Quote(s) + t;
    assert q[1..] == EscapeText(s) + ("\"" + t);
    ReadEscapedText(s, "\"" + t);
    assert ("\"" + t)[1..] == t;
  }

  // ---------------------------------------------------------------------
  // Values and objects
  // ---------------------------------------------------------------------

  function EncodeValue(v: Value): (t: string)
    ensures |t| > 0
  {
    match v
    case Num(n) => IntText(n)
    case Str(s) => Quote(s)
    case Bool(b) => if b then "true" else "false"
  }

  function ParseValue(s: string): Option<(Value, string)> {
    if |s| == 0 then None
    else if s[0] == '"' then
      match ParseString(s)
      case None => None
      case Some((str, rest)) => Some((Str(str), rest))
    else if s[0] == 't' then
      if "true" <= s then Some((Bool(true), s[4..])) else None
    else if s[0] == 'f' then
      if "false" <= s then Some((Bool(false), s[5..])) else None
    else
      match ParseNumber(s)
      case None => None
      case Some((n, rest)) => Some((Num(n), rest))
  }

  /** What may follow a value inside an object. */
  predicate Delimited(t: string) {
    |t| > 0 && (t[0] == ',' || t[0] == '}')
  }

  lemma ValueRoundTrip(v: Value, t: string)
    requires Delimited(t)
    ensures ParseValue(EncodeValue(v) + t) == Some((v, t))
  {
    match v
    case Num(n) =>
      IntRoundTrip(n, t);
    case Str(s) =>
      StringRoundTrip(s, t);
    case Bool(b) =>
      var e := EncodeValue(v);
      assert e <= e + t;
      assert (e + t)[|e|..] == t;
  }

  lemma Regroup(a: string, b: string, c: string, t: string)
    ensures a + b + c + t == a + (b + (c + t))
  {
  }

  /** One `"key":value` member of an object. */
  function Member(key: string, v: Value): string {
    Quote(key) + ":" + EncodeValue(v)
  }

  function ParseMember(key: string, s: string): Option<(Value, string)> {
    match ParseString(s)
    case None => None
    case Some((k, rest)) =>
      if k == key && |rest| > 0 && rest[0] == ':' then ParseValue(rest[1..]) else None
  }

  lemma MemberRoundTrip(key: string, v: Value, t: string)
    requires Delimited(t)
    ensures ParseMember(key, Member(key, v) + t) == Some((v, t))
  {
    var after := ":" + (EncodeValue(v) + t);
    Regroup(Quote(key), ":", EncodeValue(v), t);
    StringRoundTrip(key, after);
    assert after[1..] == EncodeValue(v) + t;
    ValueRoundTrip(v, t);
  }

  /** The members after the first, each introduced by a comma, then the closing brace. */
  function Tail(keys: seq<string>, vals: seq<Value>): (t: string)
    requires |keys| == |vals|
    ensures Delimited(t)
  {
    if |keys| == 0 then "}"
    else "," + Member(keys[0], vals[0]) + Tail(keys[1..], vals[1..])
  }

  function ParseTail(keys: seq<string>, s: string): Option<(seq<Value>, string)>
    decreases |keys|
  {
    if |keys| == 0 then
      if |s| > 0 && s[0] == '}' then Some(([], s[1..])) else None
    else if |s| > 0 && s[0] == ',' then
      match ParseMember(keys[0], s[1..])
      case None => None
      case Some((v, rest)) =>
        match ParseTail(keys[1..], rest)
        case None => None
        case Some((vs, after)) => Some(([v] + vs, after))
    else None
  }

  lemma TailSplit(keys: seq<string>, vals: seq<Value>, t: string)
    requires |keys| == |vals| > 0
    ensures Tail(keys, vals) + t == "," + (Member(keys[0], vals[0]) + (Tail(keys[1..], vals[1..]) + t))
  {
    Regroup(",", Member(keys[0], vals[0]), Tail(keys[1..], vals[1..]), t);
  }

  lemma ParseTailStep(keys: seq<string>, r: string, v: Value, rest: string, vs: seq<Value>, after: string)
    requires |keys| > 0
    requires ParseMember(keys[0], r) == Some((v, rest))
    requires ParseTail(keys[1..], rest) == Some((vs, after))
    ensures ParseTail(keys, "," + r) == Some(([v] + vs, after))
  {
    assert ("," + r)[1..] == r;
  }

  lemma {:induction false} TailRoundTrip(keys: seq<string>, vals: seq<Value>, t: string)
    requires |keys| == |vals|
    ensures ParseTail(keys, Tail(keys, vals) + t) == Some((vals, t))
    decreases |keys|
  {
    if |keys| == 0 {
      assert vals == [];
      assert ("}" + t)[1..] == t;
    } else {
      var rest := Tail(keys[1..], vals[1..]) + t;
      TailSplit(keys, vals, t);
      MemberRoundTrip(keys[0], vals[0], rest);
      TailRoundTrip(keys[1..], vals[1..], t);
      ParseTailStep(keys, Member(keys[0], vals[0]) + rest, vals[0], rest, vals[1..], t);
      assert [vals[0]] + vals[1..] == vals;
    }
  }

  /** `JSON.stringify` of an object whose keys are `keys` and values `vals`. */
  function Object(keys: seq<string>, vals: seq<Value>): (t: string)
    requires |keys| == |vals|
    ensures |t| > 0 && t[0] == '{'
  {
    if |keys| == 0 then "{}"
    else "{" + Member(keys[0], vals[0]) + Tail(keys[1..], vals[1..])
  }

  /** Parses an object with exactly the keys `keys`, in that order. */
  function ParseObject(keys: seq<string>, s: string): Option<(seq<Value>, string)> {
    if |s| == 0 || s[0] != '{' then None
    else if |keys| == 0 then
      if |s| > 1 && s[1] == '}' then Some(([], s[2..])) else None
    else
      match ParseMember(keys[0], s[1..])
      case None => None
      case Some((v, rest)) =>
        match ParseTail(keys[1..], rest)
        case None => None
        case Some((vs, after)) => Some(([v] + vs, after))
  }

  lemma ParseObjectStep(keys: seq<string>, r: string, v: Value, rest: string, vs: seq<Value>)
    requires |keys| > 0
    requires ParseMember(keys[0], r) == Some((v, rest))
    requires ParseTail(keys[1..], rest) == Some((vs, []))
    ensures ParseObject(keys, "{" + r) == Some(([v] + vs, []))
  {
    assert ("{" + r)[1..] == r;
  }

  lemma ObjectSplit(keys: seq<string>, vals: seq<Value>)
    requires |keys| == |vals| > 0
    ensures Object(keys, vals) == "{" + (Member(keys[0], vals[0]) + Tail(keys[1..], vals[1..]))
  {
    Regroup("{", Member(keys[0], vals[0]), Tail(keys[1..], vals[1..]), []);
    assert Object(keys, vals) + [] == Object(keys, vals);
    assert Tail(keys[1..], vals[1..]) + [] == Tail(keys[1..], vals[1..]);
  }

  lemma ObjectRoundTrip(keys: seq<string>, vals: seq<Value>)
    requires |keys| == |vals|
    ensures ParseObject(keys, Object(keys, vals)) == Some((vals, []))
  {
    if |keys| > 0 {
      var tail := Tail(keys[1..], vals[1..]);
      ObjectSplit(keys, vals);
      MemberRoundTrip(keys[0], vals[0], tail);
      TailRoundTrip(keys[1..], vals[1..], []);
      assert tail + [] == tail;
      ParseObjectStep(keys, Member(keys[0], vals[0]) + tail, vals[0], tail, vals[1..]);
      assert [vals[0]] + vals[1..] == vals;
    } else {
      assert vals == [];
      assert Object(keys, vals)[2..] == [];
    }
  }

  // ---------------------------------------------------------------------
  // The User record
  // ---------------------------------------------------------------------

  /** The keys of a serialised `User`, in the order the interface declares them. */
  const UserKeys: seq<string> := ["id", "personId", "nome", "email", "usuario", "nivel",
                                  "perfil_id", "administrador", "desenvolvedor", "integrador", "ativo"]

  function UserValues(u: User): (vs: seq<Value>)
    ensures |vs| == |UserKeys|
  {
    [Num(u.id), Num(u.personId), Str(u.nome), Str(u.email), Str(u.usuario), Str(u.nivel),
     Num(u.perfilId), Bool(u.administrador), Bool(u.desenvolvedor), Bool(u.integrador), Bool(u.ativo)]
  }

  /** Rebuilds a `User` from values of the right kinds, in key order. */
  function UserOf(vs: seq<Value>): (r: Option<User>)
    ensures r.Some? ==> UserValues(r.value) == vs
  {
    if |vs| == 11 && vs[0].Num? && vs[1].Num? && vs[2].Str? && vs[3].Str? && vs[4].Str? && vs[5].Str?
       && vs[6].Num? && vs[7].Bool? && vs[8].Bool? && vs[9].Bool? && vs[10].Bool?
    then Some(User(vs[0].n, vs[1].n, vs[2].s, vs[3].s, vs[4].s, vs[5].s,
                   vs[6].n, vs[7].b, vs[8].b, vs[9].b, vs[10].b))
    else None
  }

  /** `JSON.stringify(user)`: never the empty string. */
  function Encode(u: User): (t: string)
    ensures |t| > 0 && t[0] == '{'
  {
    Object(UserKeys, UserValues(u))
  }

  /**
   * `JSON.parse` of a stored user.  It reads the object text `Encode`
   * writes: the eleven keys in order, no white space, integers without a
   * leading zero, strings with any of JSON's escapes.  `None` for every text
   * on which `JSON.parse` throws, and for valid JSON outside that form.
   */
  function Decode(t: string): (r: Option<User>)
    ensures r.Some? ==> |t| > 0 && t[0] == '{'
  {
    match ParseObject(UserKeys, t)
    case None => None
    case Some((vs, rest)) => if rest == [] then UserOf(vs) else None
  }

  /** What is stored with `Encode` is read back field for field by `Decode`. */
  lemma DecodeEncode(u: User)
    ensures Decode(Encode(u)) == Some(u)
  {
    var vals := UserValues(u);
    ObjectRoundTrip(UserKeys, vals);
    assert ParseObject(UserKeys, Encode(u)) == Some((vals, []));
    assert UserOf(vals) == Some(u);
  }

  /** Two users with the same serialisation are the same user. */
  lemma EncodeInjective(u: User, w: User)
    ensures Encode(u) == Encode(w) <==> u == w
  {
    DecodeEncode(u);
    DecodeEncode(w);
  }
}
