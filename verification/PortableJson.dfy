/** The portable JSON profile `prodkit-json-v1`: the encoder both languages implement, and a parser. */
module PortableJson {
  import opened Common
  import opened Text

  const MAX_SAFE: int := 9_007_199_254_740_991

  /** What the encoder may be handed; `Float` is a finite binary float, `Foreign` any other type. */
  datatype Value =
    | Null
    | Bool(truth: bool)
    | Str(text: string)
    | Int(number: int)
    | Arr(items: seq<Value>)
    | Obj(members: seq<Member>)
    | Float(value: real)
    | Foreign

  /** Members in insertion order. */
  datatype Member = Member(key: Key, value: Value)

  datatype Key = Name(name: string) | NotAString

  datatype Error = UnsafeInteger | BinaryFloat | KeyNotString | UnsupportedType

  datatype Result<+T> = Ok(value: T) | Err(error: Error)

  // ---------------------------------------------------------------- scalars

  predicate IsDigit(c: char) { '0' <= c <= '9' }

  function Digit(d: nat): char
    requires d < 10
  {
    ('0' as int + d) as char
  }

  function Digits(n: nat): string {
    if n < 10 then [Digit(n)] else Digits(n / 10) + [Digit(n % 10)]
  }

  function EncodeInt(n: int): string {
    if n < 0 then "-" + Digits(-n) else Digits(n)
  }

  function HexDigit(d: nat): char
    requires d < 16
  {
    if d < 10 then Digit(d) else ('a' as int + (d - 10)) as char
  }

  /** RFC 8259, section 7: the two-character escapes where they exist, `\u00xx` for the other controls. */
  function EscapeChar(c: char): string {
    if c == '\"' then ['\\', '\"']
    else if c == '\\' then ['\\', '\\']
    else if c == '\n' then ['\\', 'n']
    else if c == '\r' then ['\\', 'r']
    else if c == '\t' then ['\\', 't']
    else if c == '\U{08}' then ['\\', 'b']
    else if c == '\U{0C}' then ['\\', 'f']
    else if c < ' ' then ['\\', 'u', '0', '0', HexDigit(c as int / 16), HexDigit(c as int % 16)]
    else [c]
  }

  function Escape(s: string): string {
    if s == [] then [] else EscapeChar(s[0]) + Escape(s[1..])
  }

  function EncodeString(s: string): string {
    ['\"'] + Escape(s) + ['\"']
  }

  // ---------------------------------------------------------------- member order

  predicate AllNames(ms: seq<Member>) {
    forall i | 0 <= i < |ms| :: ms[i].key.Name?
  }

  predicate Before(a: Member, b: Member) {
    a.key.Name? && b.key.Name? && Less(a.key.name, b.key.name)
  }

  function Insert(m: Member, ms: seq<Member>): (r: seq<Member>)
    ensures |r| == |ms| + 1
    ensures forall x :: x in r <==> x == m || x in ms
  {
    if ms == [] || Before(m, ms[0]) then [m] + ms else [ms[0]] + Insert(m, ms[1..])
  }

  /** The members by key, in code point order. */
  function SortMembers(ms: seq<Member>): (r: seq<Member>)
    ensures |r| == |ms|
    ensures forall x :: x in r <==> x in ms
  {
    if ms == [] then [] else Insert(ms[0], SortMembers(ms[1..]))
  }

  lemma MembersAreSmaller(v: Value)
    requires v.Obj?
    ensures forall i | 0 <= i < |SortMembers(v.members)| :: SortMembers(v.members)[i].value < v
  {
    forall i | 0 <= i < |SortMembers(v.members)| ensures SortMembers(v.members)[i].value < v {
      assert SortMembers(v.members)[i] in v.members;
    }
  }

  // ---------------------------------------------------------------- the encoder

  /** `canonical_portable_json`. */
  function Encode(v: Value): Result<string>
    decreases v, 1, 0
  {
    match v
    case Null => Ok("null")
    case Bool(b) => Ok(if b then "true" else "false")
    case Str(s) => Ok(EncodeString(s))
    case Int(n) => if -MAX_SAFE <= n <= MAX_SAFE then Ok(EncodeInt(n)) else Err(UnsafeInteger)
    case Float(_) => Err(BinaryFloat)
    case Foreign => Err(UnsupportedType)
    case Arr(items) =>
      var body := EncodeItems(v, items);
      if body.Err? then body else Ok("[" + body.value + "]")
    case Obj(members) =>
      if !AllNames(members) then Err(KeyNotString)
      else
        MembersAreSmaller(v);
        var body := EncodeMembers(v, SortMembers(members));
        if body.Err? then body else Ok("{" + body.value + "}")
  }

  /** The items, encoded one by one and joined by commas; the first failure wins. */
  function EncodeItems(ghost parent: Value, items: seq<Value>): Result<string>
    requires forall i | 0 <= i < |items| :: items[i] < parent
    decreases parent, 0, |items|
  {
    if items == [] then Ok("")
    else
      var first := Encode(items[0]);
      if first.Err? || |items| == 1 then first
      else
        var rest := EncodeItems(parent, items[1..]);
        if rest.Err? then rest else Ok(first.value + "," + rest.value)
  }

  function EncodeMember(m: Member): Result<string>
    decreases m.value, 2, 0
  {
    var value := Encode(m.value);
    if value.Err? then value else Ok(EncodeString(if m.key.Name? then m.key.name else "") + ":" + value.value)
  }

  function EncodeMembers(ghost parent: Value, ms: seq<Member>): Result<string>
    requires forall i | 0 <= i < |ms| :: ms[i].value < parent
    decreases parent, 0, |ms|
  {
    if ms == [] then Ok("")
    else
      var first := EncodeMember(ms[0]);
      if first.Err? || |ms| == 1 then first
      else
        var rest := EncodeMembers(parent, ms[1..]);
        if rest.Err? then rest else Ok(first.value + "," + rest.value)
  }

  // ---------------------------------------------------------------- the parser

  /** A parsed thing and the text after it. */
  datatype Parsed<+T> = Fail | Parsed(value: T, rest: string)

  function ParseNat(t: string, acc: nat): (r: (nat, string))
    ensures |r.1| <= |t|
  {
    if t != [] && IsDigit(t[0]) then ParseNat(t[1..], acc * 10 + (t[0] as int - '0' as int)) else (acc, t)
  }

  predicate IsHex(c: char) { IsDigit(c) || 'a' <= c <= 'f' }

  function HexValue(c: char): nat
    requires IsHex(c)
  {
    if IsDigit(c) then c as int - '0' as int else c as int - 'a' as int + 10
  }

  /** One possibly escaped character. */
  function ParseChar(t: string): (r: Parsed<char>)
    ensures r.Parsed? ==> |r.rest| < |t|
  {
    if t == [] then Fail
    else if t[0] != '\\' then if t[0] < ' ' then Fail else Parsed(t[0], t[1..])
    else if |t| < 2 then Fail
    else if t[1] == '\"' then Parsed('\"', t[2..])
    else if t[1] == '\\' then Parsed('\\', t[2..])
    else if t[1] == 'n' then Parsed('\n', t[2..])
    else if t[1] == 'r' then Parsed('\r', t[2..])
    else if t[1] == 't' then Parsed('\t', t[2..])
    else if t[1] == 'b' then Parsed('\U{08}', t[2..])
    else if t[1] == 'f' then Parsed('\U{0C}', t[2..])
    else if t[1] == 'u' && |t| >= 6 && t[2] == '0' && t[3] == '0' && IsHex(t[4]) && IsHex(t[5]) then
      Parsed((16 * HexValue(t[4]) + HexValue(t[5])) as char, t[6..])
    else Fail
  }

  /** The characters up to the closing quote, which is consumed. */
  function ParseChars(t: string): (r: Parsed<string>)
    ensures r.Parsed? ==> |r.rest| < |t|
    decreases |t|
  {
    if t != [] && t[0] == '\"' then Parsed("", t[1..])
    else
      var c := ParseChar(t);
      if c.Fail? then Fail
      else
        var more := ParseChars(c.rest);
        if more.Fail? then Fail else Parsed([c.value] + more.value, more.rest)
  }

  function Literal(t: string, word: string, v: Value): (r: Parsed<Value>)
    requires word != []
    ensures r.Parsed? ==> |r.rest| < |t|
  {
    if word <= t then Parsed(v, t[|word|..]) else Fail
  }

  function ParseValue(t: string): (r: Parsed<Value>)
    ensures r.Parsed? ==> |r.rest| < |t|
    decreases |t|, 0
  {
    if t == [] then Fail
    else if t[0] == '\"' then
      var s := ParseChars(t[1..]);
      if s.Fail? then Fail else Parsed(Str(s.value), s.rest)
    else if t[0] == '[' then
      if |t| > 1 && t[1] == ']' then Parsed(Arr([]), t[2..])
      else
        var items := ParseItems(t[1..]);
        if items.Fail? then Fail else Parsed(Arr(items.value), items.rest)
    else if t[0] == '{' then
      if |t| > 1 && t[1] == '}' then Parsed(Obj([]), t[2..])
      else
        var members := ParseMembers(t[1..]);
        if members.Fail? then Fail else Parsed(Obj(members.value), members.rest)
    else if IsDigit(t[0]) then
      var n := ParseNat(t, 0);
      if |n.1| < |t| then Parsed(Int(n.0), n.1) else Fail
    else if t[0] == '-' then
      var n := ParseNat(t[1..], 0);
      Parsed(Int(0 - n.0), n.1)
    else if t[0] == 'n' then Literal(t, "null", Null)
    else if t[0] == 't' then Literal(t, "true", Bool(true))
    else if t[0] == 'f' then Literal(t, "false", Bool(false))
    else Fail
  }

  /** One or more items up to the closing bracket, which is consumed. */
  function ParseItems(t: string): (r: Parsed<seq<Value>>)
    ensures r.Parsed? ==> |r.rest| < |t|
    decreases |t|, 1
  {
    var first := ParseValue(t);
    if first.Fail? || first.rest == [] then Fail
    else if first.rest[0] == ']' then Parsed([first.value], first.rest[1..])
    else if first.rest[0] != ',' then Fail
    else
      var more := ParseItems(first.rest[1..]);
      if more.Fail? then Fail else Parsed([first.value] + more.value, more.rest)
  }

  function ParseMember(t: string): (r: Parsed<Member>)
    ensures r.Parsed? ==> |r.rest| < |t|
    decreases |t|, 1
  {
    if t == [] || t[0] != '\"' then Fail
    else
      var key := ParseChars(t[1..]);
      if key.Fail? || key.rest == [] || key.rest[0] != ':' then Fail
      else
        var value := ParseValue(key.rest[1..]);
        if value.Fail? then Fail else Parsed(Member(Name(key.value), value.value), value.rest)
  }

  function ParseMembers(t: string): (r: Parsed<seq<Member>>)
    ensures r.Parsed? ==> |r.rest| < |t|
    decreases |t|, 2
  {
    var first := ParseMember(t);
    if first.Fail? || first.rest == [] then Fail
    else if first.rest[0] == '}' then Parsed([first.value], first.rest[1..])
    else if first.rest[0] != ',' then Fail
    else
      var more := ParseMembers(first.rest[1..]);
      if more.Fail? then Fail else Parsed([first.value] + more.value, more.rest)
  }

  /** The value whose text is `t`, all of it. */
  function Parse(t: string): Option<Value> {
    var v := ParseValue(t);
    if v.Parsed? && v.rest == [] then Some(v.value) else None
  }
}
