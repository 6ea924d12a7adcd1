/** The encoder is unambiguous and independent of insertion order: equal texts mean equal values, up to
    the order of object members, and the parser recovers the value. */
module PortableJsonProofs {
  import opened Common
  import opened Text
  import opened PortableJson

  /** `v` with the members of every object in key order. */
  function Canon(v: Value): Value
    decreases v, 1, 0
  {
    match v
    case Arr(items) => Arr(CanonItems(v, items))
    case Obj(members) =>
      MembersAreSmaller(v);
      Obj(CanonMembers(v, SortMembers(members)))
    case _ => v
  }

  function CanonItems(ghost parent: Value, items: seq<Value>): (r: seq<Value>)
    requires forall i | 0 <= i < |items| :: items[i] < parent
    ensures |r| == |items| && forall i | 0 <= i < |items| :: r[i] == Canon(items[i])
    decreases parent, 0, |items|
  {
    if items == [] then [] else [Canon(items[0])] + CanonItems(parent, items[1..])
  }

  function CanonMembers(ghost parent: Value, ms: seq<Member>): (r: seq<Member>)
    requires forall i | 0 <= i < |ms| :: ms[i].value < parent
    ensures |r| == |ms| && forall i | 0 <= i < |ms| :: r[i] == Member(ms[i].key, Canon(ms[i].value))
    decreases parent, 0, |ms|
  {
    if ms == [] then [] else [Member(ms[0].key, Canon(ms[0].value))] + CanonMembers(parent, ms[1..])
  }

  // ---------------------------------------------------------------- numbers

  /** What may follow a number: anything but a further digit. */
  predicate Stops(rest: string) {
    rest == [] || !IsDigit(rest[0])
  }

  lemma {:induction false} DigitsAreDigits(n: nat)
    ensures Digits(n) != [] && forall i | 0 <= i < |Digits(n)| :: IsDigit(Digits(n)[i])
  {
    if n >= 10 { DigitsAreDigits(n / 10); }
  }

  lemma {:induction false} ParseDigits(n: nat, rest: string)
    ensures ParseNat(Digits(n) + rest, 0) == ParseNat(rest, n)
  {
    if n < 10 {
      assert ([Digit(n)] + rest)[1..] == rest;
    } else {
      var last := [Digit(n % 10)];
      ParseDigits(n / 10, last + rest);
      assert Digits(n) + rest == Digits(n / 10) + (last + rest);
      assert (last + rest)[1..] == rest;
    }
  }

  lemma NumberIs(t: string, n: nat, rest: string)
    requires t != [] && IsDigit(t[0]) && ParseNat(t, 0) == (n, rest) && |rest| < |t|
    ensures ParseValue(t) == Parsed(Int(n), rest)
  {
    hide ParseNat, ParseItems, ParseMembers, ParseChars, Literal;
  }

  lemma NegativeIs(t: string, n: nat, rest: string)
    requires ParseNat(t, 0) == (n, rest)
    ensures ParseValue(['-'] + t) == Parsed(Int(0 - n), rest)
  {
    hide ParseNat, ParseItems, ParseMembers, ParseChars, Literal;
    assert (['-'] + t)[1..] == t;
  }

  lemma ParseEncodedInt(n: int, rest: string)
    requires Stops(rest)
    ensures ParseValue(EncodeInt(n) + rest) == Parsed(Int(n), rest)
  {
    hide ParseValue, Digits;
    var size: nat := if n < 0 then -n else n;
    var digits := Digits(size);
    DigitsAreDigits(size);
    ParseDigits(size, rest);
    if n < 0 {
      NegativeIs(digits + rest, size, rest);
      assert EncodeInt(n) + rest == ['-'] + (digits + rest);
    } else {
      assert (digits + rest)[0] == digits[0];
      NumberIs(digits + rest, size, rest);
    }
  }

  // ---------------------------------------------------------------- strings

  lemma ParseEscapedChar(c: char, rest: string)
    ensures ParseChar(EscapeChar(c) + rest) == Parsed(c, rest)
    ensures EscapeChar(c)[0] != '\"'
  {
    var t := EscapeChar(c) + rest;
    if c < ' ' && |EscapeChar(c)| == 6 {
      var hi, lo := c as int / 16, c as int % 16;
      HexRoundTrip(hi);
      HexRoundTrip(lo);
      assert t[4] == HexDigit(hi) && t[5] == HexDigit(lo) && t[6..] == rest;
    } else if |EscapeChar(c)| == 2 {
      assert t[2..] == rest;
    } else {
      assert t[1..] == rest;
    }
  }

  lemma HexRoundTrip(d: nat)
    requires d < 16
    ensures IsHex(HexDigit(d)) && HexValue(HexDigit(d)) == d
  {
  }

  lemma {:induction false} ParseEscaped(s: string, rest: string)
    ensures ParseChars(Escape(s) + ['\"'] + rest) == Parsed(s, rest)
  {
    var t := Escape(s) + ['\"'] + rest;
    if s == [] {
      assert t[1..] == rest;
    } else {
      var tail := Escape(s[1..]) + ['\"'] + rest;
      assert t == EscapeChar(s[0]) + tail;
      ParseEscapedChar(s[0], tail);
      assert t[0] == EscapeChar(s[0])[0];
      ParseEscaped(s[1..], rest);
      assert [s[0]] + s[1..] == s;
    }
  }

  lemma ParseEncodedString(s: string, rest: string)
    ensures EncodeString(s) != [] && EncodeString(s)[0] == '\"'
    ensures ParseChars((EncodeString(s) + rest)[1..]) == Parsed(s, rest)
  {
    assert (EncodeString(s) + rest)[1..] == Escape(s) + ['\"'] + rest;
    ParseEscaped(s, rest);
  }

  // ---------------------------------------------------------------- values

  /** How an encoded value begins: never like a closing bracket. */
  lemma EncodedStart(v: Value)
    requires Encode(v).Ok?
    ensures Encode(v).value != [] && Encode(v).value[0] != ']' && Encode(v).value[0] != '}'
  {
    if v.Int? { DigitsAreDigits(if v.number < 0 then -v.number else v.number); }
  }

  // ---------------------------------------------------------------- what the parser does, production by production

  lemma ItemsEnd(t: string, v: Value, rest: string)
    requires ParseValue(t) == Parsed(v, [']'] + rest)
    ensures ParseItems(t) == Parsed([v], rest)
  {
    assert ([']'] + rest)[1..] == rest;
  }

  lemma ItemsGoOn(t: string, v: Value, more: string, vs: seq<Value>, rest: string)
    requires ParseValue(t) == Parsed(v, [','] + more) && ParseItems(more) == Parsed(vs, rest)
    ensures ParseItems(t) == Parsed([v] + vs, rest)
  {
    assert ([','] + more)[1..] == more;
  }

  lemma MembersEnd(t: string, m: Member, rest: string)
    requires ParseMember(t) == Parsed(m, ['}'] + rest)
    ensures ParseMembers(t) == Parsed([m], rest)
  {
    assert (['}'] + rest)[1..] == rest;
  }

  lemma MembersGoOn(t: string, m: Member, more: string, ms: seq<Member>, rest: string)
    requires ParseMember(t) == Parsed(m, [','] + more) && ParseMembers(more) == Parsed(ms, rest)
    ensures ParseMembers(t) == Parsed([m] + ms, rest)
  {
    assert ([','] + more)[1..] == more;
  }

  lemma MemberIs(key: string, text: string, value: Value, rest: string)
    requires ParseValue(text) == Parsed(value, rest)
    ensures ParseMember(EncodeString(key) + ([':'] + text)) == Parsed(Member(Name(key), value), rest)
  {
    hide ParseValue, ParseChars, EncodeString;
    var t, after := EncodeString(key) + ([':'] + text), [':'] + text;
    ParseEncodedString(key, after);
    assert t[0] == '\"';
    assert after[1..] == text;
  }

  lemma StringIs(s: string, rest: string)
    ensures ParseValue(EncodeString(s) + rest) == Parsed(Str(s), rest)
  {
    hide EncodeString, ParseChars;
    ParseEncodedString(s, rest);
    assert (EncodeString(s) + rest)[0] == '\"';
  }

  lemma EmptyIs(rest: string)
    ensures ParseValue("[]" + rest) == Parsed(Arr([]), rest) && ParseValue("{}" + rest) == Parsed(Obj([]), rest)
  {
    assert ("[]" + rest)[2..] == rest && ("{}" + rest)[2..] == rest;
  }

  lemma ArrayIs(text: string, items: seq<Value>, rest: string)
    requires text != [] && text[0] != ']' && ParseItems(text) == Parsed(items, rest)
    ensures ParseValue(['['] + text) == Parsed(Arr(items), rest)
  {
    assert (['['] + text)[1..] == text;
  }

  lemma ObjectIs(text: string, members: seq<Member>, rest: string)
    requires text != [] && text[0] != '}' && ParseMembers(text) == Parsed(members, rest)
    ensures ParseValue(['{'] + text) == Parsed(Obj(members), rest)
  {
    assert (['{'] + text)[1..] == text;
  }

  lemma WordIs(v: Value, rest: string)
    requires v.Null? || v.Bool?
    ensures ParseValue(Encode(v).value + rest) == Parsed(v, rest)
  {
    assert (Encode(v).value + rest)[|Encode(v).value|..] == rest;
  }

  // ---------------------------------------------------------------- the round trip

  /** The parser undoes the encoder, whatever text follows. */
  lemma {:induction false} ParseEncoded(v: Value, rest: string)
    requires Encode(v).Ok? && Stops(rest)
    ensures ParseValue(Encode(v).value + rest) == Parsed(Canon(v), rest)
    decreases v, 1, 0
  {
    hide ParseValue, ParseItems, ParseMembers, EncodeString, EncodeInt, EncodeItems, EncodeMembers;
    match v
    case Null => WordIs(v, rest);
    case Bool(b) => WordIs(v, rest);
    case Str(s) => StringIs(s, rest);
    case Int(n) => ParseEncodedInt(n, rest);
    case Arr(items) =>
      if items == [] { EmptyArray(v, rest); }
      else {
        ParseEncodedItems(v, items, rest);
        var text := EncodeItems(v, items).value + [']'] + rest;
        assert Encode(v).value + rest == ['['] + text;
        EncodedStart(items[0]);
        ArrayIs(text, CanonItems(v, items), rest);
      }
    case Obj(members) =>
      MembersAreSmaller(v);
      var sorted := SortMembers(members);
      if sorted == [] { EmptyObject(v, rest); }
      else {
        forall i | 0 <= i < |sorted| ensures sorted[i].key.Name? {
          assert sorted[i] in members;
        }
        ParseEncodedMembers(v, sorted, rest);
        var text := EncodeMembers(v, sorted).value + ['}'] + rest;
        assert Encode(v).value + rest == ['{'] + text;
        ObjectIs(text, CanonMembers(v, sorted), rest);
      }
    case _ =>
  }

  lemma EmptyArray(v: Value, rest: string)
    requires v == Arr([])
    ensures Encode(v).Ok? && ParseValue(Encode(v).value + rest) == Parsed(Canon(v), rest)
  {
    EmptyIs(rest);
    assert EncodeItems(v, []).value == "";
    assert "[" + "" + "]" == "[]";
  }

  lemma EmptyObject(v: Value, rest: string)
    requires v == Obj([])
    ensures Encode(v).Ok? && ParseValue(Encode(v).value + rest) == Parsed(Canon(v), rest)
  {
    EmptyIs(rest);
    assert SortMembers([]) == [];
    assert EncodeMembers(v, []).value == "";
    assert "{" + "" + "}" == "{}";
  }

  lemma {:induction false} ParseEncodedItems(parent: Value, items: seq<Value>, rest: string)
    requires items != [] && (forall i | 0 <= i < |items| :: items[i] < parent) && EncodeItems(parent, items).Ok?
    ensures ParseItems(EncodeItems(parent, items).value + [']'] + rest) == Parsed(CanonItems(parent, items), rest)
    ensures Encode(items[0]).Ok? && EncodeItems(parent, items).value != [] && Encode(items[0]).value != []
    ensures EncodeItems(parent, items).value[0] == Encode(items[0]).value[0]
    decreases parent, 0, |items|
  {
    hide ParseValue, ParseItems, Encode, Canon;
    EncodedStart(items[0]);
    var first, text := Encode(items[0]).value, EncodeItems(parent, items).value + [']'] + rest;
    if |items| == 1 {
      ParseEncoded(items[0], [']'] + rest);
      assert text == first + ([']'] + rest);
      ItemsEnd(text, Canon(items[0]), rest);
      assert CanonItems(parent, items) == [Canon(items[0])];
    } else {
      var more := EncodeItems(parent, items[1..]).value + [']'] + rest;
      ParseEncodedItems(parent, items[1..], rest);
      ParseEncoded(items[0], [','] + more);
      assert text == first + ([','] + more);
      ItemsGoOn(text, Canon(items[0]), more, CanonItems(parent, items[1..]), rest);
    }
  }

  lemma {:induction false} ParseEncodedMember(m: Member, rest: string)
    requires m.key.Name? && EncodeMember(m).Ok? && Stops(rest)
    ensures ParseMember(EncodeMember(m).value + rest) == Parsed(Member(m.key, Canon(m.value)), rest)
    ensures EncodeMember(m).value != [] && EncodeMember(m).value[0] == '\"'
    decreases m.value, 2, 0
  {
    hide ParseValue, ParseMember, Encode, Canon;
    var value := Encode(m.value).value;
    ParseEncoded(m.value, rest);
    MemberIs(m.key.name, value + rest, Canon(m.value), rest);
    assert EncodeMember(m).value + rest == EncodeString(m.key.name) + ([':'] + (value + rest));
  }

  lemma {:induction false} ParseEncodedMembers(parent: Value, ms: seq<Member>, rest: string)
    requires ms != [] && AllNames(ms) && (forall i | 0 <= i < |ms| :: ms[i].value < parent)
             && EncodeMembers(parent, ms).Ok?
    ensures ParseMembers(EncodeMembers(parent, ms).value + ['}'] + rest) == Parsed(CanonMembers(parent, ms), rest)
    ensures EncodeMembers(parent, ms).value != [] && EncodeMembers(parent, ms).value[0] == '\"'
    decreases parent, 0, |ms|
  {
    hide ParseMember, ParseMembers, EncodeMember, Canon;
    var first, text := EncodeMember(ms[0]).value, EncodeMembers(parent, ms).value + ['}'] + rest;
    var member := Member(ms[0].key, Canon(ms[0].value));
    if |ms| == 1 {
      ParseEncodedMember(ms[0], ['}'] + rest);
      assert text == first + (['}'] + rest);
      MembersEnd(text, member, rest);
      assert CanonMembers(parent, ms) == [member];
    } else {
      var more := EncodeMembers(parent, ms[1..]).value + ['}'] + rest;
      ParseEncodedMembers(parent, ms[1..], rest);
      ParseEncodedMember(ms[0], [','] + more);
      assert text == first + ([','] + more);
      MembersGoOn(text, member, more, CanonMembers(parent, ms[1..]), rest);
    }
  }

  /** Every encoding parses back to the value it encodes, up to member order. */
  lemma RoundTrip(v: Value)
    requires Encode(v).Ok?
    ensures Parse(Encode(v).value) == Some(Canon(v))
  {
    ParseEncoded(v, []);
    assert Encode(v).value + [] == Encode(v).value;
  }

  // ---------------------------------------------------------------- equality up to member order

  function KeySet(ms: seq<Member>): set<Key> {
    set m | m in ms :: m.key
  }

  /** The same value, whatever order object members were inserted in. */
  ghost predicate Equiv(a: Value, b: Value)
    decreases a
  {
    match a
    case Arr(items) => b.Arr? && |items| == |b.items| && forall i | 0 <= i < |items| :: Equiv(items[i], b.items[i])
    case Obj(members) =>
      && b.Obj? && KeySet(members) == KeySet(b.members)
      && forall i, j | 0 <= i < |members| && 0 <= j < |b.members| && members[i].key == b.members[j].key ::
           Equiv(members[i].value, b.members[j].value)
    case _ => a == b
  }

  /** No object repeats a key, as no dictionary can. */
  ghost predicate WellFormed(v: Value) {
    match v
    case Arr(items) => forall i | 0 <= i < |items| :: WellFormed(items[i])
    case Obj(members) =>
      && (forall i, j | 0 <= i < j < |members| :: members[i].key != members[j].key)
      && (forall i | 0 <= i < |members| :: WellFormed(members[i].value))
    case _ => true
  }

  ghost predicate Ascending(ms: seq<Member>) {
    forall i, j | 0 <= i < j < |ms| :: Before(ms[i], ms[j])
  }

  lemma {:induction false} InsertAscending(m: Member, ms: seq<Member>)
    requires m.key.Name? && AllNames(ms) && Ascending(ms) && forall i | 0 <= i < |ms| :: ms[i].key != m.key
    ensures Ascending(Insert(m, ms))
  {
    if ms != [] {
      LessTotal(m.key.name, ms[0].key.name);
      if Before(m, ms[0]) {
        forall j | 0 < j < |ms| ensures Before(m, ms[j]) {
          LessTransitive(m.key.name, ms[0].key.name, ms[j].key.name);
        }
      } else {
        InsertAscending(m, ms[1..]);
        var rest := Insert(m, ms[1..]);
        forall j | 0 <= j < |rest| ensures Before(ms[0], rest[j]) {
          assert rest[j] == m || rest[j] in ms[1..];
        }
      }
    }
  }

  /** Sorting puts distinct names in strictly ascending order. */
  lemma {:induction false} SortAscending(ms: seq<Member>)
    requires AllNames(ms) && forall i, j | 0 <= i < j < |ms| :: ms[i].key != ms[j].key
    ensures Ascending(SortMembers(ms)) && AllNames(SortMembers(ms))
  {
    if ms != [] {
      SortAscending(ms[1..]);
      var rest := SortMembers(ms[1..]);
      forall i | 0 <= i < |rest| ensures rest[i].key != ms[0].key && rest[i].key.Name? {
        assert rest[i] in ms[1..];
      }
      InsertAscending(ms[0], rest);
      forall i | 0 <= i < |SortMembers(ms)| ensures SortMembers(ms)[i].key.Name? {
        assert SortMembers(ms)[i] in ms;
      }
    }
  }

  /** Two ascending lists of the same keys list them alike. */
  lemma {:induction false} AscendingKeysAgree(x: seq<Member>, y: seq<Member>)
    requires Ascending(x) && Ascending(y) && AllNames(x) && AllNames(y) && KeySet(x) == KeySet(y)
    ensures |x| == |y| && forall i | 0 <= i < |x| :: x[i].key == y[i].key
    decreases |x|
  {
    assert x != [] ==> x[0].key in KeySet(x);
    assert y != [] ==> y[0].key in KeySet(y);
    if x != [] {
      var j :| 0 <= j < |y| && y[j].key == x[0].key;
      var i :| 0 <= i < |x| && x[i].key == y[0].key;
      if j > 0 && i > 0 { LessAsymmetric(x[0].key.name, y[0].key.name); }
      FirstIsAlone(x);
      FirstIsAlone(y);
      assert KeySet(x[1..]) == KeySet(x) - {x[0].key};
      AscendingKeysAgree(x[1..], y[1..]);
      forall k | 0 <= k < |x| ensures x[k].key == y[k].key {
        if k > 0 { assert x[k] == x[1..][k - 1] && y[k] == y[1..][k - 1]; }
      }
    }
  }

  lemma FirstIsAlone(x: seq<Member>)
    requires x != [] && Ascending(x) && AllNames(x)
    ensures KeySet(x[1..]) == KeySet(x) - {x[0].key}
  {
    forall i | 0 < i < |x| ensures x[i].key != x[0].key {
      LessIrreflexive(x[0].key.name);
      assert Before(x[0], x[i]);
    }
    assert x == [x[0]] + x[1..];
  }

  // ---------------------------------------------------------------- equal texts, equal values

  lemma SortedAgree(x: seq<Member>, y: seq<Member>)
    requires KeySet(x) == KeySet(y) && AllNames(x) && AllNames(y)
    requires forall i, j | 0 <= i < j < |x| :: x[i].key != x[j].key
    requires forall i, j | 0 <= i < j < |y| :: y[i].key != y[j].key
    ensures Ascending(SortMembers(x)) && Ascending(SortMembers(y))
    ensures |SortMembers(x)| == |SortMembers(y)|
    ensures forall i | 0 <= i < |SortMembers(x)| :: SortMembers(x)[i].key == SortMembers(y)[i].key
  {
    SortAscending(x);
    SortAscending(y);
    assert KeySet(SortMembers(x)) == KeySet(x) && KeySet(SortMembers(y)) == KeySet(y);
    AscendingKeysAgree(SortMembers(x), SortMembers(y));
  }

  /** Equivalent values encode alike, errors included: insertion order leaves no trace in the text. */
  lemma {:induction false} EquivalentEncodeAlike(a: Value, b: Value)
    requires WellFormed(a) && WellFormed(b) && Equiv(a, b)
    ensures Encode(a) == Encode(b)
    decreases a
  {
    match a
    case Arr(items) =>
      forall i | 0 <= i < |items| ensures Encode(items[i]) == Encode(b.items[i]) {
        EquivalentEncodeAlike(items[i], b.items[i]);
      }
      ItemsAlike(a, items, b, b.items);
    case Obj(members) =>
      NamesAgree(members, b.members);
      if AllNames(members) {
        MembersAreSmaller(a);
        MembersAreSmaller(b);
        SortedAgree(members, b.members);
        var x, y := SortMembers(members), SortMembers(b.members);
        forall i | 0 <= i < |x| ensures Encode(x[i].value) == Encode(y[i].value) {
          assert x[i] in members && y[i] in b.members;
          EquivalentEncodeAlike(x[i].value, y[i].value);
        }
        MembersAlike(a, x, b, y);
      }
    case _ =>
  }

  lemma NamesAgree(x: seq<Member>, y: seq<Member>)
    requires KeySet(x) == KeySet(y)
    ensures AllNames(x) <==> AllNames(y)
  {
    assert AllNames(x) <==> forall k | k in KeySet(x) :: k.Name? by { NamesByKey(x); }
    NamesByKey(y);
  }

  lemma NamesByKey(x: seq<Member>)
    ensures AllNames(x) <==> forall k | k in KeySet(x) :: k.Name?
  {
    forall i | 0 <= i < |x| ensures x[i].key in KeySet(x) {
    }
  }

  lemma {:induction false} ItemsAlike(a: Value, x: seq<Value>, b: Value, y: seq<Value>)
    requires |x| == |y| && forall i | 0 <= i < |x| :: x[i] < a && y[i] < b && Encode(x[i]) == Encode(y[i])
    ensures EncodeItems(a, x) == EncodeItems(b, y)
    decreases |x|
  {
    if x != [] { ItemsAlike(a, x[1..], b, y[1..]); }
  }

  lemma {:induction false} MembersAlike(a: Value, x: seq<Member>, b: Value, y: seq<Member>)
    requires |x| == |y|
    requires forall i | 0 <= i < |x| ::
               x[i].value < a && y[i].value < b && x[i].key == y[i].key && Encode(x[i].value) == Encode(y[i].value)
    ensures EncodeMembers(a, x) == EncodeMembers(b, y)
    decreases |x|
  {
    if x != [] { MembersAlike(a, x[1..], b, y[1..]); }
  }

  /** Objects of one canonical form, sorted, have the same keys and values of one canonical form each. */
  lemma CanonMembersAgree(a: Value, b: Value)
    requires a.Obj? && b.Obj? && Canon(a) == Canon(b)
    ensures var x, y := SortMembers(a.members), SortMembers(b.members);
            |x| == |y| && forall k | 0 <= k < |x| :: x[k].key == y[k].key && Canon(x[k].value) == Canon(y[k].value)
  {
    hide SortMembers;
    MembersAreSmaller(a);
    MembersAreSmaller(b);
    var x, y := CanonMembers(a, SortMembers(a.members)), CanonMembers(b, SortMembers(b.members));
    assert x == y;
    assert forall k | 0 <= k < |x| :: x[k] == y[k];
  }

  lemma MembersEncoded(a: Value)
    requires a.Obj? && Encode(a).Ok?
    ensures AllNames(a.members) && forall m | m in a.members :: Encode(m.value).Ok?
  {
    hide SortMembers;
    MembersAreSmaller(a);
    var x := SortMembers(a.members);
    forall m | m in a.members ensures Encode(m.value).Ok? {
      var k := IndexOf(x, m);
      MembersEncode(a, x, k);
    }
  }

  lemma CanonKind(a: Value, b: Value)
    requires Canon(a) == Canon(b)
    ensures (a.Arr? <==> b.Arr?) && (a.Obj? <==> b.Obj?) && (!a.Arr? && !a.Obj? ==> a == b)
  {
  }

  lemma CanonItemsAgree(a: Value, b: Value)
    requires a.Arr? && b.Arr? && Canon(a) == Canon(b) && Encode(a).Ok? && Encode(b).Ok?
    ensures |a.items| == |b.items|
    ensures forall i | 0 <= i < |a.items| ::
              Encode(a.items[i]).Ok? && Encode(b.items[i]).Ok? && Canon(a.items[i]) == Canon(b.items[i])
  {
    var x, y := CanonItems(a, a.items), CanonItems(b, b.items);
    assert x == y;
    forall i | 0 <= i < |x|
      ensures Encode(a.items[i]).Ok? && Encode(b.items[i]).Ok? && Canon(a.items[i]) == Canon(b.items[i])
    {
      ItemsEncode(a, a.items, i);
      ItemsEncode(b, b.items, i);
      assert x[i] == y[i];
    }
  }

  /** A value is determined by its canonical form, up to member order. */
  lemma {:induction false} CanonDetermines(a: Value, b: Value)
    requires WellFormed(a) && WellFormed(b) && Encode(a).Ok? && Encode(b).Ok? && Canon(a) == Canon(b)
    ensures Equiv(a, b)
    decreases a
  {
    hide Encode, Canon, SortMembers;
    CanonKind(a, b);
    match a
    case Arr(items) =>
      CanonItemsAgree(a, b);
      forall i | 0 <= i < |items| ensures Equiv(items[i], b.items[i]) {
        CanonDetermines(items[i], b.items[i]);
      }
    case Obj(members) =>
      MembersEncoded(a);
      MembersEncoded(b);
      CanonMembersAgree(a, b);
      var x, y := SortMembers(members), SortMembers(b.members);
      SameKeys(members, b.members);
      SortAscending(b.members);
      forall i, j | 0 <= i < |members| && 0 <= j < |b.members| && members[i].key == b.members[j].key
        ensures Equiv(members[i].value, b.members[j].value)
      {
        var m := IndexOf(x, members[i]);
        var n := IndexOf(y, b.members[j]);
        AscendingIsDistinct(y, m, n);
        CanonDetermines(members[i].value, b.members[j].value);
      }
    case _ =>
  }

  lemma IndexOf(x: seq<Member>, m: Member) returns (k: nat)
    requires m in x
    ensures k < |x| && x[k] == m
  {
    k :| 0 <= k < |x| && x[k] == m;
  }

  lemma AscendingIsDistinct(y: seq<Member>, m: nat, n: nat)
    requires Ascending(y) && m < |y| && n < |y| && y[m].key == y[n].key
    ensures m == n
  {
    if y[m].key.Name? { LessIrreflexive(y[m].key.name); }
    assert !Before(y[m], y[n]) && !Before(y[n], y[m]);
  }

  lemma SameKeys(x: seq<Member>, y: seq<Member>)
    requires |SortMembers(x)| == |SortMembers(y)|
    requires forall k | 0 <= k < |SortMembers(x)| :: SortMembers(x)[k].key == SortMembers(y)[k].key
    ensures KeySet(x) == KeySet(y)
  {
    forall k | k in KeySet(x) ensures k in KeySet(y) {
      var m :| m in SortMembers(x) && m.key == k;
      var i := IndexOf(SortMembers(x), m);
      assert SortMembers(y)[i] in y;
    }
    forall k | k in KeySet(y) ensures k in KeySet(x) {
      var m :| m in SortMembers(y) && m.key == k;
      var i := IndexOf(SortMembers(y), m);
      assert SortMembers(x)[i] in x;
    }
  }

  lemma {:induction false} ItemsEncode(a: Value, items: seq<Value>, i: nat)
    requires i < |items| && (forall k | 0 <= k < |items| :: items[k] < a) && EncodeItems(a, items).Ok?
    ensures Encode(items[i]).Ok?
    decreases |items|
  {
    if i > 0 { ItemsEncode(a, items[1..], i - 1); }
  }

  lemma {:induction false} MembersEncode(a: Value, ms: seq<Member>, i: nat)
    requires i < |ms| && (forall k | 0 <= k < |ms| :: ms[k].value < a) && EncodeMembers(a, ms).Ok?
    ensures Encode(ms[i].value).Ok?
    decreases |ms|
  {
    if i > 0 { MembersEncode(a, ms[1..], i - 1); }
  }

  /** Two values have the same text exactly when they are the same value up to member order. */
  lemma TextDeterminesValue(a: Value, b: Value)
    requires WellFormed(a) && WellFormed(b) && Encode(a).Ok?
    ensures Encode(a) == Encode(b) <==> Equiv(a, b)
  {
    hide Encode, Canon, Equiv, WellFormed, Parse;
    if Equiv(a, b) { EquivalentEncodeAlike(a, b); }
    if Encode(a) == Encode(b) {
      RoundTrip(a);
      RoundTrip(b);
      CanonDetermines(a, b);
    }
  }

  // ---------------------------------------------------------------- what can be encoded

  /** The profile: no floats, safe integers, string keys, all the way down. */
  ghost predicate InProfile(v: Value) {
    match v
    case Int(n) => -MAX_SAFE <= n <= MAX_SAFE
    case Float(_) => false
    case Foreign => false
    case Arr(items) => forall i | 0 <= i < |items| :: InProfile(items[i])
    case Obj(members) => AllNames(members) && forall i | 0 <= i < |members| :: InProfile(members[i].value)
    case _ => true
  }

  lemma {:induction false} EncodesExactlyTheProfile(v: Value)
    ensures Encode(v).Ok? <==> InProfile(v)
    decreases v, 1, 0
  {
    match v
    case Arr(items) => ItemsInProfile(v, items);
    case Obj(members) =>
      if AllNames(members) {
        MembersAreSmaller(v);
        var sorted := SortMembers(members);
        MembersInProfile(v, sorted);
        SortKeepsProfile(members);
      }
    case _ =>
  }

  ghost predicate AllInProfile(ms: seq<Member>) {
    forall i | 0 <= i < |ms| :: InProfile(ms[i].value)
  }

  lemma PartInProfile(x: seq<Member>, y: seq<Member>)
    requires AllInProfile(x) && forall m | m in y :: m in x
    ensures AllInProfile(y)
  {
    forall i | 0 <= i < |y| ensures InProfile(y[i].value) {
      assert y[i] in x;
      var k := IndexOf(x, y[i]);
    }
  }

  lemma SortKeepsProfile(ms: seq<Member>)
    ensures AllInProfile(ms) <==> AllInProfile(SortMembers(ms))
  {
    hide AllInProfile;
    if AllInProfile(ms) { PartInProfile(ms, SortMembers(ms)); }
    if AllInProfile(SortMembers(ms)) { PartInProfile(SortMembers(ms), ms); }
  }

  lemma {:induction false} ItemsInProfile(parent: Value, items: seq<Value>)
    requires forall i | 0 <= i < |items| :: items[i] < parent
    ensures EncodeItems(parent, items).Ok? <==> forall i | 0 <= i < |items| :: InProfile(items[i])
    decreases parent, 0, |items|
  {
    if items != [] {
      EncodesExactlyTheProfile(items[0]);
      ItemsInProfile(parent, items[1..]);
      assert items == [items[0]] + items[1..];
    }
  }

  lemma {:induction false} MembersInProfile(parent: Value, ms: seq<Member>)
    requires forall i | 0 <= i < |ms| :: ms[i].value < parent
    ensures EncodeMembers(parent, ms).Ok? <==> AllInProfile(ms)
    decreases parent, 0, |ms|
  {
    if ms != [] {
      EncodesExactlyTheProfile(ms[0].value);
      MembersInProfile(parent, ms[1..]);
      assert ms == [ms[0]] + ms[1..];
    }
  }

  // ---------------------------------------------------------------- canonical forms are equivalent

  /** Every key is a string, all the way down. */
  ghost predicate Named(v: Value) {
    match v
    case Arr(items) => forall i | 0 <= i < |items| :: Named(items[i])
    case Obj(members) => AllNames(members) && forall i | 0 <= i < |members| :: Named(members[i].value)
    case _ => true
  }

  lemma SameMember(ms: seq<Member>, a: Member, b: Member)
    requires forall i, j | 0 <= i < j < |ms| :: ms[i].key != ms[j].key
    requires a in ms && b in ms && a.key == b.key
    ensures a == b
  {
    var i := IndexOf(ms, a);
    var j := IndexOf(ms, b);
  }

  /** What the parser returns for an encoded value is the value again, up to member order. */
  lemma {:induction false} CanonIsEquivalent(v: Value)
    requires WellFormed(v) && Named(v)
    ensures Equiv(v, Canon(v)) && WellFormed(Canon(v))
    decreases v
  {
    match v
    case Arr(items) =>
      forall i | 0 <= i < |items| ensures Equiv(items[i], Canon(items[i])) && WellFormed(Canon(items[i])) {
        CanonIsEquivalent(items[i]);
      }
    case Obj(members) =>
      MembersAreSmaller(v);
      SortAscending(members);
      var sorted := SortMembers(members);
      var canon := CanonMembers(v, sorted);
      forall j | 0 <= j < |canon|
        ensures canon[j].key == sorted[j].key && Equiv(sorted[j].value, canon[j].value) && WellFormed(canon[j].value)
      {
        var i := IndexOf(members, sorted[j]);
        CanonIsEquivalent(sorted[j].value);
      }
      CanonKeys(v, members);
      forall i, j | 0 <= i < |members| && 0 <= j < |canon| && members[i].key == canon[j].key
        ensures Equiv(members[i].value, canon[j].value)
      {
        assert sorted[j] in members;
        SameMember(members, members[i], sorted[j]);
      }
      forall i, j | 0 <= i < j < |canon| ensures canon[i].key != canon[j].key {
        if canon[i].key == canon[j].key { AscendingIsDistinct(sorted, i, j); }
      }
    case _ =>
  }

  lemma CanonKeys(v: Value, members: seq<Member>)
    requires v == Obj(members)
    ensures forall i | 0 <= i < |SortMembers(members)| :: SortMembers(members)[i].value < v
    ensures KeySet(CanonMembers(v, SortMembers(members))) == KeySet(members)
  {
    MembersAreSmaller(v);
    var sorted := SortMembers(members);
    var canon := CanonMembers(v, sorted);
    forall k | k in KeySet(members) ensures k in KeySet(canon) {
      var m :| m in members && m.key == k;
      var i := IndexOf(sorted, m);
      assert canon[i] in canon;
    }
    forall k | k in KeySet(canon) ensures k in KeySet(members) {
      var m :| m in canon && m.key == k;
      var i := IndexOf(canon, m);
      assert sorted[i] in members;
    }
  }
}
