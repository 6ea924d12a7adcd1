/** The conformance vectors of the profile: the texts both languages have agreed on. */
module PortableJsonVectors {
  import opened Common
  import opened Text
  import opened PortableJson

  /** Characters that stand for themselves. */
  predicate Plain(s: string) {
    forall i | 0 <= i < |s| :: s[i] != '\"' && s[i] != '\\' && s[i] >= ' '
  }

  lemma {:induction false} EscapePlain(s: string)
    requires Plain(s)
    ensures Escape(s) == s
  {
    if s != [] { EscapePlain(s[1..]); }
  }

  lemma {:induction false} EscapeAppend(s: string, t: string)
    ensures Escape(s + t) == Escape(s) + Escape(t)
  {
    if s == [] {
      assert s + t == t;
    } else {
      assert (s + t)[1..] == s[1..] + t;
      EscapeAppend(s[1..], t);
    }
  }

  /** A character that is escaped, between plain ones. */
  lemma EscapeOne(before: string, c: char, after: string)
    requires Plain(before) && Plain(after)
    ensures Escape(before + [c] + after) == before + EscapeChar(c) + after
  {
    EscapeSingle(c);
    hide Escape, EscapeChar;
    EscapePlain(before);
    EscapePlain(after);
    EscapeAppend(before + [c], after);
    EscapeAppend(before, [c]);
  }

  lemma EscapeSingle(c: char)
    ensures Escape([c]) == EscapeChar(c)
  {
    hide EscapeChar;
    assert [c][1..] == [] && Escape([]) == [];
  }

  // ---------------------------------------------------------------- members in order

  lemma InsertBefore(m: Member, ms: seq<Member>)
    requires ms == [] || Before(m, ms[0])
    ensures Insert(m, ms) == [m] + ms
  {
  }

  lemma InsertAfter(m: Member, x: Member, rest: seq<Member>)
    requires Before(x, m)
    ensures Insert(m, [x] + rest) == [x] + Insert(m, rest)
  {
    LessAsymmetric(x.key.name, m.key.name);
    assert ([x] + rest)[1..] == rest;
  }

  lemma SortOne(a: Member)
    ensures SortMembers([a]) == [a]
  {
    assert [a][1..] == [] && SortMembers([]) == [];
    InsertBefore(a, []);
  }

  lemma SortTwo(a: Member, b: Member)
    requires Before(a, b)
    ensures SortMembers([a, b]) == [a, b] && SortMembers([b, a]) == [a, b]
  {
    SortOne(a);
    SortOne(b);
    assert [b, a][1..] == [a] && [a, b][1..] == [b];
    InsertBefore(a, [b]);
    InsertAfter(b, a, []);
    InsertBefore(b, []);
    assert [a] + [] == [a];
  }

  /** The last of three comes first, or the first comes second. */
  lemma SortThree(a: Member, b: Member, c: Member)
    requires Before(a, b) && Before(b, c) && Before(a, c)
    ensures SortMembers([c, a, b]) == [a, b, c] && SortMembers([b, c, a]) == [a, b, c]
  {
    SortTwo(a, b);
    SortTwo(a, c);
    assert [c, a, b][1..] == [a, b] && [b, c, a][1..] == [c, a];
    InsertAfter(c, a, [b]);
    InsertAfter(c, b, []);
    InsertBefore(c, []);
    assert [a] + [b] == [a, b] && [b] + [] == [b];
    InsertAfter(b, a, [c]);
    InsertBefore(b, [c]);
    assert [a] + [c] == [a, c];
  }

  function Pair(name: string, text: string): string { ['\"'] + name + ['\"'] + ":" + text }

  lemma OneMember(name: string, v: Value, text: string)
    requires Plain(name) && Encode(v) == Ok(text)
    ensures EncodeMember(Field(name, v)) == Ok(Pair(name, text))
  {
    EscapePlain(name);
  }

  function Field(name: string, v: Value): Member { Member(Name(name), v) }

  lemma TwoMembers(ms: seq<Member>, a: Member, b: Member, s: string, t: string)
    requires SortMembers(ms) == [a, b] && AllNames(ms) && EncodeMember(a) == Ok(s) && EncodeMember(b) == Ok(t)
    ensures Encode(Obj(ms)) == Ok("{" + (s + "," + t) + "}")
  {
    var v := Obj(ms);
    MembersAreSmaller(v);
    assert [a, b][1..] == [b];
    assert EncodeMembers(v, [b]) == Ok(t);
    assert EncodeMembers(v, [a, b]) == Ok(s + "," + t);
  }

  lemma ThreeMembers(ms: seq<Member>, a: Member, b: Member, c: Member, s: string, t: string, u: string)
    requires SortMembers(ms) == [a, b, c] && AllNames(ms)
    requires EncodeMember(a) == Ok(s) && EncodeMember(b) == Ok(t) && EncodeMember(c) == Ok(u)
    ensures Encode(Obj(ms)) == Ok("{" + (s + "," + (t + "," + u)) + "}")
  {
    var v := Obj(ms);
    MembersAreSmaller(v);
    assert SortMembers(ms)[0] == a && SortMembers(ms)[1] == b && SortMembers(ms)[2] == c;
    assert [a, b, c][1..] == [b, c] && [b, c][1..] == [c];
    assert EncodeMembers(v, [c]) == Ok(u);
    assert EncodeMembers(v, [b, c]) == Ok(t + "," + u);
    assert EncodeMembers(v, [a, b, c]) == Ok(s + "," + (t + "," + u));
  }

  /** The object of two or three fields, each with its text. */
  lemma TwoFields(p: string, v: Value, s: string, q: string, w: Value, t: string)
    requires Plain(p) && Plain(q) && Less(p, q) && Encode(v) == Ok(s) && Encode(w) == Ok(t)
    ensures Encode(Obj([Field(q, w), Field(p, v)])) == Ok("{" + (Pair(p, s) + "," + Pair(q, t)) + "}")
  {
    hide Encode, Pair, Less;
    var a, b := Field(p, v), Field(q, w);
    OneMember(p, v, s);
    OneMember(q, w, t);
    SortTwo(a, b);
    TwoMembers([b, a], a, b, Pair(p, s), Pair(q, t));
  }

  lemma ThreeFields(p: string, v: Value, s: string, q: string, w: Value, t: string, r: string, x: Value, u: string)
    requires Plain(p) && Plain(q) && Plain(r) && Less(p, q) && Less(q, r)
    requires Encode(v) == Ok(s) && Encode(w) == Ok(t) && Encode(x) == Ok(u)
    ensures var text := "{" + (Pair(p, s) + "," + (Pair(q, t) + "," + Pair(r, u))) + "}";
            && Encode(Obj([Field(r, x), Field(p, v), Field(q, w)])) == Ok(text)
            && Encode(Obj([Field(q, w), Field(r, x), Field(p, v)])) == Ok(text)
  {
    hide Encode, Pair, Less;
    var a, b, c := Field(p, v), Field(q, w), Field(r, x);
    OneMember(p, v, s);
    OneMember(q, w, t);
    OneMember(r, x, u);
    LessTransitive(p, q, r);
    SortThree(a, b, c);
    ThreeMembers([c, a, b], a, b, c, Pair(p, s), Pair(q, t), Pair(r, u));
    ThreeMembers([b, c, a], a, b, c, Pair(p, s), Pair(q, t), Pair(r, u));
  }

  lemma PlainString(s: string)
    requires Plain(s)
    ensures Encode(Str(s)) == Ok(['\"'] + s + ['\"'])
  {
    EscapePlain(s);
  }

  lemma EscapedString(before: string, c: char, after: string)
    requires Plain(before) && Plain(after)
    ensures Encode(Str(before + [c] + after)) == Ok(['\"'] + (before + EscapeChar(c) + after) + ['\"'])
  {
    hide EscapeChar;
    EscapeOne(before, c, after);
  }

  // ---------------------------------------------------------------- the vectors

  lemma Scalars()
    ensures Encode(Null) == Ok("null") && Encode(Bool(true)) == Ok("true") && Encode(Bool(false)) == Ok("false")
    ensures Encode(Int(1)) == Ok("1") && Encode(Int(2)) == Ok("2") && Encode(Int(3)) == Ok("3")
  {
  }

  lemma NegativeVector()
    ensures Encode(Int(-120)) == Ok(['-', '1', '2', '0'])
  {
    assert Digits(1) == ['1'];
    assert Digits(12) == Digits(1) + ['2'];
    assert Digits(120) == Digits(12) + ['0'];
    assert "-" + Digits(120) == ['-', '1', '2', '0'];
  }

  function Quoted(s: string): string { ['\"'] + s + ['\"'] }

  function Three(p: string, q: string, r: string): string { "{" + (p + "," + (q + "," + r)) + "}" }

  /** `object-order`: fields given as z, a and nested, and in it as b and a. */
  lemma ObjectOrderVector()
    ensures Encode(Obj([Field("z", Int(1)), Field("a", Str("x")),
                        Field("nested", Obj([Field("b", Bool(true)), Field("a", Null)]))]))
         == Ok(Three(Pair("a", Quoted("x")),
                     Pair("nested", "{" + (Pair("a", "null") + "," + Pair("b", "true")) + "}"),
                     Pair("z", "1")))
  {
    assert Less("a", "b") && Less("a", "nested") && Less("nested", "z");
    Scalars();
    PlainString("x");
    hide Encode, Less, Pair;
    TwoFields("a", Null, "null", "b", Bool(true), "true");
    ThreeFields("a", Str("x"), Quoted("x"), "nested", Obj([Field("b", Bool(true)), Field("a", Null)]),
                "{" + (Pair("a", "null") + "," + Pair("b", "true")) + "}", "z", Int(1), "1");
  }

  /** `unicode`: an array, and characters as they are, past the basic plane too. */
  lemma UnicodeVector()
    ensures Plain(['M', '\U{1F30D}'])
    ensures forall text | Plain(text) ::
              Encode(Obj([Field("message", Str(text)), Field("list", Arr([Int(3), Int(2), Int(1)]))]))
              == Ok("{" + (Pair("list", "[" + ("3" + "," + ("2" + "," + "1")) + "]") + ","
                           + Pair("message", Quoted(text))) + "}")
  {
    assert Less("list", "message");
    Scalars();
    ThreeItems(Int(3), Int(2), Int(1), "3", "2", "1");
    hide Encode, Less, Pair, Plain;
    assert Plain("list") && Plain("message") by { PlainNames(); }
    forall text | Plain(text)
      ensures Encode(Obj([Field("message", Str(text)), Field("list", Arr([Int(3), Int(2), Int(1)]))]))
           == Ok("{" + (Pair("list", "[" + ("3" + "," + ("2" + "," + "1")) + "]") + ","
                        + Pair("message", Quoted(text))) + "}")
    {
      PlainString(text);
      TwoFields("list", Arr([Int(3), Int(2), Int(1)]), "[" + ("3" + "," + ("2" + "," + "1")) + "]",
                "message", Str(text), Quoted(text));
    }
    PlainNames();
  }

  lemma PlainNames()
    ensures Plain("list") && Plain("message") && Plain(['M', '\U{1F30D}'])
  {
  }

  lemma ThreeItems(a: Value, b: Value, c: Value, s: string, t: string, u: string)
    requires Encode(a) == Ok(s) && Encode(b) == Ok(t) && Encode(c) == Ok(u)
    ensures Encode(Arr([a, b, c])) == Ok("[" + (s + "," + (t + "," + u)) + "]")
  {
    var v := Arr([a, b, c]);
    assert v.items[0] == a && v.items[1] == b && v.items[2] == c;
    assert [a, b, c][1..] == [b, c] && [b, c][1..] == [c];
    assert EncodeItems(v, [c]) == Ok(u);
    assert EncodeItems(v, [b, c]) == Ok(t + "," + u);
    assert EncodeItems(v, [a, b, c]) == Ok(s + "," + (t + "," + u));
  }

  /** `escaped`: a quote, a backslash and a line feed, each behind a backslash. */
  lemma EscapedVector()
    ensures Encode(Obj([Field("quote", Str("a" + ['\"'] + "b")), Field("slash", Str("a" + ['\\'] + "b")),
                        Field("control", Str("line" + ['\n'] + "break"))]))
         == Ok(Three(Pair("control", Quoted("line" + ['\\', 'n'] + "break")),
                     Pair("quote", Quoted("a" + ['\\', '\"'] + "b")), Pair("slash", Quoted("a" + ['\\', '\\'] + "b"))))
  {
    assert Less("control", "quote") && Less("quote", "slash");
    EscapedString("a", '\"', "b");
    EscapedString("a", '\\', "b");
    EscapedString("line", '\n', "break");
    hide Encode, Less, Pair;
    ThreeFields("control", Str("line" + ['\n'] + "break"), Quoted("line" + ['\\', 'n'] + "break"),
                "quote", Str("a" + ['\"'] + "b"), Quoted("a" + ['\\', '\"'] + "b"),
                "slash", Str("a" + ['\\'] + "b"), Quoted("a" + ['\\', '\\'] + "b"));
  }

  /** The other escapes. */
  lemma ControlEscapes()
    ensures Encode(Str(['\r'])) == Ok(Quoted(['\\', 'r'])) && Encode(Str(['\t'])) == Ok(Quoted(['\\', 't']))
    ensures Encode(Str(['\U{08}'])) == Ok(Quoted(['\\', 'b'])) && Encode(Str(['\U{0C}'])) == Ok(Quoted(['\\', 'f']))
    ensures Encode(Str(['\U{1F}'])) == Ok(Quoted(['\\', 'u', '0', '0', '1', 'f']))
    ensures Encode(Str(['/', '\U{7F}'])) == Ok(Quoted(['/', '\U{7F}']))
  {
    EscapeSingle('\r');
    EscapeSingle('\t');
    EscapeSingle('\U{08}');
    EscapeSingle('\U{0C}');
    EscapeSingle('\U{1F}');
    EscapePlain(['/', '\U{7F}']);
  }

  /** The rejection vectors: what is one past the safe integers, and a binary float. */
  lemma RejectionVectors()
    ensures Encode(Int(9_007_199_254_740_992)) == Err(UnsafeInteger)
    ensures Encode(Int(-9_007_199_254_740_992)) == Err(UnsafeInteger)
    ensures Encode(Float(1.5)) == Err(BinaryFloat)
  {
  }
}
