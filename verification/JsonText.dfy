/**
 Strings as JavaScript has them, sequences of UTF-16 code units, and their JSON spelling
 (section 7 of RFC 8259, with lone surrogates spelled as escapes as `JSON.stringify` does).
 */
module JsonText {
  import opened Basics

  type Unit = u: int | 0 <= u < 0x1_0000

  type Text = seq<Unit>

  const QUOTE: Unit := 34
  const COMMA: Unit := 44
  const COLON: Unit := 58
  const BACKSLASH: Unit := 92
  const LOWER_U: Unit := 117

  predicate Lead(u: Unit) {
    0xD800 <= u < 0xDC00
  }

  predicate Trail(u: Unit) {
    0xDC00 <= u < 0xE000
  }

  function HexDigit(d: int): Unit
    requires 0 <= d < 16
  {
    if d < 10 then 48 + d else 87 + d
  }

  function HexValue(u: Unit): int {
    if 48 <= u < 58 then u - 48 else if 97 <= u < 103 then u - 87 else 0
  }

  function Hex4(u: Unit): Text {
    [HexDigit(u / 16 / 16 / 16), HexDigit(u / 16 / 16 % 16), HexDigit(u / 16 % 16), HexDigit(u % 16)]
  }

  /** The two-character escapes. */
  function ShortEscape(u: Unit): Option<Unit> {
    if u == QUOTE || u == BACKSLASH then Some(u)
    else if u == 8 then Some(98)
    else if u == 9 then Some(116)
    else if u == 10 then Some(110)
    else if u == 12 then Some(102)
    else if u == 13 then Some(114)
    else None
  }

  function EscapeUnit(u: Unit): Text {
    if ShortEscape(u).Some? then [BACKSLASH, ShortEscape(u).value]
    else if u < 32 || Lead(u) || Trail(u) then [BACKSLASH, LOWER_U] + Hex4(u)
    else [u]
  }

  predicate StartsWithPair(s: Text) {
    |s| >= 2 && Lead(s[0]) && Trail(s[1])
  }

  function Escape(s: Text): Text {
    if s == [] then []
    else if StartsWithPair(s) then s[..2] + Escape(s[2..])
    else EscapeUnit(s[0]) + Escape(s[1..])
  }

  /** `JSON.stringify` of a string. */
  function Quote(s: Text): Text {
    [QUOTE] + Escape(s) + [QUOTE]
  }

  function ShortMeaning(u: Unit): Option<Unit> {
    if u == QUOTE || u == BACKSLASH then Some(u)
    else if u == 98 then Some(8)
    else if u == 116 then Some(9)
    else if u == 110 then Some(10)
    else if u == 102 then Some(12)
    else if u == 114 then Some(13)
    else None
  }

  /** One spelled unit at the front of `t`, and how many places it takes. */
  function ReadUnit(t: Text): Option<(Unit, nat)>
    ensures ReadUnit(t).Some? ==> 0 < ReadUnit(t).value.1 <= |t|
  {
    if t == [] then None
    else if t[0] != BACKSLASH then Some((t[0], 1))
    else if |t| < 2 then None
    else if ShortMeaning(t[1]).Some? then Some((ShortMeaning(t[1]).value, 2))
    else if t[1] == LOWER_U && |t| >= 6 then
      Some((HexValue(t[2]) * 4096 + HexValue(t[3]) * 256 + HexValue(t[4]) * 16 + HexValue(t[5]), 6))
    else None
  }

  /** A reader for quoted text whose opening quote is gone: the string, and what follows it. */
  function Unquote(t: Text): Option<(Text, Text)>
    decreases |t|
  {
    if t == [] then None
    else if t[0] == QUOTE then Some(([], t[1..]))
    else
      var unit := ReadUnit(t);
      if unit.None? then None
      else
        var rest := Unquote(t[unit.value.1..]);
        if rest.None? then None else Some(([unit.value.0] + rest.value.0, rest.value.1))
  }

  lemma {:induction false} ReadEscaped(u: Unit, t: Text)
    ensures EscapeUnit(u)[0] != QUOTE
    ensures ReadUnit(EscapeUnit(u) + t) == Some((u, |EscapeUnit(u)|))
  {
    var spelled := EscapeUnit(u) + t;
    if ShortEscape(u).None? && (u < 32 || Lead(u) || Trail(u)) {
      assert spelled[1] == LOWER_U && spelled[2..6] == Hex4(u);
      assert spelled[2] == Hex4(u)[0] && spelled[3] == Hex4(u)[1] && spelled[4] == Hex4(u)[2] && spelled[5] == Hex4(u)[3];
      HexSum(u);
    }
  }

  lemma HexDigitValue(d: int)
    requires 0 <= d < 16
    ensures HexValue(HexDigit(d)) == d
  {
  }

  lemma HexSum(u: Unit)
    ensures HexValue(HexDigit(u / 16 / 16 / 16)) * 4096 + HexValue(HexDigit(u / 16 / 16 % 16)) * 256
          + HexValue(HexDigit(u / 16 % 16)) * 16 + HexValue(HexDigit(u % 16)) == u
  {
    var a := u / 16;
    var b := a / 16;
    var c := b / 16;
    assert u == 16 * a + u % 16 && a == 16 * b + a % 16 && b == 16 * c + b % 16;
    HexDigitValue(c);
    HexDigitValue(b % 16);
    HexDigitValue(a % 16);
    HexDigitValue(u % 16);
  }

  function Prepend(u: Unit, read: Option<(Text, Text)>): Option<(Text, Text)> {
    if read.None? then None else Some(([u] + read.value.0, read.value.1))
  }

  lemma {:induction false} UnquoteChunk(u: Unit, chunk: Text, after: Text)
    requires chunk != [] && chunk[0] != QUOTE && ReadUnit(chunk + after) == Some((u, |chunk|))
    ensures Unquote(chunk + after) == Prepend(u, Unquote(after))
  {
    assert (chunk + after)[|chunk|..] == after;
  }

  lemma {:induction false} EscapePair(s: Text, tail: Text)
    requires StartsWithPair(s)
    ensures Escape(s) + tail == [s[0]] + ([s[1]] + (Escape(s[2..]) + tail))
  {
  }

  lemma {:induction false} EscapeOne(s: Text, tail: Text)
    requires s != [] && !StartsWithPair(s)
    ensures Escape(s) + tail == EscapeUnit(s[0]) + (Escape(s[1..]) + tail)
  {
  }

  lemma {:induction false} UnquotePair(a: Unit, b: Unit, after: Text)
    requires Lead(a) && Trail(b)
    ensures Unquote([a] + ([b] + after)) == Prepend(a, Prepend(b, Unquote(after)))
  {
    UnquoteChunk(b, [b], after);
    UnquoteChunk(a, [a], [b] + after);
  }

  lemma {:induction false} UnquoteOne(u: Unit, after: Text)
    ensures Unquote(EscapeUnit(u) + after) == Prepend(u, Unquote(after))
  {
    ReadEscaped(u, after);
    UnquoteChunk(u, EscapeUnit(u), after);
  }

  lemma {:induction false} UnquoteEnd(rest: Text)
    ensures Unquote([QUOTE] + rest) == Some(([], rest))
  {
    assert ([QUOTE] + rest)[1..] == rest;
  }

  /** Reading undoes quoting, whatever comes after the closing quote. */
  lemma {:induction false} UnquoteQuote(s: Text, tail: Text, rest: Text)
    requires tail == [QUOTE] + rest
    ensures Unquote(Escape(s) + tail) == Some((s, rest))
    decreases |s|
  {
    if s == [] {
      assert Escape(s) + tail == tail;
      UnquoteEnd(rest);
    } else if StartsWithPair(s) {
      UnquoteQuote(s[2..], tail, rest);
      EscapePair(s, tail);
      UnquotePair(s[0], s[1], Escape(s[2..]) + tail);
      assert s == [s[0]] + ([s[1]] + s[2..]);
    } else {
      UnquoteQuote(s[1..], tail, rest);
      EscapeOne(s, tail);
      UnquoteOne(s[0], Escape(s[1..]) + tail);
      assert s == [s[0]] + s[1..];
    }
  }

  lemma QuoteTail(a: Text, s: Text)
    ensures (Quote(a) + s)[1..] == Escape(a) + ([QUOTE] + s)
  {
  }

  /** Quoted strings decode uniquely, also when more text follows. */
  lemma {:induction false} QuoteUnique(a: Text, b: Text, s: Text, t: Text)
    requires Quote(a) + s == Quote(b) + t
    ensures a == b && s == t
  {
    QuoteTail(a, s);
    QuoteTail(b, t);
    UnquoteQuote(a, [QUOTE] + s, s);
    UnquoteQuote(b, [QUOTE] + t, t);
  }

  // ---- the order of `Object.keys(value).sort()`

  predicate Less(a: Text, b: Text) {
    b != [] && (a == [] || a[0] < b[0] || (a[0] == b[0] && Less(a[1..], b[1..])))
  }

  lemma LessTotal(a: Text, b: Text)
    ensures a == b || Less(a, b) || Less(b, a)
    ensures !(Less(a, b) && Less(b, a))
    ensures !Less(a, a)
  {
    if a != [] && b != [] && a[0] == b[0] {
      LessTotal(a[1..], b[1..]);
      assert a == [a[0]] + a[1..] && b == [b[0]] + b[1..];
    }
    if a != [] {
      LessTotal(a[1..], a[1..]);
    }
  }

  lemma LessTransitive(a: Text, b: Text, c: Text)
    requires Less(a, b) && Less(b, c)
    ensures Less(a, c)
  {
    if a != [] && a[0] == b[0] && b[0] == c[0] {
      LessTransitive(a[1..], b[1..], c[1..]);
    }
  }

  function Insert(key: Text, keys: seq<Text>): seq<Text> {
    if keys == [] || !Less(keys[0], key) then [key] + keys else [keys[0]] + Insert(key, keys[1..])
  }

  function Sort(keys: seq<Text>): seq<Text> {
    if keys == [] then [] else Insert(keys[0], Sort(keys[1..]))
  }

  ghost predicate Ascending(keys: seq<Text>) {
    forall i, j :: 0 <= i < j < |keys| ==> Less(keys[i], keys[j])
  }

  lemma InsertElements(key: Text, keys: seq<Text>)
    ensures forall k :: k in Insert(key, keys) <==> k == key || k in keys
  {
    if keys != [] && Less(keys[0], key) {
      InsertElements(key, keys[1..]);
      assert keys == [keys[0]] + keys[1..];
    }
  }

  lemma InsertAscending(key: Text, keys: seq<Text>)
    requires Ascending(keys) && key !in keys
    ensures Ascending(Insert(key, keys))
  {
    if keys == [] {
    } else if Less(keys[0], key) {
      var rest := keys[1..];
      InsertAscending(key, rest);
      InsertElements(key, rest);
      forall i | 0 <= i < |Insert(key, rest)| ensures Less(keys[0], Insert(key, rest)[i]) {
        var k := Insert(key, rest)[i];
        assert k in Insert(key, rest);
        if k != key {
          assert k in rest;
        }
      }
    } else {
      LessTotal(keys[0], key);
      forall i | 0 <= i < |keys| ensures Less(key, keys[i]) {
        if i > 0 {
          LessTransitive(key, keys[0], keys[i]);
        }
      }
    }
  }

  lemma SortElements(keys: seq<Text>)
    ensures forall k :: k in Sort(keys) <==> k in keys
  {
    if keys != [] {
      SortElements(keys[1..]);
      InsertElements(keys[0], Sort(keys[1..]));
      assert keys == [keys[0]] + keys[1..];
    }
  }

  lemma SortAscending(keys: seq<Text>)
    requires Distinct(keys)
    ensures Ascending(Sort(keys))
  {
    if keys != [] {
      SortAscending(keys[1..]);
      SortElements(keys[1..]);
      InsertAscending(keys[0], Sort(keys[1..]));
    }
  }

  /** A set of keys has only one ascending listing. */
  lemma {:induction false} AscendingUnique(a: seq<Text>, b: seq<Text>)
    requires Ascending(a) && Ascending(b)
    requires forall k :: k in a <==> k in b
    ensures a == b
  {
    if b != [] {
      assert b[0] in a;
    }
    if a != [] {
      assert a[0] in b;
      var i :| 0 <= i < |a| && a[i] == b[0];
      var j :| 0 <= j < |b| && b[j] == a[0];
      LessTotal(a[0], b[0]);
      assert a[0] == b[0];
      forall k ensures k in a[1..] <==> k in b[1..] {
        LessTotal(a[0], a[0]);
        if k in a[1..] {
          assert k in a && k in b && k != a[0];
        }
        if k in b[1..] {
          assert k in b && k in a && k != a[0];
        }
      }
      AscendingUnique(a[1..], b[1..]);
      assert a == [a[0]] + a[1..] && b == [b[0]] + b[1..];
    }
  }
}
