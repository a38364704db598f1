/** The canonical text of a JSON value: members in key order, no white space. */
module CanonicalJson {
  // Its hash decides whether an idempotency key comes back with the same payload. So it must tell any
  // two values apart, and must not tell apart two objects that only list their members in a different
  // order.

  import opened Basics
  import opened JsonText

  datatype Field = Field(key: Text, value: Json)

  /** An object keeps its members in insertion order; a number is its shortest decimal text. */
  datatype Json = Null | Bool(b: bool) | Num(digits: Text) | Str(s: Text) | Arr(items: seq<Json>) | Obj(fields: seq<Field>)

  const OPEN_ARRAY: Unit := 91
  const CLOSE_ARRAY: Unit := 93
  const OPEN_OBJECT: Unit := 123
  const CLOSE_OBJECT: Unit := 125

  const NULL_TEXT: Text := [110, 117, 108, 108]
  const TRUE_TEXT: Text := [116, 114, 117, 101]
  const FALSE_TEXT: Text := [102, 97, 108, 115, 101]

  function Keys(fields: seq<Field>): (keys: seq<Text>)
    ensures |keys| == |fields| && forall i :: 0 <= i < |fields| ==> keys[i] == fields[i].key
  {
    seq(|fields|, i requires 0 <= i < |fields| => fields[i].key)
  }

  function IndexOf(fields: seq<Field>, key: Text): (i: nat)
    requires key in Keys(fields)
    ensures i < |fields| && fields[i].key == key
  {
    if fields[0].key == key then 0
    else
      assert key in Keys(fields[1..]) by {
        var j :| 0 <= j < |fields| && Keys(fields)[j] == key;
        assert Keys(fields[1..])[j - 1] == key;
      }
      1 + IndexOf(fields[1..], key)
  }

  function SortedKeys(fields: seq<Field>): (keys: seq<Text>)
    ensures forall k :: k in keys <==> k in Keys(fields)
  {
    SortElements(Keys(fields));
    Sort(Keys(fields))
  }

  function Canonical(value: Json): Text
    decreases value
  {
    match value
    case Null => NULL_TEXT
    case Bool(b) => if b then TRUE_TEXT else FALSE_TEXT
    case Num(digits) => digits
    case Str(s) => Quote(s)
    case Arr(items) => [OPEN_ARRAY] + Items(items) + [CLOSE_ARRAY]
    case Obj(fields) => [OPEN_OBJECT] + Members(fields, SortedKeys(fields)) + [CLOSE_OBJECT]
  }

  function Items(items: seq<Json>): Text
    decreases items
  {
    if items == [] then []
    else if |items| == 1 then Canonical(items[0])
    else Canonical(items[0]) + ([COMMA] + Items(items[1..]))
  }

  function Member(fields: seq<Field>, key: Text): Text
    requires key in Keys(fields)
    decreases fields, 0
  {
    Quote(key) + ([COLON] + Canonical(fields[IndexOf(fields, key)].value))
  }

  function Members(fields: seq<Field>, keys: seq<Text>): Text
    requires forall k :: k in keys ==> k in Keys(fields)
    decreases fields, 1 + |keys|
  {
    if keys == [] then []
    else if |keys| == 1 then Member(fields, keys[0])
    else Member(fields, keys[0]) + ([COMMA] + Members(fields, keys[1..]))
  }

  // ---- the values JavaScript can hold, and when two of them are the same

  predicate NumberUnit(u: Unit) {
    48 <= u < 58 || u == 45 || u == 43 || u == 46 || u == 101
  }

  predicate NumberToken(t: Text) {
    && t != []
    && (48 <= t[0] < 58 || t[0] == 45)
    && forall i :: 0 <= i < |t| ==> NumberUnit(t[i])
  }

  /** Numbers are number texts, and no object lists a key twice. */
  ghost predicate Valid(value: Json) {
    match value
    case Num(digits) => NumberToken(digits)
    case Arr(items) => forall i :: 0 <= i < |items| ==> Valid(items[i])
    case Obj(fields) => Distinct(Keys(fields)) && forall i :: 0 <= i < |fields| ==> Valid(fields[i].value)
    case _ => true
  }

  /** Equality up to the order in which objects list their members. */
  ghost predicate Same(a: Json, b: Json)
    decreases a
  {
    match a
    case Arr(xs) => b.Arr? && |xs| == |b.items| && forall i :: 0 <= i < |xs| ==> Same(xs[i], b.items[i])
    case Obj(fields) =>
      && b.Obj?
      && (forall k :: k in Keys(fields) <==> k in Keys(b.fields))
      && forall k :: k in Keys(fields) && k in Keys(b.fields) ==>
           Same(fields[IndexOf(fields, k)].value, b.fields[IndexOf(b.fields, k)].value)
    case _ => a == b
  }

  // ---- same values, same text

  lemma {:induction false} SameRenders(a: Json, b: Json)
    requires Valid(a) && Valid(b) && Same(a, b)
    ensures Canonical(a) == Canonical(b)
    decreases a
  {
    match a {
      case Arr(xs) => SameItems(xs, b.items);
      case Obj(fields) =>
        SortAscending(Keys(fields));
        SortAscending(Keys(b.fields));
        AscendingUnique(SortedKeys(fields), SortedKeys(b.fields));
        SameMembers(fields, b.fields, SortedKeys(fields));
      case _ =>
    }
  }

  lemma {:induction false} SameItems(xs: seq<Json>, ys: seq<Json>)
    requires |xs| == |ys| && forall i :: 0 <= i < |xs| ==> Valid(xs[i]) && Valid(ys[i]) && Same(xs[i], ys[i])
    ensures Items(xs) == Items(ys)
    decreases xs
  {
    if xs != [] {
      SameRenders(xs[0], ys[0]);
      SameItems(xs[1..], ys[1..]);
    }
  }

  lemma {:induction false} SameMembers(f: seq<Field>, g: seq<Field>, keys: seq<Text>)
    requires forall k :: k in keys ==> k in Keys(f) && k in Keys(g)
    requires forall i :: 0 <= i < |f| ==> Valid(f[i].value)
    requires forall i :: 0 <= i < |g| ==> Valid(g[i].value)
    requires forall k :: k in keys ==> Same(f[IndexOf(f, k)].value, g[IndexOf(g, k)].value)
    ensures Members(f, keys) == Members(g, keys)
    decreases f, |keys|
  {
    if keys != [] {
      SameRenders(f[IndexOf(f, keys[0])].value, g[IndexOf(g, keys[0])].value);
      SameMembers(f, g, keys[1..]);
    }
  }

  // ---- same text, same values: a rendered value decodes uniquely, also with more text after it

  /** What can follow a value inside a larger text. */
  predicate Boundary(rest: Text) {
    rest == [] || rest[0] == COMMA || rest[0] == CLOSE_ARRAY || rest[0] == CLOSE_OBJECT
  }

  datatype Kind = NullKind | TrueKind | FalseKind | NumKind | StrKind | ArrKind | ObjKind | NoValue

  function KindOf(value: Json): Kind {
    match value
    case Null => NullKind
    case Bool(b) => if b then TrueKind else FalseKind
    case Num(_) => NumKind
    case Str(_) => StrKind
    case Arr(_) => ArrKind
    case Obj(_) => ObjKind
  }

  function KindOfUnit(u: Unit): Kind {
    if u == 110 then NullKind
    else if u == 116 then TrueKind
    else if u == 102 then FalseKind
    else if u == QUOTE then StrKind
    else if u == OPEN_ARRAY then ArrKind
    else if u == OPEN_OBJECT then ObjKind
    else if 48 <= u < 58 || u == 45 then NumKind
    else NoValue
  }

  lemma {:induction false} FirstUnit(value: Json)
    requires Valid(value)
    ensures Canonical(value) != [] && KindOfUnit(Canonical(value)[0]) == KindOf(value)
  {
  }

  function LeadingNumberUnits(t: Text): nat {
    if t == [] || !NumberUnit(t[0]) then 0 else 1 + LeadingNumberUnits(t[1..])
  }

  lemma {:induction false} LeadingToken(a: Text, s: Text)
    requires (forall i :: 0 <= i < |a| ==> NumberUnit(a[i])) && Boundary(s)
    ensures LeadingNumberUnits(a + s) == |a|
  {
    if a == [] {
      assert a + s == s;
    } else {
      LeadingToken(a[1..], s);
      assert (a + s)[1..] == a[1..] + s;
    }
  }

  lemma {:induction false} NumbersDecode(a: Text, b: Text, s: Text, t: Text)
    requires NumberToken(a) && NumberToken(b) && Boundary(s) && Boundary(t)
    requires a + s == b + t
    ensures a == b && s == t
  {
    LeadingToken(a, s);
    LeadingToken(b, t);
    assert a == (a + s)[..|a|] && b == (b + t)[..|b|];
    assert s == (a + s)[|a|..] && t == (b + t)[|b|..];
  }

  lemma {:induction false} ValuesDecode(a: Json, b: Json, s: Text, t: Text)
    requires Valid(a) && Valid(b) && Boundary(s) && Boundary(t)
    requires Canonical(a) + s == Canonical(b) + t
    ensures Same(a, b) && s == t
    decreases a, 0, 0
  {
    FirstUnit(a);
    FirstUnit(b);
    assert (Canonical(a) + s)[0] == (Canonical(b) + t)[0];
    assert KindOf(a) == KindOf(b);
    match a {
      case Num(digits) => NumbersDecode(digits, b.digits, s, t);
      case Str(text) => QuoteUnique(text, b.s, s, t);
      case Arr(xs) =>
        Peel(OPEN_ARRAY, Items(xs), CLOSE_ARRAY, s, OPEN_ARRAY, Items(b.items), CLOSE_ARRAY, t);
        ItemsDecode(xs, b.items, s, t);
      case Obj(fields) =>
        var f, g := SortedKeys(fields), SortedKeys(b.fields);
        Peel(OPEN_OBJECT, Members(fields, f), CLOSE_OBJECT, s, OPEN_OBJECT, Members(b.fields, g), CLOSE_OBJECT, t);
        MembersDecode(fields, f, b.fields, g, s, t);
      case _ =>
        assert Canonical(a) == Canonical(b);
        Suffix(Canonical(a), s, t);
    }
  }

  /** Dropping the opening bracket leaves the contents, the closing bracket and what follows. */
  lemma {:induction false} Peel(a0: Unit, a: Text, a1: Unit, s: Text, b0: Unit, b: Text, b1: Unit, t: Text)
    requires [a0] + a + [a1] + s == [b0] + b + [b1] + t
    ensures a + ([a1] + s) == b + ([b1] + t)
  {
    assert ([a0] + a + [a1] + s)[1..] == a + ([a1] + s);
    assert ([b0] + b + [b1] + t)[1..] == b + ([b1] + t);
  }

  lemma {:induction false} Suffix(a: Text, s: Text, t: Text)
    requires a + s == a + t
    ensures s == t
  {
    assert s == (a + s)[|a|..] && t == (a + t)[|a|..];
  }

  lemma {:induction false} Regroup(a: Text, b: Text, c: Text)
    ensures (a + b) + c == a + (b + c)
  {
  }

  lemma {:induction false} ItemsDecode(xs: seq<Json>, ys: seq<Json>, s: Text, t: Text)
    requires forall i :: 0 <= i < |xs| ==> Valid(xs[i])
    requires forall i :: 0 <= i < |ys| ==> Valid(ys[i])
    requires Items(xs) + ([CLOSE_ARRAY] + s) == Items(ys) + ([CLOSE_ARRAY] + t)
    ensures |xs| == |ys| && s == t
    ensures forall i :: 0 <= i < |xs| ==> Same(xs[i], ys[i])
    decreases xs, 0, 0
  {
    var closeS, closeT := [CLOSE_ARRAY] + s, [CLOSE_ARRAY] + t;
    if xs == [] || ys == [] {
      EmptyItems(xs, s, ys, t);
    } else {
      var afterX := if |xs| == 1 then closeS else [COMMA] + (Items(xs[1..]) + closeS);
      var afterY := if |ys| == 1 then closeT else [COMMA] + (Items(ys[1..]) + closeT);
      ItemsFront(xs, closeS);
      ItemsFront(ys, closeT);
      ValuesDecode(xs[0], ys[0], afterX, afterY);
      assert afterX[0] == afterY[0];
      assert afterX[1..] == afterY[1..];
      if |xs| == 1 {
        assert afterX[1..] == s && afterY[1..] == t;
      } else {
        assert afterX[1..] == Items(xs[1..]) + closeS && afterY[1..] == Items(ys[1..]) + closeT;
        ItemsDecode(xs[1..], ys[1..], s, t);
        forall i | 0 <= i < |xs| ensures Same(xs[i], ys[i]) {
          if i > 0 {
            assert xs[i] == xs[1..][i - 1] && ys[i] == ys[1..][i - 1];
          }
        }
      }
    }
  }

  lemma {:induction false} ItemsFront(xs: seq<Json>, after: Text)
    requires xs != []
    ensures Items(xs) + after
         == Canonical(xs[0]) + (if |xs| == 1 then after else [COMMA] + (Items(xs[1..]) + after))
  {
    if |xs| > 1 {
      Regroup(Canonical(xs[0]), [COMMA] + Items(xs[1..]), after);
      Regroup([COMMA], Items(xs[1..]), after);
    }
  }

  lemma {:induction false} ItemsFirst(xs: seq<Json>, after: Text)
    requires forall i :: 0 <= i < |xs| ==> Valid(xs[i])
    ensures (Items(xs) + ([CLOSE_ARRAY] + after))[0] == CLOSE_ARRAY <==> xs == []
  {
    if xs != [] {
      var close := [CLOSE_ARRAY] + after;
      var more := if |xs| == 1 then close else [COMMA] + (Items(xs[1..]) + close);
      FirstUnit(xs[0]);
      ItemsFront(xs, close);
      assert (Canonical(xs[0]) + more)[0] == Canonical(xs[0])[0];
      assert KindOfUnit(CLOSE_ARRAY) == NoValue;
    } else {
      assert Items(xs) + ([CLOSE_ARRAY] + after) == [CLOSE_ARRAY] + after;
    }
  }

  lemma {:induction false} EmptyItems(xs: seq<Json>, s: Text, ys: seq<Json>, t: Text)
    requires forall i :: 0 <= i < |xs| ==> Valid(xs[i])
    requires forall i :: 0 <= i < |ys| ==> Valid(ys[i])
    requires xs == [] || ys == []
    requires Items(xs) + ([CLOSE_ARRAY] + s) == Items(ys) + ([CLOSE_ARRAY] + t)
    ensures xs == [] && ys == [] && s == t
  {
    ItemsFirst(xs, s);
    ItemsFirst(ys, t);
    assert [] + ([CLOSE_ARRAY] + s) == [CLOSE_ARRAY] + s;
    assert [] + ([CLOSE_ARRAY] + t) == [CLOSE_ARRAY] + t;
    Suffix([CLOSE_ARRAY], s, t);
  }

  lemma {:induction false} MembersFront(f: seq<Field>, keys: seq<Text>, after: Text)
    requires keys != [] && forall k :: k in keys ==> k in Keys(f)
    ensures Members(f, keys) + after
         == Quote(keys[0]) + ([COLON] + (Canonical(f[IndexOf(f, keys[0])].value)
            + (if |keys| == 1 then after else [COMMA] + (Members(f, keys[1..]) + after))))
  {
    var value := Canonical(f[IndexOf(f, keys[0])].value);
    var more := if |keys| == 1 then after else [COMMA] + (Members(f, keys[1..]) + after);
    assert Member(f, keys[0]) + more == Quote(keys[0]) + ([COLON] + (value + more)) by {
      Regroup(Quote(keys[0]), [COLON] + value, more);
      Regroup([COLON], value, more);
    }
    if |keys| > 1 {
      Regroup(Member(f, keys[0]), [COMMA] + Members(f, keys[1..]), after);
      Regroup([COMMA], Members(f, keys[1..]), after);
    }
  }

  lemma {:induction false} MembersFirst(f: seq<Field>, keys: seq<Text>, after: Text)
    requires forall k :: k in keys ==> k in Keys(f)
    ensures (Members(f, keys) + ([CLOSE_OBJECT] + after))[0] == CLOSE_OBJECT <==> keys == []
  {
    if keys != [] {
      MembersFront(f, keys, [CLOSE_OBJECT] + after);
    } else {
      assert Members(f, keys) + ([CLOSE_OBJECT] + after) == [CLOSE_OBJECT] + after;
    }
  }

  lemma {:induction false} EmptyMembers(f: seq<Field>, fk: seq<Text>, s: Text, g: seq<Field>, gk: seq<Text>, t: Text)
    requires (forall k :: k in fk ==> k in Keys(f)) && (forall k :: k in gk ==> k in Keys(g))
    requires fk == [] || gk == []
    requires Members(f, fk) + ([CLOSE_OBJECT] + s) == Members(g, gk) + ([CLOSE_OBJECT] + t)
    ensures fk == [] && gk == [] && s == t
  {
    MembersFirst(f, fk, s);
    MembersFirst(g, gk, t);
    assert [] + ([CLOSE_OBJECT] + s) == [CLOSE_OBJECT] + s;
    assert [] + ([CLOSE_OBJECT] + t) == [CLOSE_OBJECT] + t;
    Suffix([CLOSE_OBJECT], s, t);
  }

  /** What follows the first member. */
  function AfterFirst(f: seq<Field>, keys: seq<Text>, close: Text): Text
    requires keys != [] && forall k :: k in keys ==> k in Keys(f)
  {
    if |keys| == 1 then close else [COMMA] + (Members(f, keys[1..]) + close)
  }

  lemma {:induction false} FirstMember(f: seq<Field>, fk: seq<Text>, g: seq<Field>, gk: seq<Text>, s: Text, t: Text)
    requires fk != [] && gk != []
    requires (forall k :: k in fk ==> k in Keys(f)) && (forall k :: k in gk ==> k in Keys(g))
    requires Members(f, fk) + s == Members(g, gk) + t
    ensures fk[0] == gk[0]
    ensures Canonical(f[IndexOf(f, fk[0])].value) + AfterFirst(f, fk, s) == Canonical(g[IndexOf(g, gk[0])].value) + AfterFirst(g, gk, t)
  {
    var a, b := f[IndexOf(f, fk[0])].value, g[IndexOf(g, gk[0])].value;
    MembersFront(f, fk, s);
    MembersFront(g, gk, t);
    QuoteUnique(fk[0], gk[0], [COLON] + (Canonical(a) + AfterFirst(f, fk, s)), [COLON] + (Canonical(b) + AfterFirst(g, gk, t)));
    Suffix([COLON], Canonical(a) + AfterFirst(f, fk, s), Canonical(b) + AfterFirst(g, gk, t));
  }

  lemma {:induction false} OtherMembers(f: seq<Field>, fk: seq<Text>, g: seq<Field>, gk: seq<Text>, s: Text, t: Text)
    requires fk != [] && gk != []
    requires (forall k :: k in fk ==> k in Keys(f)) && (forall k :: k in gk ==> k in Keys(g))
    requires AfterFirst(f, fk, [CLOSE_OBJECT] + s) == AfterFirst(g, gk, [CLOSE_OBJECT] + t)
    ensures |fk| == 1 <==> |gk| == 1
    ensures if |fk| == 1 then s == t
            else Members(f, fk[1..]) + ([CLOSE_OBJECT] + s) == Members(g, gk[1..]) + ([CLOSE_OBJECT] + t)
  {
    var afterF, afterG := AfterFirst(f, fk, [CLOSE_OBJECT] + s), AfterFirst(g, gk, [CLOSE_OBJECT] + t);
    assert afterF[0] == afterG[0];
    if |fk| == 1 {
      Suffix([CLOSE_OBJECT], s, t);
    } else {
      Suffix([COMMA], Members(f, fk[1..]) + ([CLOSE_OBJECT] + s), Members(g, gk[1..]) + ([CLOSE_OBJECT] + t));
    }
  }

  lemma {:induction false} MembersDecode(f: seq<Field>, fk: seq<Text>, g: seq<Field>, gk: seq<Text>, s: Text, t: Text)
    requires (forall k :: k in fk ==> k in Keys(f)) && (forall k :: k in gk ==> k in Keys(g))
    requires forall i :: 0 <= i < |f| ==> Valid(f[i].value)
    requires forall i :: 0 <= i < |g| ==> Valid(g[i].value)
    requires Members(f, fk) + ([CLOSE_OBJECT] + s) == Members(g, gk) + ([CLOSE_OBJECT] + t)
    ensures fk == gk && s == t
    ensures forall k :: k in fk && k in gk ==> Same(f[IndexOf(f, k)].value, g[IndexOf(g, k)].value)
    decreases f, 1, |fk|
  {
    var closeS, closeT := [CLOSE_OBJECT] + s, [CLOSE_OBJECT] + t;
    if fk == [] || gk == [] {
      EmptyMembers(f, fk, s, g, gk, t);
    } else {
      FirstMember(f, fk, g, gk, closeS, closeT);
      ValuesDecode(f[IndexOf(f, fk[0])].value, g[IndexOf(g, gk[0])].value, AfterFirst(f, fk, closeS), AfterFirst(g, gk, closeT));
      OtherMembers(f, fk, g, gk, s, t);
      if |fk| > 1 {
        MembersDecode(f, fk[1..], g, gk[1..], s, t);
      }
      assert fk == [fk[0]] + fk[1..] && gk == [gk[0]] + gk[1..];
    }
  }

  /** Two values have the same canonical text exactly when they are equal up to key order. */
  lemma CanonicalIsInjective(a: Json, b: Json)
    requires Valid(a) && Valid(b)
    ensures Canonical(a) == Canonical(b) <==> Same(a, b)
  {
    if Same(a, b) {
      SameRenders(a, b);
    }
    if Canonical(a) == Canonical(b) {
      ValuesDecode(a, b, [], []);
    }
  }
}
