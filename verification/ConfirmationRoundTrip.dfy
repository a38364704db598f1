/**
 What an accepted reply guarantees, and when the parser gives back what the printer wrote: the printed
 block survives quote stripping, is found between its markers, and its rows are read back field by field.
 */
module ConfirmationRoundTrip {
  import opened Basics
  import opened Texts
  import opened ConfirmationBlock

  // ---- any accepted reply covers the order

  /** The values one accepted row may carry. */
  predicate Sound(f: Format, c: Confirmed) {
    c.quantity > 0.0 && c.price >= 0.0 && DateShaped(c.promised) && f.isDate(c.promised)
  }

  /** One confirmed row and the order line it was matched with. */
  ghost predicate Fits(f: Format, poLines: seq<PoLine>, seen: set<string>, pick: nat, c: Confirmed) {
    pick < |poLines| && Key(poLines[pick].number) in seen && c.poLine == poLines[pick].id && Sound(f, c)
  }

  ghost predicate Picked(poLines: seq<PoLine>, picks: seq<nat>, key: string) {
    exists pick :: pick in picks && pick < |poLines| && Key(poLines[pick].number) == key
  }

  ghost predicate GoingWell(f: Format, poLines: seq<PoLine>, p: Progress, n: nat) {
    && p.Going? && |p.lines| == |p.picks| == |p.seen| == n && Distinct(p.picks)
    && (forall j {:trigger Fits(f, poLines, p.seen, p.picks[j], p.lines[j])} :: 0 <= j < n ==> Fits(f, poLines, p.seen, p.picks[j], p.lines[j]))
    && forall key {:trigger Picked(poLines, p.picks, key)} :: key in p.seen ==> Picked(poLines, p.picks, key)
  }

  lemma GoodRow(f: Format, currency: string, poLines: seq<PoLine>, seen: set<string>, fields: map<string, string>)
    ensures var r := ParseRow(f, currency, poLines, seen, fields);
            r.Good? ==> Sound(f, r.confirmed) && r.confirmed.poLine == poLines[r.line].id && Key(poLines[r.line].number) == r.key
                        && "CURRENCY" in fields && Upper(fields["CURRENCY"]) == Upper(currency)
  {
    LineOfFinds(poLines, Lower(Get(fields, "LINE").GetOr("")));
  }

  lemma OneMore(f: Format, poLines: seq<PoLine>, p: Progress, n: nat, key: string, line: nat, c: Confirmed)
    requires GoingWell(f, poLines, p, n) && key !in p.seen && line < |poLines| && Key(poLines[line].number) == key
    requires c.poLine == poLines[line].id && Sound(f, c)
    ensures GoingWell(f, poLines, Going(p.seen + {key}, p.picks + [line], p.lines + [c]), n + 1)
  {
    var picks, seen, lines := p.picks + [line], p.seen + {key}, p.lines + [c];
    forall j | 0 <= j < n ensures picks[j] != line {
      assert Fits(f, poLines, p.seen, p.picks[j], p.lines[j]);
    }
    forall j | 0 <= j < n + 1 ensures Fits(f, poLines, seen, picks[j], lines[j]) {
      if j < n {
        assert Fits(f, poLines, p.seen, p.picks[j], p.lines[j]);
      }
    }
    forall k | k in seen ensures Picked(poLines, picks, k) {
      if k in p.seen {
        assert Picked(poLines, p.picks, k);
        var pick :| pick in p.picks && pick < |poLines| && Key(poLines[pick].number) == k;
        assert pick in picks;
      } else {
        assert picks[n] == line;
      }
    }
  }

  lemma {:induction false} RowsGoWell(f: Format, currency: string, poLines: seq<PoLine>, rows: seq<string>)
    ensures var p := ParseRows(f, currency, poLines, rows);
            p.Going? ==> GoingWell(f, poLines, p, |rows|)
                         && forall row :: row in rows ==> RightCurrency(currency, row)
  {
    if rows != [] && ParseRows(f, currency, poLines, rows).Going? {
      var front, last := rows[..|rows| - 1], rows[|rows| - 1];
      RowsGoWell(f, currency, poLines, front);
      InFrontOrLast(rows);
      var p := ParseRows(f, currency, poLines, front);
      var fields := FieldsOf(Split(last, '|'));
      GoodRow(f, currency, poLines, p.seen, fields);
      var r := ParseRow(f, currency, poLines, p.seen, fields);
      OneMore(f, poLines, p, |front|, r.key, r.line, r.confirmed);
    }
  }

  predicate RightCurrency(currency: string, row: string) {
    var fields := FieldsOf(Split(row, '|'));
    "CURRENCY" in fields && Upper(fields["CURRENCY"]) == Upper(currency)
  }

  ghost predicate DistinctKeys(poLines: seq<PoLine>) {
    Distinct(KeyList(poLines))
  }

  lemma SameSize(a: set<string>, b: set<string>)
    requires a <= b && |a| == |b|
    ensures a == b
  {
    if x :| x in b && x !in a {
      SmallerSet(a, b - {x});
    }
  }

  /** The lines confirmed are the order's lines, each exactly once. */
  ghost predicate Covers(poLines: seq<PoLine>, lines: seq<Confirmed>, picks: seq<nat>) {
    && |picks| == |lines| == |poLines| && Distinct(picks)
    && (forall j :: 0 <= j < |picks| ==> picks[j] < |poLines| && lines[j].poLine == poLines[picks[j]].id)
    && forall i :: 0 <= i < |poLines| ==> i in picks
  }

  lemma SeenAreKeys(f: Format, poLines: seq<PoLine>, p: Progress, n: nat)
    requires GoingWell(f, poLines, p, n)
    ensures p.seen <= Keys(poLines)
  {
    forall key | key in p.seen ensures key in Keys(poLines) {
      assert Picked(poLines, p.picks, key);
      var pick :| pick in p.picks && pick < |poLines| && Key(poLines[pick].number) == key;
      assert KeyList(poLines)[pick] == key;
    }
  }

  lemma KeyIsPicked(poLines: seq<PoLine>, picks: seq<nat>, i: nat)
    requires DistinctKeys(poLines) && i < |poLines| && Picked(poLines, picks, Key(poLines[i].number))
    ensures i in picks
  {
    var pick :| pick in picks && pick < |poLines| && Key(poLines[pick].number) == Key(poLines[i].number);
    assert KeyList(poLines)[pick] == KeyList(poLines)[i];
  }

  lemma AllPicked(f: Format, poLines: seq<PoLine>, p: Progress, n: nat)
    requires GoingWell(f, poLines, p, n) && n == |poLines| && |p.seen| == |Keys(poLines)|
    ensures DistinctKeys(poLines) && Covers(poLines, p.lines, p.picks)
  {
    DistinctCount(KeyList(poLines));
    SeenAreKeys(f, poLines, p, n);
    SameSize(p.seen, Keys(poLines));
    forall i | 0 <= i < |poLines| ensures i in p.picks {
      assert KeyList(poLines)[i] in Keys(poLines);
      KeyIsPicked(poLines, p.picks, i);
    }
    forall j | 0 <= j < |p.picks| ensures p.picks[j] < |poLines| && p.lines[j].poLine == poLines[p.picks[j]].id {
      assert Fits(f, poLines, p.seen, p.picks[j], p.lines[j]);
    }
  }

  lemma AllSound(f: Format, poLines: seq<PoLine>, p: Progress, n: nat)
    requires GoingWell(f, poLines, p, n)
    ensures forall c :: c in p.lines ==> Sound(f, c)
  {
    forall c | c in p.lines ensures Sound(f, c) {
      var j :| 0 <= j < n && p.lines[j] == c;
      assert Fits(f, poLines, p.seen, p.picks[j], p.lines[j]);
    }
  }

  /**
   A reply that the parser accepts confirms every line of the order exactly once, each with a positive
   quantity, a price that is not negative and a date, in rows that name the order's currency; and then
   the order's line numbers are distinct.
   */
  lemma AcceptedCoversEveryLine(f: Format, body: string, order: string, currency: string, poLines: seq<PoLine>)
    requires Parse(f, body, order, currency, poLines).Complete?
    ensures var lines := Parse(f, body, order, currency, poLines).lines;
            && (exists picks :: Covers(poLines, lines, picks))
            && (forall c :: c in lines ==> Sound(f, c))
            && DistinctKeys(poLines)
    ensures BlockRows(body).Some? && forall row :: row in Only(BlockRows(body).value, "LINE") ==> RightCurrency(currency, row)
  {
    var rows := Only(BlockRows(body).value, "LINE");
    var p := ParseRows(f, currency, poLines, rows);
    assert Parse(f, body, order, currency, poLines) == Conclude(poLines, p);
    NeverStopsComplete(f, currency, poLines, rows);
    RowsGoWell(f, currency, poLines, rows);
    AllPicked(f, poLines, p, |rows|);
    AllSound(f, poLines, p, |rows|);
  }

  lemma {:induction false} NeverStopsComplete(f: Format, currency: string, poLines: seq<PoLine>, rows: seq<string>)
    ensures var p := ParseRows(f, currency, poLines, rows); p.Stopped? ==> !p.why.Complete?
  {
    if rows != [] {
      NeverStopsComplete(f, currency, poLines, rows[..|rows| - 1]);
    }
  }

  // ---- texts without delimiters

  predicate Delimiter(c: char) { c in {'\n', '\r', '|'} }

  /** No space entity begins anywhere in the text. */
  predicate NoEntities(s: string) {
    forall i {:trigger s[i..]} :: 0 <= i < |s| ==> EntityLength(s[i..]).None?
  }

  /** Neither the closing marker nor a space entity; a lone bracket or ampersand is fine. */
  predicate Clean(s: string) {
    IndexOf(s, CLOSING).None? && NoEntities(s)
  }

  predicate Plain(s: string) {
    (forall c :: c in s ==> !Delimiter(c)) && Clean(s)
  }

  lemma NoEntity(s: string)
    requires s != [] && s[0] != '&'
    ensures EntityLength(s).None?
  {
    if 6 <= |s| {
      assert Lower(s[..6])[0] == LowerChar(s[0]) && "&nbsp;"[0] == '&' && s[..6][0] == s[0];
    }
    if 5 <= |s| {
      assert s[..5][0] == s[0];
    }
    if 3 <= |s| {
      assert Lower(s[..3])[0] == LowerChar(s[0]) && "&#x"[0] == '&';
    }
  }

  lemma {:induction false} UnescapeKeeps(s: string)
    requires NoEntities(s)
    ensures Unescape(s) == s
  {
    if s != [] {
      assert s[0..] == s;
      var rest := s[1..];
      forall i | 0 <= i < |rest| ensures EntityLength(rest[i..]).None? {
        assert rest[i..] == s[i + 1..];
      }
      UnescapeKeeps(rest);
    }
  }

  /** A text without bracket and ampersand, such as the printer's own words. */
  lemma WordsAreClean(s: string)
    requires '[' !in s && '&' !in s
    ensures Clean(s)
  {
    NoAmpersand(s);
    assert CLOSING[0] == '[';
    NoFirstChar(s, CLOSING);
  }

  lemma NoAmpersand(s: string)
    requires '&' !in s
    ensures NoEntities(s)
  {
    forall i | 0 <= i < |s| ensures EntityLength(s[i..]).None? {
      assert s[i..][0] == s[i] && s[i] in s;
      NoEntity(s[i..]);
    }
  }

  lemma {:induction false} NoFirstChar(s: string, what: string)
    requires what != [] && what[0] !in s
    ensures IndexOf(s, what).None?
  {
    if |what| <= |s| {
      assert s[..|what|][0] == s[0] && s[0] in s;
      NoFirstChar(s[1..], what);
    }
  }

  /** What stands between texts on a row or between rows, and in no marker and no entity. */
  predicate Between(c: char) { c in {'\n', '|', ':', ' '} }

  lemma {:induction false} CountAcross(a: string, sep: char, b: string, c: char)
    requires sep != c
    ensures Count(a + [sep] + b, c) == Count(a, c) <= |a|
  {
    var s := a + [sep] + b;
    if a != [] && a[0] == c {
      assert s[1..] == a[1..] + [sep] + b;
      CountAcross(a[1..], sep, b, c);
    }
  }

  /** Three characters of the longer text are those of the shorter one, or one of them stands between. */
  lemma ThreeAcross(a: string, sep: char, b: string, i: nat)
    requires Between(sep) && i <= |a| && i + 3 <= |a| + 1 + |b|
    ensures var s := a + [sep] + b;
            if i + 3 <= |a| then s[i..i + 3] == a[i..i + 3] else Lower(s[i..i + 3]) != "a0;" && s[i..i + 3] != "20;"
  {
    var s := a + [sep] + b;
    if i + 3 > |a| {
      var tail, k := s[i..i + 3], |a| - i;
      assert tail[k] == sep && Lower(tail)[k] == LowerChar(sep);
    }
  }

  lemma HexEntityAcross(a: string, sep: char, b: string)
    requires Between(sep) && 3 <= |a| && Lower(a[..3]) == "&#x" && EntityLength(a).None?
    ensures EntityLength(a + [sep] + b).None?
  {
    var s := a + [sep] + b;
    var zeros := Count(a[3..], '0');
    assert s[3..] == a[3..] + [sep] + b;
    CountAcross(a[3..], sep, b, '0');
    assert s[..3] == a[..3];
    assert Lower(a[..3])[2] == LowerChar(a[2]);
    assert s[2] == a[2];
    if 3 + zeros + 3 <= |s| {
      ThreeAcross(a, sep, b, 3 + zeros);
    }
    NotNamed(s);
    NotNamed(a);
  }

  /** What begins like a hexadecimal entity is none of the others. */
  lemma NotNamed(s: string)
    requires 3 <= |s| && LowerChar(s[2]) == 'x'
    ensures 6 <= |s| ==> Lower(s[..6]) != "&nbsp;" && s[..6] != "&#160;"
    ensures 5 <= |s| ==> s[..5] != "&#32;"
  {
    if 6 <= |s| {
      assert Lower(s[..6])[2] == 'x' && s[..6][2] == s[2];
    }
    if 5 <= |s| {
      assert s[..5][2] == s[2];
    }
  }

  lemma PrefixAcross(a: string, sep: char, b: string, n: nat)
    requires 0 < n <= |a| + 1 + |b|
    ensures var s := a + [sep] + b; if n <= |a| then s[..n] == a[..n] else s[..n][|a|] == sep && Lower(s[..n])[|a|] == LowerChar(sep)
  {
  }

  lemma EntityAcross(a: string, sep: char, b: string)
    requires Between(sep) && EntityLength(a).None?
    ensures EntityLength(a + [sep] + b).None?
  {
    var s := a + [sep] + b;
    assert sep !in "&nbsp;" && sep !in "&#160;" && sep !in "&#32;" && sep !in "&#x" && LowerChar(sep) == sep;
    if 3 <= |a| && Lower(a[..3]) == "&#x" {
      HexEntityAcross(a, sep, b);
    } else {
      if 6 <= |s| { PrefixAcross(a, sep, b, 6); }
      if 5 <= |s| { PrefixAcross(a, sep, b, 5); }
      if 3 <= |s| { PrefixAcross(a, sep, b, 3); }
    }
  }

  lemma NoEntitiesAcross(a: string, sep: char, b: string)
    requires Between(sep) && NoEntities(a) && NoEntities(b)
    ensures NoEntities(a + [sep] + b)
  {
    var s := a + [sep] + b;
    forall i | 0 <= i < |s| ensures EntityLength(s[i..]).None? {
      if i < |a| {
        assert s[i..] == a[i..] + [sep] + b;
        EntityAcross(a[i..], sep, b);
      } else if i == |a| {
        assert s[i..][0] == sep;
        NoEntity(s[i..]);
      } else {
        assert s[i..] == b[i - |a| - 1..];
      }
    }
  }

  lemma {:induction false} NoMarkerAcross(a: string, sep: char, b: string, what: string)
    requires what != [] && sep !in what && IndexOf(a, what).None? && IndexOf(b, what).None?
    ensures IndexOf(a + [sep] + b, what).None?
  {
    var s := a + [sep] + b;
    if |what| <= |s| {
      if |what| <= |a| {
        assert s[..|what|] == a[..|what|];
      } else {
        assert s[..|what|][|a|] == sep;
      }
      if a == [] {
        assert s[1..] == b;
      } else {
        ShorterHasNone(a, what);
        NoMarkerAcross(a[1..], sep, b, what);
        assert s[1..] == a[1..] + [sep] + b;
      }
    }
  }

  lemma ShorterHasNone(a: string, what: string)
    requires a != [] && IndexOf(a, what).None?
    ensures IndexOf(a[1..], what).None?
  {
  }

  lemma CleanAcross(a: string, sep: char, b: string)
    requires Between(sep) && Clean(a) && Clean(b)
    ensures Clean(a + [sep] + b)
  {
    NoEntitiesAcross(a, sep, b);
    MarkerHasNone(sep);
    NoMarkerAcross(a, sep, b, CLOSING);
  }

  lemma MarkerHasNone(sep: char)
    requires Between(sep)
    ensures CLOSING != [] && sep !in CLOSING
  {
  }

  lemma {:induction false} CleanJoin(parts: seq<string>, sep: char)
    requires Between(sep) && forall p :: p in parts ==> Clean(p)
    ensures Clean(Join(parts, sep))
  {
    if parts == [] {
      WordsAreClean("");
    } else if |parts| == 1 {
      assert parts[0] in parts;
    } else {
      InFrontOrLast(parts);
      CleanJoin(parts[..|parts| - 1], sep);
      CleanAcross(Join(parts[..|parts| - 1], sep), sep, parts[|parts| - 1]);
    }
  }

  /** The first marker is the one put after a text without it, on a line of its own. */
  lemma {:induction false} FoundNext(before: string, sep: char, what: string)
    requires what != [] && sep !in what && IndexOf(before, what).None?
    ensures IndexOf(before + [sep] + what, what) == Some(|before| + 1)
  {
    var s := before + [sep] + what;
    if |what| <= |before| {
      assert s[..|what|] == before[..|what|];
    } else {
      assert s[..|what|][|before|] == sep;
    }
    if before == [] {
      assert s[1..] == what && what[..|what|] == what;
    } else {
      ShorterHasNone(before, what);
      FoundNext(before[1..], sep, what);
      assert s[1..] == before[1..] + [sep] + what;
    }
  }

  lemma {:induction false} BreaksKeep(s: string)
    requires '\r' !in s
    ensures Breaks(s) == s
  {
    if s != [] {
      assert s[0] in s;
      BreaksKeep(s[1..]);
    }
  }

  lemma {:induction false} UntilKeeps(lines: seq<string>, stop: string -> bool)
    requires forall line :: line in lines ==> !stop(line)
    ensures Until(lines, stop) == lines
  {
    if lines != [] {
      assert lines[0] in lines;
      UntilKeeps(lines[1..], stop);
    }
  }

  /** The rows the printer writes: none is blank, quoted or a separator. */
  predicate Opens(row: string) {
    row != [] && row[0] in {'[', 'P', 'L'}
  }

  lemma OpensIsContent(row: string)
    requires Opens(row)
    ensures !Quoted(row) && !Separator(row)
  {
    var t := Trim(row);
    assert [row[0]] + row[1..] == row;
    TrimRightPrefix([row[0]], row[1..]);
    assert t != [] && t[0] == row[0];
    if 2 <= |t| {
      assert Lower(t[..2])[0] == LowerChar(t[0]) != "on"[0];
    }
    assert Count(t, '-') == 0 && Count(t, '_') == 0;
  }

  // ---- rows are the same however the text around them is trimmed

  function RowsOf(s: string): seq<string> { NonEmpty(Split(s, '\n')) }

  /** Splitting one step further, whatever comes before the last part. */
  function Extend(parts: seq<string>, x: char, c: char): seq<string>
    requires parts != []
  {
    if x == c then parts + [""] else parts[..|parts| - 1] + [parts[|parts| - 1] + [x]]
  }

  lemma ExtendIsSplit(s: string, c: char)
    requires s != []
    ensures Split(s, c) == Extend(Split(s[..|s| - 1], c), s[|s| - 1], c)
  {
  }

  lemma ExtendBehind(blank: string, parts: seq<string>, x: char, c: char)
    requires parts != []
    ensures Extend([blank] + parts, x, c) == [blank] + Extend(parts, x, c)
  {
    var more := [blank] + parts;
    assert more[..|parts|] == [blank] + parts[..|parts| - 1];
  }

  lemma {:induction false} SplitLeading(s: string, c: char)
    ensures Split([c] + s, c) == [""] + Split(s, c)
    decreases |s|
  {
    if s == [] {
      assert [c] + s == [c] && [c][..0] == [];
    } else {
      var front, text := s[..|s| - 1], [c] + s;
      assert text[..|s|] == [c] + front && text[|s|] == s[|s| - 1];
      SplitLeading(front, c);
      ExtendIsSplit(text, c);
      ExtendIsSplit(s, c);
      ExtendBehind("", Split(front, c), s[|s| - 1], c);
    }
  }

  lemma {:induction false} NonEmptyAppend(a: seq<string>, b: seq<string>)
    ensures NonEmpty(a + b) == NonEmpty(a) + NonEmpty(b)
    decreases |b|
  {
    if b == [] {
      assert a + b == a;
    } else {
      assert (a + b)[..|a + b| - 1] == a + b[..|b| - 1];
      NonEmptyAppend(a, b[..|b| - 1]);
    }
  }

  lemma BlankRow()
    ensures NonEmpty([[]]) == []
  {
    var rows: seq<string> := [[]];
    assert rows[..0] == [];
  }

  lemma {:induction false} TrailingSpace(s: string, c: char)
    requires IsSpace(c)
    ensures RowsOf(s + [c]) == RowsOf(s)
  {
    var parts := Split(s, '\n');
    assert (s + [c])[..|s|] == s;
    if c == '\n' {
      NonEmptyAppend(parts, [[]]);
      BlankRow();
    } else {
      var front, last := parts[..|parts| - 1], parts[|parts| - 1];
      TrimSpace(last, c);
      assert (front + [last + [c]])[..|front|] == front;
    }
  }

  function OnHead(c: char, parts: seq<string>): seq<string>
    requires parts != []
  {
    [[c] + parts[0]] + parts[1..]
  }

  lemma ExtendOnHead(c: char, parts: seq<string>, x: char, sep: char)
    requires parts != []
    ensures Extend(OnHead(c, parts), x, sep) == OnHead(c, Extend(parts, x, sep))
  {
    if x != sep {
      if |parts| == 1 {
        assert [c] + parts[0] + [x] == [c] + (parts[0] + [x]);
      } else {
        var more := OnHead(c, parts);
        assert more[..|more| - 1] == OnHead(c, parts[..|parts| - 1]);
      }
    }
  }

  lemma {:induction false} SplitHead(c: char, s: string, sep: char)
    requires c != sep
    ensures Split([c] + s, sep) == OnHead(c, Split(s, sep))
    decreases |s|
  {
    if s == [] {
      SplitNone([c], sep);
      assert [c] + s == [c] && [c] + "" == [c];
    } else {
      var front, text := s[..|s| - 1], [c] + s;
      assert text[..|s|] == [c] + front && text[|s|] == s[|s| - 1];
      SplitHead(c, front, sep);
      ExtendIsSplit(text, sep);
      ExtendIsSplit(s, sep);
      ExtendOnHead(c, Split(front, sep), s[|s| - 1], sep);
    }
  }

  lemma {:induction false} OneRow(a: string, b: string)
    requires Trim(a) == Trim(b)
    ensures NonEmpty([a]) == NonEmpty([b])
  {
    var x, y := [a], [b];
    assert x[..0] == [] && y[..0] == [];
  }

  lemma {:induction false} LeadingSpace(s: string, c: char)
    requires IsSpace(c)
    ensures RowsOf([c] + s) == RowsOf(s)
  {
    var parts := Split(s, '\n');
    if c == '\n' {
      var blank := [""];
      SplitLeading(s, '\n');
      NonEmptyAppend(blank, parts);
      BlankRow();
      assert NonEmpty(blank) + NonEmpty(parts) == NonEmpty(parts);
    } else {
      SplitHead(c, s, '\n');
      TrimSpace(parts[0], c);
      OneRow([c] + parts[0], parts[0]);
      NonEmptyAppend([[c] + parts[0]], parts[1..]);
      NonEmptyAppend([parts[0]], parts[1..]);
      assert [parts[0]] + parts[1..] == parts;
    }
  }

  lemma {:induction false} TrimmedRows(s: string)
    ensures RowsOf(Trim(s)) == RowsOf(s)
  {
    RowsTrimLeft(s);
    RowsTrimRight(TrimLeft(s));
  }

  lemma {:induction false} RowsTrimLeft(s: string)
    ensures RowsOf(TrimLeft(s)) == RowsOf(s)
  {
    if s != [] && IsSpace(s[0]) {
      RowsTrimLeft(s[1..]);
      LeadingSpace(s[1..], s[0]);
      assert [s[0]] + s[1..] == s;
    }
  }

  lemma {:induction false} RowsTrimRight(s: string)
    ensures RowsOf(TrimRight(s)) == RowsOf(s)
  {
    if s != [] && IsSpace(s[|s| - 1]) {
      var front, last := s[..|s| - 1], s[|s| - 1];
      assert front + [last] == s && TrimRight(s) == TrimRight(front);
      RowsTrimRight(front);
      TrailingSpace(front, last);
    }
  }

  // ---- the printed block is found again

  predicate PlainLine(f: Format, line: PoLine) {
    && Plain(line.number) && Plain(DateText(line)) && Trimmed(DateText(line))
    && Plain(f.show(line.quantity)) && Trimmed(f.show(line.quantity))
    && Plain(f.show(line.price)) && Trimmed(f.show(line.price))
  }

  /** Reading a printed number gives it back. */
  predicate ReadsBack(f: Format, line: PoLine) {
    f.read(f.show(line.quantity)) == Some(line.quantity) && f.read(f.show(line.price)) == Some(line.price)
  }

  /** A row of the block: text on one line, without markers or entities, that starts with PO or LINE. */
  predicate Row(row: string) {
    (forall c :: c in row ==> c !in {'\n', '\r'}) && Clean(row) && row != [] && row[0] in {'P', 'L'}
  }

  lemma {:induction false} LineText(f: Format, currency: string, line: PoLine)
    ensures var p := Parts(f, currency, line);
            PrintLine(f, currency, line) == p[0] + ['|'] + p[1] + ['|'] + p[2] + ['|'] + p[3] + ['|'] + p[4]
  {
    var parts := Parts(f, currency, line);
    assert parts[..4][..3] == parts[..3] && parts[..3][..2] == parts[..2] && parts[..2][..1] == parts[..1];
    assert Join(parts[..1], '|') == parts[0];
    assert Join(parts[..2], '|') == parts[0] + ['|'] + parts[1];
    assert Join(parts[..3], '|') == parts[0] + ['|'] + parts[1] + ['|'] + parts[2];
    assert Join(parts[..4], '|') == parts[0] + ['|'] + parts[1] + ['|'] + parts[2] + ['|'] + parts[3];
  }

  lemma PlainParts(f: Format, currency: string, line: PoLine)
    requires PlainLine(f, line) && Plain(currency)
    ensures forall p :: p in Parts(f, currency, line) ==> Plain(p)
  {
    var p := Parts(f, currency, line);
    Words();
    PlainFirst(line.number);
    PlainPart("QTY", f.show(line.quantity), " ");
    PlainPart("UNIT_PRICE", f.show(line.price), " ");
    PlainPart("CURRENCY", currency, " ");
    PlainPart("PROMISED_DATE", DateText(line), "");
    FiveOf(p);
  }

  predicate Word(key: string) { '[' !in key && '&' !in key && forall c :: c in key ==> !Delimiter(c) }

  lemma Words()
    ensures Word("QTY") && Word("UNIT_PRICE") && Word("CURRENCY") && Word("PROMISED_DATE")
  {
  }

  lemma FiveOf(p: seq<string>)
    requires |p| == 5
    ensures forall x :: x in p <==> x == p[0] || x == p[1] || x == p[2] || x == p[3] || x == p[4]
  {
  }

  lemma PlainFirst(number: string)
    requires Plain(number)
    ensures Plain("LINE" + ":" + (number + " "))
  {
    PlainEnd(number, " ");
    WordsAreClean("LINE");
    CleanAcross("LINE", ':', number + " ");
  }

  lemma PlainEnd(value: string, end: string)
    requires Plain(value) && (end == "" || end == " ")
    ensures Plain(value + end)
  {
    if end == "" {
      assert value + end == value;
    } else {
      WordsAreClean("");
      CleanAcross(value, ' ', "");
      assert value + end == value + [' '] + "";
    }
  }

  lemma PlainPart(key: string, value: string, end: string)
    requires Word(key) && Plain(value) && (end == "" || end == " ")
    ensures Plain(Part(key, value, end))
  {
    PlainEnd(value, end);
    WordsAreClean(" " + key);
    CleanAcross(" " + key, ':', value + end);
    assert Part(key, value, end) == " " + key + [':'] + (value + end);
  }

  lemma {:induction false} PrintedLineIsRow(f: Format, currency: string, line: PoLine)
    requires PlainLine(f, line) && Plain(currency)
    ensures Row(PrintLine(f, currency, line)) && PrintLine(f, currency, line)[0] == 'L'
  {
    var row := PrintLine(f, currency, line);
    PlainParts(f, currency, line);
    forall c | c in row ensures c !in {'\n', '\r'} {
      JoinChars(Parts(f, currency, line), '|', c);
    }
    CleanJoin(Parts(f, currency, line), '|');
    LineText(f, currency, line);
    assert Parts(f, currency, line)[0][0] == 'L';
  }

  lemma {:induction false} PrintedLineIsTrimmed(f: Format, currency: string, line: PoLine)
    requires Trimmed(DateText(line))
    ensures Trim(PrintLine(f, currency, line)) == PrintLine(f, currency, line)
  {
    var row, last := PrintLine(f, currency, line), Part("PROMISED_DATE", DateText(line), "");
    LineText(f, currency, line);
    assert Parts(f, currency, line)[0][0] == 'L' && row[0] == 'L';
    assert last[|last| - 1] == (if DateText(line) == [] then ':' else DateText(line)[|DateText(line)| - 1]);
    assert row[|row| - 1] == last[|last| - 1];
    TrimTrimmed(row);
  }

  lemma {:induction false} PrintedLinesAreRows(f: Format, currency: string, lines: seq<PoLine>)
    requires Plain(currency) && forall line :: line in lines ==> PlainLine(f, line)
    ensures forall row :: row in PrintLines(f, currency, lines) ==> Row(row) && row[0] == 'L' && Trim(row) == row
    ensures |PrintLines(f, currency, lines)| == |lines|
  {
    if lines != [] {
      PrintedLinesAreRows(f, currency, lines[..|lines| - 1]);
      InFrontOrLast(lines);
      PrintedLineIsRow(f, currency, lines[|lines| - 1]);
      PrintedLineIsTrimmed(f, currency, lines[|lines| - 1]);
    }
  }

  lemma {:induction false} RowsTogether(rows: seq<string>)
    requires rows != [] && forall row :: row in rows ==> Row(row)
    ensures Clean(Join(rows, '\n'))
    ensures Split(Join(rows, '\n'), '\n') == rows
  {
    CleanJoin(rows, '\n');
    SplitJoin(rows, '\n');
  }

  lemma {:induction false} JoinSnoc(parts: seq<string>, last: string, c: char)
    requires parts != []
    ensures Join(parts + [last], c) == Join(parts, c) + [c] + last
  {
    assert (parts + [last])[..|parts|] == parts;
  }

  lemma Associates(a: string, b: string, c: string, d: string)
    ensures a + b + c + d == a + (b + c + d)
  {
  }

  lemma {:induction false} JoinCons(first: string, parts: seq<string>, c: char)
    requires parts != []
    ensures Join([first] + parts, c) == first + [c] + Join(parts, c)
  {
    var all := [first] + parts;
    if |parts| == 1 {
      assert all[..1] == [first];
    } else {
      var front, last := parts[..|parts| - 1], parts[|parts| - 1];
      JoinCons(first, front, c);
      assert all == ([first] + front) + [last];
      JoinSnoc([first] + front, last, c);
      Associates(first + [c], Join(front, c), [c], last);
    }
  }

  /** The block's text: the marker, the rows and the closing marker, each on a line. */
  function BlockText(rows: seq<string>): string {
    Join([OPENING] + rows + [CLOSING], '\n')
  }

  /** A line of a mail that the parser passes through unchanged. */
  predicate Passes(line: string) {
    Opens(line) && '\n' !in line && '\r' !in line && NoEntities(line)
  }

  lemma OpeningPasses()
    ensures Passes(OPENING) && OPENING[0] == '['
  {
    NoAmpersand(OPENING);
  }

  lemma ClosingPasses()
    ensures Passes(CLOSING) && CLOSING[0] == '[' && CLOSING[|CLOSING| - 1] == ']'
  {
    NoAmpersand(CLOSING);
  }

  lemma {:induction false} NoEntitiesJoin(parts: seq<string>)
    requires forall p :: p in parts ==> NoEntities(p)
    ensures NoEntities(Join(parts, '\n'))
  {
    if |parts| == 1 {
      assert parts[0] in parts;
    } else if parts != [] {
      InFrontOrLast(parts);
      NoEntitiesJoin(parts[..|parts| - 1]);
      NoEntitiesAcross(Join(parts[..|parts| - 1], '\n'), '\n', parts[|parts| - 1]);
    }
  }

  lemma {:induction false} PassingReply(parts: seq<string>)
    requires parts != [] && forall part :: part in parts ==> Passes(part)
    requires Trimmed(Join(parts, '\n'))
    ensures ReplyLines(Join(parts, '\n')) == parts
  {
    var text := Join(parts, '\n');
    forall c | c in text ensures c != '\r' {
      JoinChars(parts, '\n', c);
    }
    NoEntitiesJoin(parts);
    UnescapeKeeps(text);
    BreaksKeep(text);
    SplitJoin(parts, '\n');
    forall part | part in parts ensures !Quoted(part) && !Separator(part) {
      OpensIsContent(part);
    }
    UntilKeeps(parts, Separator);
    UntilKeeps(parts, Quoted);
    TrimTrimmed(text);
  }

  lemma {:induction false} BlockLines(rows: seq<string>)
    requires rows != [] && forall row :: row in rows ==> Row(row)
    ensures ReplyLines(BlockText(rows)) == [OPENING] + rows + [CLOSING]
  {
    OpeningPasses();
    ClosingPasses();
    JoinSnoc([OPENING] + rows, CLOSING, '\n');
    JoinCons(OPENING, rows, '\n');
    BlockEnds(OPENING, "\n" + Join(rows, '\n') + "\n", CLOSING);
    assert BlockText(rows) == OPENING + ("\n" + Join(rows, '\n') + "\n") + CLOSING;
    PassingReply([OPENING] + rows + [CLOSING]);
  }

  lemma BlockEnds(a: string, middle: string, b: string)
    requires a != [] && b != [] && !IsSpace(a[0]) && !IsSpace(b[|b| - 1])
    ensures Trimmed(a + middle + b)
  {
  }

  lemma {:induction false} TrimmedEach(rows: seq<string>)
    requires forall row :: row in rows ==> Row(row)
    ensures |NonEmpty(rows)| == |rows| && forall i :: 0 <= i < |rows| ==> NonEmpty(rows)[i] == Trim(rows[i])
  {
    if rows != [] {
      var last := rows[|rows| - 1];
      InFrontOrLast(rows);
      assert Row(last);
      TrimmedEach(rows[..|rows| - 1]);
      assert [last[0]] + last[1..] == last;
      TrimRightPrefix([last[0]], last[1..]);
    }
  }

  lemma {:induction false} BlockIsFound(rows: seq<string>)
    requires rows != [] && forall row :: row in rows ==> Row(row)
    ensures BlockRows(BlockText(rows)) == Some(NonEmpty(rows))
  {
    BlockLines(rows);
    var all := [OPENING] + rows + [CLOSING];
    TrimTrimmed(OPENING);
    TrimRightPrefix(OPENING, "");
    assert OPENING + "" == OPENING && TrimRight(OPENING) == OPENING;
    assert all[1..] == rows + [CLOSING];
    var joined := Join(rows, '\n');
    RowsTogether(rows);
    JoinSnoc(rows, CLOSING, '\n');
    var before := joined + ['\n'];
    MarkerHasNone('\n');
    FoundNext(joined, '\n', CLOSING);
    assert (before + CLOSING)[..|before|] == before;
    TrimmedRows(before);
    TrailingSpace(joined, '\n');
  }

  // ---- the fields of a printed line

  lemma {:induction false} FieldFound(key: string, value: string)
    requires ':' !in key
    ensures FieldOf(key + ":" + value) == Field(Upper(Trim(key)), Trim(value))
  {
    var part := key + ":" + value;
    CharFoundAfter(key, ':', value);
    assert key + [':'] + value == part;
    assert part[..|key|] == key && part[|key| + 1..] == value;
  }

  lemma {:induction false} LineSplits(f: Format, currency: string, line: PoLine)
    requires PlainLine(f, line) && Plain(currency)
    ensures Split(PrintLine(f, currency, line), '|') == Parts(f, currency, line)
  {
    PlainParts(f, currency, line);
    SplitJoin(Parts(f, currency, line), '|');
  }

  lemma {:induction false} FirstField(number: string)
    ensures FieldOf("LINE" + ":" + (number + " ")) == Field("LINE", Trim(number))
  {
    FieldFound("LINE", number + " ");
    TrimSpace(number, ' ');
    TrimTrimmed("LINE");
  }

  predicate FieldKey(key: string) { key != "" && ':' !in key && Trimmed(key) && Upper(key) == key }

  lemma {:induction false} SpacedField(key: string, value: string, end: string)
    requires FieldKey(key) && (end == "" || end == " ")
    ensures FieldOf(Part(key, value, end)) == Field(key, Trim(value))
  {
    FieldFound(" " + key, value + end);
    TrimSpace(key, ' ');
    TrimSpace(value, ' ');
    TrimTrimmed(key);
    assert value + "" == value;
  }

  /** The fields a printed line is read back with. */
  function ReadFields(f: Format, currency: string, line: PoLine): map<string, string> {
    map["LINE" := Trim(line.number), "QTY" := f.show(line.quantity), "UNIT_PRICE" := f.show(line.price),
        "CURRENCY" := Trim(currency), "PROMISED_DATE" := DateText(line)]
  }

  lemma QuantityField(f: Format, line: PoLine)
    requires Trimmed(f.show(line.quantity))
    ensures FieldOf(Part("QTY", f.show(line.quantity), " ")) == Field("QTY", f.show(line.quantity))
  {
    SpacedField("QTY", f.show(line.quantity), " ");
    TrimTrimmed(f.show(line.quantity));
  }

  lemma PriceField(f: Format, line: PoLine)
    requires Trimmed(f.show(line.price))
    ensures FieldOf(Part("UNIT_PRICE", f.show(line.price), " ")) == Field("UNIT_PRICE", f.show(line.price))
  {
    SpacedField("UNIT_PRICE", f.show(line.price), " ");
    TrimTrimmed(f.show(line.price));
  }

  lemma CurrencyField(currency: string)
    ensures FieldOf(Part("CURRENCY", currency, " ")) == Field("CURRENCY", Trim(currency))
  {
    SpacedField("CURRENCY", currency, " ");
  }

  lemma DateField(line: PoLine)
    requires Trimmed(DateText(line))
    ensures FieldOf(Part("PROMISED_DATE", DateText(line), "")) == Field("PROMISED_DATE", DateText(line))
  {
    SpacedField("PROMISED_DATE", DateText(line), "");
    TrimTrimmed(DateText(line));
  }

  lemma {:induction false} FieldsOfSnoc(parts: seq<string>, part: string)
    ensures FieldsOf(parts + [part]) == FieldsOf(parts)[FieldOf(part).key := FieldOf(part).value]
  {
    assert (parts + [part])[..|parts|] == parts;
  }

  lemma {:induction false} FiveFields(p0: string, p1: string, p2: string, p3: string, p4: string)
    ensures FieldsOf([p0, p1, p2, p3, p4])
         == map[][FieldOf(p0).key := FieldOf(p0).value][FieldOf(p1).key := FieldOf(p1).value][FieldOf(p2).key := FieldOf(p2).value]
              [FieldOf(p3).key := FieldOf(p3).value][FieldOf(p4).key := FieldOf(p4).value]
  {
    FieldsOfSnoc([], p0);
    FieldsOfSnoc([p0], p1);
    FieldsOfSnoc([p0, p1], p2);
    FieldsOfSnoc([p0, p1, p2], p3);
    FieldsOfSnoc([p0, p1, p2, p3], p4);
    assert [] + [p0] == [p0] && [p0] + [p1] == [p0, p1] && [p0, p1] + [p2] == [p0, p1, p2];
    assert [p0, p1, p2] + [p3] == [p0, p1, p2, p3] && [p0, p1, p2, p3] + [p4] == [p0, p1, p2, p3, p4];
  }

  lemma {:induction false} LineReadsBack(f: Format, currency: string, line: PoLine)
    requires PlainLine(f, line) && Plain(currency)
    ensures FieldsOf(Split(PrintLine(f, currency, line), '|')) == ReadFields(f, currency, line)
  {
    LineSplits(f, currency, line);
    FirstField(line.number);
    QuantityField(f, line);
    PriceField(f, line);
    CurrencyField(currency);
    DateField(line);
    var p := Parts(f, currency, line);
    FiveFields(p[0], p[1], p[2], p[3], p[4]);
  }

  // ---- the printed block is parsed back

  /** What a printed line can be accepted with. */
  predicate Confirmable(f: Format, currency: string, line: PoLine) {
    line.quantity > 0.0 && line.price >= 0.0 && DateShaped(DateText(line)) && f.isDate(DateText(line))
    && Upper(Trim(currency)) == Upper(currency)
  }

  function Expected(lines: seq<PoLine>): seq<Confirmed> {
    if lines == [] then []
    else
      var last := lines[|lines| - 1];
      Expected(lines[..|lines| - 1]) + [Confirmed(last.id, last.quantity, last.price, DateText(last))]
  }

  lemma {:induction false} LineOfOwn(poLines: seq<PoLine>, i: nat)
    requires DistinctKeys(poLines) && i < |poLines|
    ensures LineOf(poLines, Key(poLines[i].number)) == Some(i)
  {
    var key := KeyList(poLines)[i];
    assert key in Keys(poLines);
    LineOfFinds(poLines, key);
    assert KeyList(poLines)[LineOf(poLines, key).value] == key;
  }

  lemma {:induction false} PrintedRowParses(f: Format, currency: string, poLines: seq<PoLine>, i: nat, seen: set<string>)
    requires DistinctKeys(poLines) && i < |poLines| && PlainLine(f, poLines[i]) && Plain(currency) && ReadsBack(f, poLines[i])
    requires Key(poLines[i].number) !in seen
    ensures var line := poLines[i]; var r := ParseRow(f, currency, poLines, seen, FieldsOf(Split(PrintLine(f, currency, line), '|')));
            if Confirmable(f, currency, line)
            then r == Good(Key(line.number), i, Confirmed(line.id, line.quantity, line.price, DateText(line))) else r.Bad?
  {
    LineReadsBack(f, currency, poLines[i]);
    LineOfOwn(poLines, i);
  }

  ghost predicate AllConfirmable(f: Format, currency: string, lines: seq<PoLine>) {
    forall line :: line in lines ==> Confirmable(f, currency, line)
  }

  lemma {:induction false} PrintPrefix(f: Format, currency: string, poLines: seq<PoLine>, m: nat)
    requires m < |poLines|
    ensures PrintLines(f, currency, poLines[..m + 1]) == PrintLines(f, currency, poLines[..m]) + [PrintLine(f, currency, poLines[m])]
    ensures Expected(poLines[..m + 1])
         == Expected(poLines[..m]) + [Confirmed(poLines[m].id, poLines[m].quantity, poLines[m].price, DateText(poLines[m]))]
  {
    assert poLines[..m + 1][..m] == poLines[..m];
  }

  lemma {:induction false} CheckPrefix(f: Format, currency: string, poLines: seq<PoLine>, m: nat)
    requires m < |poLines|
    ensures AllConfirmable(f, currency, poLines[..m + 1]) <==> AllConfirmable(f, currency, poLines[..m]) && Confirmable(f, currency, poLines[m])
  {
    assert poLines[..m + 1][..m] == poLines[..m];
    InFrontOrLast(poLines[..m + 1]);
  }

  lemma {:induction false} KeysPrefix(keys: seq<string>, m: nat)
    requires m < |keys|
    ensures Elements(keys[..m + 1]) == Elements(keys[..m]) + {keys[m]}
  {
    assert keys[..m + 1][..m] == keys[..m];
    InFrontOrLast(keys[..m + 1]);
  }

  lemma {:induction false} ParseSnoc(f: Format, currency: string, poLines: seq<PoLine>, rows: seq<string>, row: string)
    ensures ParseRows(f, currency, poLines, rows + [row]) ==
              var p := ParseRows(f, currency, poLines, rows);
              if p.Stopped? then p
              else match ParseRow(f, currency, poLines, p.seen, FieldsOf(Split(row, '|')))
                   case Bad(why) => Stopped(why)
                   case Good(key, line, c) => Going(p.seen + {key}, p.picks + [line], p.lines + [c])
  {
    assert (rows + [row])[..|rows|] == rows;
  }

  /** The parser after the first `n` printed rows. */
  ghost predicate ParsedSoFar(f: Format, currency: string, poLines: seq<PoLine>, n: nat, p: Progress)
    requires n <= |poLines|
  {
    if AllConfirmable(f, currency, poLines[..n])
    then p.Going? && p.seen == Elements(KeyList(poLines)[..n]) && p.lines == Expected(poLines[..n]) && |p.seen| == n
    else p.Stopped?
  }

  /** The first `n` printed rows are all accepted exactly if the first `n` lines are confirmable. */
  lemma {:induction false} PrintedRowsParse(f: Format, currency: string, poLines: seq<PoLine>, n: nat)
    requires DistinctKeys(poLines) && n <= |poLines| && Plain(currency)
    requires forall line :: line in poLines ==> PlainLine(f, line) && ReadsBack(f, line)
    ensures ParsedSoFar(f, currency, poLines, n, ParseRows(f, currency, poLines, PrintLines(f, currency, poLines[..n])))
  {
    if n > 0 {
      var m, keys := n - 1, KeyList(poLines);
      PrintedRowsParse(f, currency, poLines, m);
      PrintPrefix(f, currency, poLines, m);
      CheckPrefix(f, currency, poLines, m);
      KeysPrefix(keys, m);
      var rows, row := PrintLines(f, currency, poLines[..m]), PrintLine(f, currency, poLines[m]);
      ParseSnoc(f, currency, poLines, rows, row);
      if AllConfirmable(f, currency, poLines[..m]) {
        assert keys[m] !in keys[..m];
        PrintedRowParses(f, currency, poLines, m, Elements(keys[..m]));
      }
    }
  }

  lemma {:induction false} OnlyCons(first: string, rows: seq<string>, key: string)
    ensures Only([first] + rows, key) == (if StartsWith(first, key) then [first] else []) + Only(rows, key)
  {
    var all := [first] + rows;
    if rows == [] {
      assert all[..0] == [] && all[0] == first;
    } else {
      assert all[..|all| - 1] == [first] + rows[..|rows| - 1] && all[|all| - 1] == rows[|rows| - 1];
      OnlyCons(first, rows[..|rows| - 1], key);
    }
  }

  lemma {:induction false} OnlyAll(rows: seq<string>, key: string)
    requires forall row :: row in rows ==> StartsWith(row, key)
    ensures Only(rows, key) == rows
  {
    if rows != [] {
      InFrontOrLast(rows);
      OnlyAll(rows[..|rows| - 1], key);
      assert rows[..|rows| - 1] + [rows[|rows| - 1]] == rows;
    }
  }

  lemma {:induction false} OnlyNone(rows: seq<string>, key: string)
    requires forall row :: row in rows ==> !StartsWith(row, key)
    ensures Only(rows, key) == []
  {
    if rows != [] {
      InFrontOrLast(rows);
      OnlyNone(rows[..|rows| - 1], key);
    }
  }

  lemma {:induction false} OnlyLines(rows: seq<string>, first: string)
    requires first != [] && first[0] == 'P' && StartsWith(first, "PO")
    requires forall row :: row in rows ==> row != [] && row[0] == 'L' && StartsWith(row, "LINE")
    ensures Only([first] + rows, "LINE") == rows && Only([first] + rows, "PO") == [first]
  {
    OnlyCons(first, rows, "LINE");
    OnlyCons(first, rows, "PO");
    NotThat(first, "LINE");
    forall row | row in rows ensures !StartsWith(row, "PO") {
      NotThat(row, "PO");
    }
    OnlyAll(rows, "LINE");
    OnlyNone(rows, "PO");
  }

  lemma {:induction false} NotThat(row: string, key: string)
    requires row != [] && key != [] && UpperChar(row[0]) != key[0]
    ensures !StartsWith(row, key)
  {
    if |key| <= |row| {
      assert Upper(row[..|key|])[0] == UpperChar(row[0]);
    }
  }

  lemma {:induction false} LineStarts(f: Format, currency: string, line: PoLine)
    ensures StartsWith(PrintLine(f, currency, line), "LINE")
  {
    var p, row := Parts(f, currency, line), PrintLine(f, currency, line);
    LineText(f, currency, line);
    assert row[..4] == "LINE" && row[4] == ':';
    assert row[4..][0] == ':';
  }

  lemma {:induction false} LinesStart(f: Format, currency: string, lines: seq<PoLine>)
    ensures forall row :: row in PrintLines(f, currency, lines) ==> StartsWith(row, "LINE")
  {
    if lines != [] {
      LinesStart(f, currency, lines[..|lines| - 1]);
      LineStarts(f, currency, lines[|lines| - 1]);
      InFrontOrLast(PrintLines(f, currency, lines));
    }
  }

  lemma {:induction false} TrimTwice(s: string)
    ensures Trim(TrimRight(s)) == Trim(s)
  {
    TrimOrder(s);
    TrimRightEnds(TrimLeft(s));
  }

  lemma {:induction false} OrderRow(order: string)
    requires Plain(order)
    ensures Row("PO:" + order) && Trim("PO:" + order) == "PO:" + TrimRight(order)
    ensures StartsWith("PO:" + TrimRight(order), "PO") && OrderNamed("PO:" + TrimRight(order)) == Lower(Trim(order))
  {
    WordsAreClean("PO");
    CleanAcross("PO", ':', order);
    assert "PO" + [':'] + order == "PO:" + order;
    TrimRightPrefix("PO:", order);
    var text, row := TrimRight(order), "PO:" + TrimRight(order);
    CharFoundAfter("PO", ':', text);
    assert "PO" + [':'] + text == row && row[3..] == text;
    assert row[..2] == "PO" && row[2..][0] == ':';
    TrimTwice(order);
  }

  lemma {:induction false} RowsKept(lines: seq<string>)
    requires forall row :: row in lines ==> Row(row) && Trim(row) == row
    ensures NonEmpty(lines) == lines
  {
    TrimmedEach(lines);
    forall i | 0 <= i < |lines| ensures NonEmpty(lines)[i] == lines[i] {
      assert lines[i] in lines;
    }
  }

  lemma {:induction false} RowsSeen(first: string, trimmed: string, lines: seq<string>)
    requires Row(first) && Trim(first) == trimmed && trimmed != []
    requires forall row :: row in lines ==> Row(row) && Trim(row) == row
    ensures NonEmpty([first] + lines) == [trimmed] + lines
  {
    var one := [first];
    RowsKept(lines);
    NonEmptyAppend(one, lines);
    assert one[..0] == [];
  }

  /** The rows the parser sees in a printed block. */
  lemma {:induction false} PrintedRows(f: Format, order: string, currency: string, poLines: seq<PoLine>)
    requires Plain(order) && Plain(currency) && forall line :: line in poLines ==> PlainLine(f, line)
    ensures BlockRows(PrintBlock(f, order, currency, poLines)) == Some(["PO:" + TrimRight(order)] + PrintLines(f, currency, poLines))
  {
    OrderRow(order);
    PrintedLinesAreRows(f, currency, poLines);
    SameText("PO:" + order, PrintLines(f, currency, poLines));
    RowsSeen("PO:" + order, "PO:" + TrimRight(order), PrintLines(f, currency, poLines));
    BlockIsFound(["PO:" + order] + PrintLines(f, currency, poLines));
  }

  lemma SameText(first: string, lines: seq<string>)
    ensures Join([OPENING, first] + lines + [CLOSING], '\n') == BlockText([first] + lines)
  {
    assert [OPENING, first] + lines + [CLOSING] == [OPENING] + ([first] + lines) + [CLOSING];
  }

  /** On a printed block the parser comes down to its loop over the printed lines. */
  lemma {:induction false} PrintedParse(f: Format, order: string, currency: string, poLines: seq<PoLine>)
    requires Plain(order) && Plain(currency) && forall line :: line in poLines ==> PlainLine(f, line)
    ensures Parse(f, PrintBlock(f, order, currency, poLines), order, currency, poLines)
         == Conclude(poLines, ParseRows(f, currency, poLines, PrintLines(f, currency, poLines)))
  {
    var lines := PrintLines(f, currency, poLines);
    PrintedRows(f, order, currency, poLines);
    OrderRow(order);
    PrintedLinesAreRows(f, currency, poLines);
    LinesStart(f, currency, poLines);
    OnlyLines(lines, "PO:" + TrimRight(order));
  }

  /**
   Round trip. For fields on one line without bars, closing markers and space entities, parsing the printed block gives back every line's id,
   quantity, price and date exactly if the line numbers are distinct up to case and surrounding spaces,
   every quantity is positive, no price is negative, every line has a date, and the currency has no
   surrounding spaces.
   */
  lemma PrintedBlockParses(f: Format, order: string, currency: string, poLines: seq<PoLine>)
    requires Plain(order) && Plain(currency)
    requires forall line :: line in poLines ==> PlainLine(f, line) && ReadsBack(f, line)
    ensures Parse(f, PrintBlock(f, order, currency, poLines), order, currency, poLines) == Complete(Expected(poLines))
       <==> DistinctKeys(poLines) && AllConfirmable(f, currency, poLines)
  {
    var body, lines := PrintBlock(f, order, currency, poLines), PrintLines(f, currency, poLines);
    PrintedParse(f, order, currency, poLines);
    if DistinctKeys(poLines) {
      PrintedRowsParse(f, currency, poLines, |poLines|);
      assert poLines[..|poLines|] == poLines && KeyList(poLines)[..|poLines|] == KeyList(poLines);
      DistinctCount(KeyList(poLines));
      NeverStopsComplete(f, currency, poLines, lines);
      ExpectedLength(poLines);
    } else if Parse(f, body, order, currency, poLines).Complete? {
      AcceptedCoversEveryLine(f, body, order, currency, poLines);
    }
  }

  lemma ExpectedLength(lines: seq<PoLine>)
    ensures |Expected(lines)| == |lines|
  {
  }

  // ---- exactly which replies are accepted, and what is taken from them

  /** The order line a row is about, by its number. */
  function RowKey(row: string): string {
    Lower(Get(FieldsOf(Split(row, '|')), "LINE").GetOr(""))
  }

  /** The row says this of one order line: its own numbers and date, in the order's currency. */
  ghost predicate RowSays(f: Format, currency: string, poLines: seq<PoLine>, row: string, c: Confirmed) {
    var fields := FieldsOf(Split(row, '|'));
    && (exists k :: 0 <= k < |poLines| && c.poLine == poLines[k].id && Lower(Trim(poLines[k].number)) == RowKey(row)
                 && forall j :: k < j < |poLines| ==> Lower(Trim(poLines[j].number)) != RowKey(row))
    && "QTY" in fields && f.read(fields["QTY"]) == Some(c.quantity) && c.quantity > 0.0
    && "UNIT_PRICE" in fields && f.read(fields["UNIT_PRICE"]) == Some(c.price) && c.price >= 0.0
    && "CURRENCY" in fields && Upper(fields["CURRENCY"]) == Upper(currency)
    && "PROMISED_DATE" in fields && c.promised == fields["PROMISED_DATE"] && DateShaped(c.promised) && f.isDate(c.promised)
  }

  lemma {:induction false} LineOfIsLast(poLines: seq<PoLine>, key: string, k: nat)
    ensures LineOf(poLines, key) == Some(k) <==>
              k < |poLines| && Key(poLines[k].number) == key && forall j :: k < j < |poLines| ==> Key(poLines[j].number) != key
  {
    if poLines != [] {
      LineOfIsLast(poLines[..|poLines| - 1], key, k);
    }
  }

  lemma RowIsRead(f: Format, currency: string, poLines: seq<PoLine>, seen: set<string>, row: string, c: Confirmed)
    ensures var r := ParseRow(f, currency, poLines, seen, FieldsOf(Split(row, '|')));
            && (r.Good? && r.confirmed == c <==> RowSays(f, currency, poLines, row, c) && RowKey(row) !in seen)
            && (r.Good? ==> r.key == RowKey(row))
  {
    var line := LineOf(poLines, RowKey(row));
    LineOfFinds(poLines, RowKey(row));
    if line.Some? {
      LineOfIsLast(poLines, RowKey(row), line.value);
    }
    if k :| 0 <= k < |poLines| && c.poLine == poLines[k].id && Lower(Trim(poLines[k].number)) == RowKey(row)
            && forall j :: k < j < |poLines| ==> Lower(Trim(poLines[j].number)) != RowKey(row) {
      LineOfIsLast(poLines, RowKey(row), k);
    }
  }

  ghost predicate RowsSay(f: Format, currency: string, poLines: seq<PoLine>, rows: seq<string>, cs: seq<Confirmed>) {
    && |cs| == |rows|
    && (forall i {:trigger rows[i]} :: 0 <= i < |rows| ==> RowSays(f, currency, poLines, rows[i], cs[i]))
    && (forall i, j :: 0 <= i < j < |rows| ==> RowKey(rows[i]) != RowKey(rows[j]))
  }

  ghost predicate SeenKeys(rows: seq<string>, seen: set<string>) {
    forall key :: key in seen <==> exists i :: 0 <= i < |rows| && RowKey(rows[i]) == key
  }

  lemma SaySnoc(f: Format, currency: string, poLines: seq<PoLine>, rows: seq<string>, cs: seq<Confirmed>)
    requires rows != [] && |cs| == |rows|
    ensures var n := |rows| - 1;
            RowsSay(f, currency, poLines, rows, cs) <==>
              && RowsSay(f, currency, poLines, rows[..n], cs[..n]) && RowSays(f, currency, poLines, rows[n], cs[n])
              && forall i :: 0 <= i < n ==> RowKey(rows[i]) != RowKey(rows[n])
  {
    var n := |rows| - 1;
    assert forall i :: 0 <= i < n ==> rows[..n][i] == rows[i] && cs[..n][i] == cs[i];
  }

  lemma SeenSnoc(rows: seq<string>, seen: set<string>)
    requires rows != [] && SeenKeys(rows[..|rows| - 1], seen)
    ensures SeenKeys(rows, seen + {RowKey(rows[|rows| - 1])})
  {
    var n := |rows| - 1;
    forall key ensures key in seen + {RowKey(rows[n])} <==> exists i :: 0 <= i < |rows| && RowKey(rows[i]) == key {
      if i :| 0 <= i < |rows[..n]| && RowKey(rows[..n][i]) == key {
        assert RowKey(rows[i]) == key;
      }
      if i :| 0 <= i < |rows| && RowKey(rows[i]) == key {
        if i < n {
          assert RowKey(rows[..n][i]) == key;
        }
      }
    }
  }

  lemma OtherKeys(rows: seq<string>, seen: set<string>)
    requires rows != [] && SeenKeys(rows[..|rows| - 1], seen)
    ensures RowKey(rows[|rows| - 1]) !in seen <==> forall i :: 0 <= i < |rows| - 1 ==> RowKey(rows[i]) != RowKey(rows[|rows| - 1])
  {
    var n := |rows| - 1;
    assert forall i :: 0 <= i < n ==> rows[..n][i] == rows[i];
  }

  lemma ReadSnoc(f: Format, currency: string, poLines: seq<PoLine>, rows: seq<string>)
    requires rows != []
    ensures var n := |rows| - 1;
            var before, p := ParseRows(f, currency, poLines, rows[..n]), ParseRows(f, currency, poLines, rows);
            && (before.Stopped? ==> p.Stopped?)
            && (before.Going? ==>
                  var r := ParseRow(f, currency, poLines, before.seen, FieldsOf(Split(rows[n], '|')));
                  && (p.Going? <==> r.Good?)
                  && (r.Good? ==> p.seen == before.seen + {r.key} && p.lines == before.lines + [r.confirmed]))
  {
  }

  lemma {:induction false} ReadSees(f: Format, currency: string, poLines: seq<PoLine>, rows: seq<string>)
    ensures var p := ParseRows(f, currency, poLines, rows); p.Going? ==> SeenKeys(rows, p.seen) && |p.lines| == |rows|
  {
    if rows != [] {
      var n := |rows| - 1;
      ReadSees(f, currency, poLines, rows[..n]);
      ReadSnoc(f, currency, poLines, rows);
      var before := ParseRows(f, currency, poLines, rows[..n]);
      if before.Going? && ParseRows(f, currency, poLines, rows).Going? {
        var r := ParseRow(f, currency, poLines, before.seen, FieldsOf(Split(rows[n], '|')));
        RowIsRead(f, currency, poLines, before.seen, rows[n], r.confirmed);
        SeenSnoc(rows, before.seen);
      }
    }
  }

  predicate ReadAs(p: Progress, cs: seq<Confirmed>) {
    p.Going? && p.lines == cs
  }

  /** One more row. */
  lemma ReadOneMore(f: Format, currency: string, poLines: seq<PoLine>, rows: seq<string>, cs: seq<Confirmed>)
    requires rows != [] && |cs| == |rows|
    ensures var n := |rows| - 1;
            ReadAs(ParseRows(f, currency, poLines, rows), cs) <==>
              && ReadAs(ParseRows(f, currency, poLines, rows[..n]), cs[..n])
              && RowSays(f, currency, poLines, rows[n], cs[n]) && forall i :: 0 <= i < n ==> RowKey(rows[i]) != RowKey(rows[n])
  {
    var n := |rows| - 1;
    var before := ParseRows(f, currency, poLines, rows[..n]);
    ReadSnoc(f, currency, poLines, rows);
    ReadSees(f, currency, poLines, rows[..n]);
    assert cs == cs[..n] + [cs[n]];
    if before.Going? {
      RowIsRead(f, currency, poLines, before.seen, rows[n], cs[n]);
      OtherKeys(rows, before.seen);
    }
  }

  /** The rows are read through to exactly these values if each row says so and no two are about one line. */
  lemma {:induction false} RowsAreRead(f: Format, currency: string, poLines: seq<PoLine>, rows: seq<string>, cs: seq<Confirmed>)
    ensures ReadAs(ParseRows(f, currency, poLines, rows), cs) <==> RowsSay(f, currency, poLines, rows, cs)
  {
    ReadSees(f, currency, poLines, rows);
    if rows != [] && |cs| == |rows| {
      RowsAreRead(f, currency, poLines, rows[..|rows| - 1], cs[..|rows| - 1]);
      ReadOneMore(f, currency, poLines, rows, cs);
      SaySnoc(f, currency, poLines, rows, cs);
    }
  }

  /**
   A reply is accepted with exactly these confirmations if its block names the order first, its LINE rows
   say them, one order line each, and there are as many as the order has lines and line numbers.
   */
  lemma AcceptedExactly(f: Format, body: string, order: string, currency: string, poLines: seq<PoLine>, cs: seq<Confirmed>)
    ensures Parse(f, body, order, currency, poLines) == Complete(cs) <==>
              && BlockRows(body).Some?
              && Only(BlockRows(body).value, "PO") != [] && OrderNamed(Only(BlockRows(body).value, "PO")[0]) == Lower(Trim(order))
              && RowsSay(f, currency, poLines, Only(BlockRows(body).value, "LINE"), cs)
              && |cs| == |poLines| && DistinctKeys(poLines)
  {
    if BlockRows(body).Some? {
      var rows := Only(BlockRows(body).value, "LINE");
      var p := ParseRows(f, currency, poLines, rows);
      RowsAreRead(f, currency, poLines, rows, cs);
      NeverStopsComplete(f, currency, poLines, rows);
      RowsGoWell(f, currency, poLines, rows);
      DistinctCount(KeyList(poLines));
      assert |Keys(poLines)| == |poLines| <==> DistinctKeys(poLines);
    }
  }
}
