/**
 The structured confirmation block a supplier mails back: printing it for a purchase order, finding and
 parsing it in a reply, and why the one undoes the other.
 */
module ConfirmationBlock {
  import opened Basics
  import opened Texts

  const OPENING := "[READYWORK-CONFIRMATION]"
  const OPENING_WITHOUT_BRACKET := "READYWORK-CONFIRMATION]"
  const CLOSING := "[/READYWORK-CONFIRMATION]"

  datatype PoLine = PoLine(id: string, number: string, quantity: real, price: real, requested: Option<string>)

  datatype Confirmed = Confirmed(poLine: string, quantity: real, price: real, promised: string)

  datatype Parsed =
    | NoBlock
    | OtherOrder
    | UnknownOrRepeatedLine
    | BadNumber
    | OtherCurrency
    | BadDate
    | NotEveryLine
    | Complete(lines: seq<Confirmed>)

  /** How numbers are written and read, and which texts of the form dddd-dd-dd are dates. */
  datatype Format = Format(show: real -> string, read: string -> Option<real>, isDate: string -> bool)

  // ---- printing

  function DateText(line: PoLine): string {
    match line.requested
    case None => "YYYY-MM-DD"
    case Some(at) => if |at| <= 10 then at else at[..10]
  }

  function Part(key: string, value: string, end: string): string { " " + key + ":" + (value + end) }

  /** The five fields of a line, as they stand between the bars. */
  function Parts(f: Format, currency: string, line: PoLine): seq<string> {
    ["LINE" + ":" + (line.number + " "), Part("QTY", f.show(line.quantity), " "), Part("UNIT_PRICE", f.show(line.price), " "),
     Part("CURRENCY", currency, " "), Part("PROMISED_DATE", DateText(line), "")]
  }

  function PrintLine(f: Format, currency: string, line: PoLine): string {
    Join(Parts(f, currency, line), '|')
  }

  function PrintLines(f: Format, currency: string, lines: seq<PoLine>): seq<string> {
    if lines == [] then [] else PrintLines(f, currency, lines[..|lines| - 1]) + [PrintLine(f, currency, lines[|lines| - 1])]
  }

  function PrintBlock(f: Format, order: string, currency: string, lines: seq<PoLine>): string {
    Join([OPENING, "PO:" + order] + PrintLines(f, currency, lines) + [CLOSING], '\n')
  }

  // ---- the fields of a row

  function IndexOfChar(s: string, c: char): Option<nat> {
    if s == [] then None
    else if s[0] == c then Some(0)
    else
      var rest := IndexOfChar(s[1..], c);
      if rest.None? then None else Some(rest.value + 1)
  }

  lemma {:induction false} CharFoundAfter(before: string, c: char, rest: string)
    requires c !in before
    ensures IndexOfChar(before + [c] + rest, c) == Some(|before|)
  {
    var s := before + [c] + rest;
    if before != [] {
      assert s[1..] == before[1..] + [c] + rest;
      CharFoundAfter(before[1..], c, rest);
    }
  }

  function CharFound(s: string, c: char): (r: Option<nat>)
    ensures r.Some? ==> r.value < |s|
  {
    CharFoundIsThere(s, c);
    IndexOfChar(s, c)
  }

  lemma CharFoundIsThere(s: string, c: char)
    ensures IndexOfChar(s, c).Some? ==> IndexOfChar(s, c).value < |s|
  {
  }

  datatype Field = Field(key: string, value: string)

  function FieldOf(part: string): Field {
    var i := CharFound(part, ':');
    if i.None? then Field("", "") else Field(Upper(Trim(part[..i.value])), Trim(part[i.value + 1..]))
  }

  /** A later part replaces an earlier one with the same key. */
  function FieldsOf(parts: seq<string>): map<string, string> {
    if parts == [] then map[]
    else
      var field := FieldOf(parts[|parts| - 1]);
      FieldsOf(parts[..|parts| - 1])[field.key := field.value]
  }

  function Get(fields: map<string, string>, key: string): Option<string> {
    if key in fields then Some(fields[key]) else None
  }

  predicate IsDigit(c: char) { '0' <= c <= '9' }

  predicate DateShaped(s: string) {
    |s| == 10 && s[4] == '-' && s[7] == '-' && forall i :: 0 <= i < 10 && i != 4 && i != 7 ==> IsDigit(s[i])
  }

  // ---- one row of the block

  function Key(number: string): string { Lower(Trim(number)) }

  /** The last line with this number: the map is filled in order. */
  function LineOf(poLines: seq<PoLine>, key: string): Option<nat> {
    if poLines == [] then None
    else if Key(poLines[|poLines| - 1].number) == key then Some(|poLines| - 1) else LineOf(poLines[..|poLines| - 1], key)
  }

  function KeyList(poLines: seq<PoLine>): (keys: seq<string>)
    ensures |keys| == |poLines| && forall i :: 0 <= i < |keys| ==> keys[i] == Key(poLines[i].number)
  {
    if poLines == [] then [] else KeyList(poLines[..|poLines| - 1]) + [Key(poLines[|poLines| - 1].number)]
  }

  function Keys(poLines: seq<PoLine>): set<string> { Elements(KeyList(poLines)) }

  lemma {:induction false} LineOfFinds(poLines: seq<PoLine>, key: string)
    ensures LineOf(poLines, key).Some? <==> key in Keys(poLines)
    ensures LineOf(poLines, key).Some? ==>
              LineOf(poLines, key).value < |poLines| && Key(poLines[LineOf(poLines, key).value].number) == key
  {
    if poLines != [] {
      LineOfFinds(poLines[..|poLines| - 1], key);
      InFrontOrLast(KeyList(poLines));
    }
  }

  datatype RowResult = Bad(why: Parsed) | Good(key: string, line: nat, confirmed: Confirmed)

  /** The checks on one LINE row, in their order. */
  function ParseRow(f: Format, currency: string, poLines: seq<PoLine>, seen: set<string>, fields: map<string, string>): (r: RowResult)
    ensures r.Good? ==> r.line < |poLines| && LineOf(poLines, r.key) == Some(r.line) && r.key !in seen
  {
    var key := Lower(Get(fields, "LINE").GetOr(""));
    var line := LineOf(poLines, key);
    LineOfFinds(poLines, key);
    if line.None? || key in seen then Bad(UnknownOrRepeatedLine)
    else
      var quantity, price := f.read(Get(fields, "QTY").GetOr("")), f.read(Get(fields, "UNIT_PRICE").GetOr(""));
      var date := Get(fields, "PROMISED_DATE").GetOr("");
      if "QTY" !in fields || "UNIT_PRICE" !in fields || quantity.None? || quantity.value <= 0.0 || price.None? || price.value < 0.0 then Bad(BadNumber)
      else if "CURRENCY" !in fields || Upper(fields["CURRENCY"]) != Upper(currency) then Bad(OtherCurrency)
      else if !DateShaped(date) || !f.isDate(date) then Bad(BadDate)
      else Good(key, line.value, Confirmed(poLines[line.value].id, quantity.value, price.value, date))
  }

  datatype Progress = Stopped(why: Parsed) | Going(seen: set<string>, picks: seq<nat>, lines: seq<Confirmed>)

  function ParseRows(f: Format, currency: string, poLines: seq<PoLine>, rows: seq<string>): Progress {
    if rows == [] then Going({}, [], [])
    else
      var p := ParseRows(f, currency, poLines, rows[..|rows| - 1]);
      if p.Stopped? then p
      else
        match ParseRow(f, currency, poLines, p.seen, FieldsOf(Split(rows[|rows| - 1], '|')))
        case Bad(why) => Stopped(why)
        case Good(key, line, c) => Going(p.seen + {key}, p.picks + [line], p.lines + [c])
  }

  function Conclude(poLines: seq<PoLine>, p: Progress): Parsed {
    if p.Stopped? then p.why
    else if |p.lines| != |poLines| || |p.seen| != |Keys(poLines)| then NotEveryLine
    else Complete(p.lines)
  }

  // ---- finding the block in a reply

  predicate Quoted(line: string) {
    var t := Trim(line);
    (t != [] && t[0] == '>') || WroteLine(t)
  }

  predicate WordChar(c: char) { 'a' <= c <= 'z' || 'A' <= c <= 'Z' || IsDigit(c) || c == '_' }

  /** `On ... wrote:` */
  predicate WroteLine(t: string) {
    9 <= |t| && Lower(t[..2]) == "on" && !WordChar(t[2]) && !WordChar(t[|t| - 7]) && Lower(t[|t| - 6..]) == "wrote:"
  }

  function Count(s: string, c: char): nat {
    if s != [] && s[0] == c then 1 + Count(s[1..], c) else 0
  }

  function CountBack(s: string, c: char): nat {
    if s != [] && s[|s| - 1] == c then 1 + CountBack(s[..|s| - 1], c) else 0
  }

  /** Two or more marks, a phrase, two or more marks. */
  predicate Ruled(t: string, mark: char, phrase: string) {
    var a, b := Count(t, mark), CountBack(t, mark);
    2 <= a && 2 <= b && a + b <= |t| && Lower(Trim(t[a..|t| - b])) == phrase
  }

  /** The words "original mail" in Chinese. */
  const ORIGINAL_MAIL := "\U{539F}\U{59CB}\U{90AE}\U{4EF6}"

  predicate Separator(line: string) {
    var t := Trim(line);
    Ruled(t, '-', ORIGINAL_MAIL) || Ruled(t, '-', "original message") || Ruled(t, '_', ORIGINAL_MAIL)
  }

  function Until(lines: seq<string>, stop: string -> bool): seq<string> {
    if lines == [] || stop(lines[0]) then [] else [lines[0]] + Until(lines[1..], stop)
  }

  /** A carriage return, with or without a line feed, is one line break. */
  function Breaks(s: string): string {
    if s == [] then []
    else if s[0] != '\r' then [s[0]] + Breaks(s[1..])
    else if |s| > 1 && s[1] == '\n' then ['\n'] + Breaks(s[2..])
    else ['\n'] + Breaks(s[1..])
  }

  /** The length of a space entity at the start of the text, or nothing. */
  function EntityLength(s: string): Option<nat> {
    if |s| >= 6 && Lower(s[..6]) == "&nbsp;" then Some(6)
    else if |s| >= 6 && s[..6] == "&#160;" then Some(6)
    else if |s| >= 5 && s[..5] == "&#32;" then Some(5)
    else if |s| >= 3 && Lower(s[..3]) == "&#x" then
      var zeros := Count(s[3..], '0');
      if 3 + zeros + 3 <= |s| && (Lower(s[3 + zeros..3 + zeros + 3]) == "a0;" || s[3 + zeros..3 + zeros + 3] == "20;") then Some(6 + zeros) else None
    else None
  }

  function Unescape(s: string): string {
    if s == [] then []
    else
      var n := EntityLength(s);
      if n.Some? && 0 < n.value <= |s| then [' '] + Unescape(s[n.value..]) else [s[0]] + Unescape(s[1..])
  }

  function ReplyLines(body: string): seq<string> {
    var current := Trim(Join(Until(Split(Breaks(Unescape(body)), '\n'), Separator), '\n'));
    Until(Split(current, '\n'), Quoted)
  }

  /** The lines after the first opening marker that stands alone on its line. */
  function AfterOpening(lines: seq<string>): Option<seq<string>> {
    if lines == [] then None
    else if TrimRight(lines[0]) == OPENING || TrimRight(lines[0]) == OPENING_WITHOUT_BRACKET then Some(lines[1..])
    else AfterOpening(lines[1..])
  }

  function NonEmpty(rows: seq<string>): seq<string> {
    if rows == [] then []
    else
      var front, last := NonEmpty(rows[..|rows| - 1]), Trim(rows[|rows| - 1]);
      if last == [] then front else front + [last]
  }

  /** The trimmed, non-empty rows of the block. */
  function BlockRows(body: string): Option<seq<string>> {
    var after := AfterOpening(ReplyLines(body));
    if after.None? then None
    else
      var text := Join(after.value, '\n');
      var end := IndexOf(text, CLOSING);
      if end.None? then None
      else
        FoundIsThere(text, CLOSING);
        Some(NonEmpty(Split(Trim(text[..end.value]), '\n')))
  }

  /** The key, any spaces and a colon. */
  predicate StartsWith(row: string, key: string) {
    |key| <= |row| && Upper(row[..|key|]) == key && TrimLeft(row[|key|..]) != [] && TrimLeft(row[|key|..])[0] == ':'
  }

  function Only(rows: seq<string>, key: string): seq<string> {
    if rows == [] then []
    else
      var front, last := Only(rows[..|rows| - 1], key), rows[|rows| - 1];
      if StartsWith(last, key) then front + [last] else front
  }

  function OrderNamed(row: string): string {
    var i := CharFound(row, ':');
    if i.None? then Lower(Trim(row)) else Lower(Trim(row[i.value + 1..]))
  }

  function Parse(f: Format, body: string, order: string, currency: string, poLines: seq<PoLine>): Parsed {
    var rows := BlockRows(body);
    if rows.None? then NoBlock
    else
      var named := Only(rows.value, "PO");
      if named == [] || OrderNamed(named[0]) != Lower(Trim(order)) then OtherOrder
      else Conclude(poLines, ParseRows(f, currency, poLines, Only(rows.value, "LINE")))
  }

  /** The parser's loop over the rows, with the results and the numbers seen so far. */
  method ParseLines(f: Format, currency: string, poLines: seq<PoLine>, rows: seq<string>)
    returns (stop: Option<Parsed>, parsed: seq<Confirmed>, seen: set<string>, ghost picks: seq<nat>)
    ensures ParseRows(f, currency, poLines, rows) == if stop.Some? then Stopped(stop.value) else Going(seen, picks, parsed)
  {
    parsed, seen, picks := [], {}, [];
    for i := 0 to |rows|
      invariant ParseRows(f, currency, poLines, rows[..i]) == Going(seen, picks, parsed)
    {
      assert rows[..i + 1][..i] == rows[..i];
      var fields := FieldsOf(Split(rows[i], '|'));
      match ParseRow(f, currency, poLines, seen, fields) {
        case Bad(why) =>
          StoppedStays(f, currency, poLines, rows, i + 1);
          return Some(why), parsed, seen, picks;
        case Good(key, line, confirmed) =>
          parsed, seen, picks := parsed + [confirmed], seen + {key}, picks + [line];
      }
    }
    assert rows[..|rows|] == rows;
    stop := None;
  }

  method ParseConfirmation(f: Format, body: string, order: string, currency: string, poLines: seq<PoLine>) returns (result: Parsed)
    ensures result == Parse(f, body, order, currency, poLines)
  {
    var rows := BlockRows(body);
    if rows.None? {
      return NoBlock;
    }
    var named := Only(rows.value, "PO");
    if named == [] || OrderNamed(named[0]) != Lower(Trim(order)) {
      return OtherOrder;
    }
    var stop, parsed, seen, _ := ParseLines(f, currency, poLines, Only(rows.value, "LINE"));
    if stop.Some? {
      return stop.value;
    }
    if |parsed| != |poLines| || |seen| != |Keys(poLines)| {
      return NotEveryLine;
    }
    return Complete(parsed);
  }

  lemma {:induction false} StoppedStays(f: Format, currency: string, poLines: seq<PoLine>, rows: seq<string>, i: nat)
    requires i <= |rows| && ParseRows(f, currency, poLines, rows[..i]).Stopped?
    ensures ParseRows(f, currency, poLines, rows) == ParseRows(f, currency, poLines, rows[..i])
    decreases |rows|
  {
    if i < |rows| {
      assert rows[..|rows| - 1][..i] == rows[..i];
      StoppedStays(f, currency, poLines, rows[..|rows| - 1], i);
    } else {
      assert rows[..i] == rows;
    }
  }
}
