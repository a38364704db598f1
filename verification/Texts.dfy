/** Splitting, joining and trimming text, as the parsers need it. */
module Texts {
  import opened Basics

  predicate IsSpace(c: char) {
    c in {' ', '\t', '\n', '\r', '\U{0B}', '\U{0C}', '\U{A0}', '\U{1680}', '\U{2028}', '\U{2029}', '\U{202F}', '\U{205F}', '\U{3000}', '\U{FEFF}'}
    || '\U{2000}' <= c <= '\U{200A}'
  }

  function TrimLeft(s: string): string {
    if s != [] && IsSpace(s[0]) then TrimLeft(s[1..]) else s
  }

  function TrimRight(s: string): string {
    if s != [] && IsSpace(s[|s| - 1]) then TrimRight(s[..|s| - 1]) else s
  }

  function Trim(s: string): string { TrimRight(TrimLeft(s)) }

  function UpperChar(c: char): char { if 'a' <= c <= 'z' then c - 'a' + 'A' else c }

  function LowerChar(c: char): char { if 'A' <= c <= 'Z' then c - 'A' + 'a' else c }

  /** Case folding of the ASCII letters. */
  function Upper(s: string): string { seq(|s|, i requires 0 <= i < |s| => UpperChar(s[i])) }

  function Lower(s: string): string { seq(|s|, i requires 0 <= i < |s| => LowerChar(s[i])) }

  function Split(s: string, c: char): (parts: seq<string>)
    ensures parts != []
  {
    if s == [] then [[]]
    else
      var front, last := Split(s[..|s| - 1], c), s[|s| - 1];
      if last == c then front + [[]] else front[..|front| - 1] + [front[|front| - 1] + [last]]
  }

  function Join(parts: seq<string>, c: char): string {
    if parts == [] then []
    else if |parts| == 1 then parts[0]
    else Join(parts[..|parts| - 1], c) + [c] + parts[|parts| - 1]
  }

  /** Text after a last separator that holds none is one more part. */
  lemma {:induction false} SplitPart(s: string, c: char, part: string)
    requires c !in part
    ensures Split(s + [c] + part, c) == Split(s, c) + [part]
  {
    var text := s + [c] + part;
    if part == [] {
      assert text[..|text| - 1] == s;
    } else {
      var front, last := part[..|part| - 1], part[|part| - 1];
      assert text[..|text| - 1] == s + [c] + front;
      SplitPart(s, c, front);
      assert front + [last] == part;
      assert (Split(s, c) + [front])[..|Split(s, c)|] == Split(s, c);
    }
  }

  lemma {:induction false} SplitNone(s: string, c: char)
    requires c !in s
    ensures Split(s, c) == [s]
  {
    if s != [] {
      SplitNone(s[..|s| - 1], c);
      assert s[..|s| - 1] + [s[|s| - 1]] == s;
    }
  }

  lemma {:induction false} SplitJoin(parts: seq<string>, c: char)
    requires parts != [] && forall p :: p in parts ==> c !in p
    ensures Split(Join(parts, c), c) == parts
  {
    if |parts| == 1 {
      SplitNone(parts[0], c);
    } else {
      var front, last := parts[..|parts| - 1], parts[|parts| - 1];
      SplitJoin(front, c);
      SplitPart(Join(front, c), c, last);
      assert front + [last] == parts;
    }
  }

  lemma {:induction false} JoinChars(parts: seq<string>, c: char, x: char)
    requires x in Join(parts, c)
    ensures x == c || exists p :: p in parts && x in p
  {
    if |parts| == 1 {
      assert parts[0] in parts;
    } else if |parts| > 1 {
      var front, last := parts[..|parts| - 1], parts[|parts| - 1];
      if x in Join(front, c) {
        JoinChars(front, c, x);
        if p :| p in front && x in p {
          assert p in parts;
        }
      } else if x in last {
        assert last in parts;
      }
    }
  }

  function IndexOf(s: string, what: string): Option<nat> {
    if |s| < |what| then None
    else if s[..|what|] == what then Some(0)
    else if s == [] then None
    else
      var rest := IndexOf(s[1..], what);
      if rest.None? then None else Some(rest.value + 1)
  }

  /** A text whose first character does not occur before is found where it was put. */
  lemma {:induction false} FoundAfter(before: string, what: string, rest: string)
    requires what != [] && what[0] !in before
    ensures IndexOf(before + what + rest, what) == Some(|before|)
  {
    var s := before + what + rest;
    if before == [] {
      assert s[..|what|] == what;
    } else {
      assert s[0] == before[0];
      assert s[1..] == before[1..] + what + rest;
      FoundAfter(before[1..], what, rest);
      assert s[..|what|][0] == before[0];
    }
  }

  lemma {:induction false} FoundIsThere(s: string, what: string)
    requires IndexOf(s, what).Some?
    ensures IndexOf(s, what).value + |what| <= |s|
  {
    if s[..|what|] != what {
      FoundIsThere(s[1..], what);
    }
  }

  // ---- trimming

  predicate Trimmed(s: string) {
    s == [] || (!IsSpace(s[0]) && !IsSpace(s[|s| - 1]))
  }

  lemma TrimTrimmed(s: string)
    requires Trimmed(s)
    ensures Trim(s) == s
  {
  }

  lemma {:induction false} TrimRightPrefix(a: string, b: string)
    requires a != [] && !IsSpace(a[|a| - 1])
    ensures TrimRight(a + b) == a + TrimRight(b)
    decreases |b|
  {
    var s := a + b;
    if b == [] {
      assert s == a;
    } else if IsSpace(b[|b| - 1]) {
      assert s[..|s| - 1] == a + b[..|b| - 1];
      TrimRightPrefix(a, b[..|b| - 1]);
    }
  }

  lemma {:induction false} TrimRightSpace(s: string, c: char)
    requires IsSpace(c)
    ensures TrimRight(s + [c]) == TrimRight(s)
  {
    assert (s + [c])[..|s|] == s;
  }

  lemma {:induction false} TrimLeftSpace(s: string, c: char)
    requires IsSpace(c)
    ensures TrimLeft([c] + s) == TrimLeft(s)
  {
    assert ([c] + s)[1..] == s;
  }

  /** The two ends can be trimmed in either order. */
  lemma {:induction false} TrimOrder(s: string)
    ensures TrimLeft(TrimRight(s)) == TrimRight(TrimLeft(s))
    decreases |s|
  {
    if s != [] && IsSpace(s[0]) {
      if IsSpace(s[|s| - 1]) {
        var t := s[..|s| - 1];
        TrimOrder(t);
        if t != [] {
          var u, middle := s[1..], s[1..|s| - 1];
          TrimOrder(u);
          TrimOrder(middle);
          assert u[..|u| - 1] == middle && t[1..] == middle;
        }
      } else {
        TrimOrder(s[1..]);
      }
    } else if s != [] {
      assert [s[0]] + s[1..] == s;
      TrimRightPrefix([s[0]], s[1..]);
    }
  }

  lemma TrimSpace(s: string, c: char)
    requires IsSpace(c)
    ensures Trim(s + [c]) == Trim(s) && Trim([c] + s) == Trim(s)
  {
    TrimOrder(s + [c]);
    TrimOrder(s);
    TrimRightSpace(s, c);
    TrimLeftSpace(s, c);
  }

  lemma TrimRightEnds(s: string)
    ensures TrimRight(s) != [] ==> !IsSpace(TrimRight(s)[|TrimRight(s)| - 1])
  {
  }

  lemma TrimLeftStarts(s: string)
    ensures TrimLeft(s) != [] ==> !IsSpace(TrimLeft(s)[0])
  {
  }

  /** Trimming leaves no space at either end, so trimming again changes nothing. */
  lemma TrimIsTrimmed(s: string)
    ensures Trimmed(Trim(s)) && Trim(Trim(s)) == Trim(s)
  {
    TrimOrder(s);
    TrimRightEnds(TrimLeft(s));
    TrimLeftStarts(TrimRight(s));
    TrimTrimmed(Trim(s));
  }
}
