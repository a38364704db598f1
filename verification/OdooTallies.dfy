/**
 What the counters of an import count: `created` the rows that are new in the tables, `updated` the rows
 with a new version. And what an upsert may do to a stored row.
 */
module OdooTallies {
  import opened Basics
  import opened OdooTables
  import opened OdooImport

  function KeysOf<T>(rows: Rows<T>, kind: Kind): set<Key> {
    set k | k in rows && k.0 == kind
  }

  /** The rows that were there and have another version now. */
  function Renewed<T>(rows: Rows<T>, rows': Rows<T>, kind: Kind): set<Key> {
    set k | k in rows && k in rows' && k.0 == kind && rows'[k].version != rows[k].version
  }

  predicate Tallied<T>(before: Stat, after: Stat, rows: Rows<T>, rows': Rows<T>, kind: Kind) {
    && after.created - before.created == |KeysOf(rows', kind)| - |KeysOf(rows, kind)|
    && after.updated - before.updated == |Renewed(rows, rows', kind)|
    && after.seen == before.seen
  }

  // ---- one upsert

  lemma {:induction false} OneCount(stats: Stats, kind: Kind, o: Outcome, k: Kind)
    ensures var before, after := Of(stats, k), Of(Bump(stats, kind, o), k);
            && after.created == before.created + (if k == kind && o == Created then 1 else 0)
            && after.updated == before.updated + (if k == kind && o == Updated then 1 else 0)
            && after.untouched == before.untouched + (if k == kind && o == Unchanged then 1 else 0)
            && after.skipped == before.skipped + (if k == kind && o.Skipped? then 1 else 0)
            && after.seen == before.seen
  {
  }

  /** One row is new, one has a new version, or nothing has changed. */
  ghost predicate OneRow<T>(rows: Rows<T>, rows': Rows<T>, key: Key, o: Outcome) {
    && (o == Created ==> key !in rows && rows'.Keys == rows.Keys + {key})
    && (o == Updated ==> key in rows && rows'.Keys == rows.Keys && rows'[key].version == rows[key].version + 1)
    && (o == Unchanged || o.Skipped? ==> rows' == rows)
    && forall k :: k in rows && k != key ==> k in rows' && rows'[k] == rows[k]
  }

  lemma DocIsOneRow(rows: Rows<Doc>, c: Doc, at: int)
    ensures OneRow(rows, AfterDoc(rows, c, at), c.Key(), DocOutcome(rows, c))
  {
  }

  lemma LineIsOneRow(rows: Rows<Line>, parents: set<string>, c: Line)
    requires AfterLine(rows, parents, c).Some?
    ensures OneRow(rows, AfterLine(rows, parents, c).value, c.Key(), LineOutcome(rows, parents, c).value)
  {
  }

  lemma SameKeys<T>(rows: Rows<T>, rows': Rows<T>, kind: Kind)
    requires rows'.Keys == rows.Keys
    ensures KeysOf(rows', kind) == KeysOf(rows, kind)
  {
  }

  lemma NewKey<T>(rows: Rows<T>, rows': Rows<T>, key: Key, kind: Kind)
    requires key !in rows && rows'.Keys == rows.Keys + {key}
    ensures |KeysOf(rows', kind)| == |KeysOf(rows, kind)| + (if key.0 == kind then 1 else 0)
  {
    if key.0 == kind {
      assert KeysOf(rows', kind) == KeysOf(rows, kind) + {key} && key !in KeysOf(rows, kind);
    } else {
      assert KeysOf(rows', kind) == KeysOf(rows, kind);
    }
  }

  lemma KeysGrow<T>(rows: Rows<T>, rows': Rows<T>, key: Key, o: Outcome, kind: Kind)
    requires OneRow(rows, rows', key, o)
    ensures |KeysOf(rows', kind)| == |KeysOf(rows, kind)| + (if o == Created && key.0 == kind then 1 else 0)
  {
    if o == Created {
      NewKey(rows, rows', key, kind);
    } else {
      SameKeys(rows, rows', kind);
    }
  }

  lemma RenewedGrow<T>(rows0: Rows<T>, rows: Rows<T>, rows': Rows<T>, key: Key, o: Outcome, kind: Kind)
    requires OneRow(rows, rows', key, o) && (key in rows ==> key in rows0 && rows[key] == rows0[key])
    requires key in rows0 ==> key in rows
    ensures |Renewed(rows0, rows', kind)| == |Renewed(rows0, rows, kind)| + (if o == Updated && key.0 == kind then 1 else 0)
  {
    assert key !in Renewed(rows0, rows, kind);
    if o == Updated && key.0 == kind {
      assert Renewed(rows0, rows', kind) == Renewed(rows0, rows, kind) + {key};
    } else {
      assert Renewed(rows0, rows', kind) == Renewed(rows0, rows, kind);
    }
  }

  lemma OneTally<T>(stats0: Stats, stats: Stats, rows0: Rows<T>, rows: Rows<T>, rows': Rows<T>, key: Key, o: Outcome, kind: Kind)
    requires OneRow(rows, rows', key, o) && (key in rows <==> key in rows0) && (key in rows ==> rows[key] == rows0[key])
    requires Tallied(Of(stats0, kind), Of(stats, kind), rows0, rows, kind)
    ensures Tallied(Of(stats0, kind), Of(Bump(stats, key.0, o), kind), rows0, rows', kind)
  {
    OneCount(stats, key.0, o, kind);
    KeysGrow(rows, rows', key, o, kind);
    RenewedGrow(rows0, rows, rows', key, o, kind);
  }

  // ---- all of them

  lemma {:induction false} OtherDocsStay(rows: Rows<Doc>, cs: seq<Doc>, at: int, key: Key)
    requires forall c :: c in cs ==> c.Key() != key
    ensures var rows' := AfterDocs(rows, cs, at); (key in rows' <==> key in rows) && (key in rows ==> rows'[key] == rows[key])
  {
    if cs != [] {
      OtherDocsStay(rows, cs[..|cs| - 1], at, key);
    }
  }

  lemma {:induction false} OtherLinesStay(rows: Rows<Line>, parents: set<string>, cs: seq<Line>, key: Key)
    requires AfterLines(rows, parents, cs).Some? && forall c :: c in cs ==> c.Key() != key
    ensures var rows' := AfterLines(rows, parents, cs).value; (key in rows' <==> key in rows) && (key in rows ==> rows'[key] == rows[key])
  {
    if cs != [] {
      OtherLinesStay(rows, parents, cs[..|cs| - 1], key);
    }
  }

  lemma NothingRenewed<T>(rows: Rows<T>, kind: Kind)
    ensures |Renewed(rows, rows, kind)| == 0
  {
    assert Renewed(rows, rows, kind) == {};
  }

  /** Storing distinct documents counts exactly the new rows and the new versions, kind by kind. */
  lemma {:induction false} DocsAreTallied(stats: Stats, rows: Rows<Doc>, cs: seq<Doc>, at: int, kind: Kind)
    requires DistinctDocs(cs)
    ensures Tallied(Of(stats, kind), Of(CountedDocs(stats, rows, cs, at), kind), rows, AfterDocs(rows, cs, at), kind)
  {
    if cs == [] {
      NothingRenewed(rows, kind);
    } else {
      var front, c := cs[..|cs| - 1], cs[|cs| - 1];
      LastDocIsNew(cs);
      DocsAreTallied(stats, rows, front, at, kind);
      OtherDocsStay(rows, front, at, c.Key());
      DocIsOneRow(AfterDocs(rows, front, at), c, at);
      OneTally(stats, CountedDocs(stats, rows, front, at), rows, AfterDocs(rows, front, at), AfterDocs(rows, cs, at), c.Key(),
               DocOutcome(AfterDocs(rows, front, at), c), kind);
    }
  }

  lemma {:induction false} LinesAreTallied(stats: Stats, rows: Rows<Line>, parents: set<string>, cs: seq<Line>, kind: Kind)
    requires AfterLines(rows, parents, cs).Some? && DistinctLines(cs)
    ensures Tallied(Of(stats, kind), Of(CountedLines(stats, rows, parents, cs), kind), rows, AfterLines(rows, parents, cs).value, kind)
  {
    if cs == [] {
      NothingRenewed(rows, kind);
    } else {
      var front, c := cs[..|cs| - 1], cs[|cs| - 1];
      LastLineIsNew(cs);
      LinesAreTallied(stats, rows, parents, front, kind);
      OtherLinesStay(rows, parents, front, c.Key());
      var rows1 := AfterLines(rows, parents, front).value;
      LineIsOneRow(rows1, parents, c);
      OneTally(stats, CountedLines(stats, rows, parents, front), rows, rows1, AfterLines(rows, parents, cs).value, c.Key(),
               LineOutcome(rows1, parents, c).value, kind);
    }
  }

  /** The counters of a whole import of distinct candidates, against the two tables as its upserts leave them. */
  lemma ImportIsTallied(stats: Stats, s: Store, b: Batch, at: int, kind: Kind)
    requires DistinctDocs(b.docs) && DistinctLines(b.lines)
    requires AfterLines(s.lines, AcceptedDocs(s.docs, Stamped(b.docs, at), at), b.lines).Some?
    ensures var cs := Stamped(b.docs, at);
            var before, after := Of(stats, kind), Of(CountedImport(stats, s, b, at), kind);
            var docs, lines := AfterDocs(s.docs, cs, at), AfterLines(s.lines, AcceptedDocs(s.docs, cs, at), b.lines).value;
            && after.created - before.created
                 == |KeysOf(docs, kind)| - |KeysOf(s.docs, kind)| + |KeysOf(lines, kind)| - |KeysOf(s.lines, kind)|
            && after.updated - before.updated == |Renewed(s.docs, docs, kind)| + |Renewed(s.lines, lines, kind)|
            && after.seen == before.seen
  {
    var cs := Stamped(b.docs, at);
    DistinctStamped(b.docs, cs);
    DocsAreTallied(stats, s.docs, cs, at, kind);
    LinesAreTallied(CountedDocs(stats, s.docs, cs, at), s.lines, AcceptedDocs(s.docs, cs, at), b.lines, kind);
  }

  lemma DistinctStamped(docs: seq<Doc>, cs: seq<Doc>)
    requires DistinctDocs(docs) && |cs| == |docs| && forall i :: 0 <= i < |cs| ==> cs[i].id == docs[i].id
    ensures DistinctDocs(cs)
  {
  }
}
