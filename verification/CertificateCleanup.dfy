/** Clean-up of the certificate table: marking versus purging. */
module CertificateCleanup {
  import opened AcmeTables
  import opened Binding

  /** A row as the clean-up reads it. `created` is None when the creation date cannot be
      parsed; the row is then skipped. */
  datatype Row = Row(cert: string, raw: string, csr: string, created: Option<int>, issueUts: int, expireUts: int)

  const REMOVED := "removed by"
  const MARK_PREFIX := "removed by certificates.cleanup() on "
  const TWO_WEEKS := 14 * 86400

  predicate PartAt(s: string, part: string, i: int) {
    0 <= i <= |s| - |part| && s[i..i + |part|] == part
  }

  predicate Contains(s: string, part: string) {
    exists i :: 0 <= i <= |s| && PartAt(s, part, i)
  }

  predicate Marked(row: Row) {
    row.cert != "" && Contains(Lower(row.cert), REMOVED)
  }

  /** The text that replaces a certificate. */
  function MarkText(date: string): string {
    MARK_PREFIX + date
  }

  /** What one run decides about a row: keep it, or clear it with these dates. */
  datatype Verdict = Keep | Clear(issueUts: int, expireUts: int)

  /** `dates` reads issue and expiry from a certificate, 0 when it cannot. */
  function Check(row: Row, t: int, purge: bool, dates: string -> (int, int)): Verdict {
    if Marked(row) then
      if purge then Clear(row.issueUts, row.expireUts) else Keep
    else if row.expireUts != 0 then Clear(row.issueUts, row.expireUts)
    else if row.raw != "" then
      var d := dates(row.raw);
      if 0 < d.1 < t then Clear(d.0, d.1) else Keep
    else if row.csr != "" then
      if row.created.Some? && 0 < row.created.value < t - TWO_WEEKS then Clear(row.issueUts, row.expireUts) else Keep
    else Clear(row.issueUts, row.expireUts)
  }

  /** A run only looks at rows that the store's comparison returns. */
  predicate Hit(row: Row, t: int, purge: bool, dates: string -> (int, int)) {
    row.expireUts <= t && Check(row, t, purge, dates).Clear?
  }

  function MarkedRow(row: Row, t: int, date: string, dates: string -> (int, int)): Row
    requires Hit(row, t, false, dates)
  {
    var v := Check(row, t, false, dates);
    row.(cert := MarkText(date), issueUts := v.issueUts, expireUts := v.expireUts)
  }

  function AfterMark(rows: map<string, Row>, t: int, date: string, dates: string -> (int, int)): map<string, Row> {
    map k | k in rows :: if Hit(rows[k], t, false, dates) then MarkedRow(rows[k], t, date, dates) else rows[k]
  }

  function AfterPurge(rows: map<string, Row>, t: int, dates: string -> (int, int)): map<string, Row> {
    map k | k in rows && !Hit(rows[k], t, true, dates) :: rows[k]
  }

  /** How far a run over the rows found is: those of `done` are handled. */
  ghost predicate CleanedSoFar(before: map<string, Row>, rows: map<string, Row>, done: seq<string>, report: seq<string>,
                               t: int, purge: bool, date: string, dates: string -> (int, int)) {
    && (forall k :: k in report <==> k in done && k in before && Hit(before[k], t, purge, dates))
    && (forall k, j | 0 <= k < j < |report| :: report[k] != report[j])
    && (forall k :: k in rows <==> k in before && !(purge && k in report))
    && (forall k | k in rows :: rows[k] == if k in report then MarkedRow(before[k], t, date, dates) else before[k])
  }

  lemma OneMoreCleaned(before: map<string, Row>, rows: map<string, Row>, done: seq<string>, report: seq<string>,
                       t: int, purge: bool, date: string, dates: string -> (int, int), k: string)
    requires CleanedSoFar(before, rows, done, report, t, purge, date, dates) && k !in done && k in before
    ensures k in rows && rows[k] == before[k]
    ensures !Hit(before[k], t, purge, dates) ==>
              CleanedSoFar(before, rows, done + [k], report, t, purge, date, dates)
    ensures Hit(before[k], t, purge, dates) ==>
              var after := if purge then rows - {k} else rows[k := MarkedRow(before[k], t, date, dates)];
              CleanedSoFar(before, after, done + [k], report + [k], t, purge, date, dates)
  {
  }

  // ---------- the clean-up as the code runs it ----------

  class CertificateManager {
    var rows: map<string, Row>
    const dates: string -> (int, int)

    constructor (rows: map<string, Row>, dates: string -> (int, int))
      ensures this.rows == rows && this.dates == dates
    {
      this.rows := rows;
      this.dates := dates;
    }

    method SearchExpiredCertificates(t: int) returns (names: seq<string>)
      ensures forall k :: k in names <==> k in rows && rows[k].expireUts <= t
      ensures forall i, j | 0 <= i < j < |names| :: names[i] != names[j]
    {
      names := [];
      var todo := rows.Keys;
      while todo != {}
        invariant todo <= rows.Keys
        invariant forall k | k in names :: k !in todo
        invariant forall k | k !in todo :: k in names <==> k in rows && rows[k].expireUts <= t
        invariant forall i, j | 0 <= i < j < |names| :: names[i] != names[j]
        decreases |todo|
      {
        var k :| k in todo;
        if rows[k].expireUts <= t {
          names := names + [k];
        }
        todo := todo - {k};
      }
    }

    /** The check of one row; dates found in the certificate go into the row read. */
    method CheckInvalidation(row: Row, t: int, purge: bool) returns (clear: bool, read: Row)
      ensures clear <==> Check(row, t, purge, dates).Clear?
      ensures clear ==> read == row.(issueUts := Check(row, t, purge, dates).issueUts,
                                     expireUts := Check(row, t, purge, dates).expireUts)
    {
      clear, read := false, row;
      if Marked(row) {
        clear := purge;
      } else if row.expireUts == 0 {
        if row.raw != "" {
          var d := dates(row.raw);
          if 0 < d.1 < t {
            read := row.(issueUts := d.0, expireUts := d.1);
            clear := true;
          }
        } else if row.csr != "" {
          // an enrollment may still be in flight for two weeks
          clear := row.created.Some? && 0 < row.created.value < t - TWO_WEEKS;
        } else {
          clear := true;
        }
      } else {
        clear := true;
      }
    }

    method CleanupCertificates(timestamp: int, now: int, purge: bool, date: string) returns (report: seq<string>)
      modifies this
      ensures var t := if timestamp == 0 then now else timestamp;
              && rows == (if purge then AfterPurge(old(rows), t, dates) else AfterMark(old(rows), t, date, dates))
              && forall k :: k in report <==> k in old(rows) && Hit(old(rows)[k], t, purge, dates)
      ensures forall i, j | 0 <= i < j < |report| :: report[i] != report[j]
    {
      var t := if timestamp == 0 then now else timestamp;
      var found := SearchExpiredCertificates(t);
      report := [];
      var i := 0;
      while i < |found|
        invariant i <= |found|
        invariant CleanedSoFar(old(rows), rows, found[..i], report, t, purge, date, dates)
      {
        var k := found[i];
        assert k in found;
        OneMoreCleaned(old(rows), rows, found[..i], report, t, purge, date, dates, k);
        assert found[..i + 1] == found[..i] + [k];
        var clear, read := CheckInvalidation(rows[k], t, purge);
        if clear {
          report := report + [k];
          if purge {
            rows := rows - {k};
          } else {
            rows := rows[k := rows[k].(cert := MarkText(date), raw := read.raw,
                                       issueUts := read.issueUts, expireUts := read.expireUts)];
          }
        }
        i := i + 1;
      }
      assert found[..|found|] == found;
    }
  }

  // ---------- marking first changes nothing in the end ----------

  lemma MarkTextIsMarked(row: Row, date: string)
    requires row.cert == MarkText(date)
    ensures Marked(row)
  {
    var low := Lower(row.cert);
    assert row.cert[..|REMOVED|] == REMOVED;
    forall i | 0 <= i < |REMOVED| ensures low[i] == REMOVED[i] {
      assert row.cert[i] == REMOVED[i];
    }
    assert low[0..0 + |REMOVED|] == REMOVED;
    assert PartAt(low, REMOVED, 0);
  }

  /** What a marking run at t1 clears, a purge at t2 >= t1 would have cleared, and it
      still clears it after the marking. */
  lemma MarkedIsPurged(row: Row, t1: int, t2: int, date: string, dates: string -> (int, int))
    requires t1 <= t2 && Hit(row, t1, false, dates)
    ensures Hit(row, t2, true, dates) && Hit(MarkedRow(row, t1, date, dates), t2, true, dates)
  {
    MarkTextIsMarked(MarkedRow(row, t1, date, dates), date);
  }

  /** A marking clean-up at t1 and then a purge at t2 >= t1 leave the very rows that the
      purge alone leaves. */
  lemma MarkThenPurge(rows: map<string, Row>, t1: int, t2: int, date: string, dates: string -> (int, int))
    requires t1 <= t2
    ensures AfterPurge(AfterMark(rows, t1, date, dates), t2, dates) == AfterPurge(rows, t2, dates)
  {
    var marked := AfterMark(rows, t1, date, dates);
    forall k | k in rows
      ensures Hit(marked[k], t2, true, dates) <==> Hit(rows[k], t2, true, dates)
      ensures !Hit(rows[k], t2, true, dates) ==> marked[k] == rows[k]
    {
      if Hit(rows[k], t1, false, dates) {
        MarkedIsPurged(rows[k], t1, t2, date, dates);
      }
    }
    assert AfterPurge(marked, t2, dates).Keys == AfterPurge(rows, t2, dates).Keys;
  }

  /** A second marking run at the same time reports nothing and changes nothing. */
  lemma MarkingTwice(rows: map<string, Row>, t: int, date: string, later: string, dates: string -> (int, int))
    ensures var marked := AfterMark(rows, t, date, dates);
            && (forall k | k in marked :: !Hit(marked[k], t, false, dates))
            && AfterMark(marked, t, later, dates) == marked
  {
    var marked := AfterMark(rows, t, date, dates);
    forall k | k in marked ensures !Hit(marked[k], t, false, dates) {
      if Hit(rows[k], t, false, dates) {
        MarkTextIsMarked(marked[k], date);
      }
    }
    assert AfterMark(marked, t, later, dates).Keys == marked.Keys;
  }

  /** Neither run touches an unmarked row whose known expiry - in the table or in the
      certificate - is not past, or a row with a CSR and no certificate that is younger
      than two weeks; and marking never drops a row. */
  lemma LiveRowsStay(rows: map<string, Row>, k: string, t: int, date: string, dates: string -> (int, int))
    requires k in rows && !Marked(rows[k])
    requires
      || rows[k].expireUts > t
      || (rows[k].expireUts == 0 && rows[k].raw != "" && dates(rows[k].raw).1 >= t)
      || (rows[k].expireUts == 0 && rows[k].raw == "" && rows[k].csr != ""
          && rows[k].created.Some? && rows[k].created.value >= t - TWO_WEEKS)
    ensures k in AfterPurge(rows, t, dates) && AfterPurge(rows, t, dates)[k] == rows[k]
    ensures AfterMark(rows, t, date, dates)[k] == rows[k]
    ensures AfterMark(rows, t, date, dates).Keys == rows.Keys
  {
  }

  /** What goes, row by row: of the rows whose expiry in the table is past or unknown, a purge
      removes - and a marking run overwrites, unless it did so before - those with a known expiry,
      those whose certificate says that it has expired, CSR rows older than two weeks, and rows
      with neither certificate nor CSR. */
  lemma ExpiredRowsGo(rows: map<string, Row>, k: string, t: int, date: string, dates: string -> (int, int))
    requires k in rows
    ensures var row := rows[k];
            var marked := row.cert != "" && Contains(Lower(row.cert), "removed by");
            var read := row.expireUts == 0 && row.raw != "";
            var over :=
              && row.expireUts <= t
              && (row.expireUts != 0
                  || (if row.raw != "" then 0 < dates(row.raw).1 < t
                      else row.csr != "" ==> row.created.Some? && 0 < row.created.value < t - 1209600));
            && (k in AfterPurge(rows, t, dates) <==> !(over || (marked && row.expireUts <= t)))
            && (k in AfterPurge(rows, t, dates) ==> AfterPurge(rows, t, dates)[k] == row)
            && k in AfterMark(rows, t, date, dates)
            && AfterMark(rows, t, date, dates)[k] ==
                 if over && !marked then
                   Row("removed by certificates.cleanup() on " + date, row.raw, row.csr, row.created,
                       if read then dates(row.raw).0 else row.issueUts,
                       if read then dates(row.raw).1 else row.expireUts)
                 else row
  {
  }
}
