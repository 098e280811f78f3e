/** Choosing a stored certificate instead of asking the CA again. */
module CertificateReuse {
  import opened AcmeTables

  /** One hit of the search for certificates of the same CSR. `created` is None when the
      creation date cannot be parsed. */
  datatype Found = Found(
    cert: string,
    raw: string,
    account: string,
    created: Option<int>,
    issueUts: int,
    expireUts: int)

  /** The same account, a certificate that is stored, inside the reuse window, unexpired.
      An unreadable creation date counts as the epoch. */
  predicate Eligible(row: Found, account: string, now: int, window: int) {
    && row.raw != "" && row.cert != ""
    && account != "" && row.account == account
    && now - window <= (if row.created.Some? then row.created.value else 0)
    && now <= row.expireUts
  }

  /** The order of the scan: newest issue time first, earlier hits first among equals. */
  predicate Ahead(rows: seq<Found>, i: nat, j: nat)
    requires i < |rows| && j < |rows|
  {
    rows[i].issueUts > rows[j].issueUts || (rows[i].issueUts == rows[j].issueUts && i < j)
  }

  /** `order` lists the first n positions of the search result, each once, in scan order. */
  ghost predicate Sorted(rows: seq<Found>, order: seq<nat>, n: nat) {
    && n <= |rows|
    && (forall i :: i in order <==> 0 <= i < n)
    && (forall a | 0 <= a < |order| :: order[a] < n)
    && (forall a, b | 0 <= a < b < |order| :: Ahead(rows, order[a], order[b]))
  }

  /** Stable sort by issue time, descending. */
  method SortByIssueTime(rows: seq<Found>) returns (order: seq<nat>)
    ensures Sorted(rows, order, |rows|)
  {
    order := [];
    var n := 0;
    while n < |rows|
      invariant Sorted(rows, order, n)
    {
      var k := |order|;
      while k > 0 && rows[order[k - 1]].issueUts < rows[n].issueUts
        invariant 0 <= k <= |order|
        invariant forall b | k <= b < |order| :: Ahead(rows, n, order[b])
        decreases k
      {
        k := k - 1;
      }
      Inserted(rows, order, n, k);
      order := order[..k] + [n] + order[k..];
      n := n + 1;
    }
  }

  lemma Inserted(rows: seq<Found>, order: seq<nat>, n: nat, k: nat)
    requires n < |rows| && Sorted(rows, order, n) && k <= |order|
    requires forall b | k <= b < |order| :: Ahead(rows, n, order[b])
    requires k > 0 ==> rows[order[k - 1]].issueUts >= rows[n].issueUts
    ensures Sorted(rows, order[..k] + [n] + order[k..], n + 1)
  {
    var longer := order[..k] + [n] + order[k..];
    forall i ensures i in longer <==> 0 <= i < n + 1 {
      assert order == order[..k] + order[k..];
      assert i in longer <==> i in order || i == n;
    }
    forall a | 0 <= a < k ensures Ahead(rows, order[a], n) {
      assert a < k - 1 ==> Ahead(rows, order[a], order[k - 1]);
      assert order[a] in order;
    }
  }

  /** Nothing is reused exactly when no hit is eligible. Otherwise an eligible hit with the
      latest issue time of all eligible ones is, the earliest such in the search result. */
  method CheckReusability(rows: seq<Found>, account: string, now: int, window: int) returns (picked: Option<nat>)
    ensures picked.None? <==> forall i | 0 <= i < |rows| :: !Eligible(rows[i], account, now, window)
    ensures picked.Some? ==>
              && picked.value < |rows| && Eligible(rows[picked.value], account, now, window)
              && forall i | 0 <= i < |rows| && Eligible(rows[i], account, now, window) && i != picked.value ::
                   Ahead(rows, picked.value, i)
    // what is picked is a stored certificate of the same account, young enough and not expired,
    // and no such certificate was issued later
    ensures picked.Some? ==>
              && picked.value < |rows|
              && var row := rows[picked.value];
              && row.account == account && account != "" && row.cert != "" && row.raw != "" && row.expireUts >= now
              && (row.created.Some? ==> now - row.created.value <= window) && (row.created.None? ==> now <= window)
    ensures forall i | 0 <= i < |rows| ::
              var row := rows[i];
              row.account == account && account != "" && row.cert != "" && row.raw != "" && row.expireUts >= now
              && (row.created.Some? ==> now - row.created.value <= window) && (row.created.None? ==> now <= window) ==>
                && picked.Some? && picked.value < |rows|
                && (rows[picked.value].issueUts > row.issueUts
                    || (rows[picked.value].issueUts == row.issueUts && picked.value <= i))
  {
    var order := SortByIssueTime(rows);
    picked := None;
    var a := 0;
    while a < |order|
      invariant a <= |order|
      invariant forall b | 0 <= b < a :: !Eligible(rows[order[b]], account, now, window)
    {
      var row := rows[order[a]];
      var created := if row.created.Some? then row.created.value else 0;
      if row.raw != "" && row.cert != "" && account != "" && row.account == account
         && now - window <= created && now <= row.expireUts {
        picked := Some(order[a]);
        break;
      }
      a := a + 1;
    }
    FirstIsBest(rows, order, a, account, now, window);
  }

  lemma FirstIsBest(rows: seq<Found>, order: seq<nat>, a: nat, account: string, now: int, window: int)
    requires Sorted(rows, order, |rows|) && a <= |order|
    requires forall b | 0 <= b < a :: !Eligible(rows[order[b]], account, now, window)
    ensures a == |order| ==> forall i | 0 <= i < |rows| :: !Eligible(rows[i], account, now, window)
    ensures a < |order| ==>
              forall i | 0 <= i < |rows| && Eligible(rows[i], account, now, window) && i != order[a] ::
                Ahead(rows, order[a], i)
  {
    forall i | 0 <= i < |rows| && Eligible(rows[i], account, now, window)
      ensures exists b :: a <= b < |order| && order[b] == i
    {
      assert i in order;
      var b :| 0 <= b < |order| && order[b] == i;
      assert b >= a;
    }
  }
}
