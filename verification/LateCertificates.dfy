/** Certificates that arrive after the finalize request: the polling job and the trigger
    callback of the CA. */
module LateCertificates {
  import opened AcmeTables
  import OrderMachine

  /** One answer to a poll. */
  datatype PollAnswer = Raises | Says(cert: string, raw: string, rejected: bool)

  /** A certificate row and the order it belongs to. */
  type Hit = (string, string)

  /** Which writes of a callback fail, by the number of the hit they are for. */
  datatype Losses = Losses(store: nat -> bool, order: nat -> bool)

  predicate OrderHit(hits: seq<Hit>, o: string, lost: nat -> bool) {
    exists i :: 0 <= i < |hits| && hits[i].1 == o && !lost(i)
  }

  predicate CertHit(hits: seq<Hit>, k: string, lost: nat -> bool) {
    exists i :: 0 <= i < |hits| && hits[i].0 == k && !lost(i)
  }

  /** The upsert of the trigger names no dates, and the store then resets them to 0. */
  function WithBundle(row: CertRow, bundle: string, raw: string): CertRow {
    row.(cert := bundle, raw := raw, issueUts := 0, expireUts := 0)
  }

  /** The rows after the first hits were stored. */
  function OrdersAfter(orders: map<string, OrderRow>, hits: seq<Hit>, lost: nat -> bool): map<string, OrderRow> {
    map o | o in orders :: if OrderHit(hits, o, lost) then orders[o].(status := Valid) else orders[o]
  }

  function CertsAfter(certs: map<string, CertRow>, hits: seq<Hit>, bundle: string, raw: string, lost: nat -> bool)
    : map<string, CertRow>
  {
    map k | k in certs :: if CertHit(hits, k, lost) then WithBundle(certs[k], bundle, raw) else certs[k]
  }

  function Stored(db: Tables, hits: seq<Hit>, bundle: string, raw: string, lost: Losses): Tables {
    db.(orders := OrdersAfter(db.orders, hits, lost.order),
        certs := CertsAfter(db.certs, hits, bundle, raw, lost.store))
  }

  /** One more hit: the certificate is stored, then the order marked. */
  function StoredHit(db: Tables, hit: Hit, bundle: string, raw: string, storeLost: bool, orderLost: bool): Tables {
    var stored := if storeLost then db else StoreCert(db, hit.0, bundle, raw, 0, 0);
    if orderLost then stored else SetOrder(stored, hit.1, Valid)
  }

  lemma OneMoreOrder(orders: map<string, OrderRow>, done: seq<Hit>, hit: Hit, lost: nat -> bool)
    ensures var before := OrdersAfter(orders, done, lost);
            OrdersAfter(orders, done + [hit], lost)
              == if hit.1 in orders && !lost(|done|) then before[hit.1 := before[hit.1].(status := Valid)] else before
  {
    forall o ensures OrderHit(done + [hit], o, lost) <==> OrderHit(done, o, lost) || (hit.1 == o && !lost(|done|)) {
      HitsGrow(done, hit, lost, o);
    }
  }

  lemma OneMoreCert(certs: map<string, CertRow>, done: seq<Hit>, hit: Hit, bundle: string, raw: string,
                    lost: nat -> bool)
    ensures var before := CertsAfter(certs, done, bundle, raw, lost);
            CertsAfter(certs, done + [hit], bundle, raw, lost)
              == if hit.0 in certs && !lost(|done|) then before[hit.0 := WithBundle(before[hit.0], bundle, raw)]
                 else before
  {
    forall k ensures CertHit(done + [hit], k, lost) <==> CertHit(done, k, lost) || (hit.0 == k && !lost(|done|)) {
      HitsGrow(done, hit, lost, k);
    }
  }

  lemma HitsGrow(done: seq<Hit>, hit: Hit, lost: nat -> bool, x: string)
    ensures OrderHit(done + [hit], x, lost) <==> OrderHit(done, x, lost) || (hit.1 == x && !lost(|done|))
    ensures CertHit(done + [hit], x, lost) <==> CertHit(done, x, lost) || (hit.0 == x && !lost(|done|))
  {
    var all := done + [hit];
    assert all[|done|] == hit && forall i | 0 <= i < |done| :: all[i] == done[i];
  }

  lemma OneMoreStored(db: Tables, done: seq<Hit>, hit: Hit, bundle: string, raw: string, lost: Losses)
    ensures Stored(db, done + [hit], bundle, raw, lost)
              == StoredHit(Stored(db, done, bundle, raw, lost), hit, bundle, raw,
                           lost.store(|done|), lost.order(|done|))
  {
    OneMoreOrder(db.orders, done, hit, lost.order);
    OneMoreCert(db.certs, done, hit, bundle, raw, lost.store);
  }

  lemma NothingStored(db: Tables, bundle: string, raw: string, lost: Losses)
    ensures Stored(db, [], bundle, raw, lost) == db
  {
    assert OrdersAfter(db.orders, [], lost.order) == db.orders;
    assert CertsAfter(db.certs, [], bundle, raw, lost.store) == db.certs;
  }

  function AfterPoll(db: Tables, k: string, o: string, answer: PollAnswer, issue: int, expire: int,
                     storeLost: bool, orderLost: bool): Tables
  {
    if answer.Raises? then db
    else if answer.cert != "" then
      var stored := if storeLost then db else StoreCert(db, k, answer.cert, answer.raw, issue, expire);
      if orderLost then stored else SetOrder(stored, o, Valid)
    else if answer.rejected && !orderLost then SetOrder(db, o, Invalid)
    else db
  }

  /** A poll of an order in processing: the order becomes valid exactly for a certificate,
      invalid exactly for a rejection, and stays otherwise; the polled row holds the
      certificate exactly when it was handed out and stored; and no other order, row or
      table changes. */
  lemma PollDecides(db: Tables, k: string, o: string, answer: PollAnswer, issue: int, expire: int,
                    storeLost: bool, orderLost: bool)
    requires HasStatus(db, o, Processing) && k in db.certs && db.certs[k].order == o && db.certs[k].cert == ""
    ensures var e := AfterPoll(db, k, o, answer, issue, expire, storeLost, orderLost);
            && (HasStatus(e, o, Valid) <==> answer.Says? && answer.cert != "" && !orderLost)
            && (HasStatus(e, o, Invalid) <==> answer.Says? && answer.cert == "" && answer.rejected && !orderLost)
            && (HasStatus(e, o, Processing) <==> !HasStatus(e, o, Valid) && !HasStatus(e, o, Invalid))
            && k in e.certs && (e.certs[k].cert != "" <==> answer.Says? && answer.cert != "" && !storeLost)
            && (forall x | x in db.orders && x != o :: x in e.orders && e.orders[x] == db.orders[x])
            && (forall x | x in db.certs && x != k :: x in e.certs && e.certs[x] == db.certs[x])
            && e.authzs == db.authzs && e.challenges == db.challenges
  {
  }

  class CertificateWriter {
    var db: Tables
    const c: OrderMachine.Config

    constructor (c: OrderMachine.Config, db: Tables)
      ensures this.c == c && this.db == db
    {
      this.c := c;
      this.db := db;
    }

    /** All rows of orders in processing whose CSR has the key of the certificate. */
    method CertnameLookup(raw: string) returns (hits: seq<Hit>)
      ensures forall h :: h in hits <==> OrderMachine.TriggerHit(c, db, raw, h)
      ensures forall h: Hit :: h in hits <==>
                && h.0 in db.certs && db.certs[h.0].order == h.1
                && h.1 in db.orders && db.orders[h.1].status == Processing
                && db.certs[h.0].csr != "" && c.sameKey(db.certs[h.0].csr, raw)
    {
      hits := [];
      var todo := db.certs.Keys;
      while todo != {}
        invariant todo <= db.certs.Keys
        invariant forall h :: h in hits <==> h.0 !in todo && OrderMachine.TriggerHit(c, db, raw, h)
        decreases |todo|
      {
        var k :| k in todo;
        var row := db.certs[k];
        if row.order in db.orders && db.orders[row.order].status == Processing {
          if row.csr != "" && c.sameKey(row.csr, raw) {
            hits := hits + [(k, row.order)];
          }
        }
        todo := todo - {k};
      }
    }

    /** Stores the certificate under one hit, then marks its order. Where a write fails the
        other one is tried all the same. */
    method StoreHit(hit: Hit, bundle: string, raw: string, storeLost: bool, orderLost: bool)
      modifies this
      ensures db == StoredHit(old(db), hit, bundle, raw, storeLost, orderLost)
    {
      var (k, o) := hit;
      if k in db.certs && !storeLost {
        db := db.(certs := db.certs[k := WithBundle(db.certs[k], bundle, raw)]);
      }
      if o in db.orders && !orderLost {
        db := db.(orders := db.orders[o := db.orders[o].(status := Valid)]);
      }
    }

    /** Every order whose row was hit becomes valid, every row that was hit holds the
        certificate, and nothing else changes, up to the writes that fail. */
    method CertStore(bundle: string, raw: string, lost: Losses) returns (code: nat, hits: seq<Hit>)
      modifies this
      ensures forall h :: h in hits <==> OrderMachine.TriggerHit(c, old(db), raw, h)
      ensures db == Stored(old(db), hits, bundle, raw, lost)
      ensures code == if hits != [] then 200 else 400
      ensures bundle != "" && (forall i :: !lost.store(i) && !lost.order(i)) ==>
                forall o | o in db.orders && db.orders[o] != old(db).orders[o] ::
                  HasStatus(old(db), o, Processing) && HasStatus(db, o, Valid) && HasCertificate(db, o)
      ensures db.authzs == old(db).authzs && db.challenges == old(db).challenges
      ensures db.certs.Keys == old(db).certs.Keys && db.orders.Keys == old(db).orders.Keys
      // a row that changes has a CSR with the key of the certificate and an order in processing,
      // and it changes to this certificate, without dates
      ensures forall k | k in db.certs && db.certs[k] != old(db).certs[k] ::
                var row := old(db).certs[k];
                && row.csr != "" && c.sameKey(row.csr, raw)
                && row.order in old(db).orders && old(db).orders[row.order].status == Processing
                && db.certs[k] == CertRow(row.order, row.csr, bundle, raw, 0, 0, row.created)
      // an order that changes has such a row: one whose rows all have another key stays
      ensures forall o | o in db.orders && db.orders[o] != old(db).orders[o] ::
                && old(db).orders[o].status == Processing && db.orders[o] == old(db).orders[o].(status := Valid)
                && exists k :: k in old(db).certs && old(db).certs[k].order == o
                     && old(db).certs[k].csr != "" && c.sameKey(old(db).certs[k].csr, raw)
      // and unless writes fail every such row gets it, and its order is valid
      ensures (forall i :: !lost.store(i) && !lost.order(i)) ==>
                forall k | k in old(db).certs ::
                  var row := old(db).certs[k];
                  row.csr != "" && c.sameKey(row.csr, raw)
                  && row.order in old(db).orders && old(db).orders[row.order].status == Processing ==>
                    && db.certs[k] == CertRow(row.order, row.csr, bundle, raw, 0, 0, row.created)
                    && db.orders[row.order].status == Valid
    {
      hits := CertnameLookup(raw);
      NothingStored(db, bundle, raw, lost);
      assert hits[..0] == [];
      var i := 0;
      while i < |hits|
        invariant i <= |hits|
        invariant db == Stored(old(db), hits[..i], bundle, raw, lost)
      {
        OneMoreStored(old(db), hits[..i], hits[i], bundle, raw, lost);
        assert hits[..i + 1] == hits[..i] + [hits[i]];
        StoreHit(hits[i], bundle, raw, lost.store(i), lost.order(i));
        i := i + 1;
      }
      assert hits[..|hits|] == hits;
      code := if hits != [] then 200 else 400;
      if bundle != "" && forall i :: !lost.store(i) && !lost.order(i) {
        HitOrdersHaveIt(old(db), db, c, hits, bundle, raw, lost);
      }
      ChangedRowsAreHits(old(db), c, hits, bundle, raw, lost);
      if forall i :: !lost.store(i) && !lost.order(i) {
        HitRowsChange(old(db), c, hits, bundle, raw, lost);
      }
    }

    /** What each answer and each failing write comes to is stated by PollDecides, and the
        run of the polling process by PollIsARun. */
    method PollCertificateStatus(k: string, o: string, answer: PollAnswer, issue: int, expire: int,
                                 storeLost: bool, orderLost: bool) returns (stored: bool)
      modifies this
      ensures db == AfterPoll(old(db), k, o, answer, issue, expire, storeLost, orderLost)
      // the row holds what was handed out, with its own dates, and the order is marked
      ensures db == old(db).(orders := db.orders, certs := db.certs)
      ensures db.certs ==
                if answer.Says? && answer.cert != "" && !storeLost && k in old(db).certs then
                  var row := old(db).certs[k];
                  old(db).certs[k := CertRow(row.order, row.csr, answer.cert, answer.raw, issue, expire, row.created)]
                else old(db).certs
      ensures db.orders ==
                if answer.Says? && (answer.cert != "" || answer.rejected) && !orderLost && o in old(db).orders then
                  old(db).orders[o := old(db).orders[o].(status := if answer.cert != "" then Valid else Invalid)]
                else old(db).orders
      ensures stored <==> answer.Says? && answer.cert != "" && !storeLost
      ensures k in old(db).certs && old(db).certs[k].order == o
              && HasStatus(db, o, Valid) && !HasStatus(old(db), o, Valid) ==>
                storeLost || HasCertificate(db, o)
    {
      stored := false;
      if answer.Raises? {
        return;
      }
      if answer.cert != "" {
        if !storeLost {
          db := StoreCert(db, k, answer.cert, answer.raw, issue, expire);
          stored := true;
        }
        if !orderLost {
          db := SetOrder(db, o, Valid);
        }
        assert k in db.certs && db.certs[k].order == o && db.certs[k].cert != "" ==> HasCertificate(db, o);
      } else if answer.rejected && !orderLost {
        db := SetOrder(db, o, Invalid);
      }
    }
  }

  lemma HitOrdersHaveIt(d: Tables, e: Tables, c: OrderMachine.Config, hits: seq<Hit>, bundle: string, raw: string,
                        lost: Losses)
    requires e == Stored(d, hits, bundle, raw, lost) && bundle != "" && forall i :: !lost.store(i) && !lost.order(i)
    requires forall h :: h in hits <==> OrderMachine.TriggerHit(c, d, raw, h)
    ensures forall o | o in e.orders && e.orders[o] != d.orders[o] ::
              HasStatus(d, o, Processing) && HasStatus(e, o, Valid) && HasCertificate(e, o)
  {
    forall o | o in e.orders && e.orders[o] != d.orders[o]
      ensures HasStatus(d, o, Processing) && HasStatus(e, o, Valid) && HasCertificate(e, o)
    {
      var i :| 0 <= i < |hits| && hits[i].1 == o;
      assert hits[i] in hits && !lost.store(i) && !lost.order(i);
      var k := hits[i].0;
      assert CertHit(hits, k, lost.store);
      assert e.certs[k].order == o && e.certs[k].cert != "";
    }
  }

  /** What the list of hits is, written out. */
  ghost predicate AllHits(d: Tables, c: OrderMachine.Config, raw: string, hits: seq<Hit>) {
    forall h: Hit :: h in hits <==>
      && h.0 in d.certs && d.certs[h.0].order == h.1 && h.1 in d.orders && d.orders[h.1].status == Processing
      && d.certs[h.0].csr != "" && c.sameKey(d.certs[h.0].csr, raw)
  }

  lemma ChangedRowsAreHits(d: Tables, c: OrderMachine.Config, hits: seq<Hit>, bundle: string, raw: string,
                           lost: Losses)
    requires AllHits(d, c, raw, hits)
    ensures var e := Stored(d, hits, bundle, raw, lost);
            && e.certs.Keys == d.certs.Keys && e.orders.Keys == d.orders.Keys
            && (forall k | k in e.certs && e.certs[k] != d.certs[k] ::
                  var row := d.certs[k];
                  && row.csr != "" && c.sameKey(row.csr, raw)
                  && row.order in d.orders && d.orders[row.order].status == Processing
                  && e.certs[k] == CertRow(row.order, row.csr, bundle, raw, 0, 0, row.created))
            && (forall o | o in e.orders && e.orders[o] != d.orders[o] ::
                  && d.orders[o].status == Processing && e.orders[o] == d.orders[o].(status := Valid)
                  && exists k :: k in d.certs && d.certs[k].order == o
                       && d.certs[k].csr != "" && c.sameKey(d.certs[k].csr, raw))
  {
    var e := Stored(d, hits, bundle, raw, lost);
    forall k | k in e.certs && e.certs[k] != d.certs[k]
      ensures (k, d.certs[k].order) in hits
    {
      var i :| 0 <= i < |hits| && hits[i].0 == k && !lost.store(i);
      assert hits[i] in hits;
    }
    forall o | o in e.orders && e.orders[o] != d.orders[o]
      ensures exists k :: (k, o) in hits
    {
      var i :| 0 <= i < |hits| && hits[i].1 == o && !lost.order(i);
      assert hits[i] in hits && hits[i] == (hits[i].0, o);
    }
  }

  lemma HitRowsChange(d: Tables, c: OrderMachine.Config, hits: seq<Hit>, bundle: string, raw: string, lost: Losses)
    requires AllHits(d, c, raw, hits) && forall i :: !lost.store(i) && !lost.order(i)
    ensures var e := Stored(d, hits, bundle, raw, lost);
            forall k | k in d.certs ::
              var row := d.certs[k];
              row.csr != "" && c.sameKey(row.csr, raw)
              && row.order in d.orders && d.orders[row.order].status == Processing ==>
                && e.certs[k] == CertRow(row.order, row.csr, bundle, raw, 0, 0, row.created)
                && e.orders[row.order].status == Valid
  {
    forall k | k in d.certs && (k, d.certs[k].order) in hits
      ensures CertHit(hits, k, lost.store) && OrderHit(hits, d.certs[k].order, lost.order)
    {
      var i :| 0 <= i < |hits| && hits[i] == (k, d.certs[k].order);
      assert !lost.store(i) && !lost.order(i);
    }
  }
}
