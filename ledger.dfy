/** The movements collection (MovementRepository) as a sequence in store order, and the
    queries and writes the service makes on it. */
module Ledger {
  import opened Wrappers
  import opened Entities

  /** Some stored movement has this id. */
  predicate HasId(l: seq<Movement>, id: string) {
    exists i :: 0 <= i < |l| && l[i].id == Some(id)
  }

  /** The store's invariant: every document has an id, and no two share one. */
  ghost predicate WellKeyed(l: seq<Movement>) {
    && (forall i :: 0 <= i < |l| ==> l[i].id.Some?)
    && (forall i, j :: 0 <= i < j < |l| ==> l[i].id != l[j].id)
  }

  /** findById. */
  function FindById(l: seq<Movement>, id: string): (r: Option<Movement>)
    ensures r.Some? <==> HasId(l, id)
    ensures r.Some? ==> r.value in l && r.value.id == Some(id)
  {
    if l == [] then None
    else if l[0].id == Some(id) then Some(l[0])
    else
      var r := FindById(l[1..], id);
      assert HasId(l, id) ==> HasId(l[1..], id) by {
        if HasId(l, id) {
          var i :| 0 <= i < |l| && l[i].id == Some(id);
          assert l[1..][i - 1] == l[i];
        }
      }
      r
  }

  /** Every document with this id replaced by `m`, the others kept in place. */
  function ReplaceById(l: seq<Movement>, id: string, m: Movement): (r: seq<Movement>)
    ensures |r| == |l|
    ensures forall i :: 0 <= i < |l| ==> r[i] == if l[i].id == Some(id) then m else l[i]
  {
    if l == [] then []
    else [if l[0].id == Some(id) then m else l[0]] + ReplaceById(l[1..], id, m)
  }

  /** What `repository.save` leaves behind, and the document it returns. */
  datatype Saved = Saved(ledger: seq<Movement>, stored: Movement)

  /** repository.save: a movement without id is inserted under the id the store generates
      (`newId`); one with an id replaces the document with that id, or is inserted. */
  function Persist(l: seq<Movement>, m: Movement, newId: string): (r: Saved)
    ensures r.stored == m.(id := r.stored.id) && r.stored.id.Some?
    ensures m.id.Some? ==> r.stored.id == m.id
    ensures m.id.None? ==> r.stored.id == Some(newId)
    ensures r.stored in r.ledger
    ensures |r.ledger| == |l| + (if m.id.Some? && HasId(l, m.id.value) then 0 else 1)
    ensures forall i :: 0 <= i < |l| ==> r.ledger[i] == (if m.id.Some? && l[i].id == m.id then m else l[i])
    ensures |r.ledger| > |l| ==> r.ledger[|l|] == r.stored
  {
    if m.id.None? then
      var stored := m.(id := Some(newId));
      Saved(l + [stored], stored)
    else if HasId(l, m.id.value) then
      Saved(ReplaceById(l, m.id.value, m), m)
    else
      Saved(l + [m], m)
  }

  lemma ReplaceKeepsWellKeyed(l: seq<Movement>, id: string, m: Movement)
    requires WellKeyed(l) && m.id == Some(id)
    ensures WellKeyed(ReplaceById(l, id, m))
  {
    var r := ReplaceById(l, id, m);
    assert forall i :: 0 <= i < |l| ==> r[i].id == l[i].id;
  }

  lemma AppendKeepsWellKeyed(l: seq<Movement>, m: Movement)
    requires WellKeyed(l) && m.id.Some? && !HasId(l, m.id.value)
    ensures WellKeyed(l + [m])
  {
    var r := l + [m];
    forall i, j | 0 <= i < j < |r| ensures r[i].id != r[j].id {
      if j == |l| {
        assert r[i] == l[i];
      }
    }
  }

  /** Saving keeps the store well keyed when the generated id is unused. */
  lemma PersistKeepsWellKeyed(l: seq<Movement>, m: Movement, newId: string)
    requires WellKeyed(l) && !HasId(l, newId)
    ensures WellKeyed(Persist(l, m, newId).ledger)
  {
    if m.id.None? {
      AppendKeepsWellKeyed(l, m.(id := Some(newId)));
    } else if HasId(l, m.id.value) {
      ReplaceKeepsWellKeyed(l, m.id.value, m);
    } else {
      AppendKeepsWellKeyed(l, m);
    }
  }

  /** saveAll of two new documents under two distinct unused ids keeps the store well keyed. */
  lemma AppendPairKeepsWellKeyed(l: seq<Movement>, a: Movement, b: Movement)
    requires WellKeyed(l) && a.id.Some? && b.id.Some? && a.id != b.id
    requires !HasId(l, a.id.value) && !HasId(l, b.id.value)
    ensures WellKeyed(l + [a, b])
  {
    AppendKeepsWellKeyed(l, a);
    assert forall i :: 0 <= i < |l| ==> (l + [a])[i] == l[i];
    assert !HasId(l + [a], b.id.value);
    AppendKeepsWellKeyed(l + [a], b);
    assert l + [a] + [b] == l + [a, b];
  }

  /** A movement counted by findByProductIdAndDateAfter(productId, start): on the product,
      and dated strictly after `start` (a null date never matches). */
  predicate CountedSince(m: Movement, productId: string, start: LocalDateTime) {
    m.productId == Some(productId) && m.date.Some? && IsLater(m.date.value, start)
  }

  /** findByProductIdAndDateAfter(productId, start).count(). */
  function CountSince(l: seq<Movement>, productId: string, start: LocalDateTime): (r: nat)
    ensures r <= |l|
    ensures r == 0 <==> forall i :: 0 <= i < |l| ==> !CountedSince(l[i], productId, start)
  {
    if l == [] then 0
    else (if CountedSince(l[0], productId, start) then 1 else 0) + CountSince(l[1..], productId, start)
  }

  /** The count over a store is the sum of the counts over its parts. */
  lemma {:induction false} CountSinceAppend(a: seq<Movement>, b: seq<Movement>, productId: string, start: LocalDateTime)
    ensures CountSince(a + b, productId, start) == CountSince(a, productId, start) + CountSince(b, productId, start)
  {
    if a == [] {
      assert a + b == b;
    } else {
      assert (a + b)[1..] == a[1..] + b;
      CountSinceAppend(a[1..], b, productId, start);
    }
  }

  /** `!date.isBefore(from) && !date.isAfter(to)`. */
  predicate InDateRange(d: LocalDate, from: LocalDate, to: LocalDate) {
    !IsBefore(d, from) && !IsBefore(to, d)
  }

  /** A movement the range query keeps. */
  predicate InProductRange(m: Movement, productId: string, from: LocalDate, to: LocalDate) {
    m.productId == Some(productId) && m.date.Some? && InDateRange(m.date.value.date, from, to)
  }

  /** What the range query's stream emits: the items, and whether it ended in an error
      (a product movement with a null date makes `getDate().toLocalDate()` throw). */
  datatype Scan = Scan(items: seq<Movement>, failed: bool)

  /** findByProductId(productId) filtered to the movements dated from `from` to `to`,
      both days included, in store order; the stream stops at a null-dated movement. */
  function RangeScan(l: seq<Movement>, productId: string, from: LocalDate, to: LocalDate): (r: Scan)
    ensures forall m :: m in r.items ==> m in l && InProductRange(m, productId, from, to)
    ensures r.failed <==> exists i :: 0 <= i < |l| && l[i].productId == Some(productId) && l[i].date.None?
  {
    if l == [] then Scan([], false)
    else if l[0].productId != Some(productId) then
      var r := RangeScan(l[1..], productId, from, to);
      ShiftExists(l, productId);
      r
    else if l[0].date.None? then Scan([], true)
    else
      var rest := RangeScan(l[1..], productId, from, to);
      ShiftExists(l, productId);
      if InDateRange(l[0].date.value.date, from, to) then Scan([l[0]] + rest.items, rest.failed)
      else rest
  }

  /** The null-date condition on a non-empty store, reduced to its tail when the head is dated. */
  lemma ShiftExists(l: seq<Movement>, productId: string)
    requires l != [] && (l[0].productId != Some(productId) || l[0].date.Some?)
    ensures (exists i :: 0 <= i < |l| && l[i].productId == Some(productId) && l[i].date.None?)
        <==> (exists i :: 0 <= i < |l[1..]| && l[1..][i].productId == Some(productId) && l[1..][i].date.None?)
  {
    if exists i :: 0 <= i < |l| && l[i].productId == Some(productId) && l[i].date.None? {
      var i :| 0 <= i < |l| && l[i].productId == Some(productId) && l[i].date.None?;
      assert l[1..][i - 1] == l[i];
    }
  }

  /** When every movement of the product is dated, the query completes and returns
      exactly the product's movements in the date range. */
  lemma {:induction false} RangeScanExact(l: seq<Movement>, productId: string, from: LocalDate, to: LocalDate)
    requires forall i :: 0 <= i < |l| && l[i].productId == Some(productId) ==> l[i].date.Some?
    ensures !RangeScan(l, productId, from, to).failed
    ensures forall m :: m in RangeScan(l, productId, from, to).items <==> m in l && InProductRange(m, productId, from, to)
  {
    if l != [] {
      assert forall i :: 0 <= i < |l[1..]| ==> l[1..][i] == l[i + 1];
      RangeScanExact(l[1..], productId, from, to);
      assert forall m :: m in l <==> m == l[0] || m in l[1..] by {
        assert l == [l[0]] + l[1..];
      }
    }
  }

  /** The query keeps store order: over a concatenation whose first part completes, it
      emits the first part's items followed by the second part's. */
  lemma {:induction false} RangeScanAppend(a: seq<Movement>, b: seq<Movement>, productId: string, from: LocalDate, to: LocalDate)
    requires !RangeScan(a, productId, from, to).failed
    ensures RangeScan(a + b, productId, from, to)
         == Scan(RangeScan(a, productId, from, to).items + RangeScan(b, productId, from, to).items,
                 RangeScan(b, productId, from, to).failed)
  {
    if a == [] {
      assert a + b == b;
    } else {
      assert (a + b)[1..] == a[1..] + b;
      assert (a + b)[0] == a[0];
      RangeScanAppend(a[1..], b, productId, from, to);
      if a[0].productId == Some(productId) && InDateRange(a[0].date.value.date, from, to) {
        assert [a[0]] + (RangeScan(a[1..], productId, from, to).items + RangeScan(b, productId, from, to).items)
            == ([a[0]] + RangeScan(a[1..], productId, from, to).items) + RangeScan(b, productId, from, to).items;
      }
    }
  }
}
