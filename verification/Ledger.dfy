/** The append-only ledger and the balance derived from it (src/services/ledger.service.ts). */
module Ledger {
  import opened Wrappers
  import opened Money
  import opened Tables

  datatype LedgerError = AmountNotPositive | WrongDirection

  function DirectionOf(kind: EntryType): Direction {
    if kind in {DuePaymentCredit, ManualCredit, PayoutReversal} then Credit else Debit
  }

  /** Two entries one of the unique keys would not let stand together; a null never conflicts. */
  predicate SameKey(a: Entry, b: Entry) {
    && a.kind == b.kind
    && ((a.tag.duePaymentId.Some? && a.tag.duePaymentId == b.tag.duePaymentId)
        || (a.tag.payoutId.Some? && a.tag.payoutId == b.tag.payoutId))
  }

  predicate Conflicts(ledger: seq<Entry>, e: Entry) {
    exists k :: 0 <= k < |ledger| && SameKey(ledger[k], e)
  }

  ghost predicate KeysUnique(ledger: seq<Entry>) {
    forall i, j {:trigger SameKey(ledger[i], ledger[j])} :: 0 <= i < j < |ledger| ==> !SameKey(ledger[i], ledger[j])
  }

  /** The ledger after an accepted write: a replayed key changes nothing. */
  function Post(ledger: seq<Entry>, e: Entry): seq<Entry> {
    if Conflicts(ledger, e) then ledger else ledger + [e]
  }

  predicate Acceptable(e: Entry) {
    IsSafeInteger(e.amountKobo) && 0 < e.amountKobo && e.direction == DirectionOf(e.kind)
  }

  method AppendLedgerEntry(db: Database, entry: Entry) returns (r: Result<bool, LedgerError>)
    modifies db`ledger
    ensures r == Err(AmountNotPositive) <==> entry.amountKobo <= 0 || entry.amountKobo > 9_007_199_254_740_991
    ensures r == Err(WrongDirection) <==>
      && 0 < entry.amountKobo <= 9_007_199_254_740_991
      && entry.direction != if entry.kind in {DuePaymentCredit, ManualCredit, PayoutReversal} then Credit else Debit
    ensures r == Ok(false) ==> exists k ::
      && 0 <= k < |old(db.ledger)| && old(db.ledger)[k].kind == entry.kind
      && ((entry.tag.duePaymentId.Some? && old(db.ledger)[k].tag.duePaymentId == entry.tag.duePaymentId)
          || (entry.tag.payoutId.Some? && old(db.ledger)[k].tag.payoutId == entry.tag.payoutId))
    ensures r == Ok(true) ==> forall k :: 0 <= k < |old(db.ledger)| && old(db.ledger)[k].kind == entry.kind ==>
      && (entry.tag.duePaymentId.Some? ==> old(db.ledger)[k].tag.duePaymentId != entry.tag.duePaymentId)
      && (entry.tag.payoutId.Some? ==> old(db.ledger)[k].tag.payoutId != entry.tag.payoutId)
    ensures db.ledger == if r == Ok(true) then old(db.ledger) + [entry] else old(db.ledger)
    ensures r.Ok? <==> Acceptable(entry)
    ensures r.Ok? ==> db.ledger == Post(old(db.ledger), entry)
  {
    if !IsSafeInteger(entry.amountKobo) || entry.amountKobo <= 0 {
      return Err(AmountNotPositive);
    }
    if DirectionOf(entry.kind) != entry.direction {
      return Err(WrongDirection);
    }
    var inserted := !Conflicts(db.ledger, entry);
    if inserted {
      db.ledger := db.ledger + [entry];
    }
    return Ok(inserted);
  }

  /** Writing twice is writing once, and no write ever breaks the unique keys. */
  lemma PostIsIdempotent(ledger: seq<Entry>, e: Entry)
    requires KeysUnique(ledger)
    ensures KeysUnique(Post(ledger, e))
    ensures e.tag.duePaymentId.Some? || e.tag.payoutId.Some? ==> Post(Post(ledger, e), e) == Post(ledger, e)
  {
    var l := Post(ledger, e);
    if !Conflicts(ledger, e) {
      forall i, j | 0 <= i < j < |l| ensures !SameKey(l[i], l[j]) {
        if j == |ledger| { assert l[i] == ledger[i]; }
      }
      if e.tag.duePaymentId.Some? || e.tag.payoutId.Some? {
        assert SameKey(l[|ledger|], e);
      }
    }
  }

  // ------------------------------------------------------------------ balances

  function Signed(e: Entry): int {
    if e.direction.Credit? then e.amountKobo else -e.amountKobo
  }

  /** What an entry adds to the net of the entries a query selects. */
  function Weight(e: Entry, q: Entry -> bool): int { if q(e) then Signed(e) else 0 }

  /** Credits minus debits over the entries a query selects. */
  function Net(ledger: seq<Entry>, q: Entry -> bool): int {
    if ledger == [] then 0
    else Net(ledger[..|ledger| - 1], q) + Weight(ledger[|ledger| - 1], q)
  }

  /** Queries that only look at whose money an entry moves. */
  function On(t: Tag -> bool): Entry -> bool { (e: Entry) => t(e.tag) }

  function InSpace(s: SpaceId): Tag -> bool { (t: Tag) => t.spaceId == s }

  function OfDue(s: SpaceId, d: Option<DueId>): Tag -> bool { (t: Tag) => t.spaceId == s && t.dueId == d }

  function OfPayout(p: PayoutId): Tag -> bool { (t: Tag) => t.payoutId == Some(p) }

  function SpaceBalance(ledger: seq<Entry>, s: SpaceId): int { Net(ledger, On(InSpace(s))) }

  function DueNet(ledger: seq<Entry>, s: SpaceId, d: DueId): int { Net(ledger, On(OfDue(s, Some(d)))) }

  /** What the entries that name no due come to. */
  function DuelessNet(ledger: seq<Entry>, s: SpaceId): int { Net(ledger, On(OfDue(s, None))) }

  function PayoutNet(ledger: seq<Entry>, p: PayoutId): int { Net(ledger, On(OfPayout(p))) }

  lemma NetAppend(ledger: seq<Entry>, e: Entry, q: Entry -> bool)
    ensures Net(ledger + [e], q) == Net(ledger, q) + Weight(e, q)
  {
    assert (ledger + [e])[..|ledger|] == ledger;
  }

  lemma {:induction false} NetConcat(a: seq<Entry>, b: seq<Entry>, q: Entry -> bool)
    ensures Net(a + b, q) == Net(a, q) + Net(b, q)
  {
    if b == [] {
      assert a + b == a;
    } else {
      assert (a + b)[..|a + b| - 1] == a + b[..|b| - 1];
      NetConcat(a, b[..|b| - 1], q);
    }
  }

  /** The order of the entries does not matter to any total. */
  lemma {:induction false} NetPermutes(a: seq<Entry>, b: seq<Entry>, q: Entry -> bool)
    requires multiset(a) == multiset(b)
    ensures Net(a, q) == Net(b, q)
  {
    if a == [] {
      assert |multiset(b)| == 0;
    } else {
      var e := a[|a| - 1];
      assert a == a[..|a| - 1] + [e];
      assert e in multiset(b);
      var k :| 0 <= k < |b| && b[k] == e;
      var rest := b[..k] + b[k + 1..];
      assert b == b[..k] + [e] + b[k + 1..];
      assert multiset(rest) == multiset(b) - multiset{e};
      assert multiset(a[..|a| - 1]) == multiset(a) - multiset{e};
      NetPermutes(a[..|a| - 1], rest, q);
      NetConcat(b[..k] + [e], b[k + 1..], q);
      NetAppend(b[..k], e, q);
      NetConcat(b[..k], b[k + 1..], q);
    }
  }
}
