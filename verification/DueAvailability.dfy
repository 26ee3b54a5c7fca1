/** How a space's balance is shared out over its dues (src/services/ledger.service.ts, getDueAvailability). */
module DueAvailability {
  import opened Wrappers
  import opened Sorting
  import opened Sums
  import opened Tables
  import opened Ledger

  datatype DueRow = DueRow(id: DueId, leadHeld: bool, createdAt: Time)

  /** The order in which dues give up money: lead-held, then by age, then by id. */
  predicate Before(a: DueRow, b: DueRow) {
    if a.leadHeld != b.leadHeld then a.leadHeld
    else if a.createdAt != b.createdAt then a.createdAt < b.createdAt
    else a.id <= b.id
  }

  lemma BeforeIsTotal()
    ensures TotalOrder(Before)
  {
  }

  predicate LeadHeld(d: Due, lead: Option<UserId>) {
    d.assignedRepId.None? || d.assignedRepId == lead
  }

  /** The space's dues among the first n. */
  function Rows(dues: seq<Due>, s: SpaceId, lead: Option<UserId>, n: nat): seq<DueRow>
    requires n <= |dues|
  {
    if n == 0 then []
    else
      var d := dues[n - 1];
      Rows(dues, s, lead, n - 1) + if d.spaceId == s then [DueRow(n - 1, LeadHeld(d, lead), d.createdAt)] else []
  }

  function SortedRows(dues: seq<Due>, s: SpaceId, lead: Option<UserId>): seq<DueRow> {
    Sort(Before, Rows(dues, s, lead, |dues|))
  }

  function Ids(rows: seq<DueRow>): (ids: seq<DueId>)
    ensures |ids| == |rows| && forall i :: 0 <= i < |ids| ==> ids[i] == rows[i].id
  {
    seq(|rows|, i requires 0 <= i < |rows| => rows[i].id)
  }

  function Order(dues: seq<Due>, s: SpaceId, lead: Option<UserId>): seq<DueId> {
    Ids(SortedRows(dues, s, lead))
  }

  function Max0(x: int): int { if x < 0 then 0 else x }

  function Nets(ledger: seq<Entry>, s: SpaceId, ids: seq<DueId>): (r: seq<int>)
    ensures |r| == |ids| && forall i :: 0 <= i < |r| ==> r[i] == DueNet(ledger, s, ids[i])
  {
    seq(|ids|, i requires 0 <= i < |ids| => DueNet(ledger, s, ids[i]))
  }

  function Owns(nets: seq<int>): (r: seq<int>)
    ensures |r| == |nets| && forall i :: 0 <= i < |r| ==> r[i] == Max0(nets[i])
  {
    seq(|nets|, i requires 0 <= i < |nets| => Max0(nets[i]))
  }

  function Debts(nets: seq<int>): (r: seq<int>)
    ensures |r| == |nets| && forall i :: 0 <= i < |r| ==> r[i] == Max0(-nets[i])
  {
    seq(|nets|, i requires 0 <= i < |nets| => Max0(-nets[i]))
  }

  /** Everything the dues must cover for each other. */
  function Deficit(dueless: int, nets: seq<int>): int { Max0(-dueless) + Sum(Debts(nets)) }

  /** What the first k dues hold together above the deficit. */
  function Level(owns: seq<int>, deficit: int, k: nat): int
    requires k <= |owns|
  {
    Max0(Sum(owns[..k]) - deficit)
  }

  /** A due can pay out what it adds to that level. */
  function Share(dueless: int, nets: seq<int>, k: nat): int
    requires k < |nets|
  {
    Level(Owns(nets), Deficit(dueless, nets), k + 1) - Level(Owns(nets), Deficit(dueless, nets), k)
  }

  function Shares(dueless: int, nets: seq<int>): (r: seq<int>)
    ensures |r| == |nets|
  {
    seq(|nets|, k requires 0 <= k < |nets| => Share(dueless, nets, k))
  }

  function IndexOf(ids: seq<DueId>, d: DueId): nat
    requires d in ids
    ensures IndexOf(ids, d) < |ids| && ids[IndexOf(ids, d)] == d
  {
    if ids[0] == d then 0 else 1 + IndexOf(ids[1..], d)
  }

  function Available(ledger: seq<Entry>, dues: seq<Due>, s: SpaceId, lead: Option<UserId>, d: DueId): int {
    var order := Order(dues, s, lead);
    if d in order then Share(DuelessNet(ledger, s), Nets(ledger, s, order), IndexOf(order, d)) else 0
  }

  /** What is left of the deficit once the first k dues have given what they hold. */
  function StillOwed(dueless: int, nets: seq<int>, k: nat): int
    requires k <= |nets|
  {
    Max0(Deficit(dueless, nets) - Sum(Owns(nets)[..k]))
  }

  lemma TakeStep(dueless: int, nets: seq<int>, k: nat, take: int)
    requires k < |nets|
    requires take == if Max0(nets[k]) < StillOwed(dueless, nets, k) then Max0(nets[k]) else StillOwed(dueless, nets, k)
    ensures StillOwed(dueless, nets, k + 1) == StillOwed(dueless, nets, k) - take
    ensures Shares(dueless, nets)[k] == Max0(nets[k]) - take
  {
    PrefixStep(Owns(nets), k);
  }

  /** The due-less outflow and every negative net, added up. */
  method AddUpDeficit(dueless: int, nets: seq<int>) returns (deficit: int)
    ensures deficit == Deficit(dueless, nets)
  {
    deficit := Max0(-dueless);
    for i := 0 to |nets|
      invariant deficit == Max0(-dueless) + Sum(Debts(nets)[..i])
    {
      PrefixStep(Debts(nets), i);
      deficit := deficit + Max0(-nets[i]);
    }
    assert Debts(nets)[..|nets|] == Debts(nets);
  }

  /** The greedy pass over the ordered dues. It is proved against the closed form `Share`:
      one due's share never mentions what the loop carried from the dues before it. */
  method SpendDown(order: seq<DueId>, dueless: int, nets: seq<int>) returns (available: map<DueId, int>)
    requires |order| == |nets| && Distinct(order)
    ensures forall d: DueId :: d in available <==> d in order
    ensures forall k :: 0 <= k < |order| ==> available[order[k]] == Shares(dueless, nets)[k]
  {
    var deficit := AddUpDeficit(dueless, nets);
    SumNonNegative(Debts(nets));
    ghost var shares := Shares(dueless, nets);
    available := map[];
    for k := 0 to |order|
      invariant deficit == StillOwed(dueless, nets, k)
      invariant forall d: DueId :: d in available <==> d in order[..k]
      invariant forall x :: 0 <= x < k ==> available[order[x]] == shares[x]
    {
      var own := Max0(nets[k]);
      var take := if own < deficit then own else deficit;
      TakeStep(dueless, nets, k, take);
      deficit := deficit - take;
      available := available[order[k] := own - take];
      assert order[..k + 1] == order[..k] + [order[k]];
    }
    assert order[..|order|] == order;
  }

  method GetDueAvailability(db: Database, s: SpaceId, lead: Option<UserId>) returns (available: map<DueId, int>)
    ensures forall d: DueId :: d in available <==> d < |db.dues| && db.dues[d].spaceId == s
    ensures forall d: DueId :: d in available ==> available[d] == Available(db.ledger, db.dues, s, lead, d)
  {
    var order := Order(db.dues, s, lead);
    OrderListsTheDues(db.dues, s, lead);
    var nets, dueless := Nets(db.ledger, s, order), DuelessNet(db.ledger, s);
    available := SpendDown(order, dueless, nets);
    forall d: DueId | d in available ensures available[d] == Available(db.ledger, db.dues, s, lead, d) {
      assert available[order[IndexOf(order, d)]] == Shares(dueless, nets)[IndexOf(order, d)];
    }
  }

  // ---------------------------------------------------------------- the order

  lemma {:induction false} RowsListTheDues(dues: seq<Due>, s: SpaceId, lead: Option<UserId>, n: nat)
    requires n <= |dues|
    ensures forall r :: r in Rows(dues, s, lead, n) <==>
      r.id < n && dues[r.id].spaceId == s && r == DueRow(r.id, LeadHeld(dues[r.id], lead), dues[r.id].createdAt)
    ensures forall i, j :: 0 <= i < j < |Rows(dues, s, lead, n)| ==> Rows(dues, s, lead, n)[i].id != Rows(dues, s, lead, n)[j].id
  {
    if n != 0 {
      RowsListTheDues(dues, s, lead, n - 1);
      var rest := Rows(dues, s, lead, n - 1);
      forall i | 0 <= i < |rest| ensures rest[i].id < n - 1 { assert rest[i] in rest; }
    }
  }

  lemma SortedRowsListTheDues(dues: seq<Due>, s: SpaceId, lead: Option<UserId>)
    ensures var rows := SortedRows(dues, s, lead);
      && Sorted(Before, rows)
      && (forall r :: r in rows <==>
           r.id < |dues| && dues[r.id].spaceId == s && r == DueRow(r.id, LeadHeld(dues[r.id], lead), dues[r.id].createdAt))
      && Distinct(rows)
  {
    var rows := Rows(dues, s, lead, |dues|);
    RowsListTheDues(dues, s, lead, |dues|);
    BeforeIsTotal();
    assert Distinct(rows);
    SortCorrect(Before, rows);
    SortKeepsDistinct(Before, rows);
  }

  /** The order lists every due of the space exactly once, and no other. */
  lemma OrderListsTheDues(dues: seq<Due>, s: SpaceId, lead: Option<UserId>)
    ensures forall d: DueId :: d in Order(dues, s, lead) <==> d < |dues| && dues[d].spaceId == s
    ensures Distinct(Order(dues, s, lead))
  {
    var rows, order := SortedRows(dues, s, lead), Order(dues, s, lead);
    SortedRowsListTheDues(dues, s, lead);
    forall d: DueId ensures d in order <==> d < |dues| && dues[d].spaceId == s {
      if d < |dues| && dues[d].spaceId == s {
        var r := DueRow(d, LeadHeld(dues[d], lead), dues[d].createdAt);
        assert r in rows;
        var i :| 0 <= i < |rows| && rows[i] == r;
        assert order[i] == d;
      }
      if d in order {
        var i :| 0 <= i < |order| && order[i] == d;
        assert rows[i] in rows;
      }
    }
    forall i, j | 0 <= i < j < |order| ensures order[i] != order[j] {
      assert rows[i] in rows && rows[j] in rows;
    }
  }

  /** Dues nobody or the lead is assigned to come before dues assigned to anyone else, and within
      each group older ones first, then smaller ids. */
  lemma OrderIsByPriority(dues: seq<Due>, s: SpaceId, lead: Option<UserId>, i: nat, j: nat)
    requires i < j < |Order(dues, s, lead)|
    ensures Order(dues, s, lead)[i] < |dues| && Order(dues, s, lead)[j] < |dues|
    ensures var x, y := Order(dues, s, lead)[i], Order(dues, s, lead)[j];
      var a, b := dues[x], dues[y];
      && (b.assignedRepId in {None, lead} ==> a.assignedRepId in {None, lead})
      && ((a.assignedRepId in {None, lead} <==> b.assignedRepId in {None, lead}) ==>
            a.createdAt < b.createdAt || (a.createdAt == b.createdAt && x < y))
  {
    var rows := SortedRows(dues, s, lead);
    SortedRowsListTheDues(dues, s, lead);
    assert rows[i] in rows && rows[j] in rows && Before(rows[i], rows[j]) && rows[i] != rows[j];
  }

  // --------------------------------------------------------- the share algebra

  lemma PrefixStep(s: seq<int>, k: nat)
    requires k < |s|
    ensures Sum(s[..k + 1]) == Sum(s[..k]) + s[k]
  {
    assert s[..k + 1][..k] == s[..k];
  }

  lemma {:induction false} PrefixMonotone(s: seq<int>, i: nat, j: nat)
    requires i <= j <= |s| && forall x :: 0 <= x < |s| ==> 0 <= s[x]
    ensures Sum(s[..i]) <= Sum(s[..j])
    decreases j
  {
    if i < j {
      PrefixMonotone(s, i, j - 1);
      PrefixStep(s, j - 1);
    }
  }

  /** A share is never negative, never more than the due itself holds, and is short of it only
      when every due before it is already down to nothing. */
  lemma ShareBounds(dueless: int, nets: seq<int>, k: nat)
    requires k < |nets|
    ensures 0 <= Share(dueless, nets, k) <= Max0(nets[k])
    ensures Share(dueless, nets, k) < Max0(nets[k]) ==> forall e :: 0 <= e < k ==> Share(dueless, nets, e) == 0
  {
    var owns := Owns(nets);
    PrefixStep(owns, k);
    forall e | 0 <= e < k && Share(dueless, nets, k) < Max0(nets[k]) ensures Share(dueless, nets, e) == 0 {
      PrefixMonotone(owns, e, k);
      PrefixMonotone(owns, e + 1, k);
    }
  }

  function SharesTotal(dueless: int, nets: seq<int>, k: nat): int
    requires k <= |nets|
  {
    if k == 0 then 0 else SharesTotal(dueless, nets, k - 1) + Share(dueless, nets, k - 1)
  }

  lemma {:induction false} SharesTelescope(dueless: int, nets: seq<int>, k: nat)
    requires k <= |nets|
    ensures SharesTotal(dueless, nets, k) == Level(Owns(nets), Deficit(dueless, nets), k)
  {
    if k == 0 {
      SumNonNegative(Debts(nets));
      assert Owns(nets)[..0] == [];
    } else {
      SharesTelescope(dueless, nets, k - 1);
    }
  }

  lemma {:induction false} OwnsLessDebts(nets: seq<int>)
    ensures Sum(Owns(nets)) - Sum(Debts(nets)) == Sum(nets)
  {
    if nets != [] {
      var front := nets[..|nets| - 1];
      OwnsLessDebts(front);
      assert Owns(nets)[..|front|] == Owns(front);
      assert Debts(nets)[..|front|] == Debts(front);
    }
  }

  // ------------------------------------------------- availability and the balance

  /** Every entry of the space is due-less or names one of the listed dues. */
  ghost predicate Covers(ledger: seq<Entry>, s: SpaceId, ids: seq<DueId>) {
    forall k :: 0 <= k < |ledger| && ledger[k].tag.spaceId == s && ledger[k].tag.dueId.Some? ==> ledger[k].tag.dueId.value in ids
  }

  /** The balance is the sum of its due-less part and each due's own part. */
  lemma {:induction false} BalanceSplitsByDue(ledger: seq<Entry>, s: SpaceId, ids: seq<DueId>)
    requires Distinct(ids) && Covers(ledger, s, ids)
    ensures SpaceBalance(ledger, s) == DuelessNet(ledger, s) + Sum(Nets(ledger, s, ids))
  {
    if ledger == [] {
      AllZero(Nets(ledger, s, ids));
    } else {
      BalanceSplitsByDue(ledger[..|ledger| - 1], s, ids);
      NetsSumGrows(ledger, s, ids);
    }
  }

  lemma SumMoves(s: seq<int>, i: nat, x: int)
    requires i < |s|
    ensures Sum(s[i := s[i] + x]) == Sum(s) + x
  {
    SumUpdate(s, i, s[i] + x);
  }

  lemma NetsSumGrows(ledger: seq<Entry>, s: SpaceId, ids: seq<DueId>)
    requires ledger != [] && Distinct(ids) && Covers(ledger, s, ids)
    ensures var n := |ledger| - 1;
      var t := ledger[n].tag;
      Sum(Nets(ledger, s, ids)) == Sum(Nets(ledger[..n], s, ids)) + if t.spaceId == s && t.dueId.Some? then Signed(ledger[n]) else 0
  {
    NetsGrow(ledger, s, ids);
    var n := |ledger| - 1;
    if ledger[n].tag.spaceId == s && ledger[n].tag.dueId.Some? {
      SumMoves(Nets(ledger[..n], s, ids), IndexOf(ids, ledger[n].tag.dueId.value), Signed(ledger[n]));
    }
  }

  /** The last entry moves the net of the due it names, if that is one of them. */
  lemma NetsGrow(ledger: seq<Entry>, s: SpaceId, ids: seq<DueId>)
    requires ledger != [] && Distinct(ids) && Covers(ledger, s, ids)
    ensures var n := |ledger| - 1;
      var t, a := ledger[n].tag, Nets(ledger[..n], s, ids);
      Nets(ledger, s, ids) ==
        if t.spaceId == s && t.dueId.Some? then
          a[IndexOf(ids, t.dueId.value) := a[IndexOf(ids, t.dueId.value)] + Signed(ledger[n])]
        else a
  {
  }

  lemma {:induction false} AllZero(s: seq<int>)
    requires forall i :: 0 <= i < |s| ==> s[i] == 0
    ensures Sum(s) == 0
  {
    if s != [] { AllZero(s[..|s| - 1]); }
  }

  function TotalAvailable(ledger: seq<Entry>, dues: seq<Due>, s: SpaceId, lead: Option<UserId>): int {
    var order := Order(dues, s, lead);
    SharesTotal(DuelessNet(ledger, s), Nets(ledger, s, order), |order|)
  }

  /** Whatever the ledger holds, the dues together can pay out the balance, less any due-less
      surplus, and never less than nothing. */
  lemma AvailabilityPartitionsBalance(ledger: seq<Entry>, dues: seq<Due>, s: SpaceId, lead: Option<UserId>)
    requires Covers(ledger, s, Order(dues, s, lead))
    ensures TotalAvailable(ledger, dues, s, lead) == Max0(SpaceBalance(ledger, s) - Max0(DuelessNet(ledger, s)))
  {
    var order := Order(dues, s, lead);
    var dueless, nets := DuelessNet(ledger, s), Nets(ledger, s, order);
    OrderListsTheDues(dues, s, lead);
    BalanceSplitsByDue(ledger, s, order);
    SharesTelescope(dueless, nets, |order|);
    OwnsLessDebts(nets);
    assert Owns(nets)[..|order|] == Owns(nets);
  }

  lemma AvailableAt(ledger: seq<Entry>, dues: seq<Due>, s: SpaceId, lead: Option<UserId>, k: nat)
    requires k < |Order(dues, s, lead)|
    ensures Available(ledger, dues, s, lead, Order(dues, s, lead)[k])
         == Share(DuelessNet(ledger, s), Nets(ledger, s, Order(dues, s, lead)), k)
  {
    var order := Order(dues, s, lead);
    OrderListsTheDues(dues, s, lead);
    assert order[k] in order;
    assert IndexOf(order, order[k]) == k;
  }

  /** The availability of each listed due, in order. */
  function Availabilities(ledger: seq<Entry>, dues: seq<Due>, s: SpaceId, lead: Option<UserId>, ids: seq<DueId>): (r: seq<int>)
    ensures |r| == |ids| && forall i :: 0 <= i < |r| ==> r[i] == Available(ledger, dues, s, lead, ids[i])
  {
    seq(|ids|, i requires 0 <= i < |ids| => Available(ledger, dues, s, lead, ids[i]))
  }

  lemma {:induction false} AvailabilitiesAddUp(ledger: seq<Entry>, dues: seq<Due>, s: SpaceId, lead: Option<UserId>, k: nat)
    requires k <= |Order(dues, s, lead)|
    ensures SharesTotal(DuelessNet(ledger, s), Nets(ledger, s, Order(dues, s, lead)), k)
         == Sum(Availabilities(ledger, dues, s, lead, Order(dues, s, lead)[..k]))
  {
    if k != 0 {
      AvailabilitiesAddUp(ledger, dues, s, lead, k - 1);
      LastShare(ledger, dues, s, lead, k - 1);
      OneMoreAvailability(ledger, dues, s, lead, Order(dues, s, lead), k - 1);
    }
  }

  lemma LastShare(ledger: seq<Entry>, dues: seq<Due>, s: SpaceId, lead: Option<UserId>, k: nat)
    requires k < |Order(dues, s, lead)|
    ensures var order := Order(dues, s, lead);
      SharesTotal(DuelessNet(ledger, s), Nets(ledger, s, order), k + 1)
      == SharesTotal(DuelessNet(ledger, s), Nets(ledger, s, order), k) + Available(ledger, dues, s, lead, order[k])
  {
    AvailableAt(ledger, dues, s, lead, k);
  }

  lemma OneMoreAvailability(ledger: seq<Entry>, dues: seq<Due>, s: SpaceId, lead: Option<UserId>, ids: seq<DueId>, k: nat)
    requires k < |ids|
    ensures Sum(Availabilities(ledger, dues, s, lead, ids[..k + 1]))
         == Sum(Availabilities(ledger, dues, s, lead, ids[..k])) + Available(ledger, dues, s, lead, ids[k])
  {
    assert Availabilities(ledger, dues, s, lead, ids[..k + 1])[..k] == Availabilities(ledger, dues, s, lead, ids[..k]);
  }

  /** The total is the sum of what each due of the space can pay out. */
  lemma TotalIsTheSum(ledger: seq<Entry>, dues: seq<Due>, s: SpaceId, lead: Option<UserId>)
    ensures TotalAvailable(ledger, dues, s, lead) == Sum(Availabilities(ledger, dues, s, lead, Order(dues, s, lead)))
  {
    var order := Order(dues, s, lead);
    AvailabilitiesAddUp(ledger, dues, s, lead, |order|);
    assert order[..|order|] == order;
  }

  lemma AvailableBounds(ledger: seq<Entry>, dues: seq<Due>, s: SpaceId, lead: Option<UserId>, d: DueId)
    ensures 0 <= Available(ledger, dues, s, lead, d) <= Max0(DueNet(ledger, s, d))
  {
    var order := Order(dues, s, lead);
    if d in order {
      ShareBounds(DuelessNet(ledger, s), Nets(ledger, s, order), IndexOf(order, d));
    }
  }

  /** A due assigned to a co-rep gives up money only once every due assigned to nobody or to the
      lead is at nothing; and within a group, a due only once every older one is. */
  lemma CoRepsAreProtected(ledger: seq<Entry>, dues: seq<Due>, s: SpaceId, lead: Option<UserId>, d: DueId, e: DueId)
    requires d < |dues| && e < |dues| && dues[d].spaceId == s && dues[e].spaceId == s
    requires Available(ledger, dues, s, lead, d) < DueNet(ledger, s, d)
    requires (dues[e].assignedRepId in {None, lead} && dues[d].assignedRepId !in {None, lead})
          || ((dues[e].assignedRepId in {None, lead} <==> dues[d].assignedRepId in {None, lead})
              && (dues[e].createdAt < dues[d].createdAt || (dues[e].createdAt == dues[d].createdAt && e < d)))
    ensures Available(ledger, dues, s, lead, e) == 0
  {
    var order := Order(dues, s, lead);
    OrderListsTheDues(dues, s, lead);
    var i, j := IndexOf(order, d), IndexOf(order, e);
    if i < j { OrderIsByPriority(dues, s, lead, i, j); }
    ShareBounds(DuelessNet(ledger, s), Nets(ledger, s, order), i);
  }

  // -------------------------------------------------------- whole-space outflows

  /** The space's dues that nobody or the lead is assigned to. */
  function LeadDues(dues: seq<Due>, s: SpaceId, lead: Option<UserId>): (ids: seq<DueId>)
    ensures forall d: DueId :: d in ids <==> d < |dues| && dues[d].spaceId == s && dues[d].assignedRepId in {None, lead}
    ensures forall i, j :: 0 <= i < j < |ids| ==> ids[i] < ids[j]
  {
    if dues == [] then []
    else
      var n := |dues| - 1;
      var front := LeadDues(dues[..n], s, lead);
      assert forall i :: 0 <= i < |front| ==> front[i] in front;
      front + if dues[n].spaceId == s && dues[n].assignedRepId in {None, lead} then [n] else []
  }

  /** What those dues can pay out together. */
  function LeadAvailable(ledger: seq<Entry>, dues: seq<Due>, s: SpaceId, lead: Option<UserId>): int {
    Sum(Availabilities(ledger, dues, s, lead, LeadDues(dues, s, lead)))
  }

  /** Of the first k dues listed, exactly the first m are such dues. */
  ghost predicate LeadFirst(dues: seq<Due>, ids: seq<DueId>, lead: Option<UserId>, m: nat, k: nat) {
    m <= k <= |ids| && forall i :: 0 <= i < k ==> ids[i] < |dues| && (dues[ids[i]].assignedRepId in {None, lead} <==> i < m)
  }

  /** They are the first of the order. */
  lemma {:induction false} LeadDuesComeFirst(dues: seq<Due>, s: SpaceId, lead: Option<UserId>, k: nat) returns (m: nat)
    requires k <= |Order(dues, s, lead)|
    ensures LeadFirst(dues, Order(dues, s, lead), lead, m, k)
  {
    OrderListsTheDues(dues, s, lead);
    if k != 0 { assert Order(dues, s, lead)[k - 1] in Order(dues, s, lead); }
    if k == 0 {
      m := 0;
    } else {
      m := LeadDuesComeFirst(dues, s, lead, k - 1);
      if dues[Order(dues, s, lead)[k - 1]].assignedRepId in {None, lead} {
        if m < k - 1 { OrderIsByPriority(dues, s, lead, m, k - 1); }
        m := k;
      }
    }
  }

  /** The order of the dues does not matter to what they come to. */
  lemma {:induction false} TotalPermutes(ledger: seq<Entry>, dues: seq<Due>, s: SpaceId, lead: Option<UserId>, a: seq<DueId>, b: seq<DueId>)
    requires multiset(a) == multiset(b)
    ensures Sum(Availabilities(ledger, dues, s, lead, a)) == Sum(Availabilities(ledger, dues, s, lead, b))
  {
    if a == [] {
      assert |multiset(b)| == 0;
    } else {
      var n, d := |a| - 1, a[|a| - 1];
      assert a == a[..n] + [d];
      assert d in multiset(b);
      var k :| 0 <= k < |b| && b[k] == d;
      TakeOut(b, k);
      TotalPermutes(ledger, dues, s, lead, a[..n], b[..k] + b[k + 1..]);
      OneMoreAvailability(ledger, dues, s, lead, a, n);
      assert a[..n + 1] == a;
      TotalWithout(ledger, dues, s, lead, b, k);
    }
  }

  lemma TakeOut(b: seq<DueId>, k: nat)
    requires k < |b|
    ensures multiset(b[..k] + b[k + 1..]) == multiset(b) - multiset{b[k]}
  {
    assert b == b[..k] + [b[k]] + b[k + 1..];
  }

  lemma TotalWithout(ledger: seq<Entry>, dues: seq<Due>, s: SpaceId, lead: Option<UserId>, b: seq<DueId>, k: nat)
    requires k < |b|
    ensures Sum(Availabilities(ledger, dues, s, lead, b))
         == Sum(Availabilities(ledger, dues, s, lead, b[..k] + b[k + 1..])) + Available(ledger, dues, s, lead, b[k])
  {
    OneLeftOut(ledger, dues, s, lead, b, k);
    SumWithout(Availabilities(ledger, dues, s, lead, b), k);
  }

  lemma OneLeftOut(ledger: seq<Entry>, dues: seq<Due>, s: SpaceId, lead: Option<UserId>, b: seq<DueId>, k: nat)
    requires k < |b|
    ensures var all, rest := Availabilities(ledger, dues, s, lead, b), Availabilities(ledger, dues, s, lead, b[..k] + b[k + 1..]);
      rest == all[..k] + all[k + 1..]
  {
  }

  /** What the first m dues of the order come to, when they are the lead's. */
  lemma LeadTotal(ledger: seq<Entry>, dues: seq<Due>, s: SpaceId, lead: Option<UserId>, m: nat)
    requires LeadFirst(dues, Order(dues, s, lead), lead, m, |Order(dues, s, lead)|)
    ensures var nets := Nets(ledger, s, Order(dues, s, lead));
      LeadAvailable(ledger, dues, s, lead) == Level(Owns(nets), Deficit(DuelessNet(ledger, s), nets), m)
  {
    var order, leads := Order(dues, s, lead), LeadDues(dues, s, lead);
    OrderListsTheDues(dues, s, lead);
    forall d: DueId ensures d in order[..m] <==> d in leads {
      if d in leads {
        assert d in order;
        var i :| 0 <= i < |order| && order[i] == d;
        assert order[..m][i] == d;
      }
      if d in order[..m] { assert d in order; }
    }
    SameMembers(order[..m], leads, dues, s, lead);
    TotalPermutes(ledger, dues, s, lead, order[..m], leads);
    AvailabilitiesAddUp(ledger, dues, s, lead, m);
    SharesTelescope(DuelessNet(ledger, s), Nets(ledger, s, order), m);
  }

  lemma SameMembers(front: seq<DueId>, leads: seq<DueId>, dues: seq<Due>, s: SpaceId, lead: Option<UserId>)
    requires Distinct(front) && leads == LeadDues(dues, s, lead)
    requires forall d: DueId :: d in front <==> d in leads
    ensures multiset(front) == multiset(leads)
  {
    DistinctIsMultiplicity(front);
    DistinctIsMultiplicity(leads);
    forall d: DueId ensures multiset(front)[d] == multiset(leads)[d] {
      assert d in multiset(front) <==> d in front;
      assert d in multiset(leads) <==> d in leads;
    }
  }

  /** An outflow that names no due is owed by the dues once it has used up any due-less surplus. */
  function OwedBeyond(dueless: int, a: int): int { Max0(a - Max0(dueless)) }

  lemma LevelOwingMore(owns: seq<int>, deficit: int, b: int, m: nat, k: nat)
    requires m <= k <= |owns| && forall x :: 0 <= x < |owns| ==> 0 <= owns[x]
    requires 0 <= b <= Level(owns, deficit, m)
    ensures Level(owns, deficit + b, k) == Level(owns, deficit, k) - b
  {
    PrefixMonotone(owns, m, k);
  }

  lemma {:induction false} SameSharesSameRise(d: int, d': int, nets: seq<int>, m: nat, k: nat)
    requires m <= k <= |nets| && forall x :: m <= x < k ==> Share(d', nets, x) == Share(d, nets, x)
    ensures SharesTotal(d', nets, k) - SharesTotal(d', nets, m) == SharesTotal(d, nets, k) - SharesTotal(d, nets, m)
    decreases k
  {
    if m < k { SameSharesSameRise(d, d', nets, m, k - 1); }
  }

  lemma OwingBeyond(dueless: int, nets: seq<int>, a: int)
    requires 0 <= a
    ensures 0 <= OwedBeyond(dueless, a) && Deficit(dueless - a, nets) == Deficit(dueless, nets) + OwedBeyond(dueless, a)
  {
  }

  lemma ShareOwingMore(dueless: int, nets: seq<int>, a: int, m: nat, k: nat)
    requires 0 <= a && m <= k < |nets| && OwedBeyond(dueless, a) <= Level(Owns(nets), Deficit(dueless, nets), m)
    ensures Share(dueless - a, nets, k) == Share(dueless, nets, k)
  {
    OwingBeyond(dueless, nets, a);
    LevelOwingMore(Owns(nets), Deficit(dueless, nets), OwedBeyond(dueless, a), m, k);
    LevelOwingMore(Owns(nets), Deficit(dueless, nets), OwedBeyond(dueless, a), m, k + 1);
  }

  /** If the first m cannot bear it, what the others can pay out in all falls. */
  lemma RiseOwingMore(dueless: int, nets: seq<int>, a: int, m: nat)
    requires 0 <= a && m <= |nets|
    requires Level(Owns(nets), Deficit(dueless, nets), m) < OwedBeyond(dueless, a) <= Level(Owns(nets), Deficit(dueless, nets), |nets|)
    ensures SharesTotal(dueless - a, nets, |nets|) - SharesTotal(dueless - a, nets, m)
          < SharesTotal(dueless, nets, |nets|) - SharesTotal(dueless, nets, m)
  {
    OwingBeyond(dueless, nets, a);
    SharesTelescope(dueless, nets, m);
    SharesTelescope(dueless, nets, |nets|);
    SharesTelescope(dueless - a, nets, m);
    SharesTelescope(dueless - a, nets, |nets|);
  }

  /** The dues after the first m are left alone exactly when the first m can bear the outflow. */
  lemma LaterSharesSpared(dueless: int, nets: seq<int>, a: int, m: nat)
    requires 0 <= a && m <= |nets| && OwedBeyond(dueless, a) <= Level(Owns(nets), Deficit(dueless, nets), |nets|)
    ensures (forall k :: m <= k < |nets| ==> Share(dueless - a, nets, k) == Share(dueless, nets, k))
       <==> OwedBeyond(dueless, a) <= Level(Owns(nets), Deficit(dueless, nets), m)
  {
    if OwedBeyond(dueless, a) <= Level(Owns(nets), Deficit(dueless, nets), m) {
      forall k | m <= k < |nets| ensures Share(dueless - a, nets, k) == Share(dueless, nets, k) {
        ShareOwingMore(dueless, nets, a, m, k);
      }
    } else {
      RiseOwingMore(dueless, nets, a, m);
      if forall k :: m <= k < |nets| ==> Share(dueless - a, nets, k) == Share(dueless, nets, k) {
        SameSharesSameRise(dueless, dueless - a, nets, m, |nets|);
      }
    }
  }

  /** The dues assigned to co-reps keep what they can pay out exactly as long as an outflow that
      names no due is within what the lead's dues can pay out and any due-less surplus. */
  lemma LeadOutflowSparesCoReps(l: seq<Entry>, l': seq<Entry>, dues: seq<Due>, s: SpaceId, lead: Option<UserId>, a: int)
    requires 0 <= a && a - Max0(DuelessNet(l, s)) <= TotalAvailable(l, dues, s, lead)
    requires DuelessNet(l', s) == DuelessNet(l, s) - a && forall x :: DueNet(l', s, x) == DueNet(l, s, x)
    ensures (forall d: DueId :: d < |dues| && dues[d].spaceId == s && dues[d].assignedRepId !in {None, lead} ==>
               Available(l', dues, s, lead, d) == Available(l, dues, s, lead, d))
       <==> a - Max0(DuelessNet(l, s)) <= LeadAvailable(l, dues, s, lead)
  {
    var m := LeadDuesComeFirst(dues, s, lead, |Order(dues, s, lead)|);
    SameNets(l, l', s, Order(dues, s, lead));
    LeadBears(l, dues, s, lead, a, m);
    CoRepsAreTheRest(l, l', dues, s, lead, m);
  }

  lemma SameNets(l: seq<Entry>, l': seq<Entry>, s: SpaceId, ids: seq<DueId>)
    requires forall x :: DueNet(l', s, x) == DueNet(l, s, x)
    ensures Nets(l', s, ids) == Nets(l, s, ids)
  {
  }

  /** The first m dues being the lead's, the shares of the others are spared exactly as said. */
  lemma LeadBears(l: seq<Entry>, dues: seq<Due>, s: SpaceId, lead: Option<UserId>, a: int, m: nat)
    requires 0 <= a && a - Max0(DuelessNet(l, s)) <= TotalAvailable(l, dues, s, lead)
    requires LeadFirst(dues, Order(dues, s, lead), lead, m, |Order(dues, s, lead)|)
    ensures var nets := Nets(l, s, Order(dues, s, lead));
      (forall k :: m <= k < |nets| ==> Share(DuelessNet(l, s) - a, nets, k) == Share(DuelessNet(l, s), nets, k))
      <==> a - Max0(DuelessNet(l, s)) <= LeadAvailable(l, dues, s, lead)
  {
    var nets, dueless := Nets(l, s, Order(dues, s, lead)), DuelessNet(l, s);
    LeadTotal(l, dues, s, lead, m);
    SharesTelescope(dueless, nets, |nets|);
    LaterSharesSpared(dueless, nets, a, m);
  }

  /** What holds of the shares after the first m holds of the dues assigned to co-reps. */
  lemma CoRepsAreTheRest(l: seq<Entry>, l': seq<Entry>, dues: seq<Due>, s: SpaceId, lead: Option<UserId>, m: nat)
    requires LeadFirst(dues, Order(dues, s, lead), lead, m, |Order(dues, s, lead)|)
    requires Nets(l', s, Order(dues, s, lead)) == Nets(l, s, Order(dues, s, lead))
    ensures var nets := Nets(l, s, Order(dues, s, lead));
      (forall d: DueId :: d < |dues| && dues[d].spaceId == s && dues[d].assignedRepId !in {None, lead} ==>
         Available(l', dues, s, lead, d) == Available(l, dues, s, lead, d))
      <==> forall k :: m <= k < |nets| ==> Share(DuelessNet(l', s), nets, k) == Share(DuelessNet(l, s), nets, k)
  {
    var order, nets := Order(dues, s, lead), Nets(l, s, Order(dues, s, lead));
    OrderListsTheDues(dues, s, lead);
    forall k | 0 <= k < |nets|
      ensures order[k] < |dues| && dues[order[k]].spaceId == s
      ensures Available(l', dues, s, lead, order[k]) == Share(DuelessNet(l', s), nets, k)
      ensures Available(l, dues, s, lead, order[k]) == Share(DuelessNet(l, s), nets, k)
    {
      assert order[k] in order;
      AvailableAt(l', dues, s, lead, k);
      AvailableAt(l, dues, s, lead, k);
    }
    forall d: DueId | d < |dues| && dues[d].spaceId == s && dues[d].assignedRepId !in {None, lead}
      ensures d in order && m <= IndexOf(order, d) < |nets| && order[IndexOf(order, d)] == d
    {
    }
  }

  // --------------------------------------------------------- non-interference

  lemma {:induction false} PrefixAfterUpdate(s: seq<int>, i: nat, x: int, k: nat)
    requires i < |s| && k <= |s|
    ensures Sum(s[i := x][..k]) == Sum(s[..k]) + if i < k then x - s[i] else 0
  {
    if i < k {
      assert s[i := x][..k] == s[..k][i := x];
      SumUpdate(s[..k], i, x);
    } else {
      assert s[i := x][..k] == s[..k];
    }
  }

  lemma SharesAfterOutflow(dueless: int, nets: seq<int>, i: nat, a: int, k: nat)
    requires i < |nets| && k < |nets| && 0 <= a <= Share(dueless, nets, i)
    ensures Share(dueless, nets[i := nets[i] - a], k) == Share(dueless, nets, k) - if k == i then a else 0
  {
    if a > 0 {
      OwnsAfterOutflow(dueless, nets, i, a);
      StepAfterOutflow(Owns(nets), Deficit(dueless, nets), i, a, k);
    } else {
      assert nets[i := nets[i] - a] == nets;
    }
  }

  lemma StepAfterOutflow(owns: seq<int>, deficit: int, i: nat, a: int, k: nat)
    requires i < |owns| && k < |owns| && forall x :: 0 <= x < |owns| ==> 0 <= owns[x]
    requires 0 < a <= Level(owns, deficit, i + 1) - Level(owns, deficit, i)
    ensures var less := owns[i := owns[i] - a];
      Level(less, deficit, k + 1) - Level(less, deficit, k)
      == Level(owns, deficit, k + 1) - Level(owns, deficit, k) - if k == i then a else 0
  {
    LevelAfterOutflow(owns, deficit, i, a, k);
    LevelAfterOutflow(owns, deficit, i, a, k + 1);
  }

  lemma OwnsAfterOutflow(dueless: int, nets: seq<int>, i: nat, a: int)
    requires i < |nets| && 0 < a <= Share(dueless, nets, i)
    ensures Owns(nets[i := nets[i] - a]) == Owns(nets)[i := Owns(nets)[i] - a]
    ensures Deficit(dueless, nets[i := nets[i] - a]) == Deficit(dueless, nets)
  {
    ShareBounds(dueless, nets, i);
    assert Debts(nets[i := nets[i] - a]) == Debts(nets);
  }

  lemma LevelAfterOutflow(owns: seq<int>, deficit: int, i: nat, a: int, k: nat)
    requires i < |owns| && k <= |owns| && forall x :: 0 <= x < |owns| ==> 0 <= owns[x]
    requires 0 < a <= Level(owns, deficit, i + 1) - Level(owns, deficit, i)
    ensures Level(owns[i := owns[i] - a], deficit, k) == Level(owns, deficit, k) - if i < k then a else 0
  {
    PrefixAfterUpdate(owns, i, owns[i] - a, k);
    if i < k { PrefixMonotone(owns, i + 1, k); }
  }

  /** Taking what a due has available out of that due lowers it by exactly that much and leaves
      every other due's availability alone. */
  lemma OutflowTouchesOneDue(l: seq<Entry>, l': seq<Entry>, dues: seq<Due>, s: SpaceId, lead: Option<UserId>, d: DueId, a: int, e: DueId)
    requires d < |dues| && dues[d].spaceId == s
    requires 0 <= a <= Available(l, dues, s, lead, d)
    requires DuelessNet(l', s) == DuelessNet(l, s)
    requires forall x :: DueNet(l', s, x) == DueNet(l, s, x) - if x == d then a else 0
    ensures Available(l', dues, s, lead, e) == Available(l, dues, s, lead, e) - if e == d then a else 0
  {
    var order := Order(dues, s, lead);
    OrderListsTheDues(dues, s, lead);
    var nets, i := Nets(l, s, order), IndexOf(order, d);
    assert Nets(l', s, order) == nets[i := nets[i] - a];
    if e in order {
      SharesAfterOutflow(DuelessNet(l, s), nets, i, a, IndexOf(order, e));
    }
  }
}
