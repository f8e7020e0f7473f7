/**
 * Rollups (apps/api/src/app/analytics.ts): the counters a payment is kept under,
 * the incremental delta, and the recompute that is their specification.
 */
module Rollups {
  import opened Wrappers
  import opened PaymentState

  datatype Payment = Payment(
    merchantId: MerchantId,
    customerId: string,
    amountPaise: int,
    paymentMethod: string,
    bank: Option<string>,
    cardCountry: Option<string>,
    cardNetwork: Option<string>,
    isInternational: bool,
    state: State,
    createdAt: int,
    lastEventAt: int,
    attemptIndex: nat,
    failureCode: Option<string>,
    gateway: string,
    abandoned: bool,
    version: nat)

  datatype Dimension = All | Method | Bank | AmountBand | IsInternational | CardNetwork | CardCountry

  /** The primary key of metrics_rollup. */
  datatype Key = Key(merchantId: MerchantId, bucketStart: int, dimension: Dimension, value: string)

  datatype Cell = Cell(attempts: int, successes: int, failures: int, abandoned: int,
                       gross: int, captured: int, failed: int)

  /** What one event adds to every counter row of its payment. */
  datatype Delta = Delta(attempts: int, successes: int, failures: int, abandoned: int,
                         gross: int, captured: int)

  const NOTHING := Delta(0, 0, 0, 0, 0, 0)
  const ZERO := Cell(0, 0, 0, 0, 0, 0, 0)

  const BUCKET_MS := 300_000

  // ---- The incremental side's view of a payment ----

  function BucketOf(ms: int): int {
    ms / BUCKET_MS * BUCKET_MS
  }

  const BAND_LOWER_BOUNDS: seq<(string, int)> :=
    [(">50k", 5_000_000), ("10k-50k", 1_000_000), ("2k-10k", 200_000), ("500-2k", 50_000), ("<500", 0)]

  /** The scan over the band bounds. */
  method AmountBandOf(paise: nat) returns (band: string)
    ensures band == SqlBand(paise)
  {
    for i := 0 to |BAND_LOWER_BOUNDS|
      invariant forall j :: 0 <= j < i ==> paise < BAND_LOWER_BOUNDS[j].1
    {
      if paise >= BAND_LOWER_BOUNDS[i].1 {
        assert i == 0 || paise < BAND_LOWER_BOUNDS[i-1].1;
        return BAND_LOWER_BOUNDS[i].0;
      }
    }
    assert false;
    return "<500";
  }

  function BoolText(b: bool): string {
    if b then "true" else "false"
  }

  function DimensionsOf(p: Payment): (r: seq<(Dimension, string)>)
    ensures |r| == 7 && forall i, j :: 0 <= i < j < |r| ==> r[i].0 != r[j].0
  {
    [(All, "all"), (Method, p.paymentMethod), (Bank, p.bank.GetOr("none")),
     (AmountBand, SqlBand(p.amountPaise)), (IsInternational, BoolText(p.isInternational)),
     (CardNetwork, p.cardNetwork.GetOr("none")), (CardCountry, p.cardCountry.GetOr("none"))]
  }

  function KeyAt(p: Payment, d: (Dimension, string)): Key {
    Key(p.merchantId, BucketOf(p.createdAt), d.0, d.1)
  }

  /** The rows a payment is counted under, one per dimension. */
  function KeysOf(p: Payment): set<Key> {
    set d | d in DimensionsOf(p) :: KeyAt(p, d)
  }

  function Get(rollup: map<Key, Cell>, k: Key): Cell {
    if k in rollup then rollup[k] else ZERO
  }

  /** The upsert of one row; `failed` is always re-derived. */
  function Bump(c: Cell, d: Delta): Cell {
    Cell(c.attempts + d.attempts, c.successes + d.successes, c.failures + d.failures,
         c.abandoned + d.abandoned, c.gross + d.gross, c.captured + d.captured,
         (c.gross + d.gross) - (c.captured + d.captured))
  }

  function BumpKeys(rollup: map<Key, Cell>, keys: set<Key>, d: Delta): map<Key, Cell> {
    map k | k in rollup.Keys + keys :: if k in keys then Bump(Get(rollup, k), d) else rollup[k]
  }

  /** A delta of nothing writes no row at all. */
  function ApplyDelta(rollup: map<Key, Cell>, p: Payment, d: Delta): map<Key, Cell> {
    if d == NOTHING then rollup else BumpKeys(rollup, KeysOf(p), d)
  }

  lemma BumpsCommute(c: Cell, d: Delta, e: Delta)
    ensures Bump(Bump(c, d), e) == Bump(Bump(c, e), d)
  {
  }

  /** Deltas of any two payments can be applied in either order, even onto the same rows. */
  lemma DeltasCommute(rollup: map<Key, Cell>, p: Payment, d: Delta, q: Payment, e: Delta)
    ensures ApplyDelta(ApplyDelta(rollup, p, d), q, e) == ApplyDelta(ApplyDelta(rollup, q, e), p, d)
  {
    if d != NOTHING && e != NOTHING {
      BumpKeysCommute(rollup, KeysOf(p), d, KeysOf(q), e);
    }
  }

  lemma BumpKeysCommute(rollup: map<Key, Cell>, a: set<Key>, d: Delta, b: set<Key>, e: Delta)
    ensures BumpKeys(BumpKeys(rollup, a, d), b, e) == BumpKeys(BumpKeys(rollup, b, e), a, d)
  {
    var left, right := BumpKeys(BumpKeys(rollup, a, d), b, e), BumpKeys(BumpKeys(rollup, b, e), a, d);
    assert left.Keys == right.Keys;
    forall k | k in left
      ensures left[k] == right[k]
    {
      BumpsCommute(Get(rollup, k), d, e);
    }
  }

  // ---- The recompute: a GROUP BY over the payments table ----

  /** The CASE expression of the recompute. */
  function SqlBand(paise: int): string {
    if paise >= 5_000_000 then ">50k"
    else if paise >= 1_000_000 then "10k-50k"
    else if paise >= 200_000 then "2k-10k"
    else if paise >= 50_000 then "500-2k"
    else "<500"
  }

  /** The recompute floors seconds as a fraction; the increment floors milliseconds. */
  function SqlBucket(ms: int): int {
    ((ms as real / 1000.0) / 300.0).Floor * 300 * 1000
  }

  lemma BucketsAgree(ms: int)
    ensures SqlBucket(ms) == BucketOf(ms)
  {
    var q := ms / BUCKET_MS;
    var x := (ms as real / 1000.0) / 300.0;
    assert q * 300_000 <= ms < (q + 1) * 300_000;
    assert x == ms as real / 300_000.0;
    assert q as real <= x < (q + 1) as real;
    assert x.Floor == q;
  }

  function SqlValue(p: Payment, d: Dimension): string {
    match d
    case All => "all"
    case Method => p.paymentMethod
    case Bank => if p.bank.Some? then p.bank.value else "none"
    case AmountBand => SqlBand(p.amountPaise)
    case IsInternational => if p.isInternational then "true" else "false"
    case CardNetwork => if p.cardNetwork.Some? then p.cardNetwork.value else "none"
    case CardCountry => if p.cardCountry.Some? then p.cardCountry.value else "none"
  }

  function SqlKey(p: Payment, d: Dimension): Key {
    Key(p.merchantId, SqlBucket(p.createdAt), d, SqlValue(p, d))
  }

  /** The payments that fall in one group. */
  function Group(payments: map<PaymentId, Payment>, k: Key): set<PaymentId> {
    set id | id in payments && SqlKey(payments[id], k.dimension) == k
  }

  /** What one payment adds to count(*), the FILTERed counts and the sums. */
  function Contribution(p: Payment): Cell {
    Cell(1,
         if p.state == Captured then 1 else 0,
         if p.state == Failed then 1 else 0,
         if p.abandoned then 1 else 0,
         p.amountPaise,
         if p.state == Captured then p.amountPaise else 0,
         if p.state != Captured then p.amountPaise else 0)
  }

  function AddCells(a: Cell, b: Cell): Cell {
    Cell(a.attempts + b.attempts, a.successes + b.successes, a.failures + b.failures,
         a.abandoned + b.abandoned, a.gross + b.gross, a.captured + b.captured, a.failed + b.failed)
  }

  ghost function SumOver(ids: set<PaymentId>, payments: map<PaymentId, Payment>): Cell
    requires ids <= payments.Keys
  {
    if ids == {} then ZERO
    else
      var id :| id in ids;
      AddCells(Contribution(payments[id]), SumOver(ids - {id}, payments))
  }

  /** Every group that has a payment, with its sums. */
  ghost function Recompute(payments: map<PaymentId, Payment>): map<Key, Cell> {
    map k | k in GroupKeys(payments) :: SumOver(Group(payments, k), payments)
  }

  function GroupKeys(payments: map<PaymentId, Payment>): set<Key> {
    set id, d: Dimension | id in payments :: SqlKey(payments[id], d)
  }

  /** Both descriptions of a payment's dimensions name the same pairs. */
  lemma PairsAgree(p: Payment, d: (Dimension, string))
    ensures d in DimensionsOf(p) <==> d.1 == SqlValue(p, d.0)
  {
    var ds := DimensionsOf(p);
    assert ds[0] == (All, SqlValue(p, All)) && ds[1] == (Method, SqlValue(p, Method));
    assert ds[2] == (Bank, SqlValue(p, Bank)) && ds[3] == (AmountBand, SqlValue(p, AmountBand));
    assert ds[4] == (IsInternational, SqlValue(p, IsInternational));
    assert ds[5] == (CardNetwork, SqlValue(p, CardNetwork));
    assert ds[6] == (CardCountry, SqlValue(p, CardCountry));
  }

  /** Both descriptions of "the rows of a payment" name the same rows. */
  lemma KeysAgree(p: Payment, k: Key)
    ensures k in KeysOf(p) <==> SqlKey(p, k.dimension) == k
  {
    BucketsAgree(p.createdAt);
    PairsAgree(p, (k.dimension, k.value));
    if k in KeysOf(p) {
      var d :| d in DimensionsOf(p) && k == KeyAt(p, d);
      assert d == (k.dimension, k.value);
    }
    if SqlKey(p, k.dimension) == k {
      var d := (k.dimension, k.value);
      assert d in DimensionsOf(p) && KeyAt(p, d) == k;
    }
  }

  // ---- Sums over groups ----

  lemma AddSwap(a: Cell, b: Cell, c: Cell)
    ensures AddCells(a, AddCells(b, c)) == AddCells(b, AddCells(a, c))
  {
  }

  lemma AddAssoc(a: Cell, b: Cell, c: Cell)
    ensures AddCells(AddCells(a, b), c) == AddCells(a, AddCells(b, c))
  {
  }

  lemma {:induction false} SumRemove(ids: set<PaymentId>, x: PaymentId, payments: map<PaymentId, Payment>)
    requires ids <= payments.Keys && x in ids
    ensures SumOver(ids, payments) == AddCells(Contribution(payments[x]), SumOver(ids - {x}, payments))
  {
    var id :| id in ids && SumOver(ids, payments)
      == AddCells(Contribution(payments[id]), SumOver(ids - {id}, payments));
    if id != x {
      SumRemove(ids - {id}, x, payments);
      SumRemove(ids - {x}, id, payments);
      assert ids - {id} - {x} == ids - {x} - {id};
      AddSwap(Contribution(payments[id]), Contribution(payments[x]), SumOver(ids - {id} - {x}, payments));
    }
  }

  lemma {:induction false} SumFrame(ids: set<PaymentId>, a: map<PaymentId, Payment>, b: map<PaymentId, Payment>)
    requires ids <= a.Keys && ids <= b.Keys
    requires forall id :: id in ids ==> a[id] == b[id]
    ensures SumOver(ids, a) == SumOver(ids, b)
  {
    if ids != {} {
      var x :| x in ids;
      SumRemove(ids, x, a);
      SumRemove(ids, x, b);
      SumFrame(ids - {x}, a, b);
    }
  }

  lemma AddZero(payments: map<PaymentId, Payment>, c: Cell)
    ensures SumOver({}, payments) == ZERO && AddCells(ZERO, c) == c
  {
  }

  lemma {:induction false} SumUnion(a: set<PaymentId>, b: set<PaymentId>, payments: map<PaymentId, Payment>)
    requires a !! b && a <= payments.Keys && b <= payments.Keys
    ensures SumOver(a + b, payments) == AddCells(SumOver(a, payments), SumOver(b, payments))
  {
    hide Contribution, SumOver;
    if a == {} {
      AddZero(payments, SumOver(b, payments));
      assert a + b == b;
    } else {
      var x :| x in a;
      SumRemove(a, x, payments);
      SumRemove(a + b, x, payments);
      assert a + b - {x} == (a - {x}) + b;
      SumUnion(a - {x}, b, payments);
      AddAssoc(Contribution(payments[x]), SumOver(a - {x}, payments), SumOver(b, payments));
    }
  }

  predicate Balanced(c: Cell) {
    c.failed == c.gross - c.captured
  }

  lemma BalancedStep(p: Payment, rest: Cell)
    requires Balanced(rest)
    ensures Balanced(AddCells(Contribution(p), rest))
  {
  }

  /** `failed` of a group is its gross less its captured. */
  lemma {:induction false} SumFailed(ids: set<PaymentId>, payments: map<PaymentId, Payment>)
    requires ids <= payments.Keys
    ensures Balanced(SumOver(ids, payments))
  {
    if ids != {} {
      var x :| x in ids;
      SumRemove(ids, x, payments);
      SumFailed(ids - {x}, payments);
      BalancedStep(payments[x], SumOver(ids - {x}, payments));
    }
  }

  // ---- What a cell counts ----

  ghost function InState(ids: set<PaymentId>, payments: map<PaymentId, Payment>, s: State): set<PaymentId>
    requires ids <= payments.Keys
  {
    set id | id in ids && payments[id].state == s
  }

  ghost function Abandoned(ids: set<PaymentId>, payments: map<PaymentId, Payment>): set<PaymentId>
    requires ids <= payments.Keys
  {
    set id | id in ids && payments[id].abandoned
  }

  ghost function Money(ids: set<PaymentId>, payments: map<PaymentId, Payment>): int
    requires ids <= payments.Keys
  {
    if ids == {} then 0
    else
      var id :| id in ids;
      payments[id].amountPaise + Money(ids - {id}, payments)
  }

  lemma {:induction false} MoneyRemove(ids: set<PaymentId>, x: PaymentId, payments: map<PaymentId, Payment>)
    requires ids <= payments.Keys && x in ids
    ensures Money(ids, payments) == payments[x].amountPaise + Money(ids - {x}, payments)
  {
    var id :| id in ids && Money(ids, payments) == payments[id].amountPaise + Money(ids - {id}, payments);
    if id != x {
      MoneyRemove(ids - {id}, x, payments);
      MoneyRemove(ids - {x}, id, payments);
      assert ids - {id} - {x} == ids - {x} - {id};
    }
  }

  lemma OneMore<T>(fewer: set<T>, x: T)
    requires x !in fewer
    ensures |fewer + {x}| == |fewer| + 1 && fewer + {x} - {x} == fewer
  {
  }

  /** A set with one payment more has one more in that payment's own state, and its money. */
  lemma InStateStep(ids: set<PaymentId>, x: PaymentId, payments: map<PaymentId, Payment>, s: State)
    requires ids <= payments.Keys && x in ids
    ensures |InState(ids, payments, s)|
         == |InState(ids - {x}, payments, s)| + (if payments[x].state == s then 1 else 0)
    ensures Money(InState(ids, payments, s), payments)
         == Money(InState(ids - {x}, payments, s), payments)
            + (if payments[x].state == s then payments[x].amountPaise else 0)
  {
    hide Money;
    var some, fewer := InState(ids, payments, s), InState(ids - {x}, payments, s);
    if payments[x].state == s {
      assert some == fewer + {x};
      OneMore(fewer, x);
      MoneyRemove(some, x, payments);
    } else {
      assert some == fewer;
    }
  }

  lemma AbandonedStep(ids: set<PaymentId>, x: PaymentId, payments: map<PaymentId, Payment>)
    requires ids <= payments.Keys && x in ids
    ensures |Abandoned(ids, payments)| == |Abandoned(ids - {x}, payments)| + (if payments[x].abandoned then 1 else 0)
  {
    var some, fewer := Abandoned(ids, payments), Abandoned(ids - {x}, payments);
    if payments[x].abandoned {
      assert some == fewer + {x};
      OneMore(fewer, x);
    } else {
      assert some == fewer;
    }
  }

  /** A cell counts its payments, those captured, failed and abandoned now, and the money of all and of the captured. */
  lemma {:induction false} CellCounts(ids: set<PaymentId>, payments: map<PaymentId, Payment>)
    requires ids <= payments.Keys
    ensures var c := SumOver(ids, payments);
            && c.attempts == |ids| && c.gross == Money(ids, payments)
            && c.successes == |InState(ids, payments, Captured)|
            && c.captured == Money(InState(ids, payments, Captured), payments)
            && c.failures == |InState(ids, payments, Failed)|
            && c.abandoned == |Abandoned(ids, payments)|
            && c.failed == c.gross - c.captured
  {
    hide SumOver, Money, InState, Abandoned;
    if ids == {} {
      NothingCounted(payments);
    } else {
      var x :| x in ids;
      SumRemove(ids, x, payments);
      MoneyRemove(ids, x, payments);
      InStateStep(ids, x, payments, Captured);
      InStateStep(ids, x, payments, Failed);
      AbandonedStep(ids, x, payments);
      CellCounts(ids - {x}, payments);
    }
  }

  lemma NothingCounted(payments: map<PaymentId, Payment>)
    ensures SumOver({}, payments) == ZERO && Money({}, payments) == 0 && Abandoned({}, payments) == {}
    ensures forall s :: InState({}, payments, s) == {}
  {
  }

  // ---- The increment keeps the stored rows equal to the recompute ----

  /** A row exists exactly when some payment is counted under it. */
  lemma RowExists(payments: map<PaymentId, Payment>, k: Key)
    ensures k in GroupKeys(payments) <==> Group(payments, k) != {}
  {
    if k in GroupKeys(payments) {
      var id, d: Dimension :| id in payments && k == SqlKey(payments[id], d);
      assert id in Group(payments, k);
    }
    if Group(payments, k) != {} {
      var id :| id in Group(payments, k);
      assert SqlKey(payments[id], k.dimension) in GroupKeys(payments);
    }
  }

  /** The stored rows are the recomputed ones, row by row. */
  ghost predicate Match(rollup: map<Key, Cell>, payments: map<PaymentId, Payment>) {
    forall k :: RowMatches(rollup, payments, k)
  }

  ghost predicate RowMatches(rollup: map<Key, Cell>, payments: map<PaymentId, Payment>, k: Key) {
    && (k in rollup <==> Group(payments, k) != {})
    && (k in rollup ==> rollup[k] == SumOver(Group(payments, k), payments))
  }

  lemma MatchIsRecompute(rollup: map<Key, Cell>, payments: map<PaymentId, Payment>)
    ensures Match(rollup, payments) <==> rollup == Recompute(payments)
  {
    forall k: Key
      ensures k in GroupKeys(payments) <==> Group(payments, k) != {}
    {
      RowExists(payments, k);
    }
    if Match(rollup, payments) {
      forall k
        ensures k in rollup <==> k in Recompute(payments)
        ensures k in rollup ==> rollup[k] == Recompute(payments)[k]
      {
        assert RowMatches(rollup, payments, k);
      }
    }
  }

  /** The two versions of a payment are counted under the same rows with the same amount. */
  predicate SameSubject(p: Payment, q: Payment) {
    && p.merchantId == q.merchantId && p.createdAt == q.createdAt && p.amountPaise == q.amountPaise
    && p.paymentMethod == q.paymentMethod && p.bank == q.bank && p.isInternational == q.isInternational
    && p.cardNetwork == q.cardNetwork && p.cardCountry == q.cardCountry
  }

  function Flag(b: bool): int {
    if b then 1 else 0
  }

  /** The delta between two versions of one payment, as the projector computes it. */
  function Change(p: Payment, q: Payment): Delta {
    var captured := Flag(q.state == Captured) - Flag(p.state == Captured);
    Delta(0, captured, Flag(q.state == Failed) - Flag(p.state == Failed),
          Flag(q.abandoned) - Flag(p.abandoned), 0, p.amountPaise * captured)
  }

  lemma BumpIsInsert(c: Cell, p: Payment)
    requires Balanced(c) && p.state == Created && !p.abandoned
    ensures Bump(c, Delta(1, 0, 0, 0, p.amountPaise, 0)) == AddCells(Contribution(p), c)
  {
  }

  lemma BumpIsUpdate(rest: Cell, p: Payment, q: Payment)
    requires Balanced(rest) && p.amountPaise == q.amountPaise
    ensures Bump(AddCells(Contribution(p), rest), Change(p, q)) == AddCells(Contribution(q), rest)
    ensures Change(p, q) == NOTHING ==> Contribution(p) == Contribution(q)
  {
  }

  /** A new payment is worth the delta the projector applies for it. */
  lemma InsertKeepsMatch(rollup: map<Key, Cell>, payments: map<PaymentId, Payment>, id: PaymentId, p: Payment)
    requires Match(rollup, payments) && id !in payments
    requires p.state == Created && !p.abandoned
    ensures Match(ApplyDelta(rollup, p, Delta(1, 0, 0, 0, p.amountPaise, 0)), payments[id := p])
  {
    var after, rows := payments[id := p], ApplyDelta(rollup, p, Delta(1, 0, 0, 0, p.amountPaise, 0));
    forall k
      ensures RowMatches(rows, after, k)
    {
      assert RowMatches(rollup, payments, k);
      ApplyDeltaAt(rollup, p, Delta(1, 0, 0, 0, p.amountPaise, 0), k);
      InsertKeepsRow(rollup, rows, payments, id, p, k);
    }
  }

  lemma GroupInsert(payments: map<PaymentId, Payment>, id: PaymentId, p: Payment, k: Key)
    requires id !in payments
    ensures Group(payments[id := p], k)
         == if SqlKey(p, k.dimension) == k then Group(payments, k) + {id} else Group(payments, k)
  {
  }

  /** What a delta does to one row. */
  ghost predicate Bumped(before: map<Key, Cell>, after: map<Key, Cell>, p: Payment, d: Delta, k: Key) {
    if d != NOTHING && SqlKey(p, k.dimension) == k
    then k in after && after[k] == Bump(Get(before, k), d)
    else (k in after <==> k in before) && Get(after, k) == Get(before, k)
  }

  lemma ApplyDeltaAt(rollup: map<Key, Cell>, p: Payment, d: Delta, k: Key)
    ensures Bumped(rollup, ApplyDelta(rollup, p, d), p, d, k)
  {
    KeysAgree(p, k);
  }

  lemma InsertKeepsRow(before: map<Key, Cell>, rows: map<Key, Cell>, payments: map<PaymentId, Payment>,
                       id: PaymentId, p: Payment, k: Key)
    requires RowMatches(before, payments, k) && id !in payments
    requires p.state == Created && !p.abandoned
    requires Bumped(before, rows, p, Delta(1, 0, 0, 0, p.amountPaise, 0), k)
    ensures RowMatches(rows, payments[id := p], k)
  {
    var after := payments[id := p];
    var g := Group(payments, k);
    SumFrame(g, payments, after);
    GroupInsert(payments, id, p, k);
    if SqlKey(p, k.dimension) == k {
      SumRemove(g + {id}, id, after);
      assert g + {id} - {id} == g;
      SumFailed(g, payments);
      BumpIsInsert(SumOver(g, payments), p);
    }
  }

  /** A new version of a payment is worth the change between the two versions. */
  lemma UpdateKeepsMatch(rollup: map<Key, Cell>, payments: map<PaymentId, Payment>, id: PaymentId, q: Payment)
    requires Match(rollup, payments) && id in payments && SameSubject(payments[id], q)
    ensures Match(ApplyDelta(rollup, payments[id], Change(payments[id], q)), payments[id := q])
  {
    var after, rows := payments[id := q], ApplyDelta(rollup, payments[id], Change(payments[id], q));
    forall k
      ensures RowMatches(rows, after, k)
    {
      assert RowMatches(rollup, payments, k);
      ApplyDeltaAt(rollup, payments[id], Change(payments[id], q), k);
      UpdateKeepsRow(rollup, rows, payments, id, q, k);
    }
  }

  lemma UpdateKeepsRow(before: map<Key, Cell>, rows: map<Key, Cell>, payments: map<PaymentId, Payment>,
                       id: PaymentId, q: Payment, k: Key)
    requires RowMatches(before, payments, k) && id in payments && SameSubject(payments[id], q)
    requires Bumped(before, rows, payments[id], Change(payments[id], q), k)
    ensures RowMatches(rows, payments[id := q], k)
  {
    var p := payments[id];
    var after := payments[id := q];
    var g := Group(payments, k);
    assert Group(after, k) == g;
    SumFrame(g - {id}, payments, after);
    if id in g {
      SumRemove(g, id, payments);
      SumRemove(g, id, after);
      SumFailed(g - {id}, payments);
      BumpIsUpdate(SumOver(g - {id}, payments), p, q);
    } else {
      assert g - {id} == g;
    }
  }

  // ---- Each dimension splits the same total ----

  /** The sum of the rows of one dimension over a set of its values. */
  ghost function SumValues(payments: map<PaymentId, Payment>, m: MerchantId, b: int, d: Dimension,
                           values: set<string>): Cell {
    if values == {} then ZERO
    else
      var v :| v in values;
      AddCells(SumOver(Group(payments, Key(m, b, d, v)), payments),
               SumValues(payments, m, b, d, values - {v}))
  }

  function InValues(payments: map<PaymentId, Payment>, m: MerchantId, b: int, d: Dimension,
                    values: set<string>): set<PaymentId> {
    set id | id in payments && payments[id].merchantId == m && SqlBucket(payments[id].createdAt) == b
             && SqlValue(payments[id], d) in values
  }

  lemma ValuesSplit(payments: map<PaymentId, Payment>, m: MerchantId, b: int, d: Dimension, values: set<string>,
                    v: string)
    requires v in values
    ensures Group(payments, Key(m, b, d, v)) !! InValues(payments, m, b, d, values - {v})
    ensures InValues(payments, m, b, d, values)
         == Group(payments, Key(m, b, d, v)) + InValues(payments, m, b, d, values - {v})
  {
  }

  lemma {:induction false} SumValuesIsSum(payments: map<PaymentId, Payment>, m: MerchantId, b: int, d: Dimension,
                                          values: set<string>)
    ensures SumValues(payments, m, b, d, values) == SumOver(InValues(payments, m, b, d, values), payments)
  {
    if values == {} {
      assert InValues(payments, m, b, d, values) == {};
    } else {
      var v :| v in values && SumValues(payments, m, b, d, values)
        == AddCells(SumOver(Group(payments, Key(m, b, d, v)), payments),
                    SumValues(payments, m, b, d, values - {v}));
      SumValuesIsSum(payments, m, b, d, values - {v});
      ValuesSplit(payments, m, b, d, values, v);
      SumUnion(Group(payments, Key(m, b, d, v)), InValues(payments, m, b, d, values - {v}), payments);
    }
  }

  /**
   * For one merchant and bucket, the rows of every dimension add up to the `all`
   * row, whatever set of values is summed over as long as none that occurs is missing.
   */
  lemma DimensionsSumToAll(payments: map<PaymentId, Payment>, m: MerchantId, b: int, d: Dimension, values: set<string>)
    requires forall k :: k in GroupKeys(payments) && k.merchantId == m && k.bucketStart == b && k.dimension == d
                         ==> k.value in values
    ensures SumValues(payments, m, b, d, values) == SumOver(Group(payments, Key(m, b, All, "all")), payments)
  {
    SumValuesIsSum(payments, m, b, d, values);
    var all := Group(payments, Key(m, b, All, "all"));
    forall id | id in all
      ensures SqlValue(payments[id], d) in values
    {
      var k := SqlKey(payments[id], d);
      RowExists(payments, k);
      assert id in Group(payments, k);
    }
    assert InValues(payments, m, b, d, values) == all;
  }
}
