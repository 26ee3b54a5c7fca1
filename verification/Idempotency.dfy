/** Idempotency keys on money endpoints (src/middleware/idempotency.ts). */
module Idempotency {
  import opened Wrappers
  import opened Tables
  import opened Runs

  /** A key scoped to its user, and the fingerprint of a request. */
  type Key = nat
  type Fingerprint = nat
  type RequestId = nat

  const TTL_MS: nat := 86_400_000

  /** The stored 2xx response, and which request produced it; none while one is in progress. */
  datatype Reply = Reply(status: nat, producedBy: RequestId)

  datatype KeyRow = KeyRow(hash: Fingerprint, reply: Option<Reply>, expiresAt: Time)

  type KeyTable = map<Key, KeyRow>

  // ------------------------------------------------------- single statements

  /** Insert if absent. */
  function Claimed(t: KeyTable, k: Key, hash: Fingerprint, now: Time): KeyTable {
    if k in t then t else t[k := KeyRow(hash, None, now + TTL_MS)]
  }

  function Dropped(t: KeyTable, k: Key): KeyTable { map x | x in t && x != k :: t[x] }

  function Stored(t: KeyTable, k: Key, reply: Reply): KeyTable {
    if k in t then t[k := t[k].(reply := Some(reply))] else t
  }

  function Released(t: KeyTable, k: Key): KeyTable { if k in t && t[k].reply.None? then Dropped(t, k) else t }

  function Purged(t: KeyTable, now: Time): KeyTable { map x | x in t && t[x].expiresAt >= now :: t[x] }

  datatype Verdict = Missing | Expired | Reused | InProgress | Replay(reply: Reply)

  /** What a request that lost the claim finds. */
  function LookUp(t: KeyTable, k: Key, hash: Fingerprint, now: Time): Verdict {
    if k !in t then Missing
    else if t[k].expiresAt < now then Expired
    else if t[k].hash != hash then Reused
    else match t[k].reply case None => InProgress case Some(reply) => Replay(reply)
  }

  predicate Successful(status: nat) { 200 <= status < 300 }

  // -------------------------------------------------- one request, undisturbed

  datatype Served = Handled(status: nat) | Replayed(reply: Reply) | KeyReused | Busy

  class Store {
    var keys: KeyTable

    constructor ()
      ensures keys == map[]
    {
      keys := map[];
    }

    method Claim(k: Key, hash: Fingerprint, now: Time) returns (won: bool)
      modifies this
      ensures won <==> k !in old(keys)
      ensures keys == if won then old(keys)[k := KeyRow(hash, None, now + 86_400_000)] else old(keys)
      ensures keys == Claimed(old(keys), k, hash, now)
    {
      if k in keys { return false; }
      keys := keys[k := KeyRow(hash, None, now + TTL_MS)];
      return true;
    }

    /** The middleware around one request, when nothing else touches its key meanwhile: a live
        key answers for the handler, and otherwise the handler runs once and its answer is kept
        exactly if it is a 2xx. */
    method Serve(id: RequestId, k: Key, hash: Fingerprint, now: Time, status: nat) returns (r: Served)
      modifies this
      ensures if k in old(keys) && now <= old(keys)[k].expiresAt then
          && keys == old(keys)
          && r == (if old(keys)[k].hash != hash then KeyReused
                   else if old(keys)[k].reply.None? then Busy
                   else Replayed(old(keys)[k].reply.value))
        else
          && r == Handled(status)
          && keys == if 200 <= status < 300 then old(keys)[k := KeyRow(hash, Some(Reply(status, id)), now + 86_400_000)]
                     else map x | x in old(keys) && x != k :: old(keys)[x]
    {
      var claimed := Claim(k, hash, now);
      if !claimed {
        match LookUp(keys, k, hash, now) {
          case Expired =>
            keys := Dropped(keys, k);
            claimed := Claim(k, hash, now);
          case Reused => return KeyReused;
          case InProgress => return Busy;
          case Replay(reply) => return Replayed(reply);
          case Missing => assert false;
        }
        if !claimed { return Busy; }
      }
      if Successful(status) {
        keys := Stored(keys, k, Reply(status, id));
      } else {
        keys := Released(keys, k);
        assert keys == Dropped(old(keys), k);
      }
      return Handled(status);
    }
  }

  // -------------------------------------------------- many requests at once

  /** How far a request got. `Storing` and `Releasing` have a statement on its way. */
  datatype Phase = Fresh | Looking | Stale | Again | Inside | Storing(status: nat) | Releasing | Over(outcome: Outcome)

  datatype Outcome = Refused | Answered | FromStore(reply: Reply)

  datatype Request = Request(key: Key, hash: Fingerprint, phase: Phase, inHandler: bool)

  /** `succeeded` records the requests whose own handler answered with a 2xx. */
  datatype World = World(keys: KeyTable, requests: seq<Request>, succeeded: set<RequestId>, now: Time)

  const EMPTY := World(map[], [], {}, 0)

  datatype Step =
    | Arrive(key: Key, hash: Fingerprint)
    | TryClaim(r: RequestId)
    | Look(r: RequestId)
    | DropExpired(r: RequestId)
    | Answer(r: RequestId, status: nat)
    | EndSilently(r: RequestId)          // the handler ended without a body
    | CloseEarly(r: RequestId)           // the connection closed with the handler still running
    | WriteDown(r: RequestId)            // the statement on its way takes effect
    | LoseStatement(r: RequestId)
    | Crash(r: RequestId)
    | Purge
    | Tick(ms: nat)

  function WithPhase(w: World, r: RequestId, p: Phase): World
    requires r < |w.requests|
  {
    w.(requests := w.requests[r := w.requests[r].(phase := p)])
  }

  function Enter(w: World, r: RequestId): World
    requires r < |w.requests|
  {
    var q := w.requests[r];
    w.(keys := Claimed(w.keys, q.key, q.hash, w.now), requests := w.requests[r := q.(phase := Inside, inHandler := true)])
  }

  function OnRequest(w: World, step: Step, r: RequestId): World
    requires r < |w.requests|
  {
    var q := w.requests[r];
    match step
    case TryClaim(_) =>
      if q.phase !in {Fresh, Again} then w
      else if q.key !in w.keys then Enter(w, r)
      else WithPhase(w, r, if q.phase == Fresh then Looking else Over(Refused))
    case Look(_) =>
      if q.phase != Looking then w
      else WithPhase(w, r, match LookUp(w.keys, q.key, q.hash, w.now)
        case Missing => Again
        case Expired => Stale
        case Reused => Over(Refused)
        case InProgress => Over(Refused)
        case Replay(reply) => Over(FromStore(reply)))
    case DropExpired(_) => if q.phase != Stale then w else WithPhase(w, r, Again).(keys := Dropped(w.keys, q.key))
    case Answer(_, status) =>
      if !q.inHandler then w
      else if q.phase == Inside && Successful(status) then
        w.(requests := w.requests[r := q.(phase := Storing(status), inHandler := false)], succeeded := w.succeeded + {r})
      else w.(requests := w.requests[r := q.(phase := if q.phase == Inside then Releasing else q.phase, inHandler := false)])
    case EndSilently(_) =>
      if q.phase != Inside then w else w.(requests := w.requests[r := q.(phase := Releasing, inHandler := false)])
    case CloseEarly(_) => if q.phase != Inside then w else WithPhase(w, r, Releasing)
    case WriteDown(_) =>
      if q.phase.Storing? then WithPhase(w, r, Over(Answered)).(keys := Stored(w.keys, q.key, Reply(q.phase.status, r)))
      else if q.phase == Releasing then WithPhase(w, r, Over(Answered)).(keys := Released(w.keys, q.key))
      else w
    case LoseStatement(_) => if q.phase.Storing? || q.phase == Releasing then WithPhase(w, r, Over(Answered)) else w
    case Crash(_) => w.(requests := w.requests[r := q.(phase := Over(Refused), inHandler := false)])
    case _ => w
  }

  function Next(w: World, step: Step): World {
    match step
    case Arrive(k, hash) => w.(requests := w.requests + [Request(k, hash, Fresh, false)])
    case Purge => w.(keys := Purged(w.keys, w.now))
    case Tick(ms) => w.(now := w.now + ms)
    case _ => if step.r < |w.requests| then OnRequest(w, step, step.r) else w
  }

  function After(w: World, steps: seq<Step>): World { Run(Next, w, steps) }

  // -------------------------------------------------------------- the invariant

  predicate Owns(q: Request, k: Key) { q.key == k && (q.phase == Inside || q.phase.Storing? || q.phase == Releasing) }

  /** What holds of each request of the key while nobody has taken the key from its owner. */
  ghost predicate RequestOk(w: World, k: Key, r: RequestId)
    requires r < |w.requests|
  {
    var q := w.requests[r];
    q.key == k ==>
      && q.phase != Stale
      && (q.inHandler <==> q.phase == Inside)
      && (q.phase.Storing? ==> r in w.succeeded)
      && (Owns(q, k) ==> k in w.keys && w.keys[k].reply.None? && w.keys[k].hash == q.hash)
      && (q.phase.Over? && q.phase.outcome.FromStore? ==> ProducedFor(w, k, q.hash, q.phase.outcome.reply))
  }

  /** The reply comes from a request with this key and fingerprint whose handler succeeded. */
  predicate ProducedFor(w: World, k: Key, hash: Fingerprint, reply: Reply) {
    reply.producedBy in w.succeeded && reply.producedBy < |w.requests|
    && w.requests[reply.producedBy].key == k && w.requests[reply.producedBy].hash == hash
  }

  ghost predicate Alone(w: World, k: Key) {
    forall a, b :: 0 <= a < |w.requests| && 0 <= b < |w.requests| && Owns(w.requests[a], k) && Owns(w.requests[b], k) ==> a == b
  }

  /** Whoever is in the handler owns the key, alone; and what is stored under it is true. */
  ghost predicate KeyOk(w: World, k: Key) {
    && (forall r: RequestId {:trigger RequestOk(w, k, r)} :: r < |w.requests| ==> RequestOk(w, k, r))
    && (forall r :: r in w.succeeded ==> r < |w.requests|)
    && (k in w.keys && w.keys[k].reply.Some? ==> ProducedFor(w, k, w.keys[k].hash, w.keys[k].reply.value))
    && Alone(w, k)
  }

  predicate IsExpired(w: World, k: Key) { k in w.keys && w.keys[k].expiresAt < w.now }

  predicate Owned(w: World, k: Key) { exists a :: 0 <= a < |w.requests| && Owns(w.requests[a], k) }

  /** A step of a request of this key that is in the given phase. */
  predicate Moves(w: World, r: RequestId, k: Key, p: Phase) { r < |w.requests| && w.requests[r].key == k && w.requests[r].phase == p }

  /** The steps that put the key beyond its owner's keeping: the owner's connection closes on a
      running handler, a request finds the row expired and goes on to drop it, or the purge
      drops it, expired, while it is owned. */
  predicate TakesKey(w: World, step: Step, k: Key) {
    || (step.CloseEarly? && Moves(w, step.r, k, Inside))
    || (step.Look? && Moves(w, step.r, k, Looking) && IsExpired(w, k))
    || (step.Purge? && IsExpired(w, k) && Owned(w, k))
  }

  // ------------------------------------------------------- a success remembered

  predicate SucceededWith(w: World, k: Key, r: RequestId) { r in w.succeeded && r < |w.requests| && w.requests[r].key == k }

  /** A success with this key is still on record, and nobody is on their way into or out of a
      handler except to store one. */
  ghost predicate Remembers(w: World, k: Key) {
    (exists r :: SucceededWith(w, k, r)) ==>
      k in w.keys && forall a :: 0 <= a < |w.requests| && Owns(w.requests[a], k) ==> w.requests[a].phase.Storing?
  }

  /** The purge that ends a success's day. */
  ghost predicate Forgets(w: World, step: Step, k: Key) {
    step.Purge? && IsExpired(w, k) && exists r :: SucceededWith(w, k, r)
  }

  // ------------------------------------------------------------------ every step

  lemma ArriveKeeps(w: World, k: Key, key: Key, hash: Fingerprint)
    requires KeyOk(w, k)
    ensures KeyOk(Next(w, Arrive(key, hash)), k)
  {
    var w' := Next(w, Arrive(key, hash));
    forall r: RequestId | r < |w'.requests| ensures RequestOk(w', k, r) {
      if r < |w.requests| { assert RequestOk(w, k, r); }
    }
  }

  /** A step of another key's request leaves this key's facts alone. */
  lemma OtherKeyKeeps(w: World, step: Step, r: RequestId, k: Key)
    requires KeyOk(w, k) && r < |w.requests| && w.requests[r].key != k
    ensures KeyOk(OnRequest(w, step, r), k)
  {
    OtherKeyFrame(w, step, r, k);
    FrameKeeps(w, OnRequest(w, step, r), k);
  }

  /** For this key nothing changed: its row, its requests, and who of them succeeded. */
  ghost predicate SameFor(w: World, w': World, k: Key) {
    && (k in w.keys <==> k in w'.keys) && (k in w.keys ==> w'.keys[k] == w.keys[k])
    && |w'.requests| == |w.requests|
    && (forall x :: 0 <= x < |w.requests| ==> w'.requests[x].key == w.requests[x].key && w'.requests[x].hash == w.requests[x].hash)
    && (forall x :: 0 <= x < |w.requests| && w.requests[x].key == k ==>
          w'.requests[x] == w.requests[x] && (x in w'.succeeded <==> x in w.succeeded))
    && (forall x :: x in w'.succeeded ==> x in w.succeeded || x < |w.requests|)
  }

  lemma OtherKeyFrame(w: World, step: Step, r: RequestId, k: Key)
    requires r < |w.requests| && w.requests[r].key != k
    ensures SameFor(w, OnRequest(w, step, r), k)
  {
  }

  lemma FrameKeeps(w: World, w': World, k: Key)
    requires KeyOk(w, k) && SameFor(w, w', k)
    ensures KeyOk(w', k)
  {
    forall x: RequestId | x < |w'.requests| ensures RequestOk(w', k, x) {
      assert RequestOk(w, k, x);
    }
  }

  /** Entering needs a free key, so nobody owned it. */
  lemma EnterKeeps(w: World, r: RequestId, k: Key)
    requires KeyOk(w, k) && r < |w.requests| && w.requests[r].key == k && k !in w.keys && !Owns(w.requests[r], k)
    requires !w.requests[r].inHandler
    ensures KeyOk(Enter(w, r), k)
  {
    var w' := Enter(w, r);
    forall x: RequestId | x < |w'.requests| ensures RequestOk(w', k, x) && (x != r ==> !Owns(w'.requests[x], k)) {
      assert RequestOk(w, k, x);
    }
  }

  /** A request that does not own the key moves on without owning it, and writes nothing. */
  lemma WalkKeeps(w: World, r: RequestId, p: Phase, k: Key)
    requires KeyOk(w, k) && r < |w.requests| && w.requests[r].key == k && !Owns(w.requests[r], k)
    requires p in {Looking, Again} || p == Over(Refused) || (p.Over? && p.outcome.FromStore? && ProducedFor(w, k, w.requests[r].hash, p.outcome.reply))
    ensures KeyOk(WithPhase(w, r, p), k)
  {
    var w' := WithPhase(w, r, p);
    forall x: RequestId | x < |w'.requests| ensures RequestOk(w', k, x) {
      assert RequestOk(w, k, x);
    }
  }

  /** The owner moves on, and with it nothing else changes for the key. */
  lemma OwnerKeeps(w: World, r: RequestId, q: Request, succeeded: set<RequestId>, k: Key)
    requires KeyOk(w, k) && r < |w.requests| && w.requests[r].key == k && Owns(w.requests[r], k)
    requires q == w.requests[r].(phase := q.phase, inHandler := false)
    requires q.phase.Storing? || q.phase == Releasing || q.phase == Over(Answered) || q.phase == Over(Refused)
    requires succeeded == if q.phase.Storing? then w.succeeded + {r} else w.succeeded
    requires q.phase == Releasing ==> w.requests[r].phase == Inside
    ensures KeyOk(w.(requests := w.requests[r := q], succeeded := succeeded), k)
  {
    var w' := w.(requests := w.requests[r := q], succeeded := succeeded);
    forall x: RequestId | x < |w'.requests| ensures RequestOk(w', k, x) {
      assert RequestOk(w, k, x);
    }
    assert RequestOk(w, k, r);
  }

  lemma StoreKeeps(w: World, r: RequestId, k: Key)
    requires KeyOk(w, k) && r < |w.requests| && w.requests[r].key == k && w.requests[r].phase.Storing?
    ensures KeyOk(OnRequest(w, WriteDown(r), r), k)
  {
    var w' := OnRequest(w, WriteDown(r), r);
    assert RequestOk(w, k, r);
    forall x: RequestId | x < |w'.requests| ensures RequestOk(w', k, x) {
      assert RequestOk(w, k, x);
    }
  }

  /** Giving the key back. */
  lemma ReleaseKeeps(w: World, r: RequestId, k: Key)
    requires KeyOk(w, k) && r < |w.requests| && w.requests[r].key == k && w.requests[r].phase == Releasing
    ensures KeyOk(OnRequest(w, WriteDown(r), r), k)
  {
    var w' := OnRequest(w, WriteDown(r), r);
    assert RequestOk(w, k, r) && Owns(w.requests[r], k);
    forall x: RequestId | x < |w'.requests| ensures RequestOk(w', k, x) && !Owns(w'.requests[x], k) {
      assert RequestOk(w, k, x);
    }
  }

  lemma FoundReply(w: World, r: RequestId, k: Key)
    requires KeyOk(w, k) && !IsExpired(w, k) && r < |w.requests| && w.requests[r].key == k
    ensures match LookUp(w.keys, k, w.requests[r].hash, w.now)
      case Expired => false
      case Replay(reply) => ProducedFor(w, k, w.requests[r].hash, reply)
      case _ => true
  {
  }

  lemma OwnStepKeeps(w: World, step: Step, r: RequestId, k: Key)
    requires KeyOk(w, k) && r < |w.requests| && w.requests[r].key == k
    requires !(step.CloseEarly? && w.requests[r].phase == Inside) && !(step.Look? && w.requests[r].phase == Looking && IsExpired(w, k))
    ensures KeyOk(OnRequest(w, step, r), k)
  {
    var q := w.requests[r];
    assert RequestOk(w, k, r);
    match step
    case TryClaim(_) =>
      if q.phase in {Fresh, Again} {
        if k !in w.keys { EnterKeeps(w, r, k); } else { WalkKeeps(w, r, if q.phase == Fresh then Looking else Over(Refused), k); }
      }
    case Look(_) =>
      if q.phase == Looking {
        FoundReply(w, r, k);
        WalkKeeps(w, r, OnRequest(w, step, r).requests[r].phase, k);
      }
    case Answer(_, status) =>
      if q.inHandler {
        if Successful(status) {
          OwnerKeeps(w, r, q.(phase := Storing(status), inHandler := false), w.succeeded + {r}, k);
        } else {
          OwnerKeeps(w, r, q.(phase := Releasing, inHandler := false), w.succeeded, k);
        }
      }
    case EndSilently(_) => if q.phase == Inside { OwnerKeeps(w, r, q.(phase := Releasing, inHandler := false), w.succeeded, k); }
    case WriteDown(_) => if q.phase.Storing? { StoreKeeps(w, r, k); } else if q.phase == Releasing { ReleaseKeeps(w, r, k); }
    case LoseStatement(_) =>
      if q.phase.Storing? || q.phase == Releasing { OwnerKeeps(w, r, q.(phase := Over(Answered), inHandler := false), w.succeeded, k); }
    case Crash(_) =>
      if Owns(q, k) { OwnerKeeps(w, r, q.(phase := Over(Refused), inHandler := false), w.succeeded, k); } else { WalkKeeps(w, r, Over(Refused), k); }
    case _ =>
  }

  lemma PurgeKeeps(w: World, k: Key)
    requires KeyOk(w, k) && !(IsExpired(w, k) && Owned(w, k))
    ensures KeyOk(Next(w, Purge), k)
  {
    var w' := Next(w, Purge);
    assert k in w'.keys <==> k in w.keys && !IsExpired(w, k);
    forall x: RequestId | x < |w'.requests| ensures RequestOk(w', k, x) {
      assert RequestOk(w, k, x);
    }
  }

  lemma TickKeeps(w: World, k: Key, ms: nat)
    requires KeyOk(w, k)
    ensures KeyOk(Next(w, Tick(ms)), k)
  {
    var w' := Next(w, Tick(ms));
    forall x: RequestId | x < |w'.requests| ensures RequestOk(w', k, x) {
      assert RequestOk(w, k, x);
    }
  }

  lemma OtherStepsKeep(w: World, step: Step, k: Key)
    requires KeyOk(w, k) && !TakesKey(w, step, k)
    ensures KeyOk(Next(w, step), k)
  {
    match step
    case Arrive(key, hash) => ArriveKeeps(w, k, key, hash);
    case Purge => PurgeKeeps(w, k);
    case Tick(ms) => TickKeeps(w, k, ms);
    case _ =>
      if step.r < |w.requests| {
        if w.requests[step.r].key == k { OwnStepKeeps(w, step, step.r, k); } else { OtherKeyKeeps(w, step, step.r, k); }
      }
  }

  lemma TakingBreaks(w: World, step: Step, k: Key)
    requires KeyOk(w, k) && TakesKey(w, step, k)
    ensures !KeyOk(Next(w, step), k)
  {
    var w' := Next(w, step);
    if step.Purge? {
      var a :| 0 <= a < |w.requests| && Owns(w.requests[a], k);
      assert !RequestOk(w', k, a);
    } else {
      assert RequestOk(w, k, step.r);
      assert !RequestOk(w', k, step.r);
    }
  }

  /** The key stays with whoever is in the handler, alone, exactly unless the step is one of the
      three that take it. */
  lemma StepKeepsKey(w: World, step: Step, k: Key)
    requires KeyOk(w, k)
    ensures KeyOk(Next(w, step), k) <==> !TakesKey(w, step, k)
  {
    if TakesKey(w, step, k) { TakingBreaks(w, step, k); } else { OtherStepsKeep(w, step, k); }
  }

  /** No step of the run takes the key. */
  ghost predicate Undisturbed(steps: seq<Step>, k: Key) {
    forall i :: 0 <= i < |steps| ==> !TakesKey(After(EMPTY, steps[..i]), steps[i], k)
  }

  lemma UndisturbedPrefix(steps: seq<Step>, k: Key, n: nat)
    requires Undisturbed(steps, k) && n <= |steps|
    ensures Undisturbed(steps[..n], k)
  {
    forall i | 0 <= i < n ensures !TakesKey(After(EMPTY, steps[..n][..i]), steps[..n][i], k) {
      assert steps[..n][..i] == steps[..i];
    }
  }

  lemma {:induction false} RunKeepsKey(steps: seq<Step>, k: Key)
    requires Undisturbed(steps, k)
    ensures KeyOk(After(EMPTY, steps), k)
  {
    if steps != [] {
      var n := |steps| - 1;
      UndisturbedPrefix(steps, k, n);
      RunKeepsKey(steps[..n], k);
      StepKeepsKey(After(EMPTY, steps[..n]), steps[n], k);
    }
  }

  // ---------------------------------------------------- remembering, step by step

  lemma SuccessNeedsTheKey(w: World, step: Step, k: Key, r: RequestId)
    requires KeyOk(w, k) && !SucceededWith(w, k, r) && SucceededWith(Next(w, step), k, r)
    ensures step.Answer? && step.r == r && r < |w.requests| && w.requests[r].phase == Inside && k in w.keys
    ensures Next(w, step).requests[r].phase.Storing? && Next(w, step).keys == w.keys
  {
    assert step.Answer? && step.r == r;
    assert RequestOk(w, k, r);
  }

  /** Nobody comes to own a key that is on record. */
  lemma NewOwnersNeedAFreeKey(w: World, step: Step, k: Key, a: RequestId)
    requires KeyOk(w, k) && k in w.keys && a < |Next(w, step).requests| && Owns(Next(w, step).requests[a], k)
    ensures a < |w.requests| && Owns(w.requests[a], k)
    ensures w.requests[a].phase.Storing? ==> Next(w, step).requests[a].phase.Storing?
  {
    if a < |w.requests| { assert RequestOk(w, k, a); }
  }

  /** Only giving the key back, dropping or purging removes its row. */
  lemma RowStays(w: World, step: Step, k: Key)
    requires KeyOk(w, k) && k in w.keys && !TakesKey(w, step, k)
    requires !(step.Purge? && IsExpired(w, k)) && !(step.WriteDown? && Moves(w, step.r, k, Releasing))
    ensures k in Next(w, step).keys
  {
    if step.DropExpired? && step.r < |w.requests| { assert RequestOk(w, k, step.r); }
  }

  lemma OldSuccessIsKept(w: World, step: Step, k: Key, r: RequestId)
    requires KeyOk(w, k) && Remembers(w, k) && !TakesKey(w, step, k) && !Forgets(w, step, k) && SucceededWith(w, k, r)
    ensures Remembers(Next(w, step), k)
  {
    var w' := Next(w, step);
    RowStays(w, step, k);
    forall a | 0 <= a < |w'.requests| && Owns(w'.requests[a], k) ensures w'.requests[a].phase.Storing? {
      NewOwnersNeedAFreeKey(w, step, k, a);
    }
  }

  lemma NewSuccessIsKept(w: World, step: Step, k: Key, r: RequestId)
    requires KeyOk(w, k) && !SucceededWith(w, k, r) && SucceededWith(Next(w, step), k, r)
    ensures Remembers(Next(w, step), k)
  {
    var w' := Next(w, step);
    SuccessNeedsTheKey(w, step, k, r);
    forall a | 0 <= a < |w'.requests| && Owns(w'.requests[a], k) ensures w'.requests[a].phase.Storing? {
      NewOwnersNeedAFreeKey(w, step, k, a);
      assert Owns(w.requests[r], k);
    }
  }

  /** A success stays on record exactly until the purge that drops its expired row. */
  lemma StepRemembers(w: World, step: Step, k: Key)
    requires KeyOk(w, k) && Remembers(w, k) && !TakesKey(w, step, k)
    ensures Remembers(Next(w, step), k) <==> !Forgets(w, step, k)
  {
    var w' := Next(w, step);
    if Forgets(w, step, k) {
      var r :| SucceededWith(w, k, r);
      assert SucceededWith(w', k, r) && k !in w'.keys;
    } else if r :| SucceededWith(w', k, r) {
      if SucceededWith(w, k, r) { OldSuccessIsKept(w, step, k, r); } else { NewSuccessIsKept(w, step, k, r); }
    }
  }

  /** Nor does any step purge a success. */
  ghost predicate Unforgotten(steps: seq<Step>, k: Key) {
    Undisturbed(steps, k) && forall i :: 0 <= i < |steps| ==> !Forgets(After(EMPTY, steps[..i]), steps[i], k)
  }

  lemma UnforgottenPrefix(steps: seq<Step>, k: Key, n: nat)
    requires Unforgotten(steps, k) && n <= |steps|
    ensures Unforgotten(steps[..n], k)
  {
    UndisturbedPrefix(steps, k, n);
    forall i | 0 <= i < n ensures !Forgets(After(EMPTY, steps[..n][..i]), steps[..n][i], k) {
      assert steps[..n][..i] == steps[..i];
    }
  }

  lemma {:induction false} RunRemembers(steps: seq<Step>, k: Key)
    requires Unforgotten(steps, k)
    ensures Remembers(After(EMPTY, steps), k)
  {
    if steps != [] {
      var n := |steps| - 1;
      UnforgottenPrefix(steps, k, n);
      RunRemembers(steps[..n], k);
      RunKeepsKey(steps[..n], k);
      StepRemembers(After(EMPTY, steps[..n]), steps[n], k);
    }
  }

  // --------------------------------------------------------------- main results

  /** However requests with one key interleave, at most one of them is inside the handler. */
  lemma OneInsideAtATime(steps: seq<Step>, k: Key, a: RequestId, b: RequestId)
    requires Undisturbed(steps, k)
    requires var w := After(EMPTY, steps);
      && a < |w.requests| && w.requests[a].key == k && w.requests[a].inHandler
      && b < |w.requests| && w.requests[b].key == k && w.requests[b].inHandler
    ensures a == b
  {
    var w := After(EMPTY, steps);
    RunKeepsKey(steps, k);
    assert RequestOk(w, k, a) && RequestOk(w, k, b);
    assert Owns(w.requests[a], k) && Owns(w.requests[b], k);
  }

  lemma SucceededStays(w: World, step: Step, a: RequestId)
    requires a < |w.requests| && a in w.succeeded
    ensures a < |Next(w, step).requests| && a in Next(w, step).succeeded && Next(w, step).requests[a].key == w.requests[a].key
  {
  }

  lemma {:induction false} SucceededForGood(steps: seq<Step>, n: nat, a: RequestId)
    requires n <= |steps| && a < |After(EMPTY, steps[..n]).requests| && a in After(EMPTY, steps[..n]).succeeded
    ensures var w := After(EMPTY, steps);
      a < |w.requests| && a in w.succeeded && w.requests[a].key == After(EMPTY, steps[..n]).requests[a].key
    decreases |steps|
  {
    if n == |steps| {
      assert steps[..n] == steps;
    } else {
      var front := steps[..|steps| - 1];
      assert front[..n] == steps[..n];
      SucceededForGood(front, n, a);
      SucceededStays(After(EMPTY, front), steps[|steps| - 1], a);
    }
  }

  /** Once a request of the key has been answered with a 2xx, no request with that key is ever
      inside the handler again. */
  lemma SuccessIsFinal(steps: seq<Step>, n: nat, k: Key, a: RequestId, b: RequestId)
    requires Unforgotten(steps, k) && n <= |steps| && SucceededWith(After(EMPTY, steps[..n]), k, a)
    requires var w := After(EMPTY, steps); b < |w.requests| && w.requests[b].key == k
    ensures !After(EMPTY, steps).requests[b].inHandler
  {
    var w := After(EMPTY, steps);
    RunKeepsKey(steps, k);
    RunRemembers(steps, k);
    SucceededForGood(steps, n, a);
    assert SucceededWith(w, k, a);
    assert RequestOk(w, k, b);
    assert w.requests[b].inHandler ==> Owns(w.requests[b], k);
  }

  /** A replay always repeats the 2xx of a request with the same key and fingerprint. */
  lemma ReplaysAreYourOwn(steps: seq<Step>, k: Key, a: RequestId, reply: Reply)
    requires Undisturbed(steps, k)
    requires var w := After(EMPTY, steps); a < |w.requests| && w.requests[a].key == k && w.requests[a].phase == Over(FromStore(reply))
    ensures ProducedFor(After(EMPTY, steps), k, After(EMPTY, steps).requests[a].hash, reply)
  {
    RunKeepsKey(steps, k);
    assert RequestOk(After(EMPTY, steps), k, a);
  }

  /** A handler that answers with a 2xx is not run again for that key and fingerprint: once the answer is
      stored, the next request within the day is answered with it, and one with another fingerprint is
      refused. */
  lemma SuccessIsReplayed(w: World, k: Key, r: RequestId, status: nat, hash: Fingerprint)
    requires KeyOk(w, k) && r < |w.requests| && w.requests[r].key == k && w.requests[r].phase == Inside
    requires k in w.keys && w.now <= w.keys[k].expiresAt && 200 <= status < 300
    ensures var n := |w.requests|;
      var end := After(w, [Answer(r, status), WriteDown(r), Arrive(k, hash), TryClaim(n), Look(n)]);
      && |end.requests| == n + 1 && !end.requests[n].inHandler
      && end.requests[n].phase == Over(if hash == w.requests[r].hash then FromStore(Reply(status, r)) else Refused)
  {
    var n := |w.requests|;
    RunFive(Next, w, Answer(r, status), WriteDown(r), Arrive(k, hash), TryClaim(n), Look(n));
    assert RequestOk(w, k, r);
  }

  /** One that answers with anything else, or ends without a body, leaves the key free: the next request
      enters the handler. */
  lemma FailureFreesTheKey(w: World, k: Key, r: RequestId, ending: Step, hash: Fingerprint)
    requires KeyOk(w, k) && r < |w.requests| && w.requests[r].key == k && w.requests[r].phase == Inside
    requires ending == EndSilently(r) || (ending.Answer? && ending.r == r && !(200 <= ending.status < 300))
    ensures var n := |w.requests|;
      var end := After(w, [ending, WriteDown(r), Arrive(k, hash), TryClaim(n)]);
      |end.requests| == n + 1 && end.requests[n].inHandler && !end.requests[r].inHandler
  {
    var n := |w.requests|;
    RunFour(Next, w, ending, WriteDown(r), Arrive(k, hash), TryClaim(n));
    assert RequestOk(w, k, r);
  }

  /** A request that lost the claim and then finds the key gone or expired claims it again and enters. */
  lemma LoserTakesOver(w: World, k: Key, r: RequestId)
    requires r < |w.requests| && w.requests[r].key == k && w.requests[r].phase == Looking
    ensures k !in w.keys ==> InHandler(After(w, [Look(r), TryClaim(r)]), r, k)
    ensures k in w.keys && w.keys[k].expiresAt < w.now ==> InHandler(After(w, [Look(r), DropExpired(r), TryClaim(r)]), r, k)
  {
    RunTwo(Next, w, Look(r), TryClaim(r));
    RunThree(Next, w, Look(r), DropExpired(r), TryClaim(r));
  }

  // -------------------------------------------------------- when two are inside

  /** Two requests with the key inside the handler. */
  ghost predicate Crowded(w: World, k: Key) {
    exists a, b :: 0 <= a < b < |w.requests| && InHandler(w, a, k) && InHandler(w, b, k)
  }

  predicate InHandler(w: World, a: int, k: Key) { 0 <= a < |w.requests| && w.requests[a].key == k && w.requests[a].inHandler }

  /** A request claims the key, free, while another one with it is still in the handler. */
  ghost predicate SecondEntry(w: World, step: Step, k: Key) {
    && step.TryClaim? && step.r < |w.requests| && w.requests[step.r].key == k && w.requests[step.r].phase in {Fresh, Again}
    && k !in w.keys && exists a :: a != step.r && InHandler(w, a, k)
  }

  lemma EntryCrowds(w: World, step: Step, k: Key)
    requires SecondEntry(w, step, k)
    ensures Crowded(Next(w, step), k)
  {
    var w', r := Next(w, step), step.r;
    var a :| a != r && InHandler(w, a, k);
    assert InHandler(w', a, k) && InHandler(w', r, k);
    if a < r { assert Crowded(w', k); } else { assert Crowded(w', k); }
  }

  /** Nothing but a claim of a free key puts a request into the handler. */
  lemma EntersByClaim(w: World, step: Step, k: Key, a: int)
    requires InHandler(Next(w, step), a, k) && !InHandler(w, a, k)
    ensures step.TryClaim? && step.r == a && a < |w.requests| && w.requests[a].key == k && w.requests[a].phase in {Fresh, Again} && k !in w.keys
  {
  }

  /** From at most one in the handler to two takes exactly such a second entry. */
  lemma CrowdedExactlyBySecondEntry(w: World, step: Step, k: Key)
    requires !Crowded(w, k)
    ensures Crowded(Next(w, step), k) <==> SecondEntry(w, step, k)
  {
    var w' := Next(w, step);
    if SecondEntry(w, step, k) {
      EntryCrowds(w, step, k);
    } else if Crowded(w', k) {
      var a, b :| 0 <= a < b < |w'.requests| && InHandler(w', a, k) && InHandler(w', b, k);
      if InHandler(w, a, k) {
        EntersByClaim(w, step, k, b);
      } else {
        EntersByClaim(w, step, k, a);
        if !InHandler(w, b, k) { EntersByClaim(w, step, k, b); }
      }
    }
  }

  ghost predicate EverCrowded(steps: seq<Step>, k: Key) { exists n {:trigger steps[..n]} :: 0 <= n <= |steps| && Crowded(After(EMPTY, steps[..n]), k) }

  ghost predicate HasSecondEntry(steps: seq<Step>, k: Key) {
    exists i {:trigger steps[..i]} :: 0 <= i < |steps| && SecondEntry(After(EMPTY, steps[..i]), steps[i], k)
  }

  lemma FirstCrowding(steps: seq<Step>, k: Key, n: nat)
    requires n <= |steps| && Crowded(After(EMPTY, steps[..n]), k)
    ensures HasSecondEntry(steps, k)
    decreases n
  {
    if n > 0 {
      assert steps[..n] == steps[..n - 1] + [steps[n - 1]];
      RunLast(Next, EMPTY, steps[..n - 1], steps[n - 1]);
      if Crowded(After(EMPTY, steps[..n - 1]), k) {
        FirstCrowding(steps, k, n - 1);
      } else {
        CrowdedExactlyBySecondEntry(After(EMPTY, steps[..n - 1]), steps[n - 1], k);
        var i := n - 1;
        assert SecondEntry(After(EMPTY, steps[..i]), steps[i], k);
      }
    }
  }

  /** A run ever has two requests with a key in the handler exactly if some step of it is a claim
      of the free key while one is in the handler. */
  lemma CrowdedRunsExactly(steps: seq<Step>, k: Key)
    ensures EverCrowded(steps, k) <==> HasSecondEntry(steps, k)
  {
    if EverCrowded(steps, k) {
      var n :| 0 <= n <= |steps| && Crowded(After(EMPTY, steps[..n]), k);
      FirstCrowding(steps, k, n);
    }
    if HasSecondEntry(steps, k) {
      var i :| 0 <= i < |steps| && SecondEntry(After(EMPTY, steps[..i]), steps[i], k);
      assert steps[..i + 1] == steps[..i] + [steps[i]];
      RunLast(Next, EMPTY, steps[..i], steps[i]);
      EntryCrowds(After(EMPTY, steps[..i]), steps[i], k);
      var n := i + 1;
      assert Crowded(After(EMPTY, steps[..n]), k);
    }
  }

  /** And only runs in which some step took the key from its owner are ever crowded. */
  lemma CrowdingTakesTheKey(steps: seq<Step>, k: Key)
    requires EverCrowded(steps, k)
    ensures !Undisturbed(steps, k)
  {
    var n :| 0 <= n <= |steps| && Crowded(After(EMPTY, steps[..n]), k);
    var a, b :| 0 <= a < b < |After(EMPTY, steps[..n]).requests| && InHandler(After(EMPTY, steps[..n]), a, k) && InHandler(After(EMPTY, steps[..n]), b, k);
    if Undisturbed(steps, k) {
      UndisturbedPrefix(steps, k, n);
      OneInsideAtATime(steps[..n], k, a, b);
    }
  }

  // ---------------------------------------------------- closing the connection

  /** The key is within its window. */
  predicate InWindow(w: World, k: Key) { k in w.keys ==> w.now <= w.keys[k].expiresAt }

  /** A client goes away while its handler runs, and its retry enters too. */
  function EarlyClose(): seq<Step> { [Arrive(0, 0), TryClaim(0), CloseEarly(0), WriteDown(0)] }

  function RetryAfterClose(): seq<Step> { [Arrive(0, 0), TryClaim(1)] }

  lemma ClosedEarly()
    ensures After(EMPTY, EarlyClose()) == World(map[], [Request(0, 0, Over(Answered), true)], {}, 0)
  {
    RunFour(Next, EMPTY, Arrive(0, 0), TryClaim(0), CloseEarly(0), WriteDown(0));
  }

  /** The clock never moves in that run. */
  lemma {:induction false} StillAtStart(steps: seq<Step>)
    requires forall i :: 0 <= i < |steps| ==> !steps[i].Tick?
    ensures After(EMPTY, steps).now == 0
    ensures forall k: Key :: InWindow(After(EMPTY, steps), k)
  {
    if steps != [] { StillAtStart(steps[..|steps| - 1]); }
  }

  /** Within the key's window all along, one early close admits two. */
  lemma EarlyCloseAdmitsTwo()
    ensures Crowded(After(EMPTY, EarlyClose() + RetryAfterClose()), 0)
    ensures forall n :: 0 <= n <= |EarlyClose() + RetryAfterClose()| ==> InWindow(After(EMPTY, (EarlyClose() + RetryAfterClose())[..n]), 0)
    ensures TakesKey(After(EMPTY, EarlyClose()[..2]), CloseEarly(0), 0)
  {
    ClosedEarly();
    var w := After(EMPTY, EarlyClose());
    RunConcat(Next, EMPTY, EarlyClose(), RetryAfterClose());
    RunTwo(Next, w, Arrive(0, 0), TryClaim(1));
    var end := After(w, RetryAfterClose());
    assert InHandler(end, 0, 0) && InHandler(end, 1, 0);
    var all := EarlyClose() + RetryAfterClose();
    forall n | 0 <= n <= |all| ensures InWindow(After(EMPTY, all[..n]), 0) { StillAtStart(all[..n]); }
    assert EarlyClose()[..2] == [Arrive(0, 0), TryClaim(0)];
    RunTwo(Next, EMPTY, Arrive(0, 0), TryClaim(0));
  }

  // ------------------------------------------------------ past the window

  /** A key whose request died stays claimed until it expires; */
  function Abandoned(): seq<Step> { [Arrive(0, 0), TryClaim(0), Crash(0), Tick(TTL_MS + 1)] }

  /** then two requests arrive, lose the claim and find it expired; */
  function TwoArrive(): seq<Step> { [Arrive(0, 0), TryClaim(1), Arrive(0, 0), TryClaim(2)] }

  function BothLook(): seq<Step> { [Look(1), Look(2), DropExpired(1), TryClaim(1)] }

  /** and the slower one drops the fresh claim of the faster. */
  function Overtaken(): seq<Step> { [DropExpired(2), TryClaim(2), Tick(0), Tick(0)] }

  lemma AbandonedKey()
    ensures After(EMPTY, Abandoned())
         == World(map[0 := KeyRow(0, None, TTL_MS)], [Request(0, 0, Over(Refused), false)], {}, TTL_MS + 1)
  {
    RunFour(Next, EMPTY, Arrive(0, 0), TryClaim(0), Crash(0), Tick(TTL_MS + 1));
  }

  lemma BothLooking()
    ensures After(After(EMPTY, Abandoned()), TwoArrive())
         == World(map[0 := KeyRow(0, None, TTL_MS)],
                  [Request(0, 0, Over(Refused), false), Request(0, 0, Looking, false), Request(0, 0, Looking, false)], {}, TTL_MS + 1)
  {
    AbandonedKey();
    RunFour(Next, After(EMPTY, Abandoned()), Arrive(0, 0), TryClaim(1), Arrive(0, 0), TryClaim(2));
  }

  lemma FirstEnters(w: World)
    requires w.keys == map[0 := KeyRow(0, None, TTL_MS)] && w.now == TTL_MS + 1
    requires w.requests == [Request(0, 0, Over(Refused), false), Request(0, 0, Looking, false), Request(0, 0, Looking, false)]
    ensures After(w, BothLook()).requests
         == [Request(0, 0, Over(Refused), false), Request(0, 0, Inside, true), Request(0, 0, Stale, false)]
  {
    RunFour(Next, w, Look(1), Look(2), DropExpired(1), TryClaim(1));
  }

  lemma SecondEnters(w: World)
    requires w.requests == [Request(0, 0, Over(Refused), false), Request(0, 0, Inside, true), Request(0, 0, Stale, false)]
    ensures Crowded(After(w, Overtaken()), 0)
  {
    RunFour(Next, w, DropExpired(2), TryClaim(2), Tick(0), Tick(0));
    var end := After(w, Overtaken());
    assert InHandler(end, 1, 0) && InHandler(end, 2, 0);
  }

  /** Past its window a key can admit two requests, even if no connection ever closes early. */
  lemma ExpiredKeyAdmitsTwo()
    ensures Crowded(After(EMPTY, Abandoned() + TwoArrive() + BothLook() + Overtaken()), 0)
  {
    BothLooking();
    var looking := After(After(EMPTY, Abandoned()), TwoArrive());
    FirstEnters(looking);
    SecondEnters(After(looking, BothLook()));
    RunConcat(Next, EMPTY, Abandoned() + TwoArrive() + BothLook(), Overtaken());
    RunConcat(Next, EMPTY, Abandoned() + TwoArrive(), BothLook());
    RunConcat(Next, EMPTY, Abandoned(), TwoArrive());
  }
}
