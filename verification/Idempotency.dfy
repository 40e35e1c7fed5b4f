/**
 Idempotency keys: a key is reserved in the transaction that does the work, and
 completed with its response before that transaction commits. First every
 interleaving of retries, aborts, crashes and clean-ups; then the key table as the
 program uses it, whose requests are runs of it.
 */
module Idempotency {
  import opened Wrappers
  import opened Canonical
  import opened CanonicalTheorems

  /** The fingerprint of a request, as the text that is hashed; the digest is taken to be injective. */
  type Hash = Text

  type Entity = nat

  datatype KeyRow = KeyRow(requestHash: Hash, response: Option<Entity>)

  type Keys = map<string, KeyRow>

  datatype Refusal = KeyAlreadyReserved | IdempotencyConflict | WorkRefused

  // ----- The key table -----

  function CompletedResponse(keys: Keys, key: string): Option<(Hash, Entity)> {
    if key in keys && keys[key].response.Some? then Some((keys[key].requestHash, keys[key].response.value)) else None
  }

  function Replay(keys: Keys, key: string, hash: Hash): Result<Entity, Refusal> {
    if key !in keys || keys[key].requestHash != hash || keys[key].response.None? then Err(IdempotencyConflict)
    else Ok(keys[key].response.value)
  }

  // ----- Every interleaving -----

  /** Where a request stands. `pending` is its own uncommitted row, which blocks other inserts of the key. */
  datatype Phase = Fresh | Reserved(pending: KeyRow) | Worked(pending: KeyRow) | Conflicted

  datatype Request = Request(key: string, hash: Hash, phase: Phase)

  /** A committed unit of work. A key's lifetime ends when a clean-up removes its row. */
  datatype Work = Work(entity: Entity, key: string, lifetime: nat, hash: Hash)

  /** A successful answer, in the lifetime in which it was given. */
  datatype Answer = Answer(key: string, lifetime: nat, hash: Hash, entity: Entity)

  datatype Sys = Sys(keys: Keys, requests: map<nat, Request>, nextEntity: Entity, done: seq<Work>, answers: seq<Answer>, ended: map<string, nat>)

  const INITIAL: Sys := Sys(map[], map[], 0, [], [], map[])

  datatype Action =
    | Begin(pid: nat, key: string, hash: Hash)
    | LookFirst(pid: nat)
    | TryReserve(pid: nat)
    | DoWork(pid: nat)
    | Commit(pid: nat)
    | Abort(pid: nat)
    | ReplayNow(pid: nat)
    | CleanUp(key: string)

  function Lifetime(s: Sys, key: string): nat {
    if key in s.ended then s.ended[key] else 0
  }

  predicate Holds(r: Request, key: string) {
    r.key == key && (r.phase.Reserved? || r.phase.Worked?)
  }

  predicate Held(s: Sys, key: string) {
    exists pid :: pid in s.requests && Holds(s.requests[pid], key)
  }

  function SetPhase(s: Sys, pid: nat, phase: Phase): Sys
    requires pid in s.requests
  {
    s.(requests := s.requests[pid := s.requests[pid].(phase := phase)])
  }

  function End(s: Sys, pid: nat): Sys {
    s.(requests := s.requests - {pid})
  }

  function Answered(s: Sys, r: Request, entity: Entity): Sys {
    s.(answers := s.answers + [Answer(r.key, Lifetime(s, r.key), r.hash, entity)])
  }

  /** One step; nothing when the action is not enabled. */
  function Next(s: Sys, a: Action): Option<Sys> {
    match a
    case Begin(pid, key, hash) =>
      if pid in s.requests then None else Some(s.(requests := s.requests[pid := Request(key, hash, Fresh)]))
    case LookFirst(pid) =>
      // a payment looks for an answer before it validates anything
      if pid in s.requests && s.requests[pid].phase.Fresh? then
        var r := s.requests[pid];
        var stored := CompletedResponse(s.keys, r.key);
        if stored.None? then Some(s)
        else if stored.value.0 != r.hash then Some(End(s, pid))
        else Some(End(Answered(s, r, stored.value.1), pid))
      else None
    case TryReserve(pid) =>
      if pid in s.requests && s.requests[pid].phase.Fresh? then
        var r := s.requests[pid];
        if r.key in s.keys then Some(SetPhase(s, pid, Conflicted))
        // another transaction holds the key: the insert waits
        else if Held(s, r.key) then None
        else Some(SetPhase(s, pid, Reserved(KeyRow(r.hash, None))))
      else None
    case DoWork(pid) =>
      if pid in s.requests && s.requests[pid].phase.Reserved? then
        Some(SetPhase(s, pid, Worked(s.requests[pid].phase.pending.(response := Some(s.nextEntity)))).(nextEntity := s.nextEntity + 1))
      else None
    case Commit(pid) =>
      if pid in s.requests && s.requests[pid].phase.Worked? && s.requests[pid].phase.pending.response.Some? then
        var r := s.requests[pid];
        var entity := r.phase.pending.response.value;
        var t := s.(keys := s.keys[r.key := r.phase.pending],
                    done := s.done + [Work(entity, r.key, Lifetime(s, r.key), r.hash)]);
        Some(End(Answered(t, r, entity), pid))
      else None
    case Abort(pid) =>
      // refused work, a failed statement or a crash: nothing of the transaction remains
      if pid in s.requests then Some(End(s, pid)) else None
    case ReplayNow(pid) =>
      if pid in s.requests && s.requests[pid].phase.Conflicted? then
        var r := s.requests[pid];
        var stored := Replay(s.keys, r.key, r.hash);
        Some(End(if stored.Ok? then Answered(s, r, stored.value) else s, pid))
      else None
    case CleanUp(key) =>
      if key in s.keys then Some(s.(keys := s.keys - {key}, ended := s.ended[key := Lifetime(s, key) + 1])) else None
  }

  function Run(s: Sys, actions: seq<Action>): Option<Sys> {
    if actions == [] then Some(s) else
      var before := Run(s, actions[..|actions| - 1]);
      if before.None? then None else Next(before.value, actions[|actions| - 1])
  }

  ghost predicate Reaches(s: Sys, t: Sys) {
    exists actions :: Run(s, actions) == Some(t)
  }

  ghost predicate Reachable(s: Sys) {
    Reaches(INITIAL, s)
  }

  lemma OneMoreOf(s: Sys, steps: seq<Action>, t: Sys, a: Action, u: Sys)
    requires Run(s, steps) == Some(t) && Next(t, a) == Some(u)
    ensures Run(s, steps + [a]) == Some(u)
  {
    assert (steps + [a])[..|steps|] == steps;
  }

  lemma OneMoreStep(s: Sys, t: Sys, a: Action, u: Sys)
    requires Reaches(s, t) && Next(t, a) == Some(u)
    ensures Reaches(s, u)
  {
    var actions :| Run(s, actions) == Some(t);
    OneMoreOf(s, actions, t, a, u);
  }

  // ----- What every reachable state satisfies -----

  ghost predicate Made(s: Sys, key: string, lifetime: nat, hash: Hash, entity: Entity) {
    exists w :: 0 <= w < |s.done| && s.done[w] == Work(entity, key, lifetime, hash)
  }

  /** A committed key has its response, and the response is the work of this lifetime. */
  ghost predicate RowOk(s: Sys, key: string)
    requires key in s.keys
  {
    s.keys[key].response.Some? && Made(s, key, Lifetime(s, key), s.keys[key].requestHash, s.keys[key].response.value)
  }

  ghost predicate WorkOk(s: Sys, w: Work) {
    && w.entity < s.nextEntity
    && w.lifetime <= Lifetime(s, w.key)
    && (w.lifetime == Lifetime(s, w.key) ==> w.key in s.keys)
  }

  ghost predicate PhaseOk(s: Sys, r: Request) {
    && ((r.phase.Reserved? || r.phase.Worked?) ==> r.key !in s.keys && r.phase.pending.requestHash == r.hash)
    && (r.phase.Worked? ==> r.phase.pending.response.Some? && r.phase.pending.response.value < s.nextEntity)
  }

  ghost predicate OneHolder(s: Sys) {
    forall p, q :: p in s.requests && q in s.requests && Holds(s.requests[p], s.requests[p].key) && Holds(s.requests[q], s.requests[p].key) ==> p == q
  }

  ghost predicate OncePerLifetime(s: Sys) {
    forall v, w :: 0 <= v < w < |s.done| ==> !(s.done[v].key == s.done[w].key && s.done[v].lifetime == s.done[w].lifetime)
  }

  ghost predicate AnswerOk(s: Sys, a: Answer) {
    Made(s, a.key, a.lifetime, a.hash, a.entity)
  }

  ghost predicate Inv(s: Sys) {
    && (forall key :: key in s.keys ==> RowOk(s, key))
    && (forall w :: 0 <= w < |s.done| ==> WorkOk(s, s.done[w]))
    && (forall pid :: pid in s.requests ==> PhaseOk(s, s.requests[pid]))
    && OneHolder(s)
    && OncePerLifetime(s)
    && (forall i :: 0 <= i < |s.answers| ==> AnswerOk(s, s.answers[i]))
  }

  lemma MadeStays(s: Sys, t: Sys, key: string, lifetime: nat, hash: Hash, entity: Entity)
    requires s.done <= t.done && Made(s, key, lifetime, hash, entity)
    ensures Made(t, key, lifetime, hash, entity)
  {
    var w :| 0 <= w < |s.done| && s.done[w] == Work(entity, key, lifetime, hash);
    assert t.done[w] == Work(entity, key, lifetime, hash);
  }

  /** A step that touches neither the key table nor the committed work keeps what is said about them. */
  lemma TablesKept(s: Sys, t: Sys)
    requires Inv(s) && t.keys == s.keys && t.done == s.done && t.ended == s.ended && t.nextEntity >= s.nextEntity
    ensures forall key :: key in t.keys ==> RowOk(t, key)
    ensures forall w :: 0 <= w < |t.done| ==> WorkOk(t, t.done[w])
    ensures OncePerLifetime(t)
  {
    forall key | key in t.keys ensures RowOk(t, key) {
      assert RowOk(s, key);
      MadeStays(s, t, key, Lifetime(s, key), s.keys[key].requestHash, s.keys[key].response.value);
    }
    forall w | 0 <= w < |t.done| ensures WorkOk(t, t.done[w]) {
      assert WorkOk(s, s.done[w]);
    }
  }

  lemma AnswersKept(s: Sys, t: Sys)
    requires Inv(s) && s.done <= t.done && t.answers == s.answers
    ensures forall i :: 0 <= i < |t.answers| ==> AnswerOk(t, t.answers[i])
  {
    forall i | 0 <= i < |t.answers| ensures AnswerOk(t, t.answers[i]) {
      assert AnswerOk(s, s.answers[i]);
      MadeStays(s, t, s.answers[i].key, s.answers[i].lifetime, s.answers[i].hash, s.answers[i].entity);
    }
  }

  lemma AnswerAdded(s: Sys, t: Sys, a: Answer)
    requires Inv(s) && s.done <= t.done && t.answers == s.answers + [a] && AnswerOk(t, a)
    ensures forall i :: 0 <= i < |t.answers| ==> AnswerOk(t, t.answers[i])
  {
    forall i | 0 <= i < |t.answers| ensures AnswerOk(t, t.answers[i]) {
      if i < |s.answers| {
        assert AnswerOk(s, s.answers[i]);
        MadeStays(s, t, s.answers[i].key, s.answers[i].lifetime, s.answers[i].hash, s.answers[i].entity);
      }
    }
  }

  /** A request that ends, with or without an answer, leaves the others as they were. */
  lemma EndKeeps(s: Sys, pid: nat, t: Sys)
    requires Inv(s) && t == End(s, pid).(answers := t.answers)
    requires t.answers == s.answers || exists a :: t.answers == s.answers + [a] && AnswerOk(s, a)
    ensures Inv(t)
  {
    TablesKept(s, t);
    if t.answers == s.answers {
      AnswersKept(s, t);
    } else {
      var a :| t.answers == s.answers + [a] && AnswerOk(s, a);
      MadeStays(s, t, a.key, a.lifetime, a.hash, a.entity);
      AnswerAdded(s, t, a);
    }
    forall p | p in t.requests ensures PhaseOk(t, t.requests[p]) {
      assert PhaseOk(s, s.requests[p]);
    }
  }

  lemma StoredAnswerOk(s: Sys, key: string)
    requires Inv(s) && key in s.keys
    ensures s.keys[key].response.Some?
    ensures AnswerOk(s, Answer(key, Lifetime(s, key), s.keys[key].requestHash, s.keys[key].response.value))
  {
    assert RowOk(s, key);
  }

  lemma PhaseKeeps(s: Sys, t: Sys, pid: nat)
    requires Inv(s) && t.keys == s.keys && t.done == s.done && t.ended == s.ended && t.nextEntity >= s.nextEntity && t.answers == s.answers
    requires pid in t.requests && t.requests.Keys == s.requests.Keys + {pid}
    requires forall p :: p in s.requests && p != pid ==> t.requests[p] == s.requests[p]
    requires PhaseOk(t, t.requests[pid])
    requires Holds(t.requests[pid], t.requests[pid].key) ==>
               forall p :: p in s.requests && p != pid ==> !Holds(s.requests[p], t.requests[pid].key)
    ensures Inv(t)
  {
    TablesKept(s, t);
    AnswersKept(s, t);
    forall p | p in t.requests ensures PhaseOk(t, t.requests[p]) {
      if p != pid {
        assert PhaseOk(s, s.requests[p]);
      }
    }
  }

  /** The key was free, so nothing was done under it in this lifetime. */
  lemma CommitIsFirst(s: Sys, key: string)
    requires Inv(s) && key !in s.keys
    ensures forall w :: 0 <= w < |s.done| ==> !(s.done[w].key == key && s.done[w].lifetime == Lifetime(s, key))
  {
    forall w | 0 <= w < |s.done| ensures !(s.done[w].key == key && s.done[w].lifetime == Lifetime(s, key)) {
      assert WorkOk(s, s.done[w]);
    }
  }

  lemma CommittedRowsOk(s: Sys, t: Sys, key: string, row: KeyRow)
    requires Inv(s) && t.ended == s.ended && t.keys == s.keys[key := row] && row.response.Some? && s.done <= t.done
    requires Made(t, key, Lifetime(t, key), row.requestHash, row.response.value)
    ensures forall k :: k in t.keys ==> RowOk(t, k)
  {
    forall k | k in t.keys ensures RowOk(t, k) {
      if k != key {
        assert RowOk(s, k);
        MadeStays(s, t, k, Lifetime(s, k), s.keys[k].requestHash, s.keys[k].response.value);
      }
    }
  }

  lemma CommittedWorkOk(s: Sys, t: Sys, made: Work)
    requires Inv(s) && t.ended == s.ended && t.nextEntity == s.nextEntity && t.done == s.done + [made] && made.entity < t.nextEntity
    requires made.lifetime == Lifetime(t, made.key) && made.key in t.keys && forall k :: k in s.keys ==> k in t.keys
    ensures forall w :: 0 <= w < |t.done| ==> WorkOk(t, t.done[w])
  {
    forall w | 0 <= w < |t.done| ensures WorkOk(t, t.done[w]) {
      if w < |s.done| {
        assert WorkOk(s, s.done[w]);
      }
    }
  }

  lemma CommitKeeps(s: Sys, pid: nat, t: Sys)
    requires Inv(s) && Next(s, Commit(pid)) == Some(t)
    ensures Inv(t)
  {
    var r := s.requests[pid];
    var entity := r.phase.pending.response.value;
    var made := Work(entity, r.key, Lifetime(s, r.key), r.hash);
    assert PhaseOk(s, r);
    assert t.done == s.done + [made];
    assert t.done[|s.done|] == made;
    assert Made(t, r.key, Lifetime(t, r.key), r.hash, entity);
    AnswerAdded(s, t, Answer(r.key, Lifetime(s, r.key), r.hash, entity));
    CommittedRowsOk(s, t, r.key, r.phase.pending);
    CommittedWorkOk(s, t, made);
    CommitIsFirst(s, r.key);
    CommittedOnce(s, t, made);
    CommittedPhasesOk(s, t, pid);
  }

  lemma CommittedOnce(s: Sys, t: Sys, made: Work)
    requires OncePerLifetime(s) && t.done == s.done + [made]
    requires forall w :: 0 <= w < |s.done| ==> !(s.done[w].key == made.key && s.done[w].lifetime == made.lifetime)
    ensures OncePerLifetime(t)
  {
  }

  lemma CommittedPhasesOk(s: Sys, t: Sys, pid: nat)
    requires Inv(s) && pid in s.requests && Holds(s.requests[pid], s.requests[pid].key)
    requires t.requests == s.requests - {pid} && t.nextEntity == s.nextEntity && t.keys.Keys == s.keys.Keys + {s.requests[pid].key}
    ensures (forall p :: p in t.requests ==> PhaseOk(t, t.requests[p])) && OneHolder(t)
  {
    forall p | p in t.requests ensures PhaseOk(t, t.requests[p]) {
      assert PhaseOk(s, s.requests[p]);
    }
  }

  lemma CleanUpKeeps(s: Sys, key: string, t: Sys)
    requires Inv(s) && Next(s, CleanUp(key)) == Some(t)
    ensures Inv(t)
  {
    AnswersKept(s, t);
    forall k | k in t.keys ensures RowOk(t, k) {
      assert RowOk(s, k);
      MadeStays(s, t, k, Lifetime(s, k), s.keys[k].requestHash, s.keys[k].response.value);
    }
    forall w | 0 <= w < |t.done| ensures WorkOk(t, t.done[w]) {
      assert WorkOk(s, s.done[w]);
    }
    forall p | p in t.requests ensures PhaseOk(t, t.requests[p]) {
      assert PhaseOk(s, s.requests[p]);
    }
  }

  lemma LookFirstKeeps(s: Sys, pid: nat, t: Sys)
    requires Inv(s) && Next(s, LookFirst(pid)) == Some(t)
    ensures Inv(t)
  {
    var r := s.requests[pid];
    if CompletedResponse(s.keys, r.key).Some? {
      StoredAnswerOk(s, r.key);
      EndKeeps(s, pid, t);
    }
  }

  lemma ReplayKeeps(s: Sys, pid: nat, t: Sys)
    requires Inv(s) && Next(s, ReplayNow(pid)) == Some(t)
    ensures Inv(t)
  {
    var r := s.requests[pid];
    if Replay(s.keys, r.key, r.hash).Ok? {
      StoredAnswerOk(s, r.key);
    }
    EndKeeps(s, pid, t);
  }

  lemma StepKeeps(s: Sys, a: Action, t: Sys)
    requires Inv(s) && Next(s, a) == Some(t)
    ensures Inv(t)
  {
    match a
    case Begin(pid, key, hash) => PhaseKeeps(s, t, pid);
    case LookFirst(pid) => LookFirstKeeps(s, pid, t);
    case TryReserve(pid) => PhaseKeeps(s, t, pid);
    case DoWork(pid) =>
      assert PhaseOk(s, s.requests[pid]);
      assert Holds(s.requests[pid], s.requests[pid].key);
      PhaseKeeps(s, t, pid);
    case Commit(pid) => CommitKeeps(s, pid, t);
    case Abort(pid) => EndKeeps(s, pid, t);
    case ReplayNow(pid) => ReplayKeeps(s, pid, t);
    case CleanUp(key) => CleanUpKeeps(s, key, t);
  }

  lemma {:induction false} RunKeeps(actions: seq<Action>, s: Sys)
    requires Run(INITIAL, actions) == Some(s)
    ensures Inv(s)
    decreases |actions|
  {
    if actions != [] {
      var before := Run(INITIAL, actions[..|actions| - 1]).value;
      RunKeeps(actions[..|actions| - 1], before);
      StepKeeps(before, actions[|actions| - 1], s);
    }
  }

  lemma ReachableInv(s: Sys)
    requires Reachable(s)
    ensures Inv(s)
  {
    var actions :| Run(INITIAL, actions) == Some(s);
    RunKeeps(actions, s);
  }

  // ----- Theorems -----

  /** Within a key's lifetime at most one unit of work commits, whatever interleaves. */
  lemma AtMostOnce(s: Sys, v: nat, w: nat)
    requires Reachable(s) && v < |s.done| && w < |s.done|
    requires s.done[v].key == s.done[w].key && s.done[v].lifetime == s.done[w].lifetime
    ensures v == w
  {
    ReachableInv(s);
  }

  /** Every successful answer within a key's lifetime denotes the same entity, and came from an equal fingerprint. */
  lemma AnswersAgree(s: Sys, i: nat, j: nat)
    requires Reachable(s) && i < |s.answers| && j < |s.answers|
    requires s.answers[i].key == s.answers[j].key && s.answers[i].lifetime == s.answers[j].lifetime
    ensures s.answers[i].entity == s.answers[j].entity && s.answers[i].hash == s.answers[j].hash
    ensures Made(s, s.answers[i].key, s.answers[i].lifetime, s.answers[i].hash, s.answers[i].entity)
  {
    ReachableInv(s);
    var a, b := s.answers[i], s.answers[j];
    assert AnswerOk(s, a) && AnswerOk(s, b);
    var v :| 0 <= v < |s.done| && s.done[v] == Work(a.entity, a.key, a.lifetime, a.hash);
    var w :| 0 <= w < |s.done| && s.done[w] == Work(b.entity, b.key, b.lifetime, b.hash);
    AtMostOnce(s, v, w);
  }

  /** So two requests answered under one key, within its lifetime, had the same scope and said the same thing. */
  lemma SameRequest(s: Sys, i: nat, j: nat, scope: Text, a: Json, scope': Text, b: Json)
    requires Reachable(s) && i < |s.answers| && j < |s.answers| && Wf(a) && Wf(b)
    requires s.answers[i].key == s.answers[j].key && s.answers[i].lifetime == s.answers[j].lifetime
    requires s.answers[i].hash == Preimage(scope, a) && s.answers[j].hash == Preimage(scope', b)
    ensures scope == scope' && Denote(a) == Denote(b)
  {
    AnswersAgree(s, i, j);
    PreimageExact(scope, a, scope', b);
  }

  /** A committed key always has its response, so the replay of an equal request never fails while the row lives. */
  lemma CommittedKeyAnswers(s: Sys, key: string)
    requires Reachable(s) && key in s.keys
    ensures Replay(s.keys, key, s.keys[key].requestHash).Ok?
  {
    ReachableInv(s);
    assert RowOk(s, key);
  }

  /**
   Refused work leaves the key free: the table is as it was, and the next request
   with that key is let through to do the work itself.
   */
  lemma RefusedLeavesKeyFree(s: Sys, pid: nat, t: Sys, next: nat)
    requires Reachable(s) && Next(s, Abort(pid)) == Some(t)
    requires Holds(s.requests[pid], s.requests[pid].key)
    requires next in t.requests && t.requests[next].phase.Fresh? && t.requests[next].key == s.requests[pid].key
    ensures t.keys == s.keys && t.done == s.done && t.answers == s.answers
    ensures Next(t, TryReserve(next)).Some? && Next(t, TryReserve(next)).value.requests[next].phase.Reserved?
  {
    ReachableInv(s);
    assert PhaseOk(s, s.requests[pid]);
  }

  /** While a key is held by a transaction in flight, no other request gets past the reservation. */
  lemma HeldKeyBlocks(s: Sys, pid: nat, other: nat)
    requires Reachable(s) && pid in s.requests && other in s.requests
    requires Holds(s.requests[pid], s.requests[pid].key) && s.requests[other].phase.Fresh? && s.requests[other].key == s.requests[pid].key
    ensures Next(s, TryReserve(other)).None?
  {
    ReachableInv(s);
    assert PhaseOk(s, s.requests[pid]);
  }

  lemma {:induction false} RunsCompose(r: Sys, s: Sys, actions: seq<Action>, t: Sys)
    requires Reaches(r, s) && Run(s, actions) == Some(t)
    ensures Reaches(r, t)
    decreases |actions|
  {
    if actions != [] {
      var u := Run(s, actions[..|actions| - 1]).value;
      RunsCompose(r, s, actions[..|actions| - 1], u);
      OneMoreStep(r, u, actions[|actions| - 1], t);
    }
  }

  lemma StaysReachableIf(s: Sys, t: Sys)
    requires Reaches(s, t)
    ensures Reachable(s) ==> Reachable(t)
  {
    if Reachable(s) {
      var actions :| Run(s, actions) == Some(t);
      RunsCompose(INITIAL, s, actions, t);
    }
  }

  // ----- The program's own requests are runs -----

  /** A request reaches the reservation. */
  lemma ReservationRuns(s: Sys, pid: nat, key: string, hash: Hash) returns (t: Sys)
    requires pid !in s.requests && !Held(s, key)
    ensures Run(s, [Begin(pid, key, hash), TryReserve(pid)]) == Some(t)
    ensures t == s.(requests := s.requests[pid := Request(key, hash, if key in s.keys then Conflicted else Reserved(KeyRow(hash, None)))])
  {
    var begun := s.(requests := s.requests[pid := Request(key, hash, Fresh)]);
    OneMoreOf(s, [], s, Begin(pid, key, hash), begun);
    assert [] + [Begin(pid, key, hash)] == [Begin(pid, key, hash)];
    t := ReserveStep(s, pid, key, hash);
    OneMoreOf(s, [Begin(pid, key, hash)], begun, TryReserve(pid), t);
    assert [Begin(pid, key, hash)] + [TryReserve(pid)] == [Begin(pid, key, hash), TryReserve(pid)];
  }

  lemma ReserveStep(s: Sys, pid: nat, key: string, hash: Hash) returns (t: Sys)
    requires pid !in s.requests && !Held(s, key)
    ensures Next(s.(requests := s.requests[pid := Request(key, hash, Fresh)]), TryReserve(pid)) == Some(t)
    ensures t == s.(requests := s.requests[pid := Request(key, hash, if key in s.keys then Conflicted else Reserved(KeyRow(hash, None)))])
  {
    var begun := s.(requests := s.requests[pid := Request(key, hash, Fresh)]);
    assert !Held(begun, key) by {
      forall p | p in begun.requests ensures !Holds(begun.requests[p], key) {
      }
    }
    t := s.(requests := s.requests[pid := Request(key, hash, if key in s.keys then Conflicted else Reserved(KeyRow(hash, None)))]);
    assert t.requests == begun.requests[pid := t.requests[pid]];
  }

  /** The steps one request takes with nobody in its way. */
  function StepsOf(s: Sys, pid: nat, key: string, hash: Hash, refused: bool): seq<Action> {
    [Begin(pid, key, hash), TryReserve(pid)]
    + if key in s.keys then [ReplayNow(pid)] else if refused then [Abort(pid)] else [DoWork(pid), Commit(pid)]
  }

  /** A request whose key is taken: what the key answered, or a conflict. */
  lemma ReplayRuns(s: Sys, pid: nat, key: string, hash: Hash, refused: bool) returns (t: Sys)
    requires pid !in s.requests && !Held(s, key) && key in s.keys
    ensures Run(s, StepsOf(s, pid, key, hash, refused)) == Some(t)
    ensures t == match Replay(s.keys, key, hash)
                 case Ok(entity) => s.(answers := s.answers + [Answer(key, Lifetime(s, key), hash, entity)])
                 case Err(_) => s
  {
    var conflicted := ReservationRuns(s, pid, key, hash);
    t := match Replay(s.keys, key, hash)
         case Ok(entity) => s.(answers := s.answers + [Answer(key, Lifetime(s, key), hash, entity)])
         case Err(_) => s;
    assert conflicted.requests - {pid} == s.requests;
    OneMoreOf(s, [Begin(pid, key, hash), TryReserve(pid)], conflicted, ReplayNow(pid), t);
  }

  /** A request whose work is refused reserves the key, rolls back and leaves nothing behind. */
  lemma RefusalRuns(s: Sys, pid: nat, key: string, hash: Hash)
    requires pid !in s.requests && !Held(s, key) && key !in s.keys
    ensures Run(s, StepsOf(s, pid, key, hash, true)) == Some(s)
  {
    var reserved := ReservationRuns(s, pid, key, hash);
    assert reserved.requests - {pid} == s.requests;
    OneMoreOf(s, [Begin(pid, key, hash), TryReserve(pid)], reserved, Abort(pid), s);
  }

  /** A request that does the work. */
  lemma CommitRuns(s: Sys, pid: nat, key: string, hash: Hash) returns (t: Sys)
    requires pid !in s.requests && !Held(s, key) && key !in s.keys
    ensures Run(s, StepsOf(s, pid, key, hash, false)) == Some(t)
    ensures t == s.(keys := s.keys[key := KeyRow(hash, Some(s.nextEntity))], nextEntity := s.nextEntity + 1,
                    done := s.done + [Work(s.nextEntity, key, Lifetime(s, key), hash)],
                    answers := s.answers + [Answer(key, Lifetime(s, key), hash, s.nextEntity)])
  {
    var reserved := ReservationRuns(s, pid, key, hash);
    var row := KeyRow(hash, Some(s.nextEntity));
    var worked := s.(requests := s.requests[pid := Request(key, hash, Worked(row))], nextEntity := s.nextEntity + 1);
    assert worked.requests == reserved.requests[pid := worked.requests[pid]];
    var steps := [Begin(pid, key, hash), TryReserve(pid)];
    OneMoreOf(s, steps, reserved, DoWork(pid), worked);
    t := s.(keys := s.keys[key := row], nextEntity := s.nextEntity + 1,
            done := s.done + [Work(s.nextEntity, key, Lifetime(s, key), hash)],
            answers := s.answers + [Answer(key, Lifetime(s, key), hash, s.nextEntity)]);
    assert worked.requests - {pid} == s.requests;
    OneMoreOf(s, steps + [DoWork(pid)], worked, Commit(pid), t);
    assert steps + [DoWork(pid)] + [Commit(pid)] == StepsOf(s, pid, key, hash, false);
  }

  /** A key answers a request exactly when the request it stands for was the same and is done, and then with what that one made. */
  lemma ReplayAnswersIff(keys: Keys, key: string, hash: Hash, entity: Entity)
    ensures Replay(keys, key, hash) == Ok(entity) <==> key in keys && keys[key].requestHash == hash && keys[key].response == Some(entity)
    ensures Replay(keys, key, hash).Ok? || Replay(keys, key, hash) == Err(IdempotencyConflict)
    ensures CompletedResponse(keys, key) == Some((hash, entity)) <==> key in keys && keys[key].requestHash == hash && keys[key].response == Some(entity)
  {
  }

  /** A payment that looks for an answer first: found for the same request it is given, found for another it is a conflict, not found the request goes on. */
  lemma LookFirstAnswers(s: Sys, pid: nat)
    requires pid in s.requests && s.requests[pid].phase.Fresh?
    ensures var r := s.requests[pid]; var gone := s.(requests := s.requests - {pid});
            Next(s, LookFirst(pid)) ==
            Some(if r.key !in s.keys || s.keys[r.key].response.None? then s
                 else if s.keys[r.key].requestHash != r.hash then gone
                 else gone.(answers := s.answers + [Answer(r.key, Lifetime(s, r.key), r.hash, s.keys[r.key].response.value)]))
  {
  }

  /** Sending a request again: the second is answered with what the first made, and makes nothing. */
  lemma TwiceIsOnce(s: Sys, pid: nat, key: string, hash: Hash, refused: bool) returns (t: Sys, u: Sys)
    requires pid !in s.requests && !Held(s, key) && key !in s.keys
    ensures Run(s, StepsOf(s, pid, key, hash, false)) == Some(t) && Run(t, StepsOf(t, pid, key, hash, refused)) == Some(u)
    ensures u.done == t.done == s.done + [Work(s.nextEntity, key, Lifetime(s, key), hash)]
    ensures u.keys == t.keys && u.nextEntity == t.nextEntity
    ensures u.answers == s.answers + [Answer(key, Lifetime(s, key), hash, s.nextEntity), Answer(key, Lifetime(s, key), hash, s.nextEntity)]
  {
    t := CommitRuns(s, pid, key, hash);
    assert !Held(t, key) by {
      assert t.requests == s.requests;
    }
    u := ReplayRuns(t, pid, key, hash, refused);
  }

  /** The key table. Entities are numbered as they are made. */
  class KeyStore {
    var keys: Keys
    var nextEntity: Entity

    ghost predicate Is(s: Sys)
      reads this
    {
      keys == s.keys && nextEntity == s.nextEntity
    }

    constructor ()
      ensures Is(INITIAL)
    {
      keys, nextEntity := map[], 0;
    }

    /** The insert that claims a key, refused by the primary key if it is taken. */
    method ReserveKey(key: string, hash: Hash) returns (r: Result<(), Refusal>)
      modifies this`keys
      ensures r.Ok? <==> key !in old(keys)
      ensures r.Ok? ==> keys == old(keys)[key := KeyRow(hash, None)]
      ensures r.Err? ==> r.error == KeyAlreadyReserved && keys == old(keys)
    {
      if key in keys {
        return Err(KeyAlreadyReserved);
      }
      keys := keys[key := KeyRow(hash, None)];
      r := Ok(());
    }

    /** A reservation without a response has not answered anything. */
    method CompletedResponseFor(key: string) returns (r: Option<(Hash, Entity)>)
      ensures r == CompletedResponse(keys, key)
    {
      if key !in keys || keys[key].response.None? {
        return None;
      }
      r := Some((keys[key].requestHash, keys[key].response.value));
    }

    method ReplayKey(key: string, hash: Hash) returns (r: Result<Entity, Refusal>)
      ensures r == Replay(keys, key, hash)
    {
      if key !in keys {
        return Err(IdempotencyConflict);
      }
      var stored := keys[key];
      if stored.requestHash != hash {
        return Err(IdempotencyConflict);
      }
      if stored.response.None? {
        return Err(IdempotencyConflict);
      }
      r := Ok(stored.response.value);
    }

    /**
     A whole request: reserve, work, complete and commit; or roll everything back;
     or replay. These are its steps in the protocol, and what it answers is what
     that run records.
     */
    method Write(key: string, hash: Hash, refused: bool, ghost s: Sys, ghost pid: nat)
        returns (r: Result<Entity, Refusal>, replayed: bool, ghost t: Sys)
      requires Is(s) && pid !in s.requests && !Held(s, key)
      modifies this
      ensures Run(s, StepsOf(s, pid, key, hash, refused)) == Some(t) && Is(t) && t.requests == s.requests && t.ended == s.ended && (Reachable(s) ==> Reachable(t))
      ensures t.answers == if r.Ok? then s.answers + [Answer(key, Lifetime(s, key), hash, r.value)] else s.answers
      ensures t.done == if r.Ok? && !replayed then s.done + [Work(r.value, key, Lifetime(s, key), hash)] else s.done
      ensures key in s.keys ==> (replayed <==> r.Ok?) && r == Replay(s.keys, key, hash)
      ensures key !in s.keys ==> !replayed && (r.Ok? <==> !refused) && (refused ==> t == s)
    {
      var saved := keys;
      var reserved := ReserveKey(key, hash);
      if reserved.Err? {
        t := ReplayRuns(s, pid, key, hash, refused);
        r := ReplayKey(key, hash);
        replayed := r.Ok?;
        StaysReachableIf(s, t);
        return;
      }
      replayed := false;
      if refused {
        RefusalRuns(s, pid, key, hash);
        keys := saved;
        return Err(WorkRefused), false, s;
      }
      t := CommitRuns(s, pid, key, hash);
      StaysReachableIf(s, t);
      var entity := nextEntity;
      nextEntity := nextEntity + 1;
      keys := keys[key := keys[key].(response := Some(entity))];
      r := Ok(entity);
    }
  }
}
