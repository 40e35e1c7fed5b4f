/**
 Refresh-token families. A login starts a family; each rotation retires the
 token presented and then inserts its child; presenting a retired token, or
 logging out, revokes the family. Every statement is its own step, so a
 rotation that has retired its parent but not yet inserted its child is visible
 to everyone else as a family with no live token.
 */
module RefreshTokens {
  import opened Wrappers

  /** A `refresh_tokens` row. Its id, its position, stands for the secret that hashes to it. */
  datatype Token = Token(user: nat, family: nat, expiresAt: int, revoked: bool)

  // ----- Statements -----

  function Retire(tokens: seq<Token>, id: nat): seq<Token> {
    if id < |tokens| then tokens[id := tokens[id].(revoked := true)] else tokens
  }

  function RevokeFamily(tokens: seq<Token>, family: nat): seq<Token> {
    seq(|tokens|, i requires 0 <= i < |tokens| => if tokens[i].family == family then tokens[i].(revoked := true) else tokens[i])
  }

  predicate LiveAt(tokens: seq<Token>, id: nat) {
    id < |tokens| && !tokens[id].revoked
  }

  // ----- Every interleaving -----

  datatype Process =
    /** A family with a token still to be inserted: a rotation past its guarded update, or a login. */
    | Retired(user: nat, family: nat, expiresAt: int)
    | Issuing(user: nat, family: nat)
    | Unmatched(token: nat)
    | Revoking(family: nat)

  datatype Sys = Sys(tokens: seq<Token>, families: nat, procs: map<nat, Process>, now: int)

  const INITIAL: Sys := Sys([], 0, map[], 0)

  datatype Action =
    | StartLogin(pid: nat, user: nat)
    | TryRetire(pid: nat, token: nat)
    | Vet(pid: nat, active: bool)
    | Issue(pid: nat, expiresAt: int)
    | LookUp(pid: nat)
    | ReadForLogout(pid: nat, user: nat, token: nat)
    | Revoke(pid: nat)
    | Crash(pid: nat)
    /** The clock never goes back. */
    | Pass(time: nat)

  function Spawn(s: Sys, pid: nat, p: Process): Option<Sys> {
    if pid in s.procs then None else Some(s.(procs := s.procs[pid := p]))
  }

  function End(s: Sys, pid: nat): Sys {
    s.(procs := s.procs - {pid})
  }

  function Next(s: Sys, a: Action): Option<Sys> {
    match a
    case StartLogin(pid, user) => Spawn(s.(families := s.families + 1), pid, Issuing(user, s.families))
    case TryRetire(pid, token) =>
      if LiveAt(s.tokens, token)
      then Spawn(s.(tokens := Retire(s.tokens, token)), pid, Retired(s.tokens[token].user, s.tokens[token].family, s.tokens[token].expiresAt))
      else Spawn(s, pid, Unmatched(token))
    case Vet(pid, active) =>
      if pid in s.procs && s.procs[pid].Retired? then
        var p := s.procs[pid];
        if p.expiresAt <= s.now || !active then Some(End(s, pid))
        else Some(s.(procs := s.procs[pid := Issuing(p.user, p.family)]))
      else None
    case Issue(pid, expiresAt) =>
      if pid in s.procs && s.procs[pid].Issuing? then
        var p := s.procs[pid];
        Some(End(s.(tokens := s.tokens + [Token(p.user, p.family, expiresAt, false)]), pid))
      else None
    case LookUp(pid) =>
      if pid in s.procs && s.procs[pid].Unmatched? then
        var token := s.procs[pid].token;
        if token < |s.tokens| then Some(s.(procs := s.procs[pid := Revoking(s.tokens[token].family)])) else Some(End(s, pid))
      else None
    case ReadForLogout(pid, user, token) =>
      if token < |s.tokens| && s.tokens[token].user == user then Spawn(s, pid, Revoking(s.tokens[token].family)) else None
    case Revoke(pid) =>
      if pid in s.procs && s.procs[pid].Revoking?
      then Some(End(s.(tokens := RevokeFamily(s.tokens, s.procs[pid].family)), pid)) else None
    case Crash(pid) =>
      if pid in s.procs then Some(End(s, pid)) else None
    case Pass(time) => Some(s.(now := s.now + time))
  }

  function Run(s: Sys, actions: seq<Action>): Option<Sys> {
    if actions == [] then Some(s) else
      var before := Run(s, actions[..|actions| - 1]);
      if before.None? then None else Next(before.value, actions[|actions| - 1])
  }

  ghost predicate Reaches(s: Sys, t: Sys) {
    exists actions :: Run(s, actions) == Some(t)
  }

  ghost predicate Reachable(s: Sys) {
    Reaches(INITIAL, s)
  }

  // ----- At most one live token per family -----

  /** The request will insert a token of this family unless it is refused or dies. */
  predicate InFlight(p: Process, family: nat) {
    (p.Retired? || p.Issuing?) && p.family == family
  }

  /** Token `i` is live and belongs to the family. */
  predicate LiveOf(tokens: seq<Token>, i: nat, family: nat) {
    LiveAt(tokens, i) && tokens[i].family == family
  }

  ghost predicate Inv(s: Sys) {
    && (forall i :: 0 <= i < |s.tokens| ==> s.tokens[i].family < s.families)
    && (forall pid :: pid in s.procs && !s.procs[pid].Unmatched? ==> s.procs[pid].family < s.families)
    && (forall i: nat, j: nat, f :: LiveOf(s.tokens, i, f) && LiveOf(s.tokens, j, f) ==> i == j)
    && (forall i: nat, pid, f :: pid in s.procs && LiveOf(s.tokens, i, f) ==> !InFlight(s.procs[pid], f))
    && (forall p, q, f :: p in s.procs && q in s.procs && InFlight(s.procs[p], f) && InFlight(s.procs[q], f) ==> p == q)
  }

  /** The request can still insert a token of this family: it is past its checks, or the token it retired has not expired. */
  predicate CanIssue(p: Process, family: nat, now: int) {
    InFlight(p, family) && (p.Retired? ==> p.expiresAt > now)
  }

  /** No live token and none that can still come. */
  ghost predicate Dead(s: Sys, family: nat) {
    && family < s.families
    && (forall i: nat :: !LiveOf(s.tokens, i, family))
    && (forall pid :: pid in s.procs ==> !CanIssue(s.procs[pid], family, s.now))
  }

  lemma StepKeeps(s: Sys, a: Action, t: Sys)
    requires Inv(s) && Next(s, a) == Some(t)
    ensures Inv(t)
  {
    if a.TryRetire? {
      RetireKeeps(s, a, t);
    } else if a.Issue? {
      IssueKeeps(s, a, t);
    } else if a.Revoke? {
      RevokeKeeps(s, a, t);
    } else {
      assert t.tokens == s.tokens;
    }
  }

  lemma RetireKeeps(s: Sys, a: Action, t: Sys)
    requires Inv(s) && a.TryRetire? && Next(s, a) == Some(t)
    ensures Inv(t)
  {
    assert forall i: nat, f :: LiveOf(t.tokens, i, f) ==> LiveOf(s.tokens, i, f);
    if LiveAt(s.tokens, a.token) {
      assert LiveOf(s.tokens, a.token, s.tokens[a.token].family);
    }
  }

  lemma IssueKeeps(s: Sys, a: Action, t: Sys)
    requires Inv(s) && a.Issue? && Next(s, a) == Some(t)
    ensures Inv(t)
  {
    assert InFlight(s.procs[a.pid], s.procs[a.pid].family);
    assert forall i: nat, f :: LiveOf(t.tokens, i, f) ==> LiveOf(s.tokens, i, f) || (i == |s.tokens| && f == s.procs[a.pid].family);
  }

  lemma RevokeKeeps(s: Sys, a: Action, t: Sys)
    requires Inv(s) && a.Revoke? && Next(s, a) == Some(t)
    ensures Inv(t)
  {
    assert forall i: nat, f :: LiveOf(t.tokens, i, f) ==> LiveOf(s.tokens, i, f);
  }

  /** Nothing revives a dead family: a replay finds its tokens retired and a new login starts another family. */
  lemma StepKeepsDead(s: Sys, a: Action, t: Sys, family: nat)
    requires Inv(s) && Dead(s, family) && Next(s, a) == Some(t)
    ensures Dead(t, family)
  {
    forall i: nat ensures !LiveOf(t.tokens, i, family) {
      assert !LiveOf(s.tokens, i, family);
    }
    if a.TryRetire? && LiveAt(s.tokens, a.token) {
      assert !LiveOf(s.tokens, a.token, family);
    }
  }

  lemma {:induction false} RunKeeps(s: Sys, actions: seq<Action>, t: Sys)
    requires Inv(s) && Run(s, actions) == Some(t)
    ensures Inv(t)
    ensures forall f :: Dead(s, f) ==> Dead(t, f)
    decreases |actions|
  {
    if actions != [] {
      var before := Run(s, actions[..|actions| - 1]).value;
      RunKeeps(s, actions[..|actions| - 1], before);
      StepKeeps(before, actions[|actions| - 1], t);
      forall f | Dead(s, f) ensures Dead(t, f) {
        StepKeepsDead(before, actions[|actions| - 1], t, f);
      }
    }
  }

  lemma ReachableInv(s: Sys)
    requires Reachable(s)
    ensures Inv(s)
  {
    var actions :| Run(INITIAL, actions) == Some(s);
    RunKeeps(INITIAL, actions, s);
  }

  /** Everything that is, or is about to become, the live token of a family. */
  ghost function Claims(s: Sys, family: nat): set<(bool, nat)> {
    (set i: nat | i < |s.tokens| && LiveOf(s.tokens, i, family) :: (true, i))
    + (set pid: nat | pid in s.procs && InFlight(s.procs[pid], family) :: (false, pid))
  }

  /**
   In every interleaving of login, rotation, replay and logout a family has at
   most one live token, counting a rotation that has retired its parent but not
   yet inserted its child.
   */
  lemma AtMostOneLive(s: Sys, family: nat)
    requires Reachable(s)
    ensures |Claims(s, family)| <= 1
  {
    ReachableInv(s);
    var claims := Claims(s, family);
    if claims != {} {
      var c :| c in claims;
      forall d | d in claims ensures d == c {
      }
      assert claims == {c};
    }
  }

  /** A family with no live token and no rotation that can still issue one stays dead in every continuation. */
  lemma DeadForever(s: Sys, t: Sys, family: nat)
    requires Reachable(s) && Reaches(s, t) && Dead(s, family)
    ensures Dead(t, family)
  {
    ReachableInv(s);
    var actions :| Run(s, actions) == Some(t);
    RunKeeps(s, actions, t);
  }

  // ----- What revoking a family does not do -----

  ghost predicate RotationInFlight(s: Sys, family: nat) {
    exists pid :: pid in s.procs && CanIssue(s.procs[pid], family, s.now)
  }

  /** The family has a live, unexpired token in some continuation. */
  ghost predicate Revivable(s: Sys, family: nat) {
    exists t, i: nat :: Reaches(s, t) && LiveOf(t.tokens, i, family) && t.tokens[i].expiresAt > t.now
  }

  lemma OneMoreStep(s: Sys, t: Sys, a: Action, u: Sys)
    requires Reaches(s, t) && Next(t, a) == Some(u)
    ensures Reaches(s, u)
  {
    var actions :| Run(s, actions) == Some(t);
    assert (actions + [a])[..|actions|] == actions;
    assert Run(s, actions + [a]) == Some(u);
  }

  lemma NoStep(s: Sys)
    ensures Reaches(s, s)
  {
    assert Run(s, []) == Some(s);
  }

  /** A rotation in flight whose parent has not expired will, if its user is active, insert a live child. */
  lemma InFlightIssues(s: Sys, pid: nat, family: nat)
    requires pid in s.procs && CanIssue(s.procs[pid], family, s.now)
    ensures Revivable(s, family)
  {
    NoStep(s);
    var p := s.procs[pid];
    var issuing := s;
    if p.Retired? {
      issuing := s.(procs := s.procs[pid := Issuing(p.user, p.family)]);
      OneMoreStep(s, s, Vet(pid, true), issuing);
    }
    var t := End(issuing.(tokens := issuing.tokens + [Token(p.user, p.family, s.now + 1, false)]), pid);
    OneMoreStep(s, issuing, Issue(pid, s.now + 1), t);
    assert LiveOf(t.tokens, |s.tokens|, family);
  }

  /**
   Revoking a family, whether for a replay or at logout, ends it for good if and
   only if no rotation of an unexpired token of it is in flight at that moment.
   */
  lemma RevokeEndsFamilyIff(s: Sys, pid: nat, t: Sys)
    requires Reachable(s) && pid in s.procs && s.procs[pid].Revoking?
    requires Next(s, Revoke(pid)) == Some(t)
    ensures !Revivable(t, s.procs[pid].family) <==> !RotationInFlight(s, s.procs[pid].family)
  {
    var family := s.procs[pid].family;
    ReachableInv(s);
    StepKeeps(s, Revoke(pid), t);
    if RotationInFlight(s, family) {
      var q :| q in s.procs && CanIssue(s.procs[q], family, s.now);
      assert t.procs[q] == s.procs[q];
      InFlightIssues(t, q, family);
    } else {
      assert Dead(t, family);
      forall u, i: nat | Reaches(t, u) ensures !LiveOf(u.tokens, i, family) {
        var actions :| Run(t, actions) == Some(u);
        RunKeeps(t, actions, u);
      }
    }
  }

  /**
   The stolen-token case: two requests present the same token, the second is
   recognised as a replay and the family is revoked, and the family is live
   afterwards all the same.
   */
  lemma ReplayCanLeaveFamilyLive() returns (s: Sys)
    ensures Reachable(s)
    ensures exists i: nat :: LiveOf(s.tokens, i, 0)
    ensures s.procs == map[] && |s.tokens| == 2 && s.tokens[0].revoked
  {
    var a := Token(7, 0, 100, false);
    var b := a.(revoked := true);
    var s0, s1 := INITIAL, Sys([], 1, map[0 := Issuing(7, 0)], 0);
    NoStep(INITIAL);
    OneMoreStep(INITIAL, s0, StartLogin(0, 7), s1);
    var s2 := Sys([a], 1, map[], 0);
    assert s1.procs - {0} == map[] && s1.tokens + [a] == [a];
    OneMoreStep(INITIAL, s1, Issue(0, 100), s2);
    var s3 := Sys([b], 1, map[1 := Retired(7, 0, 100)], 0);
    assert s2.tokens[0 := b] == [b];
    OneMoreStep(INITIAL, s2, TryRetire(1, 0), s3);
    s := ReplayRevokes(s3);
  }

  lemma ReplayRevokes(s3: Sys) returns (s: Sys)
    requires s3 == Sys([Token(7, 0, 100, true)], 1, map[1 := Retired(7, 0, 100)], 0) && Reachable(s3)
    ensures Reachable(s)
    ensures exists i: nat :: LiveOf(s.tokens, i, 0)
    ensures s.procs == map[] && |s.tokens| == 2 && s.tokens[0].revoked
  {
    var b := Token(7, 0, 100, true);
    var s4 := Sys([b], 1, map[1 := Retired(7, 0, 100), 2 := Unmatched(0)], 0);
    OneMoreStep(INITIAL, s3, TryRetire(2, 0), s4);
    var s5 := Sys([b], 1, map[1 := Retired(7, 0, 100), 2 := Revoking(0)], 0);
    assert s4.procs[2 := Revoking(0)] == s5.procs;
    OneMoreStep(INITIAL, s4, LookUp(2), s5);
    assert RevokeFamily([b], 0) == [b];
    assert s5.procs - {2} == s3.procs;
    OneMoreStep(INITIAL, s5, Revoke(2), s3);
    var s6 := Sys([b], 1, map[1 := Issuing(7, 0)], 0);
    assert s3.procs[1 := Issuing(7, 0)] == s6.procs;
    OneMoreStep(INITIAL, s3, Vet(1, true), s6);
    s := Sys([b, Token(7, 0, 200, false)], 1, map[], 0);
    assert s6.procs - {1} == map[] && s6.tokens + [Token(7, 0, 200, false)] == s.tokens;
    OneMoreStep(INITIAL, s6, Issue(1, 200), s);
    assert LiveOf(s.tokens, 1, 0);
  }

  lemma {:induction false} RunsCompose(r: Sys, s: Sys, actions: seq<Action>, t: Sys)
    requires Reaches(r, s) && Run(s, actions) == Some(t)
    ensures Reaches(r, t)
    decreases |actions|
  {
    if actions != [] {
      var u := Run(s, actions[..|actions| - 1]).value;
      RunsCompose(r, s, actions[..|actions| - 1], u);
      OneMoreStep(r, u, actions[|actions| - 1], t);
    }
  }

  lemma StaysReachableIf(s: Sys, t: Sys)
    requires Reaches(s, t)
    ensures Reachable(s) ==> Reachable(t)
  {
    if Reachable(s) {
      var actions :| Run(s, actions) == Some(t);
      RunsCompose(INITIAL, s, actions, t);
    }
  }

  // ----- The program's own requests are runs -----

  /** A login takes a family of its own and inserts the first token of it. */
  lemma LoginRuns(s: Sys, pid: nat, user: nat, expiresAt: int)
    requires pid !in s.procs
    ensures Reaches(s, Sys(s.tokens + [Token(user, s.families, expiresAt, false)], s.families + 1, s.procs, s.now))
  {
    NoStep(s);
    var started := Sys(s.tokens, s.families + 1, s.procs[pid := Issuing(user, s.families)], s.now);
    OneMoreStep(s, s, StartLogin(pid, user), started);
    assert started.procs - {pid} == s.procs;
    OneMoreStep(s, started, Issue(pid, expiresAt), Sys(s.tokens + [Token(user, s.families, expiresAt, false)], s.families + 1, s.procs, s.now));
  }

  /** A rotation that is turned down after its token was retired. */
  lemma RetireRuns(s: Sys, pid: nat, id: nat, active: bool)
    requires pid !in s.procs && LiveAt(s.tokens, id) && (s.tokens[id].expiresAt <= s.now || !active)
    ensures Reaches(s, s.(tokens := Retire(s.tokens, id)))
  {
    NoStep(s);
    var p := s.tokens[id];
    var retired := Sys(Retire(s.tokens, id), s.families, s.procs[pid := Retired(p.user, p.family, p.expiresAt)], s.now);
    OneMoreStep(s, s, TryRetire(pid, id), retired);
    assert retired.procs - {pid} == s.procs;
    OneMoreStep(s, retired, Vet(pid, active), s.(tokens := Retire(s.tokens, id)));
  }

  /** A rotation that goes through. */
  lemma RotateRuns(s: Sys, pid: nat, id: nat, expiresAt: int)
    requires pid !in s.procs && LiveAt(s.tokens, id) && s.tokens[id].expiresAt > s.now
    ensures Reaches(s, s.(tokens := Retire(s.tokens, id) + [Token(s.tokens[id].user, s.tokens[id].family, expiresAt, false)]))
  {
    NoStep(s);
    var p := s.tokens[id];
    var retired := Sys(Retire(s.tokens, id), s.families, s.procs[pid := Retired(p.user, p.family, p.expiresAt)], s.now);
    OneMoreStep(s, s, TryRetire(pid, id), retired);
    var issuing := retired.(procs := s.procs[pid := Issuing(p.user, p.family)]);
    assert retired.procs[pid := Issuing(p.user, p.family)] == issuing.procs;
    OneMoreStep(s, retired, Vet(pid, true), issuing);
    assert issuing.procs - {pid} == s.procs;
    OneMoreStep(s, issuing, Issue(pid, expiresAt), s.(tokens := Retire(s.tokens, id) + [Token(p.user, p.family, expiresAt, false)]));
  }

  /** A retired token presented again takes its family down. */
  lemma ReuseRuns(s: Sys, pid: nat, id: nat)
    requires pid !in s.procs && id < |s.tokens| && s.tokens[id].revoked
    ensures Reaches(s, s.(tokens := RevokeFamily(s.tokens, s.tokens[id].family)))
  {
    NoStep(s);
    var unmatched := s.(procs := s.procs[pid := Unmatched(id)]);
    OneMoreStep(s, s, TryRetire(pid, id), unmatched);
    var revoking := s.(procs := s.procs[pid := Revoking(s.tokens[id].family)]);
    assert unmatched.procs[pid := Revoking(s.tokens[id].family)] == revoking.procs;
    OneMoreStep(s, unmatched, LookUp(pid), revoking);
    assert revoking.procs - {pid} == s.procs;
    OneMoreStep(s, revoking, Revoke(pid), s.(tokens := RevokeFamily(s.tokens, s.tokens[id].family)));
  }

  lemma LogoutRuns(s: Sys, pid: nat, id: nat)
    requires pid !in s.procs && id < |s.tokens|
    ensures Reaches(s, s.(tokens := RevokeFamily(s.tokens, s.tokens[id].family)))
  {
    NoStep(s);
    var revoking := s.(procs := s.procs[pid := Revoking(s.tokens[id].family)]);
    OneMoreStep(s, s, ReadForLogout(pid, s.tokens[id].user, id), revoking);
    assert revoking.procs - {pid} == s.procs;
    OneMoreStep(s, revoking, Revoke(pid), s.(tokens := RevokeFamily(s.tokens, s.tokens[id].family)));
  }

  datatype AuthError = TokenInvalid | TokenExpired | InvalidCredentials | RefreshTokenReused

  class TokenStore {
    var tokens: seq<Token>
    var families: nat

    ghost predicate Is(s: Sys)
      reads this
    {
      tokens == s.tokens && families == s.families
    }

    constructor ()
      ensures Is(INITIAL)
    {
      tokens, families := [], 0;
    }

    /** Revokes every live token of the family, row by row. */
    method RevokeAll(family: nat)
      modifies this`tokens
      ensures tokens == RevokeFamily(old(tokens), family)
    {
      var before := tokens;
      for i := 0 to |before|
        invariant |tokens| == |before|
        invariant forall k :: 0 <= k < i ==> tokens[k] == RevokeFamily(before, family)[k]
        invariant forall k :: i <= k < |before| ==> tokens[k] == before[k]
      {
        if tokens[i].family == family && !tokens[i].revoked {
          tokens := tokens[i := tokens[i].(revoked := true)];
        }
      }
    }

    /** A login is a run, after which its token is the family's only claim. */
    method Login(user: nat, now: int, ttl: int, ghost s: Sys, ghost pid: nat) returns (id: nat, ghost t: Sys)
      requires Is(s) && s.now == now && pid !in s.procs
      modifies this
      ensures Reaches(s, t) && Is(t) && t.procs == s.procs && (Reachable(s) ==> Reachable(t))
      ensures LiveOf(tokens, id, s.families) && tokens[..id] == s.tokens && tokens[id].user == user && tokens[id].expiresAt == now + ttl
      ensures Reachable(s) ==> Claims(t, s.families) == {(true, id)}
    {
      LoginRuns(s, pid, user, now + ttl);
      var family := families;
      families := families + 1;
      id := |tokens|;
      tokens := tokens + [Token(user, family, now + ttl, false)];
      t := Sys(tokens, families, s.procs, now);
      StaysReachableIf(s, t);
      if Reachable(s) {
        OnlyClaim(s, t, id, family);
      }
    }

    /**
     A refresh is a run. It succeeds exactly for a live, unexpired token of an
     active user, and then the child is the family's only claim; a token presented
     twice leaves its family without a live token.
     */
    method Refresh(id: nat, now: int, active: bool, ttl: int, ghost s: Sys, ghost pid: nat) returns (r: Result<nat, AuthError>, ghost t: Sys)
      requires Is(s) && s.now == now && pid !in s.procs
      modifies this`tokens
      ensures Reaches(s, t) && Is(t) && t.procs == s.procs && (Reachable(s) ==> Reachable(t))
      ensures r.Ok? <==> LiveAt(s.tokens, id) && s.tokens[id].expiresAt > now && active
      ensures r.Ok? ==> !LiveAt(tokens, id) && LiveOf(tokens, r.value, s.tokens[id].family) && tokens[r.value].user == s.tokens[id].user
      ensures r.Ok? ==> r.value == |s.tokens| && |tokens| == |s.tokens| + 1 && tokens[r.value].expiresAt == now + ttl
      ensures LiveAt(s.tokens, id) ==> forall i :: 0 <= i < |s.tokens| && i != id ==> i < |tokens| && tokens[i] == s.tokens[i]
      ensures r.Ok? && Reachable(s) ==> Claims(t, s.tokens[id].family) == {(true, r.value)}
      ensures r.Err? && LiveAt(s.tokens, id) ==> r.error == (if s.tokens[id].expiresAt <= now then TokenExpired else InvalidCredentials)
                                                 && tokens == Retire(s.tokens, id)
      ensures !LiveAt(s.tokens, id) && id < |s.tokens| ==> r == Err(RefreshTokenReused) && forall i: nat :: !LiveOf(tokens, i, s.tokens[id].family)
      ensures id >= |s.tokens| ==> r == Err(TokenInvalid) && t == s
    {
      if id < |tokens| && !tokens[id].revoked {
        tokens := tokens[id := tokens[id].(revoked := true)];
        var retired := tokens[id];
        if retired.expiresAt <= now || !active {
          RetireRuns(s, pid, id, active);
          StaysReachableIf(s, s.(tokens := tokens));
          return Err(if retired.expiresAt <= now then TokenExpired else InvalidCredentials), s.(tokens := tokens);
        }
        RotateRuns(s, pid, id, now + ttl);
        tokens := tokens + [Token(retired.user, retired.family, now + ttl, false)];
        t := s.(tokens := tokens);
        StaysReachableIf(s, t);
        if Reachable(s) {
          OnlyClaim(s, t, |tokens| - 1, retired.family);
        }
        return Ok(|tokens| - 1), t;
      }
      if id >= |tokens| {
        NoStep(s);
        return Err(TokenInvalid), s;
      }
      ReuseRuns(s, pid, id);
      RevokeAll(tokens[id].family);
      StaysReachableIf(s, s.(tokens := tokens));
      return Err(RefreshTokenReused), s.(tokens := tokens);
    }

    /** A logout is a run. It ends the token's family, and only for the token's own user. */
    method Logout(user: nat, id: nat, ghost s: Sys, ghost pid: nat) returns (r: Result<(), AuthError>, ghost t: Sys)
      requires Is(s) && pid !in s.procs
      modifies this`tokens
      ensures Reaches(s, t) && Is(t) && t.procs == s.procs && (Reachable(s) ==> Reachable(t))
      ensures r.Ok? <==> id < |s.tokens| && s.tokens[id].user == user
      ensures r.Ok? ==> forall i: nat :: if i < |s.tokens| && s.tokens[i].family == s.tokens[id].family then !LiveAt(tokens, i)
                                         else LiveAt(tokens, i) <==> LiveAt(s.tokens, i)
      ensures r.Err? ==> t == s
    {
      if id >= |tokens| || tokens[id].user != user {
        NoStep(s);
        return Err(TokenInvalid), s;
      }
      LogoutRuns(s, pid, id);
      RevokeAll(tokens[id].family);
      StaysReachableIf(s, s.(tokens := tokens));
      return Ok(()), s.(tokens := tokens);
    }
  }

  /** A live token is everything its family has. */
  lemma OnlyClaim(s: Sys, t: Sys, id: nat, family: nat)
    requires Reachable(s) && Reaches(s, t) && LiveOf(t.tokens, id, family)
    ensures Claims(t, family) == {(true, id)}
  {
    ReachableInv(s);
    var actions :| Run(s, actions) == Some(t);
    RunKeeps(s, actions, t);
  }
}
