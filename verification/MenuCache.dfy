/**
 The menu cache: a version counter and a rendered document per version. A
 document is what a fresh build renders, so a catalog is represented here by the
 document it would render now.
 */
module MenuCache {
  import opened Wrappers
  import opened Decimal

  type Document = string

  // ----- Validators -----

  const ETAG_PREFIX: string := "W/\"catalog-"

  function EtagFor(version: nat): string {
    ETAG_PREFIX + Numeral(Digits(version)) + "\""
  }

  /** What the platform's `trim` removes: white space and line terminators. */
  predicate IsSpace(c: char) {
    var u := c as int;
    9 <= u <= 13 || u == 32 || u == 0xA0 || u == 0x1680 || 0x2000 <= u <= 0x200A || u == 0x2028 || u == 0x2029
    || u == 0x202F || u == 0x205F || u == 0x3000 || u == 0xFEFF
  }

  function TrimStart(s: string): string {
    if s != [] && IsSpace(s[0]) then TrimStart(s[1..]) else s
  }

  function TrimEnd(s: string): string {
    if s != [] && IsSpace(s[|s| - 1]) then TrimEnd(s[..|s| - 1]) else s
  }

  function Trim(s: string): string {
    TrimEnd(TrimStart(s))
  }

  /** The pieces between commas. */
  function SplitCommas(s: string): (r: seq<string>)
    ensures |r| > 0
  {
    if s == [] then [[]]
    else
      var rest := SplitCommas(s[1..]);
      if s[0] == ',' then [[]] + rest else [[s[0]] + rest[0]] + rest[1..]
  }

  /** The header names this validator: one of its pieces is the validator, whatever surrounds it. */
  predicate Lists(header: string, etag: string) {
    exists i :: 0 <= i < |SplitCommas(header)| && Trim(SplitCommas(header)[i]) == etag
  }

  /** The header asks for any representation at all. */
  predicate IsStar(header: string) {
    Trim(header) == "*"
  }

  /** The condition of section 13.1.2 of RFC 9110, as the program evaluates it. */
  predicate MatchesEtag(header: Option<string>, etag: string) {
    header.Some? && (IsStar(header.value) || Lists(header.value, etag))
  }

  // ----- Trimming and splitting -----

  predicate NoComma(s: string) {
    forall i :: 0 <= i < |s| ==> s[i] != ','
  }

  lemma {:induction false} TrimStartKeeps(s: string, c: char)
    requires c in s && !IsSpace(c)
    ensures c in TrimStart(s)
  {
    if IsSpace(s[0]) {
      assert s == [s[0]] + s[1..];
      TrimStartKeeps(s[1..], c);
    }
  }

  lemma {:induction false} TrimEndKeeps(s: string, c: char)
    requires c in s && !IsSpace(c)
    ensures c in TrimEnd(s)
  {
    if IsSpace(s[|s| - 1]) {
      assert s == s[..|s| - 1] + [s[|s| - 1]];
      TrimEndKeeps(s[..|s| - 1], c);
    }
  }

  /** Trimming drops nothing but space. */
  lemma TrimKeeps(s: string, c: char)
    requires c in s && !IsSpace(c)
    ensures c in Trim(s)
  {
    TrimStartKeeps(s, c);
    TrimEndKeeps(TrimStart(s), c);
  }

  lemma NoCommaWithin(s: string)
    requires NoComma(Trim(s))
    ensures NoComma(s)
  {
    if ',' in s {
      TrimKeeps(s, ',');
    }
  }

  lemma {:induction false} SplitPlain(s: string)
    requires NoComma(s)
    ensures SplitCommas(s) == [s]
  {
    if s != [] {
      SplitPlain(s[1..]);
      assert s == [s[0]] + s[1..];
    }
  }

  /** The pieces with commas between them. */
  function JoinCommas(pieces: seq<string>): string
    requires pieces != []
  {
    if |pieces| == 1 then pieces[0] else pieces[0] + "," + JoinCommas(pieces[1..])
  }

  lemma {:induction false} SplitAfter(s: string, rest: string)
    requires NoComma(s)
    ensures SplitCommas(s + "," + rest) == [s] + SplitCommas(rest)
  {
    var all := s + "," + rest;
    if s == [] {
      assert all[1..] == rest;
    } else {
      SplitAfter(s[1..], rest);
      assert all[1..] == s[1..] + "," + rest;
      assert s == [s[0]] + s[1..];
    }
  }

  lemma {:induction false} SplitJoin(pieces: seq<string>)
    requires pieces != [] && forall i :: 0 <= i < |pieces| ==> NoComma(pieces[i])
    ensures SplitCommas(JoinCommas(pieces)) == pieces
  {
    if |pieces| == 1 {
      SplitPlain(pieces[0]);
    } else {
      SplitJoin(pieces[1..]);
      SplitAfter(pieces[0], JoinCommas(pieces[1..]));
    }
  }

  // ----- Validators differ exactly when their versions do -----

  lemma EtagIsPlain(version: nat)
    ensures NoComma(EtagFor(version)) && 'W' in EtagFor(version)
  {
    var p, d, q := ETAG_PREFIX, Numeral(Digits(version)), "\"";
    DigitsAreDigits(version);
    var e := p + d + q;
    assert e[0] == 'W';
    forall i | 0 <= i < |e| ensures e[i] != ',' {
      if i >= |p| && i < |p| + |d| {
        assert e[i] == d[i - |p|];
      }
    }
  }

  /** The validator of a version, as clients see it. */
  lemma EtagReads()
    ensures EtagFor(12) == "W/\"catalog-12\""
  {
    assert Digits(12) == Digits(1) + [2] == [1, 2];
    assert Numeral([1, 2]) == "12";
  }

  lemma EtagInjective(v: nat, w: nat)
    requires EtagFor(v) == EtagFor(w)
    ensures v == w
  {
    var n := |ETAG_PREFIX|;
    var dv, dw := Numeral(Digits(v)), Numeral(Digits(w));
    assert EtagFor(v)[n..] == dv + "\"" && EtagFor(w)[n..] == dw + "\"";
    assert |dv| == |dw|;
    assert dv == (dv + "\"")[..|dv|] && dw == (dw + "\"")[..|dw|];
    DigitsAreDigits(v);
    DigitsAreDigits(w);
    NumeralInjective(Digits(v), Digits(w));
    ValueOfDigits(v);
    ValueOfDigits(w);
  }

  /** A star names no validator: it has one piece, and that piece is the star. */
  lemma StarListsNothing(header: string, version: nat)
    requires IsStar(header)
    ensures !Lists(header, EtagFor(version))
  {
    NoCommaWithin(header);
    SplitPlain(header);
    EtagIsPlain(version);
  }

  /**
   A client that names the validators of the copies it holds, with any space
   around them, is told "not modified" exactly when the current version is one of
   theirs.
   */
  lemma ListedMatchesIff(pieces: seq<string>, held: seq<nat>, current: nat)
    requires |pieces| == |held| > 0 && forall i :: 0 <= i < |held| ==> Trim(pieces[i]) == EtagFor(held[i])
    ensures MatchesEtag(Some(JoinCommas(pieces)), EtagFor(current)) <==> current in held
  {
    forall i | 0 <= i < |pieces| ensures NoComma(pieces[i]) {
      EtagIsPlain(held[i]);
      NoCommaWithin(pieces[i]);
    }
    SplitJoin(pieces);
    HeaderIsNoStar(pieces, held[0]);
    forall i | 0 <= i < |held| ensures Trim(pieces[i]) == EtagFor(current) <==> held[i] == current {
      if EtagFor(held[i]) == EtagFor(current) {
        EtagInjective(held[i], current);
      }
    }
  }

  lemma HeaderIsNoStar(pieces: seq<string>, first: nat)
    requires pieces != [] && Trim(pieces[0]) == EtagFor(first)
    ensures !IsStar(JoinCommas(pieces))
  {
    EtagIsPlain(first);
    TrimDrops(pieces[0], 'W');
    assert JoinCommas(pieces)[..|pieces[0]|] == pieces[0];
    assert 'W' in JoinCommas(pieces);
    TrimKeeps(JoinCommas(pieces), 'W');
  }

  lemma {:induction false} TrimStartDrops(s: string, c: char)
    requires c in TrimStart(s)
    ensures c in s
  {
    if s != [] && IsSpace(s[0]) {
      TrimStartDrops(s[1..], c);
    }
  }

  lemma {:induction false} TrimEndDrops(s: string, c: char)
    requires c in TrimEnd(s)
    ensures c in s
  {
    if s != [] && IsSpace(s[|s| - 1]) {
      TrimEndDrops(s[..|s| - 1], c);
    }
  }

  lemma TrimDrops(s: string, c: char)
    requires c in Trim(s)
    ensures c in s
  {
    TrimEndDrops(TrimStart(s), c);
    TrimStartDrops(s, c);
  }

  // ----- Writers and readers interleaved -----

  datatype Reader =
    | Asked(header: Option<string>)
    | NeedsVersion(header: Option<string>)
    | HasVersion(header: Option<string>, v: nat)
    | Looking(v: nat)
    | Missing(under: Option<nat>)
    | Built(under: Option<nat>, document: Document)

  datatype Response = NotModified(header: Option<string>, v: nat) | Full(under: Option<nat>, document: Document)

  /**
   `pending` are writers whose write is committed and whose bump is not done.
   `missed` is set by a bump that failed and cleared by the next one that works;
   `lost` is set if the counter is ever lost.
   */
  datatype Sys = Sys(menu: Document, pending: set<nat>, version: nat, documents: map<nat, Document>,
                     readers: map<nat, Reader>, responses: seq<Response>, missed: bool, lost: bool)

  datatype Action =
    | Write(pid: nat, menu: Document)
    | BumpDone(pid: nat)
    | BumpFailed(pid: nat)
    | Ask(pid: nat, header: Option<string>)
    | ReadVersion(pid: nat, up: bool)
    | CreateVersion(pid: nat)
    | Compare(pid: nat)
    | ReadCache(pid: nat, up: bool)
    | Build(pid: nat)
    | Respond(pid: nat, up: bool)
    | Evict(v: nat)
    | LoseCounter
    | Crash(pid: nat)

  function Initial(menu: Document): Sys {
    Sys(menu, {}, 0, map[], map[], [], false, false)
  }

  function Move(s: Sys, pid: nat, r: Reader): Sys {
    s.(readers := s.readers[pid := r])
  }

  function Finish(s: Sys, pid: nat, response: Response): Sys {
    s.(readers := s.readers - {pid}, responses := s.responses + [response])
  }

  function NextWriter(s: Sys, a: Action): Option<Sys> {
    match a
    case Write(pid, menu) => if pid in s.pending then None else Some(s.(menu := menu, pending := s.pending + {pid}))
    case BumpDone(pid) =>
      if pid in s.pending then Some(s.(version := s.version + 1, pending := s.pending - {pid}, missed := false)) else None
    case BumpFailed(pid) =>
      if pid in s.pending then Some(s.(pending := s.pending - {pid}, missed := true)) else None
    case Evict(v) => Some(s.(documents := s.documents - {v}))
    case LoseCounter => Some(s.(version := 0, lost := true))
    case _ => None
  }

  function NextReader(s: Sys, a: Action): Option<Sys> {
    match a
    case Ask(pid, header) => if pid in s.readers then None else Some(Move(s, pid, Asked(header)))
    case ReadVersion(pid, up) =>
      if pid in s.readers && s.readers[pid].Asked? then
        Some(Move(s, pid, if !up then Missing(None)
                          else if s.version == 0 then NeedsVersion(s.readers[pid].header)
                          else HasVersion(s.readers[pid].header, s.version)))
      else None
    case CreateVersion(pid) =>
      if pid in s.readers && s.readers[pid].NeedsVersion?
      then Some(Move(s, pid, HasVersion(s.readers[pid].header, s.version + 1)).(version := s.version + 1, missed := false)) else None
    case Compare(pid) =>
      if pid in s.readers && s.readers[pid].HasVersion? then
        var r := s.readers[pid];
        if MatchesEtag(r.header, EtagFor(r.v)) then Some(Finish(s, pid, NotModified(r.header, r.v))) else Some(Move(s, pid, Looking(r.v)))
      else None
    case ReadCache(pid, up) =>
      if pid in s.readers && s.readers[pid].Looking? then
        var v := s.readers[pid].v;
        if up && v in s.documents then Some(Finish(s, pid, Full(Some(v), s.documents[v]))) else Some(Move(s, pid, Missing(Some(v))))
      else None
    case Build(pid) =>
      if pid in s.readers && s.readers[pid].Missing? then Some(Move(s, pid, Built(s.readers[pid].under, s.menu))) else None
    case Respond(pid, up) =>
      if pid in s.readers && s.readers[pid].Built? then
        var r := s.readers[pid];
        var stored := if r.under.Some? && up then s.documents[r.under.value := r.document] else s.documents;
        Some(Finish(s, pid, Full(r.under, r.document)).(documents := stored))
      else None
    case Crash(pid) => if pid in s.readers then Some(s.(readers := s.readers - {pid})) else None
    case _ => None
  }

  function Next(s: Sys, a: Action): Option<Sys> {
    if a.Write? || a.BumpDone? || a.BumpFailed? || a.Evict? || a.LoseCounter? then NextWriter(s, a) else NextReader(s, a)
  }

  function Run(s: Sys, actions: seq<Action>): Option<Sys> {
    if actions == [] then Some(s) else
      var before := Run(s, actions[..|actions| - 1]);
      if before.None? then None else Next(before.value, actions[|actions| - 1])
  }

  ghost predicate Reaches(s: Sys, t: Sys) {
    exists actions :: Run(s, actions) == Some(t)
  }

  ghost predicate Reachable(s: Sys) {
    exists menu :: Reaches(Initial(menu), s)
  }

  lemma NoStep(s: Sys)
    ensures Reaches(s, s)
  {
    assert Run(s, []) == Some(s);
  }

  lemma OneMoreStep(s: Sys, t: Sys, a: Action, u: Sys)
    requires Reaches(s, t) && Next(t, a) == Some(u)
    ensures Reaches(s, u)
  {
    var actions :| Run(s, actions) == Some(t);
    assert (actions + [a])[..|actions|] == actions;
    assert Run(s, actions + [a]) == Some(u);
  }

  // ----- Coherence -----

  /** A document under a version: not from the future, and if the version is current and nothing is owed, it is what a build renders. */
  ghost predicate LabelOk(s: Sys, v: nat, document: Document) {
    v <= s.version && (v == s.version && s.pending == {} && !s.missed ==> document == s.menu)
  }

  ghost predicate ReaderOk(s: Sys, r: Reader) {
    match r
    case HasVersion(_, v) => v <= s.version
    case Looking(v) => v <= s.version
    case Missing(v) => v.Some? ==> v.value <= s.version
    case Built(v, document) => v.Some? ==> LabelOk(s, v.value, document)
    case _ => true
  }

  ghost predicate ResponseOk(s: Sys, r: Response) {
    match r
    case NotModified(_, v) => v <= s.version
    case Full(v, document) => v.Some? ==> LabelOk(s, v.value, document)
  }

  ghost predicate Coherent(s: Sys) {
    && (forall v :: v in s.documents ==> LabelOk(s, v, s.documents[v]))
    && (forall pid :: pid in s.readers ==> ReaderOk(s, s.readers[pid]))
    && (forall i :: 0 <= i < |s.responses| ==> ResponseOk(s, s.responses[i]))
  }

  ghost predicate Inv(s: Sys) {
    s.lost || Coherent(s)
  }

  /** Labels stay good when the menu changes under a pending bump, when the version moves on, and when nothing moves. */
  lemma LabelsStay(s: Sys, t: Sys)
    requires Coherent(s) && t.documents == s.documents && t.readers == s.readers && t.responses == s.responses
    requires t.version > s.version || (t.version == s.version && (t.pending != {} || t.missed || (t.menu == s.menu && s.pending == {} && !s.missed)))
    ensures Coherent(t)
  {
    forall v | v in t.documents ensures LabelOk(t, v, t.documents[v]) {
      assert LabelOk(s, v, s.documents[v]);
    }
    forall pid | pid in t.readers ensures ReaderOk(t, t.readers[pid]) {
      assert ReaderOk(s, s.readers[pid]);
    }
    forall i | 0 <= i < |t.responses| ensures ResponseOk(t, t.responses[i]) {
      assert ResponseOk(s, s.responses[i]);
    }
  }

  lemma WriterKeeps(s: Sys, a: Action, t: Sys)
    requires Inv(s) && NextWriter(s, a) == Some(t)
    ensures Inv(t)
  {
    if !t.lost {
      if a.Evict? {
        forall v | v in t.documents ensures LabelOk(t, v, t.documents[v]) {
          assert LabelOk(s, v, s.documents[v]);
        }
        assert forall pid :: pid in t.readers ==> ReaderOk(s, s.readers[pid]);
        assert forall i :: 0 <= i < |t.responses| ==> ResponseOk(s, s.responses[i]);
      } else {
        LabelsStay(s, t);
      }
    }
  }

  /** A reader's step leaves menu and bumps alone, and labels only what it built under a version it read. */
  lemma ReaderKeeps(s: Sys, a: Action, t: Sys)
    requires Inv(s) && NextReader(s, a) == Some(t)
    ensures Inv(t)
  {
    if !t.lost {
      if a.CreateVersion? {
        var moved := s.(version := s.version + 1, missed := false);
        LabelsStay(s, moved);
        assert t == Move(moved, a.pid, HasVersion(s.readers[a.pid].header, moved.version));
        MoveKeeps(moved, a.pid, HasVersion(s.readers[a.pid].header, moved.version));
      } else {
        assert ReaderOkAt(s, a.pid);
        RestKeeps(s, a, t);
      }
    }
  }

  ghost predicate ReaderOkAt(s: Sys, pid: nat) {
    pid in s.readers ==> ReaderOk(s, s.readers[pid])
  }

  lemma MoveKeeps(s: Sys, pid: nat, r: Reader)
    requires Coherent(s) && ReaderOk(s, r)
    ensures Coherent(Move(s, pid, r))
  {
    var t := Move(s, pid, r);
    forall v | v in t.documents ensures LabelOk(t, v, t.documents[v]) {
      assert LabelOk(s, v, s.documents[v]);
    }
    forall p | p in t.readers ensures ReaderOk(t, t.readers[p]) {
      if p != pid {
        assert ReaderOk(s, s.readers[p]);
      }
    }
    forall i | 0 <= i < |t.responses| ensures ResponseOk(t, t.responses[i]) {
      assert ResponseOk(s, s.responses[i]);
    }
  }

  lemma FinishKeeps(s: Sys, pid: nat, response: Response, stored: map<nat, Document>)
    requires Coherent(s) && ResponseOk(s, response)
    requires forall v :: v in stored ==> LabelOk(s, v, stored[v])
    ensures Coherent(Finish(s, pid, response).(documents := stored))
  {
    var t := Finish(s, pid, response).(documents := stored);
    forall v | v in t.documents ensures LabelOk(t, v, t.documents[v]) {
      assert LabelOk(s, v, stored[v]);
    }
    forall p | p in t.readers ensures ReaderOk(t, t.readers[p]) {
      assert ReaderOk(s, s.readers[p]);
    }
    forall i | 0 <= i < |t.responses| ensures ResponseOk(t, t.responses[i]) {
      if i < |s.responses| {
        assert ResponseOk(s, s.responses[i]);
      } else {
        assert ResponseOk(s, response);
      }
    }
  }

  lemma RestKeeps(s: Sys, a: Action, t: Sys)
    requires Coherent(s) && !a.CreateVersion? && NextReader(s, a) == Some(t) && ReaderOkAt(s, a.pid)
    ensures Coherent(t)
  {
    match a
    case Ask(pid, header) => MoveKeeps(s, pid, Asked(header));
    case ReadVersion(pid, up) => MoveKeeps(s, pid, t.readers[pid]);
    case Compare(pid) =>
      if MatchesEtag(s.readers[pid].header, EtagFor(s.readers[pid].v)) {
        FinishKeeps(s, pid, NotModified(s.readers[pid].header, s.readers[pid].v), s.documents);
      } else {
        MoveKeeps(s, pid, Looking(s.readers[pid].v));
      }
    case ReadCache(pid, up) =>
      var v := s.readers[pid].v;
      if up && v in s.documents {
        FinishKeeps(s, pid, Full(Some(v), s.documents[v]), s.documents);
      } else {
        MoveKeeps(s, pid, Missing(Some(v)));
      }
    case Build(pid) => MoveKeeps(s, pid, Built(s.readers[pid].under, s.menu));
    case Respond(pid, up) =>
      var r := s.readers[pid];
      FinishKeeps(s, pid, Full(r.under, r.document), t.documents);
    case Crash(pid) =>
      forall v | v in t.documents ensures LabelOk(t, v, t.documents[v]) {
        assert LabelOk(s, v, s.documents[v]);
      }
      assert forall p :: p in t.readers ==> ReaderOk(s, s.readers[p]);
      assert forall i :: 0 <= i < |t.responses| ==> ResponseOk(s, s.responses[i]);
    case _ =>
  }

  lemma {:induction false} RunKeeps(menu: Document, actions: seq<Action>, s: Sys)
    requires Run(Initial(menu), actions) == Some(s)
    ensures Inv(s)
    decreases |actions|
  {
    if actions != [] {
      var a := actions[|actions| - 1];
      var before := Run(Initial(menu), actions[..|actions| - 1]).value;
      RunKeeps(menu, actions[..|actions| - 1], before);
      if a.Write? || a.BumpDone? || a.BumpFailed? || a.Evict? || a.LoseCounter? {
        WriterKeeps(before, a, s);
      } else {
        ReaderKeeps(before, a, s);
      }
    }
  }

  lemma ReachableCoherent(s: Sys)
    requires Reachable(s) && !s.lost
    ensures Coherent(s)
  {
    var menu :| Reaches(Initial(menu), s);
    var actions :| Run(Initial(menu), actions) == Some(s);
    RunKeeps(menu, actions, s);
  }

  // ----- Theorems -----

  /** Nothing is owed: every committed write has had its bump, or a later bump made up for one that failed. */
  ghost predicate Settled(s: Sys) {
    s.pending == {} && !s.missed && !s.lost
  }

  /**
   When no committed write awaits its bump, any document stored, about to be
   stored, or ever served under the current version equals a fresh build.
   */
  lemma CurrentVersionIsFresh(s: Sys)
    requires Reachable(s) && Settled(s)
    ensures s.version in s.documents ==> s.documents[s.version] == s.menu
    ensures forall i :: 0 <= i < |s.responses| && s.responses[i].Full? && s.responses[i].under == Some(s.version) ==> s.responses[i].document == s.menu
    ensures forall pid :: pid in s.readers && s.readers[pid].Built? && s.readers[pid].under == Some(s.version) ==> s.readers[pid].document == s.menu
  {
    ReachableCoherent(s);
    if s.version in s.documents {
      assert LabelOk(s, s.version, s.documents[s.version]);
    }
    forall i | 0 <= i < |s.responses| && s.responses[i].Full? && s.responses[i].under == Some(s.version) ensures s.responses[i].document == s.menu {
      assert ResponseOk(s, s.responses[i]);
    }
    forall pid | pid in s.readers && s.readers[pid].Built? && s.readers[pid].under == Some(s.version) ensures s.readers[pid].document == s.menu {
      assert ReaderOk(s, s.readers[pid]);
    }
  }

  // ----- What a "not modified" vouches for -----

  /** The poll, having read version `v`, is answered "not modified". The version may have moved on since the read. */
  ghost predicate Confirms(s: Sys, pid: nat, header: string, v: nat, t: Sys) {
    && pid in s.readers && s.readers[pid] == HasVersion(Some(header), v)
    && Next(s, Compare(pid)) == Some(t)
    && t.responses == s.responses + [NotModified(Some(header), v)]
  }

  /**
   A copy the answer lets the client keep: one served under the version in the
   answer if the header names that version, any copy at all if it is a star.
   */
  ghost predicate Kept(s: Sys, header: string, v: nat, copy: Document) {
    || (Lists(header, EtagFor(v)) && Full(Some(v), copy) in s.responses)
    || (IsStar(header) && exists under :: Full(under, copy) in s.responses)
  }

  /** Whatever has happened since the version was read, a header that is no star names the version in its answer. */
  lemma AnswerIsNamed(s: Sys, pid: nat, header: string, v: nat, t: Sys)
    requires Confirms(s, pid, header, v, t)
    ensures Lists(header, EtagFor(v)) <==> !IsStar(header)
  {
    assert |t.responses| == |s.responses| + 1;
    assert MatchesEtag(Some(header), EtagFor(v));
    if IsStar(header) {
      StarListsNothing(header, v);
    }
  }

  predicate ActsFor(a: Action, pid: nat) {
    match a
    case Write(_, _) => false
    case BumpDone(_) => false
    case BumpFailed(_) => false
    case Evict(_) => false
    case LoseCounter => false
    case _ => a.pid == pid
  }

  /** The version is moved by a bump, or by a poll that finds no counter and makes it. */
  predicate MovesVersion(a: Action) {
    a.BumpDone? || a.CreateVersion?
  }

  /** A poll learned its version as `read` came about, and `gap` is all that others did from then until `s`. */
  ghost predicate ReadThen(before: Sys, a: Action, read: Sys, gap: seq<Action>, s: Sys, pid: nat) {
    && Reachable(before) && (a.ReadVersion? || a.CreateVersion?) && a.pid == pid && Next(before, a) == Some(read)
    && read.readers[pid].HasVersion?
    && (forall i :: 0 <= i < |gap| ==> !ActsFor(gap[i], pid)) && Run(read, gap) == Some(s)
  }

  lemma {:induction false} GapKeepsPoll(read: Sys, gap: seq<Action>, s: Sys, pid: nat)
    requires pid in read.readers && Run(read, gap) == Some(s) && forall i :: 0 <= i < |gap| ==> !ActsFor(gap[i], pid)
    ensures pid in s.readers && s.readers[pid] == read.readers[pid]
    decreases |gap|
  {
    if gap != [] {
      var n := |gap| - 1;
      var before := Run(read, gap[..n]).value;
      GapKeepsPoll(read, gap[..n], before, pid);
      StepKeepsPoll(before, gap[n], s, pid);
    }
  }

  lemma StepKeepsPoll(s: Sys, a: Action, t: Sys, pid: nat)
    requires pid in s.readers && !ActsFor(a, pid) && Next(s, a) == Some(t)
    ensures pid in t.readers && t.readers[pid] == s.readers[pid]
  {
  }

  lemma StepMovesIff(s: Sys, a: Action, t: Sys)
    requires Next(s, a) == Some(t) && !t.lost
    ensures !s.lost && s.version <= t.version && (t.version == s.version <==> !MovesVersion(a))
  {
  }

  /** With the counter never lost, the version stands exactly when nothing moved it. */
  lemma {:induction false} GapMovesIff(read: Sys, gap: seq<Action>, s: Sys)
    requires Run(read, gap) == Some(s) && !s.lost
    ensures !read.lost && read.version <= s.version
    ensures s.version == read.version <==> forall i :: 0 <= i < |gap| ==> !MovesVersion(gap[i])
    decreases |gap|
  {
    if gap != [] {
      var n := |gap| - 1;
      var before := Run(read, gap[..n]).value;
      StepMovesIff(before, gap[n], s);
      GapMovesIff(read, gap[..n], before);
      assert forall i :: 0 <= i < n ==> gap[..n][i] == gap[i];
    }
  }

  /**
   Every "not modified", whatever happened before it was sent: it carries the
   version of the poll's own read, and if nothing was owed at that read, every copy
   the client could have had under it then was a fresh build then.
   */
  lemma AnswerIsAsOfRead(before: Sys, a: Action, read: Sys, gap: seq<Action>, s: Sys, pid: nat, header: string, v: nat, t: Sys)
    requires ReadThen(before, a, read, gap, s, pid) && Confirms(s, pid, header, v, t)
    ensures v == read.version
    ensures Settled(read) && !IsStar(header) ==> forall copy :: Kept(read, header, v, copy) ==> copy == read.menu
    ensures !s.lost ==> (v == s.version <==> forall i :: 0 <= i < |gap| ==> !MovesVersion(gap[i]))
  {
    GapKeepsPoll(read, gap, s, pid);
    StepReachable(before, a, read);
    if Settled(read) {
      CurrentVersionIsFresh(read);
    }
    if !s.lost {
      GapMovesIff(read, gap, s);
    }
  }

  /** A version that is still current when the poll compares makes the answer good for what the client holds now. */
  lemma ConfirmedCopyIsFresh(s: Sys, pid: nat, header: string, t: Sys, copy: Document)
    requires Reachable(s) && Settled(s) && Confirms(s, pid, header, s.version, t) && !IsStar(header) && Kept(s, header, s.version, copy)
    ensures copy == s.menu
  {
    CurrentVersionIsFresh(s);
  }

  /** However the answer `v` to this header comes about while the current version is `current` and nothing is owed, what it lets the client keep is a fresh build. */
  ghost predicate Trustworthy(header: string, v: nat, current: nat) {
    forall s, pid, t, copy {:trigger Confirms(s, pid, header, v, t), Kept(s, header, v, copy)} ::
      Reachable(s) && Settled(s) && s.version == current && Confirms(s, pid, header, v, t) && Kept(s, header, v, copy) ==> copy == s.menu
  }

  /** An answer may be trusted if and only if the header is no star and the version in the answer is still the current one. */
  lemma TrustworthyIff(header: string, v: nat, current: nat)
    requires 1 <= v <= current && MatchesEtag(Some(header), EtagFor(v))
    ensures Trustworthy(header, v, current) <==> !IsStar(header) && v == current
  {
    if !IsStar(header) && v == current {
      forall s, pid, t, copy | Reachable(s) && Settled(s) && s.version == current && Confirms(s, pid, header, v, t) && Kept(s, header, v, copy)
        ensures copy == s.menu
      {
        ConfirmedCopyIsFresh(s, pid, header, t, copy);
      }
    } else if v < current {
      var s, t := SupersededConfirmsStaleCopy(header, v, current);
      assert Kept(s, header, v, "a");
    } else {
      var s, t := StarConfirmsStaleCopy(header, v);
      assert Kept(s, header, v, "a");
    }
  }

  /** A failed bump heals itself: after the next bump that works, with no other write pending, the cache is coherent again. */
  lemma NextBumpHeals(s: Sys, pid: nat, t: Sys)
    requires Reachable(s) && !s.lost && s.pending == {pid} && Next(s, BumpDone(pid)) == Some(t)
    ensures Settled(t) && Reachable(t)
    ensures t.version !in t.documents
  {
    StepReachable(s, BumpDone(pid), t);
    ReachableCoherent(s);
    assert forall v :: v in s.documents ==> LabelOk(s, v, s.documents[v]);
  }

  lemma StepReachable(s: Sys, a: Action, t: Sys)
    requires Reachable(s) && Next(s, a) == Some(t)
    ensures Reachable(t)
  {
    var menu :| Reaches(Initial(menu), s);
    OneMoreStep(Initial(menu), s, a, t);
  }

  // ----- Why each proviso is needed -----

  /** One reader has been served the old menu under version 1, and it is cached. */
  function OneServed(readers: map<nat, Reader>): Sys {
    Sys("a", {}, 1, map[1 := "a"], readers, [Full(Some(1), "a")], false, false)
  }

  lemma OneServedReachable()
    ensures Reachable(OneServed(map[]))
  {
    var s0 := Initial("a");
    NoStep(s0);
    var s1 := Move(s0, 1, Asked(None));
    StepReachable(s0, Ask(1, None), s1);
    var s2 := Move(s1, 1, NeedsVersion(None));
    StepReachable(s1, ReadVersion(1, true), s2);
    var s3 := Move(s2, 1, HasVersion(None, 1)).(version := 1);
    StepReachable(s2, CreateVersion(1), s3);
    FirstCompared(s3);
  }

  lemma FirstCompared(s3: Sys)
    requires Reachable(s3) && s3 == Sys("a", {}, 1, map[], s3.readers, [], false, false) && s3.readers.Keys == {1} && s3.readers[1] == HasVersion(None, 1)
    ensures Reachable(OneServed(map[]))
  {
    var s4 := Move(s3, 1, Looking(1));
    StepReachable(s3, Compare(1), s4);
    BuiltAndServed(s4);
  }

  lemma BuiltAndServed(s4: Sys)
    requires Reachable(s4) && s4 == Sys("a", {}, 1, map[], s4.readers, [], false, false) && s4.readers.Keys == {1} && s4.readers[1] == Looking(1)
    ensures Reachable(OneServed(map[]))
  {
    var s5 := Move(s4, 1, Missing(Some(1)));
    StepReachable(s4, ReadCache(1, true), s5);
    var s6 := Move(s5, 1, Built(Some(1), "a"));
    StepReachable(s5, Build(1), s6);
    assert s6.readers - {1} == map[];
    assert s6.documents[1 := "a"] == map[1 := "a"] && s6.responses + [Full(Some(1), "a")] == [Full(Some(1), "a")];
    StepReachable(s6, Respond(1, true), OneServed(map[]));
  }

  /** A bump that fails leaves the cache serving the old menu under the current version. */
  lemma FailedBumpGoesStale() returns (s: Sys)
    ensures Reachable(s) && s.pending == {} && !s.lost
    ensures s.version in s.documents && s.documents[s.version] != s.menu
  {
    OneServedReachable();
    var s0 := OneServed(map[]);
    var s1 := s0.(menu := "b", pending := {9});
    assert s0.pending + {9} == {9};
    StepReachable(s0, Write(9, "b"), s1);
    s := s1.(pending := {}, missed := true);
    assert s1.pending - {9} == {};
    StepReachable(s1, BumpFailed(9), s);
  }

  /** The new menu is committed and bumped; nothing is owed. */
  lemma BumpedReachable() returns (s: Sys)
    ensures Reachable(s) && s == OneServed(map[]).(menu := "b", version := 2) && Settled(s)
  {
    OneServedReachable();
    var s0 := OneServed(map[]);
    var s1 := s0.(menu := "b", pending := {9});
    assert s0.pending + {9} == {9};
    StepReachable(s0, Write(9, "b"), s1);
    s := s1.(pending := {}, version := 2);
    assert s1.pending - {9} == {};
    StepReachable(s1, BumpDone(9), s);
  }

  /** Writes one after another, each with its bump. */
  lemma {:induction false} WritesReach(s: Sys, menu: Document, n: nat) returns (t: Sys)
    requires Reachable(s) && Settled(s)
    ensures Reachable(t) && Settled(t)
    ensures t == s.(menu := if n == 0 then s.menu else menu, version := s.version + n)
    decreases n
  {
    if n == 0 {
      t := s;
    } else {
      var u := WritesReach(s, menu, n - 1);
      var written := u.(menu := menu, pending := {9});
      assert u.pending + {9} == {9} && {9} - {9} == {};
      StepReachable(u, Write(9, menu), written);
      t := written.(pending := {}, version := u.version + 1);
      StepReachable(written, BumpDone(9), t);
    }
  }

  /** Version `v` is current, and a client has been served the menu of the day under it. */
  lemma ServedUnder(v: nat) returns (s: Sys)
    requires v >= 1
    ensures Reachable(s) && Settled(s) && s.version == v && s.readers == map[] && Full(Some(v), "a") in s.responses
  {
    NoStep(Initial("a"));
    var u := WritesReach(Initial("a"), "a", v);
    VersionIsThere(u, 1, None);
    var has := Move(u, 1, HasVersion(None, v));
    var looking := CompareRuns(u, has, 1, None, v);
    s := DocumentRuns(u, looking, 1, true, true);
    assert looking.readers - {1} == map[];
    assert s.responses[|s.responses| - 1] == Full(Some(v), "a");
    StaysReachableIf(u, s);
  }

  /**
   A poll that has read its version is overtaken by a write and its bump, and then
   confirms the copy the write replaced: for every header and every later version.
   */
  lemma SupersededConfirmsStaleCopy(header: string, v: nat, current: nat) returns (s: Sys, t: Sys)
    requires 1 <= v < current && MatchesEtag(Some(header), EtagFor(v))
    ensures Reachable(s) && Settled(s) && s.version == current && Confirms(s, 2, header, v, t)
    ensures Full(Some(v), "a") in s.responses && s.menu != "a"
  {
    var s0 := ServedUnder(v);
    VersionIsThere(s0, 2, Some(header));
    var read := Move(s0, 2, HasVersion(Some(header), v));
    StaysReachableIf(s0, read);
    s := WritesReach(read, "b", current - v);
    t := Finish(s, 2, NotModified(Some(header), v));
  }

  /** Any star, however padded, is confirmed whatever the client holds: here a copy that never had a validator. */
  lemma StarConfirmsStaleCopy(header: string, v: nat) returns (s: Sys, t: Sys)
    requires IsStar(header) && v >= 1
    ensures Reachable(s) && Settled(s) && s.version == v && Confirms(s, 2, header, v, t)
    ensures Full(None, "a") in s.responses && s.menu != "a"
  {
    NoStep(Initial("a"));
    var served := OutageRuns(Initial("a"), 1, None, true);
    StaysReachableIf(Initial("a"), served);
    var s0 := WritesReach(served, "b", v);
    VersionIsThere(s0, 2, Some(header));
    s := Move(s0, 2, HasVersion(Some(header), v));
    StaysReachableIf(s0, s);
    t := Finish(s, 2, NotModified(Some(header), v));
    assert s.responses[0] == Full(None, "a");
  }

  /** Losing the counter lets an old version become current again, with its old document. */
  lemma LostCounterGoesStale() returns (s: Sys)
    ensures Reachable(s) && s.pending == {} && !s.missed
    ensures s.version in s.documents && s.documents[s.version] != s.menu
  {
    var s0 := BumpedReachable();
    var s1 := s0.(version := 0, lost := true);
    StepReachable(s0, LoseCounter, s1);
    var s2 := Move(s1, 2, Asked(None));
    StepReachable(s1, Ask(2, None), s2);
    var s3 := Move(s2, 2, NeedsVersion(None));
    StepReachable(s2, ReadVersion(2, true), s3);
    s := Move(s3, 2, HasVersion(None, 1)).(version := 1);
    StepReachable(s3, CreateVersion(2), s);
  }

  lemma {:induction false} RunsCompose(r: Sys, s: Sys, actions: seq<Action>, t: Sys)
    requires Reaches(r, s) && Run(s, actions) == Some(t)
    ensures Reaches(r, t)
    decreases |actions|
  {
    if actions != [] {
      var u := Run(s, actions[..|actions| - 1]).value;
      RunsCompose(r, s, actions[..|actions| - 1], u);
      OneMoreStep(r, u, actions[|actions| - 1], t);
    }
  }

  lemma StaysReachableIf(s: Sys, t: Sys)
    requires Reaches(s, t)
    ensures Reachable(s) ==> Reachable(t)
  {
    if Reachable(s) {
      var actions :| Run(s, actions) == Some(t);
      var menu :| Reaches(Initial(menu), s);
      RunsCompose(Initial(menu), s, actions, t);
    }
  }

  // ----- The program's own operations are runs -----

  /** The version a poll works under, or none when the counter cannot be read. */
  function VersionRead(s: Sys, up: bool): Option<nat> {
    if !up then None else Some(if s.version == 0 then 1 else s.version)
  }

  /** A poll learns the version there is. */
  lemma VersionIsThere(s: Sys, pid: nat, header: Option<string>)
    requires pid !in s.readers && s.version > 0
    ensures Reaches(s, Move(s, pid, HasVersion(header, s.version)))
  {
    NoStep(s);
    var asked := Move(s, pid, Asked(header));
    OneMoreStep(s, s, Ask(pid, header), asked);
    assert asked.readers[pid := HasVersion(header, s.version)] == s.readers[pid := HasVersion(header, s.version)];
    OneMoreStep(s, asked, ReadVersion(pid, true), Move(s, pid, HasVersion(header, s.version)));
  }

  /** A poll finds no counter, and makes it. */
  lemma VersionIsMade(s: Sys, pid: nat, header: Option<string>)
    requires pid !in s.readers && s.version == 0
    ensures Reaches(s, Move(s, pid, HasVersion(header, 1)).(version := 1, missed := false))
  {
    NoStep(s);
    var asked := Move(s, pid, Asked(header));
    OneMoreStep(s, s, Ask(pid, header), asked);
    var needs := Move(asked, pid, NeedsVersion(header));
    OneMoreStep(s, asked, ReadVersion(pid, true), needs);
    assert needs.readers[pid := HasVersion(header, 1)] == s.readers[pid := HasVersion(header, 1)];
    OneMoreStep(s, needs, CreateVersion(pid), Move(s, pid, HasVersion(header, 1)).(version := 1, missed := false));
  }

  /** A poll learns its version. */
  lemma VersionIsRead(s: Sys, pid: nat, header: Option<string>) returns (t: Sys)
    requires pid !in s.readers
    ensures Reaches(s, t) && t == Move(s, pid, HasVersion(header, VersionRead(s, true).value)).(version := t.version, missed := t.missed)
    ensures t.version == VersionRead(s, true).value
  {
    if s.version == 0 {
      VersionIsMade(s, pid, header);
      t := Move(s, pid, HasVersion(header, 1)).(version := 1, missed := false);
    } else {
      VersionIsThere(s, pid, header);
      t := Move(s, pid, HasVersion(header, s.version));
    }
  }

  /** A poll compares its header with its version. */
  lemma CompareRuns(s: Sys, u: Sys, pid: nat, header: Option<string>, v: nat) returns (t: Sys)
    requires Reaches(s, u) && pid in u.readers && u.readers[pid] == HasVersion(header, v)
    ensures Reaches(s, t)
    ensures t == if MatchesEtag(header, EtagFor(v)) then Finish(u, pid, NotModified(header, v)) else Move(u, pid, Looking(v))
  {
    t := if MatchesEtag(header, EtagFor(v)) then Finish(u, pid, NotModified(header, v)) else Move(u, pid, Looking(v));
    OneMoreStep(s, u, Compare(pid), t);
  }

  /** A poll that has to build answers with what it built, stored under its version if it has one. */
  lemma BuildRuns(s: Sys, u: Sys, pid: nat, storeUp: bool) returns (t: Sys)
    requires Reaches(s, u) && pid in u.readers && u.readers[pid].Missing?
    ensures var v := u.readers[pid].under;
            Reaches(s, t) && t == Finish(u, pid, Full(v, u.menu)).(documents := if v.Some? && storeUp then u.documents[v.value := u.menu] else u.documents)
  {
    var v := u.readers[pid].under;
    var built := Move(u, pid, Built(v, u.menu));
    OneMoreStep(s, u, Build(pid), built);
    t := Finish(u, pid, Full(v, u.menu)).(documents := if v.Some? && storeUp then u.documents[v.value := u.menu] else u.documents);
    assert built.readers - {pid} == t.readers;
    OneMoreStep(s, built, Respond(pid, storeUp), t);
  }

  /** A poll past its comparison: the cached document, or one it builds. */
  lemma DocumentRuns(s: Sys, u: Sys, pid: nat, readUp: bool, storeUp: bool) returns (t: Sys)
    requires Reaches(s, u) && pid in u.readers && u.readers[pid].Looking?
    ensures var v := u.readers[pid].v;
            && Reaches(s, t)
            && t == if readUp && v in u.documents then Finish(u, pid, Full(Some(v), u.documents[v]))
                    else Finish(u, pid, Full(Some(v), u.menu)).(documents := if storeUp then u.documents[v := u.menu] else u.documents)
  {
    var v := u.readers[pid].v;
    if readUp && v in u.documents {
      t := Finish(u, pid, Full(Some(v), u.documents[v]));
      OneMoreStep(s, u, ReadCache(pid, readUp), t);
    } else {
      var missing := Move(u, pid, Missing(Some(v)));
      OneMoreStep(s, u, ReadCache(pid, readUp), missing);
      t := BuildRuns(s, missing, pid, storeUp);
      assert missing.readers - {pid} == u.readers - {pid};
    }
  }

  /** The counter and the documents as one process sees them. `up` says whether the store answers a call. */
  class Cache {
    /** Zero when the key does not exist. */
    var version: nat
    var documents: map<nat, Document>

    ghost predicate Is(s: Sys)
      reads this
    {
      version == s.version && documents == s.documents
    }

    constructor (ghost menu: Document)
      ensures Is(Initial(menu))
    {
      version, documents := 0, map[];
    }

    method CurrentVersion(up: bool, ghost s: Sys) returns (v: Option<nat>)
      requires Is(s)
      modifies this`version
      ensures v == VersionRead(s, up) && version == if up then v.value else s.version
    {
      if !up {
        return None;
      }
      if version == 0 {
        version := version + 1;
      }
      v := Some(version);
    }

    /** From the cache when possible; `menu` is what a build renders now. */
    method DocumentFor(v: nat, menu: Document, readUp: bool, storeUp: bool, ghost s: Sys, ghost u: Sys, ghost pid: nat)
        returns (document: Document, ghost t: Sys)
      requires Is(u) && menu == u.menu && Reaches(s, u) && pid in u.readers && u.readers[pid] == Looking(v)
      modifies this`documents
      ensures Reaches(s, t) && Is(t) && t == Finish(u, pid, Full(Some(v), document)).(documents := documents)
      ensures document == if readUp && v in u.documents then u.documents[v] else menu
      ensures documents == if storeUp && !(readUp && v in u.documents) then u.documents[v := menu] else u.documents
    {
      t := DocumentRuns(s, u, pid, readUp, storeUp);
      if readUp && v in documents {
        return documents[v], t;
      }
      document := menu;
      if storeUp {
        documents := documents[v := document];
      }
    }

    /** A poll that knows its version: "not modified" if the header allows it, the document otherwise. */
    method Poll(v: nat, header: Option<string>, menu: Document, readUp: bool, storeUp: bool, ghost s: Sys, ghost u: Sys, ghost pid: nat)
        returns (body: Option<Document>, ghost t: Sys)
      requires Is(u) && menu == u.menu && Reaches(s, u) && pid in u.readers && u.readers[pid] == HasVersion(header, v)
      modifies this`documents
      ensures Reaches(s, t) && Is(t)
      ensures body.None? <==> MatchesEtag(header, EtagFor(v))
      ensures body.Some? ==> body.value == if readUp && v in u.documents then u.documents[v] else menu
      ensures documents == if body.Some? && storeUp && !(readUp && v in u.documents) then u.documents[v := menu] else u.documents
      ensures t == Finish(u, pid, if body.None? then NotModified(header, v) else Full(Some(v), body.value)).(documents := documents)
    {
      ghost var compared := CompareRuns(s, u, pid, header, v);
      if MatchesEtag(header, EtagFor(v)) {
        return None, compared;
      }
      assert compared.readers - {pid} == u.readers - {pid};
      var document;
      document, t := DocumentFor(v, menu, readUp, storeUp, s, compared, pid);
      body := Some(document);
    }

    /**
     One poll is a run of the readers and writers, and what it answers is the
     response that run records.
     */
    method Get(header: Option<string>, menu: Document, versionUp: bool, readUp: bool, storeUp: bool, ghost s: Sys, ghost pid: nat)
        returns (etag: Option<string>, body: Option<Document>, ghost t: Sys)
      requires Is(s) && menu == s.menu && pid !in s.readers
      modifies this
      ensures Reaches(s, t) && Is(t) && t.readers == s.readers && t.menu == s.menu && t.pending == s.pending && (Reachable(s) ==> Reachable(t))
      ensures version == (if versionUp && s.version == 0 then 1 else s.version)
      ensures etag == if versionUp then Some(EtagFor(version)) else None
      ensures body.None? <==> versionUp && MatchesEtag(header, EtagFor(version))
      ensures body.Some? ==> body.value == if versionUp && readUp && version in s.documents then s.documents[version] else menu
      ensures documents == if body.Some? && versionUp && storeUp && !(readUp && version in s.documents) then s.documents[version := menu] else s.documents
      ensures t.responses == s.responses + [if body.None? then NotModified(header, version)
                                            else Full(if versionUp then Some(version) else None, body.value)]
    {
      var v := CurrentVersion(versionUp, s);
      if v.None? {
        t := OutageRuns(s, pid, header, storeUp);
        StaysReachableIf(s, t);
        return None, Some(menu), t;
      }
      etag := Some(EtagFor(v.value));
      ghost var has := VersionIsRead(s, pid, header);
      assert has.readers - {pid} == s.readers;
      body, t := Poll(v.value, header, menu, readUp, storeUp, s, has, pid);
      StaysReachableIf(s, t);
    }

    /** After a handler that is not a read and did not fail, the version moves; the write itself is committed by then. */
    method Intercept(isRead: bool, written: Option<Document>, up: bool, ghost s: Sys, ghost pid: nat) returns (ghost t: Sys)
      requires Is(s) && pid !in s.pending && (isRead ==> written.None?)
      modifies this`version
      ensures Reaches(s, t) && Is(t) && t.pending == s.pending && t.responses == s.responses && (Reachable(s) ==> Reachable(t))
      ensures version == (if written.Some? && up then s.version + 1 else s.version) && documents == s.documents
      ensures t.menu == if written.Some? then written.value else s.menu
      ensures written.Some? && up && s.pending == {} && !s.lost ==> Settled(t)
      ensures written.None? ==> t == s
    {
      NoStep(s);
      t := s;
      if isRead || written.None? {
        return;
      }
      ghost var committed := s.(menu := written.value, pending := s.pending + {pid});
      OneMoreStep(s, s, Write(pid, written.value), committed);
      assert committed.pending - {pid} == s.pending;
      if up {
        version := version + 1;
        t := committed.(version := s.version + 1, pending := s.pending, missed := false);
        OneMoreStep(s, committed, BumpDone(pid), t);
      } else {
        t := committed.(pending := s.pending, missed := true);
        OneMoreStep(s, committed, BumpFailed(pid), t);
      }
      StaysReachableIf(s, t);
    }
  }

  /** With the counter out of reach, a poll builds and answers without a validator. */
  lemma OutageRuns(s: Sys, pid: nat, header: Option<string>, storeUp: bool) returns (t: Sys)
    requires pid !in s.readers
    ensures Reaches(s, t) && t == s.(responses := s.responses + [Full(None, s.menu)])
  {
    NoStep(s);
    var asked := Move(s, pid, Asked(header));
    OneMoreStep(s, s, Ask(pid, header), asked);
    var missing := Move(asked, pid, Missing(None));
    OneMoreStep(s, asked, ReadVersion(pid, false), missing);
    t := BuildRuns(s, missing, pid, storeUp);
    assert missing.readers - {pid} == s.readers;
  }
}
