// The operator service with calls that overlap. The store's writes are atomic; what a call read
// and checked before its write may have changed by then.
module OperatorRace {
  import opened Common
  import opened Operators

  type Caller = int

  // A call on its way: an update whose read is done, or whose count of the administrators is done
  // too; a token, a rotation or a session about to be saved.
  datatype Pending =
    | Counting(o: string, updated: Operator)
    | Writing(o: string, updated: Operator)
    | Issuing(id: string, token: Token)
    | Rotating(id: string, newId: string, token: Token, until: Instant, at: Instant)
    | Opening(sid: string, session: AdminSession)

  datatype World = World(s: State, pending: map<Caller, Pending>)

  function Leave(w: World, c: Caller): World {
    w.(pending := w.pending - {c})
  }

  function Go(w: World, c: Caller, p: Pending): World {
    w.(pending := w.pending[c := p])
  }

  // ---------------------------------------------------------------------------
  // The reads
  // ---------------------------------------------------------------------------

  // Only the removal of an active administrator goes on to count.
  function ReadForUpdate(w: World, c: Caller, o: string, setRoles: Option<set<string>>, setActive: Option<bool>): World {
    if o !in w.s.operators || (setRoles.None? && setActive.None?) then w
    else
      var current := w.s.operators[o];
      var updated := Operator(if setRoles.None? then current.roles else setRoles.value,
                              if setActive.None? then current.active else setActive.value);
      if !(updated.roles <= VALID_OPERATOR_ROLES) then w
      else Go(w, c, if ActiveAdmin(current) && !ActiveAdmin(updated) then Counting(o, updated) else Writing(o, updated))
  }

  function ReadForIssue(w: World, c: Caller, id: string, verifier: string, o: string, lifetime: int, now: Instant): World {
    if !Entitled(w.s, o) || !LifetimeAllowed(lifetime) then w
    else Go(w, c, Issuing(id, NewToken(id, verifier, o, w.s.operators[o].roles, lifetime, now)))
  }

  function ReadForRotate(w: World, c: Caller, id: string, newId: string, verifier: string, overlap: int,
          lifetime: int, now: Instant): World {
    if overlap <= 0 || overlap > MAXIMUM_OVERLAP || !LifetimeAllowed(lifetime) then w
    else match GetToken(w.s, id)
      case None => w
      case Some(previous) =>
        var o := previous.session.operator;
        if previous.revokedAt.Some? || previous.expiresAt <= now then w
        else Go(w, c, Rotating(id, newId, NewToken(newId, verifier, o, w.s.operators[o].roles, lifetime, now),
                               now + Min(overlap, previous.expiresAt - now), now))
  }

  function ReadForOpen(w: World, c: Caller, id: string, verifier: string, sid: string, sessionVerifier: string,
          csrf: string, now: Instant): World {
    match Authenticate(w.s, id, verifier, now)
    case Err(_) => w
    case Ok((s1, session)) =>
      Go(w.(s := s1), c, Opening(sid, AdminSession(sessionVerifier, csrf, session.(session := Some(sid)),
                                                   now + ABSOLUTE_LIFETIME, now + IDLE_LIFETIME, now, None, None)))
  }

  // ---------------------------------------------------------------------------
  // The writes
  // ---------------------------------------------------------------------------

  function Count(w: World, c: Caller, o: string, updated: Operator): World {
    if |ActiveAdmins(w.s.operators)| <= 1 then Leave(w, c) else Go(w, c, Writing(o, updated))
  }

  function Written(s: State, o: string, updated: Operator, now: Instant): State {
    if o in s.operators then StoreOperator(s, o, updated, now) else s
  }

  function Issued(s: State, id: string, token: Token): State {
    if id in s.tokens then s else s.(tokens := s.tokens[id := token])
  }

  // The store looks at the previous token again.
  function Rotated(s: State, id: string, newId: string, token: Token, until: Instant, at: Instant): State {
    match GetToken(s, id)
    case None => s
    case Some(previous) =>
      if previous.revokedAt.Some? || previous.expiresAt <= at || newId in s.tokens
         || previous.session.operator != token.session.operator then s
      else s.(tokens := s.tokens[id := previous.(expiresAt := Min(previous.expiresAt, until))][newId := token])
  }

  function Opened(s: State, sid: string, session: AdminSession): State {
    if sid in s.sessions then s else s.(sessions := s.sessions[sid := session])
  }

  function Save(s: State, p: Pending, now: Instant): State
    requires !p.Counting?
  {
    match p
    case Writing(o, updated) => Written(s, o, updated, now)
    case Issuing(id, token) => Issued(s, id, token)
    case Rotating(id, newId, token, until, at) => Rotated(s, id, newId, token, until, at)
    case Opening(sid, session) => Opened(s, sid, session)
  }

  function GoOn(w: World, c: Caller, p: Pending, now: Instant): World {
    if p.Counting? then Count(w, c, p.o, p.updated) else Leave(w.(s := Save(w.s, p, now)), c)
  }

  datatype Step =
    | BeginStep(c: Caller, op: Op, now: Instant)
    | GoOnStep(c: Caller, now: Instant)
    | CrashStep(c: Caller)

  function Begin(w: World, c: Caller, op: Op, now: Instant): World {
    match op
    case UpdateOperatorOp(o, setRoles, setActive) => ReadForUpdate(w, c, o, setRoles, setActive)
    case IssueTokenOp(id, verifier, o, lifetime) => ReadForIssue(w, c, id, verifier, o, lifetime, now)
    case RotateTokenOp(id, newId, verifier, overlap, lifetime) => ReadForRotate(w, c, id, newId, verifier, overlap, lifetime, now)
    case CreateSessionOp(id, verifier, sid, sessionVerifier, csrf) => ReadForOpen(w, c, id, verifier, sid, sessionVerifier, csrf, now)
    case _ => w.(s := After(w.s, op, now))
  }

  function Apply(w: World, st: Step): World {
    match st
    case BeginStep(c, op, now) => if c in w.pending then w else Begin(w, c, op, now)
    case GoOnStep(c, now) => if c in w.pending then GoOn(w, c, w.pending[c], now) else w
    case CrashStep(c) => Leave(w, c)
  }

  function Run(w: World, steps: seq<Step>): World
    decreases |steps|
  {
    if steps == [] then w else Run(Apply(w, steps[0]), steps[1..])
  }

  // ---------------------------------------------------------------------------
  // An administrator remains
  // ---------------------------------------------------------------------------

  // An update is written that takes away the administrator who by now is the last: the guard of
  // the call, asked again at the write, would refuse it.
  predicate LastAdminWrite(w: World, st: Step) {
    && st.GoOnStep? && st.c in w.pending && w.pending[st.c].Writing?
    && w.pending[st.c].o in ActiveAdmins(w.s.operators) && !ActiveAdmin(w.pending[st.c].updated)
    && |ActiveAdmins(w.s.operators)| <= 1
  }

  predicate NoLastAdminWrite(w: World, steps: seq<Step>)
    decreases |steps|
  {
    steps == [] || (!LastAdminWrite(w, steps[0]) && NoLastAdminWrite(Apply(w, steps[0]), steps[1..]))
  }

  predicate AlwaysAdmin(w: World, steps: seq<Step>)
    decreases |steps|
  {
    HasActiveAdmin(w.s) && (steps == [] || AlwaysAdmin(Apply(w, steps[0]), steps[1..]))
  }

  lemma SizeOne(admins: set<string>, o: string)
    requires o in admins
    ensures |admins| <= 1 <==> admins == {o}
  {
    assert admins == (admins - {o}) + {o};
    if admins != {o} {
      assert admins - {o} != {};
    }
  }

  lemma HasAdmin(s: State)
    ensures HasActiveAdmin(s) <==> ActiveAdmins(s.operators) != {}
  {
    if HasActiveAdmin(s) {
      var o :| o in s.operators && ActiveAdmin(s.operators[o]);
      assert o in ActiveAdmins(s.operators);
    }
    if ActiveAdmins(s.operators) != {} {
      var o :| o in ActiveAdmins(s.operators);
      assert ActiveAdmin(s.operators[o]);
    }
  }

  lemma WriteLeavesAdmin(w: World, c: Caller, now: Instant)
    requires HasActiveAdmin(w.s) && c in w.pending && w.pending[c].Writing?
    ensures HasActiveAdmin(Apply(w, GoOnStep(c, now)).s) <==> !LastAdminWrite(w, GoOnStep(c, now))
  {
    var p := w.pending[c];
    var w' := Apply(w, GoOnStep(c, now));
    var admins, admins' := ActiveAdmins(w.s.operators), ActiveAdmins(w'.s.operators);
    HasAdmin(w.s);
    HasAdmin(w'.s);
    if p.o in w.s.operators {
      assert w'.s.operators == w.s.operators[p.o := p.updated];
      assert admins' == if ActiveAdmin(p.updated) then admins + {p.o} else admins - {p.o};
      if p.o in admins { SizeOne(admins, p.o); }
    }
  }

  lemma OthersLeaveOperators(w: World, st: Step)
    requires !(st.GoOnStep? && st.c in w.pending && w.pending[st.c].Writing?)
    ensures forall o | o in w.s.operators :: o in Apply(w, st).s.operators && Apply(w, st).s.operators[o] == w.s.operators[o]
  {
  }

  lemma StepLeavesAdmin(w: World, st: Step)
    requires HasActiveAdmin(w.s)
    ensures HasActiveAdmin(Apply(w, st).s) <==> !LastAdminWrite(w, st)
  {
    if st.GoOnStep? && st.c in w.pending && w.pending[st.c].Writing? {
      WriteLeavesAdmin(w, st.c, st.now);
    } else {
      OthersLeaveOperators(w, st);
      var o :| o in w.s.operators && ActiveAdmin(w.s.operators[o]);
      assert ActiveAdmin(Apply(w, st).s.operators[o]);
    }
  }

  // With updates interleaved at every read, count and write: there is an active administrator at
  // every moment exactly if no update is written whose guard has ceased to hold.
  lemma {:induction false} AdminRemainsExactly(w: World, steps: seq<Step>)
    requires HasActiveAdmin(w.s)
    ensures AlwaysAdmin(w, steps) <==> NoLastAdminWrite(w, steps)
    decreases |steps|
  {
    if steps != [] {
      StepLeavesAdmin(w, steps[0]);
      if !LastAdminWrite(w, steps[0]) { AdminRemainsExactly(Apply(w, steps[0]), steps[1..]); }
    }
  }

  // What an undisturbed call comes to. A login that draws an id already in use has still marked its
  // token as used.
  function Alone(s: State, op: Op, now: Instant): State {
    After(s, if op.CreateSessionOp? && op.sid in s.sessions then AuthenticateOp(op.id, op.verifier) else op, now)
  }

  lemma OneReadOneWrite(w: World, c: Caller, op: Op, now: Instant)
    requires c !in w.pending && !op.UpdateOperatorOp?
    ensures var w1 := Begin(w, c, op, now);
            if c in w1.pending then !w1.pending[c].Counting? && w1.pending - {c} == w.pending && Save(w1.s, w1.pending[c], now) == Alone(w.s, op, now)
            else w1 == w.(s := Alone(w.s, op, now))
  {
  }

  lemma UpdateInThree(w: World, c: Caller, op: Op, now: Instant)
    requires c !in w.pending && op.UpdateOperatorOp?
    ensures var w1 := Begin(w, c, op, now);
            if c !in w1.pending then w1 == w && Alone(w.s, op, now) == w.s
            else
              && w1.s == w.s && w1.pending - {c} == w.pending && (w1.pending[c].Counting? || w1.pending[c].Writing?)
              && Alone(w.s, op, now) == if w1.pending[c].Counting? && |ActiveAdmins(w.s.operators)| <= 1 then w.s
                                        else Written(w.s, w1.pending[c].o, w1.pending[c].updated, now)
  {
  }

  // A call that nobody disturbs does what the one-step operation of module Operators does.
  lemma AloneIsGuarded(w: World, c: Caller, op: Op, now: Instant)
    requires c !in w.pending
    ensures Run(w, [BeginStep(c, op, now), GoOnStep(c, now), GoOnStep(c, now)]) == w.(s := Alone(w.s, op, now))
  {
    RunThree(w, BeginStep(c, op, now), GoOnStep(c, now), GoOnStep(c, now));
    var w1 := Begin(w, c, op, now);
    if op.UpdateOperatorOp? {
      UpdateInThree(w, c, op, now);
      if c in w1.pending && w1.pending[c].Counting? {
        var w2 := Apply(w1, GoOnStep(c, now));
        assert w2.pending - {c} == w.pending;
      }
    } else {
      OneReadOneWrite(w, c, op, now);
    }
  }

  lemma RunThree(w: World, a: Step, b: Step, c: Step)
    ensures Run(w, [a, b, c]) == Apply(Apply(Apply(w, a), b), c)
  {
    assert [a, b, c][1..] == [b, c] && [b, c][1..] == [c] && [c][1..] == [];
    assert Run(Apply(Apply(w, a), b), [c]) == Apply(Apply(Apply(w, a), b), c);
    assert Run(Apply(w, a), [b, c]) == Run(Apply(Apply(w, a), b), [c]);
  }

  // ---------------------------------------------------------------------------
  // The last two administrators
  // ---------------------------------------------------------------------------

  const TWO_ADMINS := State(map["x" := Operator({ADMIN}, true), "y" := Operator({ADMIN}, true)], map[], map[])

  const BOTH_ASK := [
    BeginStep(1, UpdateOperatorOp("x", None, Some(false)), 0),
    BeginStep(2, UpdateOperatorOp("y", None, Some(false)), 0),
    GoOnStep(1, 0)]
  const BOTH_WRITE := [GoOnStep(2, 0), GoOnStep(1, 1), GoOnStep(2, 1)]

  const OFF := Operator({ADMIN}, false)

  lemma TwoAreTwo()
    ensures |ActiveAdmins(TWO_ADMINS.operators)| == 2
  {
    assert ActiveAdmins(TWO_ADMINS.operators) == {"x", "y"};
  }

  lemma BothAsk()
    ensures Run(World(TWO_ADMINS, map[]), BOTH_ASK) == World(TWO_ADMINS, map[1 := Writing("x", OFF), 2 := Counting("y", OFF)])
  {
    TwoAreTwo();
    var w := World(TWO_ADMINS, map[]);
    RunThree(w, BOTH_ASK[0], BOTH_ASK[1], BOTH_ASK[2]);
    var w1 := Apply(w, BOTH_ASK[0]);
    assert w1 == World(TWO_ADMINS, map[1 := Counting("x", OFF)]);
    var w2 := Apply(w1, BOTH_ASK[1]);
    assert w2 == World(TWO_ADMINS, map[1 := Counting("x", OFF), 2 := Counting("y", OFF)]);
  }

  lemma BothWrite(w: World)
    requires w == World(TWO_ADMINS, map[1 := Writing("x", OFF), 2 := Counting("y", OFF)])
    ensures Run(w, BOTH_WRITE).s.operators == map["x" := OFF, "y" := OFF]
  {
    TwoAreTwo();
    RunThree(w, BOTH_WRITE[0], BOTH_WRITE[1], BOTH_WRITE[2]);
    var w1 := Apply(w, BOTH_WRITE[0]);
    assert w1 == World(TWO_ADMINS, map[1 := Writing("x", OFF), 2 := Writing("y", OFF)]);
    var w2 := Apply(w1, BOTH_WRITE[1]);
    assert w2.s.operators == map["x" := OFF, "y" := Operator({ADMIN}, true)] && w2.pending == map[2 := Writing("y", OFF)];
  }

  lemma {:induction false} RunJoin(w: World, a: seq<Step>, b: seq<Step>)
    ensures Run(w, a + b) == Run(Run(w, a), b)
    decreases |a|
  {
    if a == [] {
      assert a + b == b;
    } else {
      assert (a + b)[1..] == a[1..] + b;
      RunJoin(Apply(w, a[0]), a[1..], b);
    }
  }

  // Two overlapping calls disable the last two administrators, each having counted two.
  lemma BothAdminsGo()
    ensures HasActiveAdmin(TWO_ADMINS)
    ensures Run(World(TWO_ADMINS, map[]), BOTH_ASK + BOTH_WRITE).s.operators == map["x" := OFF, "y" := OFF]
    ensures !HasActiveAdmin(Run(World(TWO_ADMINS, map[]), BOTH_ASK + BOTH_WRITE).s)
  {
    assert ActiveAdmin(TWO_ADMINS.operators["x"]);
    RunJoin(World(TWO_ADMINS, map[]), BOTH_ASK, BOTH_WRITE);
    BothAsk();
    BothWrite(Run(World(TWO_ADMINS, map[]), BOTH_ASK));
  }

  // ---------------------------------------------------------------------------
  // Live credentials are current
  // ---------------------------------------------------------------------------

  predicate Live(s: State) {
    && (forall id | id in s.tokens && s.tokens[id].revokedAt.None? :: CarriesCurrentRoles(s, s.tokens[id].session))
    && (forall sid | sid in s.sessions && s.sessions[sid].revokedAt.None? :: CarriesCurrentRoles(s, s.sessions[sid].session))
  }

  // A token or session is saved whose operator by now is inactive or has other roles than those
  // the call read.
  predicate StaleSave(w: World, st: Step) {
    && st.GoOnStep? && st.c in w.pending
    && match w.pending[st.c]
       case Issuing(id, token) => id !in w.s.tokens && !CarriesCurrentRoles(w.s, token.session)
       case Opening(sid, session) => sid !in w.s.sessions && !CarriesCurrentRoles(w.s, session.session)
       case _ => false
  }

  predicate NoStaleSave(w: World, steps: seq<Step>)
    decreases |steps|
  {
    steps == [] || (!StaleSave(w, steps[0]) && NoStaleSave(Apply(w, steps[0]), steps[1..]))
  }

  predicate AlwaysLive(w: World, steps: seq<Step>)
    decreases |steps|
  {
    Live(w.s) && (steps == [] || AlwaysLive(Apply(w, steps[0]), steps[1..]))
  }

  // A rotation on its way carries what the token it replaces carries.
  predicate PendingFits(s: State, p: Pending) {
    match p
    case Issuing(_, token) => token.revokedAt.None?
    case Rotating(id, _, token, _, _) =>
      id in s.tokens && s.tokens[id].session.operator == token.session.operator && s.tokens[id].session.roles == token.session.roles
    case Opening(_, session) => session.revokedAt.None?
    case _ => true
  }

  predicate Fits(w: World) {
    Live(w.s) && forall c | c in w.pending :: PendingFits(w.s, w.pending[c])
  }

  // Tokens are never removed, nor do they change hands or roles.
  predicate TokensStay(s: State, s': State) {
    forall id | id in s.tokens :: id in s'.tokens && s'.tokens[id].session == s.tokens[id].session
  }

  lemma PendingStays(w: World, w': World, c: Caller)
    requires Fits(w) && TokensStay(w.s, w'.s) && w'.pending - {c} == w.pending - {c} && Live(w'.s)
    requires c in w'.pending ==> PendingFits(w'.s, w'.pending[c])
    ensures Fits(w')
  {
    forall d | d in w'.pending ensures PendingFits(w'.s, w'.pending[d]) {
      if d != c {
        assert d in w'.pending - {c};
        assert PendingFits(w.s, w.pending[d]);
      }
    }
  }

  lemma WrittenKeeps(s: State, o: string, updated: Operator, now: Instant)
    requires Live(s)
    ensures Live(Written(s, o, updated, now)) && TokensStay(s, Written(s, o, updated, now))
  {
  }

  lemma IssuedKeeps(s: State, id: string, token: Token)
    requires Live(s) && token.revokedAt.None?
    ensures Live(Issued(s, id, token)) <==> id in s.tokens || CarriesCurrentRoles(s, token.session)
    ensures TokensStay(s, Issued(s, id, token))
  {
    var s' := Issued(s, id, token);
    if id !in s.tokens { assert s'.tokens[id] == token; }
  }

  lemma OpenedKeeps(s: State, sid: string, session: AdminSession)
    requires Live(s) && session.revokedAt.None?
    ensures Live(Opened(s, sid, session)) <==> sid in s.sessions || CarriesCurrentRoles(s, session.session)
    ensures TokensStay(s, Opened(s, sid, session))
  {
    var s' := Opened(s, sid, session);
    if sid !in s.sessions { assert s'.sessions[sid] == session; }
  }

  // A change of the operator revokes the previous token, and then the store refuses to rotate it.
  lemma RotatedKeeps(s: State, id: string, newId: string, token: Token, until: Instant, at: Instant)
    requires Live(s) && PendingFits(s, Rotating(id, newId, token, until, at))
    ensures Live(Rotated(s, id, newId, token, until, at)) && TokensStay(s, Rotated(s, id, newId, token, until, at))
  {
  }

  lemma OneWriteKeeps(s: State, op: Op, now: Instant)
    requires Live(s)
    requires op.CreateOperatorOp? || op.RevokeTokenOp? || op.AuthenticateOp? || op.AuthenticateSessionOp? || op.RevokeSessionOp?
    ensures Live(After(s, op, now)) && TokensStay(s, After(s, op, now))
  {
  }

  lemma AuthenticateKeeps(s: State, id: string, verifier: string, now: Instant)
    requires Live(s) && Authenticate(s, id, verifier, now).Ok?
    ensures var s1 := Authenticate(s, id, verifier, now).value.0; Live(s1) && TokensStay(s, s1)
  {
  }

  lemma BeginKeeps(w: World, c: Caller, op: Op, now: Instant)
    requires Fits(w) && c !in w.pending
    ensures Fits(Begin(w, c, op, now))
  {
    var w' := Begin(w, c, op, now);
    match op
    case UpdateOperatorOp(_, _, _) => PendingStays(w, w', c);
    case IssueTokenOp(_, _, _, _) => PendingStays(w, w', c);
    case RotateTokenOp(_, _, _, _, _) => PendingStays(w, w', c);
    case CreateSessionOp(id, verifier, _, _, _) =>
      if Authenticate(w.s, id, verifier, now).Ok? { AuthenticateKeeps(w.s, id, verifier, now); }
      PendingStays(w, w', c);
    case _ =>
      OneWriteKeeps(w.s, op, now);
      PendingStays(w, w', c);
  }

  lemma SaveKeeps(w: World, c: Caller, now: Instant)
    requires Fits(w) && c in w.pending && !w.pending[c].Counting?
    ensures Live(Save(w.s, w.pending[c], now)) <==> !StaleSave(w, GoOnStep(c, now))
    ensures TokensStay(w.s, Save(w.s, w.pending[c], now))
  {
    assert PendingFits(w.s, w.pending[c]);
    match w.pending[c]
    case Writing(o, updated) => WrittenKeeps(w.s, o, updated, now);
    case Issuing(id, token) => IssuedKeeps(w.s, id, token);
    case Rotating(id, newId, token, until, at) => RotatedKeeps(w.s, id, newId, token, until, at);
    case Opening(sid, session) => OpenedKeeps(w.s, sid, session);
  }

  lemma StepKeepsLive(w: World, st: Step)
    requires Fits(w)
    ensures Live(Apply(w, st).s) <==> !StaleSave(w, st)
    ensures !StaleSave(w, st) ==> Fits(Apply(w, st))
  {
    var w' := Apply(w, st);
    match st
    case BeginStep(c, op, now) => if c !in w.pending { BeginKeeps(w, c, op, now); }
    case GoOnStep(c, now) =>
      if c in w.pending {
        if w.pending[c].Counting? {
          PendingStays(w, w', c);
        } else {
          SaveKeeps(w, c, now);
          if !StaleSave(w, st) { PendingStays(w, w', c); }
        }
      }
    case CrashStep(c) => PendingStays(w, w', c);
  }

  lemma {:induction false} RunKeepsLive(w: World, steps: seq<Step>)
    requires Fits(w)
    ensures AlwaysLive(w, steps) <==> NoStaleSave(w, steps)
    decreases |steps|
  {
    if steps != [] {
      StepKeepsLive(w, steps[0]);
      if !StaleSave(w, steps[0]) { RunKeepsLive(Apply(w, steps[0]), steps[1..]); }
    }
  }

  // With calls interleaved between their reads and their writes: every unrevoked token and session
  // carries the current roles of an active operator at every moment exactly if none is saved whose
  // operator by then is inactive or has other roles than those read. Rotation never is at fault.
  lemma LiveCredentialsAreCurrentExactly(steps: seq<Step>)
    ensures AlwaysLive(World(EMPTY, map[]), steps) <==> NoStaleSave(World(EMPTY, map[]), steps)
  {
    RunKeepsLive(World(EMPTY, map[]), steps);
  }

  // An operator is demoted between the read and the save of a call that issues a token.
  const STALE_ISSUE := [
    BeginStep(1, IssueTokenOp("t", "secret", "x", 10), 0),
    BeginStep(2, UpdateOperatorOp("x", Some({"audit_viewer"}), None), 0)]
  const STALE_SAVES := [GoOnStep(2, 1), GoOnStep(2, 1), GoOnStep(1, 2)]

  lemma ReadsDone()
    ensures Run(World(TWO_ADMINS, map[]), STALE_ISSUE)
         == World(TWO_ADMINS, map[1 := Issuing("t", NewToken("t", "secret", "x", {ADMIN}, 10, 0)),
                                  2 := Counting("x", Operator({"audit_viewer"}, true))])
  {
    var w := World(TWO_ADMINS, map[]);
    var w1 := Apply(w, STALE_ISSUE[0]);
    assert w1 == World(TWO_ADMINS, map[1 := Issuing("t", NewToken("t", "secret", "x", {ADMIN}, 10, 0))]);
    var w2 := Apply(w1, STALE_ISSUE[1]);
    assert ActiveAdmin(TWO_ADMINS.operators["x"]) && !ActiveAdmin(Operator({"audit_viewer"}, true));
    assert STALE_ISSUE[1..] == [STALE_ISSUE[1]] && STALE_ISSUE[1..][1..] == [];
    assert Run(w1, [STALE_ISSUE[1]]) == Run(w2, []);
  }

  // The token of a former administrator outlives the demotion that was to cut it off.
  lemma StaleTokenIsSaved()
    ensures var s := Run(World(TWO_ADMINS, map[]), STALE_ISSUE + STALE_SAVES).s;
            && "x" in s.operators && s.operators["x"] == Operator({"audit_viewer"}, true)
            && "t" in s.tokens && s.tokens["t"].revokedAt.None? && s.tokens["t"].session.roles == {ADMIN}
  {
    ReadsDone();
    TwoAreTwo();
    RunJoin(World(TWO_ADMINS, map[]), STALE_ISSUE, STALE_SAVES);
    var w := Run(World(TWO_ADMINS, map[]), STALE_ISSUE);
    RunThree(w, STALE_SAVES[0], STALE_SAVES[1], STALE_SAVES[2]);
    var w1 := Apply(w, STALE_SAVES[0]);
    assert w1.pending[1] == w.pending[1] && w1.pending[2] == Writing("x", Operator({"audit_viewer"}, true));
    var w2 := Apply(w1, STALE_SAVES[1]);
    assert w2.s.operators["x"] == Operator({"audit_viewer"}, true) && w2.s.tokens == map[] && w2.pending[1] == w.pending[1];
  }
}
