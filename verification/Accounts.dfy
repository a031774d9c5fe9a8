/**
 Accounts and sessions under concurrency. A password is verified outside any transaction; what was verified is then
 applied by a statement that is conditional on the hash still being the stored one.
 */
module Accounts {
  import opened Types

  /** A salted password hash; hashing draws a new salt, so no two hashings agree. */
  type Hash = nat

  type SessionId = nat

  datatype Account = Account(name: string, hash: Hash, active: bool, admin: bool, mustChange: bool)

  /** `hash` is the owner's password hash at the moment the row was inserted. */
  datatype Session = Session(user: UserId, hash: Hash)

  datatype Tables = Tables(users: map<UserId, Account>, sessions: map<SessionId, Session>, nextUser: UserId)

  // ---------------------------------------------------------------- statements and transactions

  function Revoke(t: Tables, u: UserId): map<SessionId, Session> {
    map s | s in t.sessions && t.sessions[s].user != u :: t.sessions[s]
  }

  /** INSERT … SELECT from the active user, and from the expected hash when one is given. */
  function InsertSession(t: Tables, s: SessionId, u: UserId, expected: Option<Hash>): Result<Tables> {
    if s in t.sessions then Err(Conflict)
    else if u !in t.users || !t.users[u].active || (expected.Some? && t.users[u].hash != expected.value) then Err(NotFound)
    else Ok(t.(sessions := t.sessions[s := Session(u, t.users[u].hash)]))
  }

  function ChangePassword(t: Tables, u: UserId, verified: Hash, hash: Hash): Result<Tables> {
    if u !in t.users || !t.users[u].active || t.users[u].hash != verified then Err(Conflict)
    else Ok(t.(users := t.users[u := t.users[u].(hash := hash, mustChange := false)], sessions := Revoke(t, u)))
  }

  function ResetPassword(t: Tables, u: UserId, hash: Hash, mustChange: bool): Result<Tables> {
    if u !in t.users then Err(NotFound)
    else Ok(t.(users := t.users[u := t.users[u].(hash := hash, mustChange := mustChange)], sessions := Revoke(t, u)))
  }

  function RecoverAdministrator(t: Tables, u: UserId, hash: Hash): Result<Tables> {
    if u !in t.users || !t.users[u].admin then Err(NotFound)
    else Ok(t.(users := t.users[u := t.users[u].(hash := hash, active := true, mustChange := false)], sessions := Revoke(t, u)))
  }

  function UpdateUser(t: Tables, u: UserId, name: string, active: bool): Result<Tables> {
    if u !in t.users then Err(NotFound)
    else if t.users[u].admin && !active then Err(Conflict)
    else
      var t' := t.(users := t.users[u := t.users[u].(name := name, active := active)]);
      Ok(if active then t' else t'.(sessions := Revoke(t, u)))
  }

  function DeleteMember(t: Tables, u: UserId, confirmed: string): Result<Tables> {
    if u !in t.users then Err(NotFound)
    else if t.users[u].admin || t.users[u].active || t.users[u].name != confirmed then Err(Conflict)
    else Ok(t.(users := t.users - {u}, sessions := Revoke(t, u)))
  }

  function ChangeUsername(t: Tables, u: UserId, verified: Hash, name: string): Result<Tables> {
    if u !in t.users || !t.users[u].active || t.users[u].mustChange || t.users[u].hash != verified then Err(Conflict)
    else Ok(t.(users := t.users[u := t.users[u].(name := name)]))
  }

  function AddUser(t: Tables, account: Account): Tables {
    t.(users := t.users[t.nextUser := account], nextUser := t.nextUser + 1)
  }

  function DropSessions(t: Tables, gone: set<SessionId>): Tables {
    t.(sessions := t.sessions - gone)
  }

  // ---------------------------------------------------------------- the store object

  /** Every session belongs to an active account and was created under the password hash that account has now. */
  ghost predicate SessionsCurrent(t: Tables) {
    forall s :: s in t.sessions ==>
      t.sessions[s].user in t.users && t.users[t.sessions[s].user].active && t.users[t.sessions[s].user].hash == t.sessions[s].hash
  }

  /** No session of `u` is left, and nobody else's was touched. */
  ghost predicate OnlyOthersRemain(before: map<SessionId, Session>, after: map<SessionId, Session>, u: UserId) {
    && (forall s :: s in after ==> after[s].user != u && s in before && after[s] == before[s])
    && (forall s :: s in before && before[s].user != u ==> s in after)
  }

  class AccountStore {
    var users: map<UserId, Account>
    var sessions: map<SessionId, Session>
    var nextUser: UserId

    function View(): Tables
      reads this
    {
      Tables(users, sessions, nextUser)
    }

    /** The read half of a login or a change: the hash it verified, if the password fits and the account is active. */
    method VerifyPassword(u: UserId, fits: bool) returns (verified: Option<Hash>)
      ensures verified.Some? <==> u in users && fits && users[u].active
      ensures verified.Some? ==> verified.value == users[u].hash
    {
      if u !in users {
        return None;
      }
      var hash := users[u].hash;
      if !fits || !users[u].active {
        return None;
      }
      verified := Some(hash);
    }

    method NewSessionInScope(s: SessionId, u: UserId, expected: Option<Hash>) returns (failure: Option<Error>)
      modifies this
      ensures View() == (match InsertSession(old(View()), s, u, expected) case Ok(t) => t case Err(_) => old(View()))
      // created exactly for a new id, an active user and, if one was verified, the hash still in force
      ensures failure.None? <==> s !in old(sessions) && u in users && users[u].active && (expected.Some? ==> users[u].hash == expected.value)
      ensures failure.None? ==> s in sessions && sessions[s] == Session(u, users[u].hash)
      ensures users == old(users) && (forall k :: k != s ==> (k in sessions <==> k in old(sessions)))
      ensures forall k :: k in old(sessions) ==> k in sessions && sessions[k] == old(sessions)[k]
      ensures SessionsCurrent(old(View())) ==> SessionsCurrent(View())
    {
      if s in sessions {
        return Some(Conflict);
      }
      var selected := u in users && users[u].active;
      if expected.Some? {
        selected := selected && users[u].hash == expected.value;
      }
      if !selected {
        return Some(NotFound);
      }
      sessions := sessions[s := Session(u, users[u].hash)];
      failure := None;
    }

    method DeleteSessionsOf(u: UserId)
      modifies this`sessions
      ensures sessions == Revoke(old(View()), u)
      ensures OnlyOthersRemain(old(sessions), sessions, u)
    {
      sessions := map s | s in sessions && sessions[s].user != u :: sessions[s];
    }

    /** The write half of ChangeUserPassword. */
    method ApplyPasswordChange(u: UserId, verified: Hash, hash: Hash) returns (changed: bool)
      modifies this
      ensures View() == (match ChangePassword(old(View()), u, verified, hash) case Ok(t) => t case Err(_) => old(View()))
      // applied exactly while the verified hash is still the active account's; then no session of the user remains
      ensures changed <==> u in old(users) && old(users)[u].active && old(users)[u].hash == verified
      ensures changed ==> u in users && users[u].hash == hash && !users[u].mustChange && OnlyOthersRemain(old(sessions), sessions, u)
      ensures !changed ==> View() == old(View())
      ensures forall v :: v != u ==> (v in users <==> v in old(users)) && (v in users ==> users[v] == old(users)[v])
      ensures SessionsCurrent(old(View())) ==> SessionsCurrent(View())
    {
      if u !in users || !users[u].active || users[u].hash != verified {
        return false;
      }
      users := users[u := users[u].(hash := hash, mustChange := false)];
      DeleteSessionsOf(u);
      changed := true;
    }

    method ResetUserPassword(u: UserId, hash: Hash, mustChange: bool) returns (failure: Option<Error>)
      modifies this
      ensures View() == (match ResetPassword(old(View()), u, hash, mustChange) case Ok(t) => t case Err(_) => old(View()))
      ensures failure.None? <==> u in old(users)
      ensures failure.None? ==> u in users && users[u].hash == hash && users[u].mustChange == mustChange && OnlyOthersRemain(old(sessions), sessions, u)
      ensures failure.Some? ==> View() == old(View())
      ensures forall v :: v != u ==> (v in users <==> v in old(users)) && (v in users ==> users[v] == old(users)[v])
      ensures SessionsCurrent(old(View())) ==> SessionsCurrent(View())
    {
      if u !in users {
        return Some(NotFound);
      }
      users := users[u := users[u].(hash := hash, mustChange := mustChange)];
      DeleteSessionsOf(u);
      failure := None;
    }

    method UpdateAccount(u: UserId, name: string, active: bool) returns (failure: Option<Error>)
      modifies this
      ensures View() == (match UpdateUser(old(View()), u, name, active) case Ok(t) => t case Err(_) => old(View()))
      ensures failure == (match UpdateUser(old(View()), u, name, active) case Ok(_) => None case Err(e) => Some(e))
      ensures failure == if u !in old(users) then Some(NotFound) else if old(users)[u].admin && !active then Some(Conflict) else None
      // a disable leaves the user no session; an enable or rename leaves every session
      ensures failure.None? ==> u in users && users[u].active == active && users[u].name == name && users[u].hash == old(users)[u].hash
      ensures failure.None? && !active ==> !users[u].admin && OnlyOthersRemain(old(sessions), sessions, u)
      ensures failure.None? && active ==> sessions == old(sessions)
      ensures failure.Some? ==> View() == old(View())
      ensures SessionsCurrent(old(View())) ==> SessionsCurrent(View())
    {
      if u !in users {
        return Some(NotFound);
      }
      if users[u].admin && !active {
        return Some(Conflict);
      }
      users := users[u := users[u].(name := name, active := active)];
      if !active {
        DeleteSessionsOf(u);
      }
      failure := None;
    }
  }

  // ---------------------------------------------------------------- interleavings

  /** A verified request that has not been applied yet. */
  datatype Pending =
    | Login(user: UserId, verified: Hash)
    | Change(user: UserId, verified: Hash, hash: Hash)
    | Rename(user: UserId, verified: Hash, name: string)

  /** `drawn` holds every hash ever made, `retired` every hash that was replaced or deleted. */
  datatype State = State(t: Tables, pending: map<nat, Pending>, drawn: set<Hash>, retired: set<Hash>)

  datatype Step =
    | Verify(key: nat, request: Pending)
    | Finish(key: nat, session: SessionId)
    | Abandon(key: nat)
    | Open(user: UserId, session: SessionId)
    | Reset(user: UserId, hash: Hash, mustChange: bool)
    | Recover(user: UserId, hash: Hash)
    | Update(user: UserId, name: string, active: bool)
    | Delete(user: UserId, confirmed: string)
    | Add(account: Account)
    | Drop(gone: set<SessionId>)

  predicate Enabled(s: State, step: Step) {
    match step
    case Verify(key, request) =>
      && key !in s.pending
      && request.user in s.t.users && s.t.users[request.user].active && request.verified == s.t.users[request.user].hash
      && (request.Change? ==> request.hash !in s.drawn)
    case Finish(key, _) => key in s.pending
    case Reset(_, hash, _) => hash !in s.drawn
    case Recover(_, hash) => hash !in s.drawn
    case Add(account) => account.hash !in s.drawn
    case _ => true
  }

  function Outcome(s: State, step: Step): Result<Tables>
    requires Enabled(s, step)
  {
    match step
    case Verify(_, _) => Ok(s.t)
    case Finish(key, session) =>
      (match s.pending[key]
       case Login(u, verified) => InsertSession(s.t, session, u, Some(verified))
       case Change(u, verified, hash) => ChangePassword(s.t, u, verified, hash)
       case Rename(u, verified, name) => ChangeUsername(s.t, u, verified, name))
    case Abandon(_) => Ok(s.t)
    case Open(u, session) => InsertSession(s.t, session, u, None)
    case Reset(u, hash, mustChange) => ResetPassword(s.t, u, hash, mustChange)
    case Recover(u, hash) => RecoverAdministrator(s.t, u, hash)
    case Update(u, name, active) => UpdateUser(s.t, u, name, active)
    case Delete(u, confirmed) => DeleteMember(s.t, u, confirmed)
    case Add(account) => Ok(AddUser(s.t, account))
    case Drop(gone) => Ok(DropSessions(s.t, gone))
  }

  function Drawn(step: Step): set<Hash> {
    match step
    case Verify(_, request) => if request.Change? then {request.hash} else {}
    case Reset(_, hash, _) => {hash}
    case Recover(_, hash) => {hash}
    case Add(account) => {account.hash}
    case _ => {}
  }

  /** The hashes in force. */
  function Hashes(t: Tables): map<UserId, Hash> {
    map u | u in t.users :: t.users[u].hash
  }

  function Live(hashes: map<UserId, Hash>): set<Hash> {
    set u | u in hashes :: hashes[u]
  }

  function Do(s: State, step: Step): State
    requires Enabled(s, step)
  {
    var r := Outcome(s, step);
    var t' := if r.Ok? then r.value else s.t;
    State(t',
          match step
          case Verify(key, request) => s.pending[key := request]
          case Finish(key, _) => s.pending - {key}
          case Abandon(key) => s.pending - {key}
          case _ => s.pending,
          s.drawn + Drawn(step),
          s.retired + (Live(Hashes(s.t)) - Live(Hashes(t'))))
  }

  // ---------------------------------------------------------------- exactly when a session or a password changes

  predicate ActiveUnder(t: Tables, u: UserId, hash: Hash) {
    u in t.users && t.users[u].active && t.users[u].hash == hash
  }

  /** The step opens the session: for an active user, and after a login only while the verified password is still theirs. */
  predicate Opens(s: State, step: Step, id: SessionId)
    requires Enabled(s, step)
  {
    match step
    case Open(u, k) => k == id && u in s.t.users && s.t.users[u].active
    case Finish(key, k) => k == id && s.pending[key].Login? && ActiveUnder(s.t, s.pending[key].user, s.pending[key].verified)
    case _ => false
  }

  /** The step gives the user a new password. */
  predicate Repasses(s: State, step: Step, u: UserId)
    requires Enabled(s, step)
  {
    match step
    case Finish(key, _) => s.pending[key].Change? && s.pending[key].user == u && ActiveUnder(s.t, u, s.pending[key].verified)
    case Reset(v, _, _) => v == u && u in s.t.users
    case Recover(v, _) => v == u && u in s.t.users && s.t.users[u].admin
    case _ => false
  }

  /** The step ends the user's sessions: a new password, a disable or a deletion. */
  predicate Revokes(s: State, step: Step, u: UserId)
    requires Enabled(s, step)
  {
    || Repasses(s, step, u)
    || (step.Update? && step.user == u && u in s.t.users && !step.active && !s.t.users[u].admin)
    || (step.Delete? && step.user == u && u in s.t.users && !s.t.users[u].admin && !s.t.users[u].active && s.t.users[u].name == step.confirmed)
  }

  /** For every step and every session id: it appears, stays as it is, or goes exactly for these reasons. */
  lemma SessionsChangeExactly(s: State, step: Step, id: SessionId)
    requires Enabled(s, step)
    ensures var before, after := s.t.sessions, Do(s, step).t.sessions;
            && (id !in before ==> (id in after <==> Opens(s, step, id)))
            && (id in before ==> (id !in after <==> Revokes(s, step, before[id].user) || (step.Drop? && id in step.gone)))
            && (id in before && id in after ==> after[id] == before[id])
  {
  }

  /** And a user's password changes exactly for these, to the hash the step brings. */
  lemma PasswordsChangeExactly(s: State, step: Step, u: UserId)
    requires Enabled(s, step) && u in s.t.users && u in Do(s, step).t.users && u < s.t.nextUser
    ensures var hash, hash' := s.t.users[u].hash, Do(s, step).t.users[u].hash;
            && (!Repasses(s, step, u) ==> hash' == hash)
            && (Repasses(s, step, u) ==> hash' == match step
                                                   case Finish(key, _) => s.pending[key].hash
                                                   case Reset(_, h, _) => h
                                                   case Recover(_, h) => h
                                                   case _ => hash)
  {
  }

  /** A verification is kept until it is finished or abandoned, and then used up. */
  lemma VerificationsChangeExactly(s: State, step: Step, key: nat)
    requires Enabled(s, step)
    ensures var before, after := s.pending, Do(s, step).pending;
            && (key in after <==> (key in before && !((step.Finish? || step.Abandon?) && step.key == key)) || (step.Verify? && step.key == key))
            && (key in after && key in before ==> after[key] == before[key])
            && (key in after && key !in before ==> after[key] == step.request)
  {
  }

  // ---------------------------------------------------------------- the invariant

  /** Hashes are never shared and never come back. */
  ghost predicate Once(hashes: map<UserId, Hash>, pending: map<nat, Pending>, drawn: set<Hash>, retired: set<Hash>) {
    && Live(hashes) <= drawn && retired <= drawn && Live(hashes) !! retired
    && (forall u, v :: u in hashes && v in hashes && u != v ==> hashes[u] != hashes[v])
    && (forall k :: k in pending && pending[k].Change? ==>
          pending[k].hash in drawn && pending[k].hash !in retired && pending[k].hash !in Live(hashes))
    && (forall j, k :: j in pending && k in pending && j != k && pending[j].Change? && pending[k].Change? ==>
          pending[j].hash != pending[k].hash)
  }

  ghost predicate Inv(s: State) {
    SessionsCurrent(s.t) && Once(Hashes(s.t), s.pending, s.drawn, s.retired) && forall u :: u in s.t.users ==> u < s.t.nextUser
  }

  predicate Unused(hash: Hash, hashes: map<UserId, Hash>, pending: map<nat, Pending>, retired: set<Hash>) {
    hash !in Live(hashes) && hash !in retired && forall k :: k in pending && pending[k].Change? ==> pending[k].hash != hash
  }

  /** A user gets an unused hash; the one it replaces is retired. */
  lemma OnceAssign(hashes: map<UserId, Hash>, pending: map<nat, Pending>, drawn: set<Hash>, retired: set<Hash>, u: UserId, hash: Hash)
    requires Once(hashes, pending, drawn, retired) && hash in drawn && Unused(hash, hashes, pending, retired)
    ensures var hashes' := hashes[u := hash]; Once(hashes', pending, drawn, retired + (Live(hashes) - Live(hashes')))
  {
    var hashes' := hashes[u := hash];
    forall h | h in Live(hashes') ensures h in Live(hashes) + {hash} {
      var v :| v in hashes' && hashes'[v] == h;
      if v != u {
        assert h == hashes[v];
      }
    }
  }

  lemma OnceRemove(hashes: map<UserId, Hash>, pending: map<nat, Pending>, drawn: set<Hash>, retired: set<Hash>, u: UserId)
    requires Once(hashes, pending, drawn, retired)
    ensures var hashes' := hashes - {u}; Once(hashes', pending, drawn, retired + (Live(hashes) - Live(hashes')))
  {
    var hashes' := hashes - {u};
    forall h | h in Live(hashes') ensures h in Live(hashes) {
      var v :| v in hashes' && hashes'[v] == h;
      assert h == hashes[v];
    }
  }

  lemma OnceDraw(hashes: map<UserId, Hash>, pending: map<nat, Pending>, drawn: set<Hash>, retired: set<Hash>, hash: Hash)
    requires Once(hashes, pending, drawn, retired) && hash !in drawn
    ensures Once(hashes, pending, drawn + {hash}, retired) && Unused(hash, hashes, pending, retired)
  {
  }

  lemma OnceRequest(hashes: map<UserId, Hash>, pending: map<nat, Pending>, drawn: set<Hash>, retired: set<Hash>, key: nat, request: Pending)
    requires Once(hashes, pending, drawn, retired) && key !in pending && (request.Change? ==> request.hash !in drawn)
    ensures Once(hashes, pending[key := request], drawn + (if request.Change? then {request.hash} else {}), retired)
  {
  }

  lemma OnceDrop(hashes: map<UserId, Hash>, pending: map<nat, Pending>, drawn: set<Hash>, retired: set<Hash>, key: nat)
    requires Once(hashes, pending, drawn, retired)
    ensures Once(hashes, pending - {key}, drawn, retired)
    ensures key in pending && pending[key].Change? ==> pending[key].hash in drawn && Unused(pending[key].hash, hashes, pending - {key}, retired)
  {
  }

  lemma SessionsStayCurrent(s: State, step: Step)
    requires Inv(s) && Enabled(s, step)
    ensures SessionsCurrent(Do(s, step).t) && forall u :: u in Do(s, step).t.users ==> u < Do(s, step).t.nextUser
  {
  }

  /** What a step does to the hashes in force. */
  lemma StepHashes(s: State, step: Step)
    requires Enabled(s, step)
    ensures var h, h' := Hashes(s.t), Hashes(Do(s, step).t);
            match step
            case Finish(key, _) =>
              h' == (if s.pending[key].Change? && Outcome(s, step).Ok? then h[s.pending[key].user := s.pending[key].hash] else h)
            case Reset(u, hash, _) => h' == (if Outcome(s, step).Ok? then h[u := hash] else h)
            case Recover(u, hash) => h' == (if Outcome(s, step).Ok? then h[u := hash] else h)
            case Delete(u, _) => h' == (if Outcome(s, step).Ok? then h - {u} else h)
            case Add(account) => h' == h[s.t.nextUser := account.hash]
            case _ => h' == h
  {
  }

  lemma HashesStayOnce(s: State, step: Step)
    requires Once(Hashes(s.t), s.pending, s.drawn, s.retired) && Enabled(s, step)
    ensures var s' := Do(s, step); Once(Hashes(s'.t), s'.pending, s'.drawn, s'.retired)
  {
    StepHashes(s, step);
    var h, s' := Hashes(s.t), Do(s, step);
    match step
    case Verify(key, request) => OnceRequest(h, s.pending, s.drawn, s.retired, key, request);
    case Finish(key, _) =>
      OnceDrop(h, s.pending, s.drawn, s.retired, key);
      if s.pending[key].Change? {
        OnceAssign(h, s.pending - {key}, s.drawn, s.retired, s.pending[key].user, s.pending[key].hash);
      }
    case Abandon(key) => OnceDrop(h, s.pending, s.drawn, s.retired, key);
    case Reset(u, hash, _) =>
      OnceDraw(h, s.pending, s.drawn, s.retired, hash);
      OnceAssign(h, s.pending, s.drawn + {hash}, s.retired, u, hash);
    case Recover(u, hash) =>
      OnceDraw(h, s.pending, s.drawn, s.retired, hash);
      OnceAssign(h, s.pending, s.drawn + {hash}, s.retired, u, hash);
    case Delete(u, _) => OnceRemove(h, s.pending, s.drawn, s.retired, u);
    case Add(account) =>
      OnceDraw(h, s.pending, s.drawn, s.retired, account.hash);
      OnceAssign(h, s.pending, s.drawn + {account.hash}, s.retired, s.t.nextUser, account.hash);
    case _ =>
  }

  // ---------------------------------------------------------------- every run

  function Fresh(): State {
    State(Tables(map[], map[], 1), map[], {}, {})
  }

  ghost predicate Execution(states: seq<State>, steps: seq<Step>) {
    && |states| == |steps| + 1 && states[0] == Fresh()
    && forall i {:trigger steps[i]} :: 0 <= i < |steps| ==> Enabled(states[i], steps[i]) && states[i + 1] == Do(states[i], steps[i])
  }

  lemma {:induction false} ReachableInv(states: seq<State>, steps: seq<Step>, k: nat)
    requires Execution(states, steps) && k < |states|
    ensures Inv(states[k])
    decreases k
  {
    if k > 0 {
      ReachableInv(states, steps, k - 1);
      var step := steps[k - 1];
      SessionsStayCurrent(states[k - 1], step);
      HashesStayOnce(states[k - 1], step);
    }
  }

  /** However logins, changes, resets, recovery, disabling and deletion interleave, no session outlives the password it was created under. */
  lemma EverySessionIsCurrent(states: seq<State>, steps: seq<Step>, k: nat, s: SessionId)
    requires Execution(states, steps) && k < |states| && s in states[k].t.sessions
    ensures var t := states[k].t; var session := t.sessions[s];
            session.user in t.users && t.users[session.user].active && t.users[session.user].hash == session.hash
  {
    ReachableInv(states, steps, k);
  }

  predicate Uses(s: State, u: UserId, hash: Hash) {
    u in s.t.users && s.t.users[u].hash == hash
  }

  lemma StepRetires(s: State, step: Step, u: UserId, hash: Hash)
    requires Inv(s) && Enabled(s, step) && Uses(s, u, hash) && !Uses(Do(s, step), u, hash)
    ensures hash in Do(s, step).retired
  {
    SessionsStayCurrent(s, step);
    HashesStayOnce(s, step);
    StepHashes(s, step);
    var h, h' := Hashes(s.t), Hashes(Do(s, step).t);
    assert h[u] == hash && hash in Live(h);
  }

  lemma {:induction false} LeftIsRetired(states: seq<State>, steps: seq<Step>, i: nat, k: nat, u: UserId, hash: Hash)
    requires Execution(states, steps) && i <= k < |states| && Uses(states[i], u, hash)
    ensures Uses(states[k], u, hash) || hash in states[k].retired
    decreases k - i
  {
    if i < k {
      LeftIsRetired(states, steps, i, k - 1, u, hash);
      ReachableInv(states, steps, k - 1);
      var step := steps[k - 1];
      if Uses(states[k - 1], u, hash) && !Uses(states[k], u, hash) {
        StepRetires(states[k - 1], step, u, hash);
      }
    }
  }

  lemma {:induction false} RetiredStays(states: seq<State>, steps: seq<Step>, i: nat, k: nat, hash: Hash)
    requires Execution(states, steps) && i <= k < |states| && hash in states[i].retired
    ensures hash in states[k].retired
    decreases k - i
  {
    if i < k {
      RetiredStays(states, steps, i, k - 1, hash);
      var step := steps[k - 1];
      assert states[k] == Do(states[k - 1], step);
    }
  }

  lemma RetiredIsUnused(s: State, u: UserId, hash: Hash)
    requires Inv(s) && hash in s.retired
    ensures !Uses(s, u, hash)
  {
    if u in s.t.users {
      assert Hashes(s.t)[u] in Live(Hashes(s.t));
    }
  }

  /** A hash that a user has at two moments was theirs all the time between. */
  lemma HashIsUninterrupted(states: seq<State>, steps: seq<Step>, i: nat, m: nat, k: nat, u: UserId, hash: Hash)
    requires Execution(states, steps) && i <= m <= k < |states| && Uses(states[i], u, hash) && Uses(states[k], u, hash)
    ensures Uses(states[m], u, hash)
  {
    LeftIsRetired(states, steps, i, m, u, hash);
    if hash in states[m].retired {
      RetiredStays(states, steps, m, k, hash);
      ReachableInv(states, steps, k);
      RetiredIsUnused(states[k], u, hash);
    }
  }

  /** A verified login, password change or rename is applied only if the password it verified stayed the account's from then on. */
  lemma AppliedWasUninterrupted(states: seq<State>, steps: seq<Step>, i: nat, m: nat, k: nat)
    requires Execution(states, steps) && i <= m <= k < |steps|
    requires steps[k].Finish? && Enabled(states[k], steps[k]) && Outcome(states[k], steps[k]).Ok?
    requires var p := states[k].pending[steps[k].key]; Uses(states[i], p.user, p.verified)
    ensures var p := states[k].pending[steps[k].key]; Uses(states[m], p.user, p.verified) && states[k].t.users[p.user].active
  {
    var p := states[k].pending[steps[k].key];
    HashIsUninterrupted(states, steps, i, m, k, p.user, p.verified);
  }

  /** The step commits a password change that had verified `hash`. */
  ghost predicate Changes(states: seq<State>, steps: seq<Step>, i: nat, u: UserId, hash: Hash) {
    && i < |steps| && i < |states| && steps[i].Finish? && steps[i].key in states[i].pending
    && var p := states[i].pending[steps[i].key];
       p.Change? && p.user == u && p.verified == hash && ChangePassword(states[i].t, u, hash, p.hash).Ok?
  }

  /** Of all the changes that verified the same password, at most one is ever applied. */
  lemma AtMostOneChangeWins(states: seq<State>, steps: seq<Step>, i: nat, j: nat, u: UserId, hash: Hash)
    requires Execution(states, steps) && Changes(states, steps, i, u, hash) && Changes(states, steps, j, u, hash)
    ensures i == j
  {
    if i < j {
      SecondChangeLoses(states, steps, i, j, u, hash);
    } else if j < i {
      SecondChangeLoses(states, steps, j, i, u, hash);
    }
  }

  lemma SecondChangeLoses(states: seq<State>, steps: seq<Step>, i: nat, j: nat, u: UserId, hash: Hash)
    requires Execution(states, steps) && i < j < |steps| && Changes(states, steps, i, u, hash)
    ensures !Uses(states[j], u, hash) && !Changes(states, steps, j, u, hash)
  {
    ReachableInv(states, steps, i);
    var step := steps[i];
    ChangeReplaces(states[i], step, u, hash);
    RetiredStays(states, steps, i + 1, j, hash);
    ReachableInv(states, steps, j);
    RetiredIsUnused(states[j], u, hash);
  }

  lemma ChangeReplaces(s: State, step: Step, u: UserId, hash: Hash)
    requires Inv(s) && Enabled(s, step) && step.Finish? && s.pending[step.key].Change? && s.pending[step.key].user == u
    requires s.pending[step.key].verified == hash && ChangePassword(s.t, u, hash, s.pending[step.key].hash).Ok?
    ensures hash in Do(s, step).retired
  {
    assert Uses(s, u, hash);
    assert Hashes(s.t)[u] == hash && hash in Live(Hashes(s.t));
    assert s.pending[step.key].hash !in Live(Hashes(s.t));
    StepRetires(s, step, u, hash);
  }
}
