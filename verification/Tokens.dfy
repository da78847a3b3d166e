/** The agent's identity row and its token, kept as a hash.

    SHA-256 is taken to be injective: a digest is a free constructor over the token. A call of the
    service is atomic, and its commit succeeds. */
module Tokens {
  import opened Domain

  datatype Digest = Digest(preimage: string)

  function HashToken(token: string): Digest {
    Digest(token)
  }

  datatype Identity = Identity(
    agentId: string, tokenHash: Option<Digest>, tokenLabel: Option<string>, tokenCreatedAt: Option<int>)

  datatype CreateResult = Created(token: string, tag: Option<string>) | TokenExists
  datatype ReconcileResult = Reconciled | TokenMismatch

  // ---- The rows, call by call ----

  /** A call of the service; drawn random values and the clock are its arguments. */
  datatype Call =
    | EnsureIdentity(newId: string)
    | Create(tag: Option<string>, force: bool, newId: string, token: string, now: int)
    | Revoke
    | Reconcile(envToken: string, envId: string, envNow: int)
    | Verify(candidate: string)

  datatype Reply =
    | AgentId(agentId: string)
    | CreateReply(create: CreateResult)
    | Revoked(revoked: bool)
    | ReconcileReply(reconcile: ReconcileResult)
    | Verified(verified: bool)

  function Ensured(row: Option<Identity>, newId: string): Identity {
    match row
    case None => Identity(newId, None, None, None)
    case Some(identity) => identity
  }

  function Exec(row: Option<Identity>, call: Call): (Option<Identity>, Reply) {
    match call
    case EnsureIdentity(newId) =>
      var identity := Ensured(row, newId);
      (Some(identity), AgentId(identity.agentId))
    case Create(tag, force, newId, token, now) =>
      var identity := Ensured(row, newId);
      if identity.tokenHash.Some? && !force then (Some(identity), CreateReply(TokenExists))
      else (Some(identity.(tokenHash := Some(HashToken(token)), tokenLabel := tag, tokenCreatedAt := Some(now))),
            CreateReply(Created(token, tag)))
    case Revoke =>
      if row.None? || row.value.tokenHash.None? then (row, Revoked(false))
      else (Some(row.value.(tokenHash := None, tokenLabel := None, tokenCreatedAt := None)), Revoked(true))
    case Reconcile(token, newId, now) =>
      var identity := Ensured(row, newId);
      if identity.tokenHash.None? then
        (Some(identity.(tokenHash := Some(HashToken(token)), tokenCreatedAt := Some(now))), ReconcileReply(Reconciled))
      else if identity.tokenHash != Some(HashToken(token)) then (Some(identity), ReconcileReply(TokenMismatch))
      else (Some(identity), ReconcileReply(Reconciled))
    case Verify(candidate) =>
      (row, Verified(row.Some? && row.value.tokenHash == Some(HashToken(candidate))))
  }

  // ---- The simple specification: the token now in force, or none ----

  datatype Credential = Credential(token: string, tag: Option<string>, installedAt: int)

  datatype Spec = Spec(agentId: Option<string>, current: Option<Credential>)

  function KnownId(spec: Spec, newId: string): string {
    if spec.agentId.Some? then spec.agentId.value else newId
  }

  function SpecExec(spec: Spec, call: Call): (Spec, Reply) {
    match call
    case EnsureIdentity(newId) =>
      (spec.(agentId := Some(KnownId(spec, newId))), AgentId(KnownId(spec, newId)))
    case Create(tag, force, newId, token, now) =>
      var known := spec.(agentId := Some(KnownId(spec, newId)));
      if spec.current.Some? && !force then (known, CreateReply(TokenExists))
      else (known.(current := Some(Credential(token, tag, now))), CreateReply(Created(token, tag)))
    case Revoke =>
      (spec.(current := None), Revoked(spec.current.Some?))
    case Reconcile(token, newId, now) =>
      var known := spec.(agentId := Some(KnownId(spec, newId)));
      if spec.current.None? then (known.(current := Some(Credential(token, None, now))), ReconcileReply(Reconciled))
      else (known, ReconcileReply(if spec.current.value.token == token then Reconciled else TokenMismatch))
    case Verify(candidate) =>
      (spec, Verified(spec.current.Some? && spec.current.value.token == candidate))
  }

  /** Hash and creation time come and go together, and a label never outlives its hash. */
  predicate RowOk(row: Option<Identity>) {
    row.Some? ==>
      && (row.value.tokenHash.Some? <==> row.value.tokenCreatedAt.Some?)
      && (row.value.tokenLabel.Some? ==> row.value.tokenHash.Some?)
  }

  function Abstract(row: Option<Identity>): Spec
    requires RowOk(row)
  {
    match row
    case None => Spec(None, None)
    case Some(identity) =>
      Spec(Some(identity.agentId),
           if identity.tokenHash.None? then None
           else Some(Credential(identity.tokenHash.value.preimage, identity.tokenLabel, identity.tokenCreatedAt.value)))
  }

  lemma ExecRefines(row: Option<Identity>, call: Call)
    requires RowOk(row)
    ensures var (row', reply) := Exec(row, call);
            RowOk(row') && (Abstract(row'), reply) == SpecExec(Abstract(row), call)
  {
  }

  function ExecAll(row: Option<Identity>, calls: seq<Call>): (Option<Identity>, seq<Reply>) {
    if calls == [] then (row, [])
    else
      var (before, replies) := ExecAll(row, calls[..|calls| - 1]);
      var (after, reply) := Exec(before, calls[|calls| - 1]);
      (after, replies + [reply])
  }

  function SpecExecAll(spec: Spec, calls: seq<Call>): (Spec, seq<Reply>) {
    if calls == [] then (spec, [])
    else
      var (before, replies) := SpecExecAll(spec, calls[..|calls| - 1]);
      var (after, reply) := SpecExec(before, calls[|calls| - 1]);
      (after, replies + [reply])
  }

  /** Over every sequence of calls the hashed row answers exactly like the specification, and
      keeps the row invariant. */
  lemma {:induction false} ServiceRefinesSpec(row: Option<Identity>, calls: seq<Call>)
    requires RowOk(row)
    ensures var (row', replies) := ExecAll(row, calls);
            RowOk(row') && (Abstract(row'), replies) == SpecExecAll(Abstract(row), calls)
  {
    if calls == [] {
    } else {
      var init := calls[..|calls| - 1];
      ServiceRefinesSpec(row, init);
      ExecRefines(ExecAll(row, init).0, calls[|calls| - 1]);
    }
  }

  // ---- What the specification says about histories ----

  /** The token that a call put in force, if it did. */
  predicate Installs(spec: Spec, call: Call, token: string) {
    || (call.Create? && call.token == token && (spec.current.None? || call.force))
    || (call.Reconcile? && call.envToken == token && spec.current.None?)
  }

  predicate Ends(spec: Spec, call: Call) {
    call.Revoke? || (call.Create? && call.force)
  }

  function SpecAfter(calls: seq<Call>): Spec {
    SpecExecAll(Spec(None, None), calls).0
  }

  /** Call `i` put `token` in force and no later one ended it. */
  predicate InForceSince(calls: seq<Call>, token: string, i: nat) {
    && i < |calls|
    && Installs(SpecAfter(calls[..i]), calls[i], token)
    && forall j :: i < j < |calls| ==> !Ends(SpecAfter(calls[..j]), calls[j])
  }

  predicate Holds(spec: Spec, token: string) {
    spec.current.Some? && spec.current.value.token == token
  }

  lemma HoldsStep(spec: Spec, call: Call, token: string)
    ensures Holds(SpecExec(spec, call).0, token)
       <==> Installs(spec, call, token) || (Holds(spec, token) && !Ends(spec, call))
  {
  }

  ghost predicate InForce(calls: seq<Call>, token: string) {
    exists i :: 0 <= i < |calls| && InForceSince(calls, token, i)
  }

  lemma SpecAfterStep(calls: seq<Call>, call: Call)
    ensures SpecAfter(calls + [call]) == SpecExec(SpecAfter(calls), call).0
  {
    assert (calls + [call])[..|calls|] == calls;
  }

  lemma InForceStep(calls: seq<Call>, call: Call, token: string)
    ensures InForce(calls + [call], token)
       <==> Installs(SpecAfter(calls), call, token) || (InForce(calls, token) && !Ends(SpecAfter(calls), call))
  {
    var n, all, spec := |calls|, calls + [call], SpecAfter(calls);
    assert all[..n] == calls && all[n] == call;
    forall i | 0 <= i < n
      ensures InForceSince(all, token, i) <==> InForceSince(calls, token, i) && !Ends(spec, call)
    {
      assert forall j :: 0 <= j < n ==> all[..j] == calls[..j] && all[j] == calls[j];
    }
    assert InForceSince(all, token, n) <==> Installs(spec, call, token);
    if InForce(all, token) {
      var i :| 0 <= i < |all| && InForceSince(all, token, i);
      assert i < n ==> InForceSince(calls, token, i);
    } else if InForce(calls, token) {
      var i :| 0 <= i < n && InForceSince(calls, token, i);
      assert !InForceSince(all, token, i);
    }
  }

  lemma {:induction false} HoldsIffInForce(calls: seq<Call>, token: string)
    ensures Holds(SpecAfter(calls), token) <==> InForce(calls, token)
  {
    if calls == [] {
    } else {
      var init, last := calls[..|calls| - 1], calls[|calls| - 1];
      assert calls == init + [last];
      HoldsIffInForce(init, token);
      SpecAfterStep(init, last);
      InForceStep(init, last, token);
      HoldsStep(SpecAfter(init), last, token);
    }
  }

  /** The service accepts a token if and only if some call installed it and none has since
      revoked or replaced it. */
  lemma VerifyIffInForce(calls: seq<Call>, token: string)
    ensures Exec(ExecAll(None, calls).0, Verify(token)).1.verified
       <==> InForce(calls, token)
  {
    ServiceRefinesSpec(None, calls);
    HoldsIffInForce(calls, token);
    ExecRefines(ExecAll(None, calls).0, Verify(token));
  }

  ghost predicate AnyInForce(calls: seq<Call>) {
    exists token :: InForce(calls, token)
  }

  lemma CurrentIffAnyInForce(calls: seq<Call>)
    ensures SpecAfter(calls).current.Some? <==> AnyInForce(calls)
    ensures SpecAfter(calls).current.Some? ==> InForce(calls, SpecAfter(calls).current.value.token)
  {
    if SpecAfter(calls).current.Some? {
      HoldsIffInForce(calls, SpecAfter(calls).current.value.token);
    }
    if token :| InForce(calls, token) {
      HoldsIffInForce(calls, token);
    }
  }

  /** The row that a call leaves when it installs a token: known by its agent id, or now given one. */
  predicate Installed(row: Option<Identity>, row': Option<Identity>, newId: string,
                      token: string, tag: Option<string>, now: int) {
    row' == Some(Identity(if row.Some? then row.value.agentId else newId, Some(HashToken(token)), tag, Some(now)))
  }

  /** What a call answers, and leaves of `row`, given which token the calls before put in force. */
  ghost predicate Answers(calls: seq<Call>, row: Option<Identity>, call: Call, row': Option<Identity>, reply: Reply) {
    match call
    case EnsureIdentity(id) =>
      row'.Some? && reply == AgentId(if row.Some? then row.value.agentId else id)
    case Create(tag, force, id, token, now) =>
      if AnyInForce(calls) && !force then reply == CreateReply(TokenExists) && row' == row
      else reply == CreateReply(Created(token, tag)) && Installed(row, row', id, token, tag, now)
    case Revoke =>
      && reply == Revoked(AnyInForce(calls))
      && row' == (if row.None? then None else Some(Identity(row.value.agentId, None, None, None)))
    case Reconcile(token, id, now) =>
      if AnyInForce(calls) then
        row' == row && reply == ReconcileReply(if InForce(calls, token) then Reconciled else TokenMismatch)
      else reply == ReconcileReply(Reconciled) && Installed(row, row', id, token, None, now)
    case Verify(candidate) => row' == row && reply == Verified(InForce(calls, candidate))
  }

  /** Over every sequence of calls, each answer and each change of the row follows from it. */
  lemma AnswersFromHistory(calls: seq<Call>, call: Call)
    ensures var row := ExecAll(None, calls).0;
            Answers(calls, row, call, Exec(row, call).0, Exec(row, call).1)
  {
    ServiceRefinesSpec(None, calls);
    CurrentIffAnyInForce(calls);
    match call
    case Reconcile(token, _, _) => HoldsIffInForce(calls, token);
    case Verify(candidate) => HoldsIffInForce(calls, candidate);
    case _ =>
  }

  /** The agent id is set once: every later call sees the same one. */
  lemma {:induction false} AgentIdIsConstant(row: Option<Identity>, calls: seq<Call>)
    requires row.Some?
    ensures var (row', replies) := ExecAll(row, calls);
            && row'.Some? && row'.value.agentId == row.value.agentId
            && forall i :: 0 <= i < |replies| && replies[i].AgentId? ==> replies[i].agentId == row.value.agentId
  {
    if calls == [] {
    } else {
      AgentIdIsConstant(row, calls[..|calls| - 1]);
    }
  }

  /** A refused create and a mismatched reconcile leave an existing row as it was, and a token that
      reconcile installs carries no label. */
  lemma RefusalsChangeNothing(row: Option<Identity>, call: Call)
    requires RowOk(row) && row.Some?
    ensures var (row', reply) := Exec(row, call);
            && (reply == CreateReply(TokenExists) || reply == ReconcileReply(TokenMismatch) ==> row' == row)
            && (call.Verify? ==> row' == row)
            && (call.Reconcile? && row' != row ==> row'.value.tokenLabel == None && row.value.tokenHash == None)
  {
  }

  // ---- The service object ----

  class TokenService {
    var row: Option<Identity>

    constructor ()
      ensures row == None
    {
      row := None;
    }

    method EnsureIdentity(newId: string) returns (identity: Identity)
      modifies this
      ensures row == Exec(old(row), Call.EnsureIdentity(newId)).0 == Some(identity)
      ensures AgentId(identity.agentId) == Exec(old(row), Call.EnsureIdentity(newId)).1
    {
      if row.None? {
        row := Some(Identity(newId, None, None, None));
      }
      identity := row.value;
    }

    method HasActiveToken() returns (active: bool)
      requires RowOk(row)
      ensures active <==> Abstract(row).current.Some?
    {
      active := row.Some? && row.value.tokenHash.Some?;
    }

    method CreateToken(tag: Option<string>, force: bool, newId: string, token: string, now: int)
      returns (r: CreateResult)
      modifies this
      ensures (row, CreateReply(r)) == Exec(old(row), Create(tag, force, newId, token, now))
    {
      var identity := EnsureIdentity(newId);
      if identity.tokenHash.Some? && !force {
        return TokenExists;
      }
      identity := identity.(tokenHash := Some(HashToken(token)));
      identity := identity.(tokenLabel := tag);
      identity := identity.(tokenCreatedAt := Some(now));
      row := Some(identity);
      return Created(token, tag);
    }

    method RevokeToken() returns (revoked: bool)
      modifies this
      ensures (row, Revoked(revoked)) == Exec(old(row), Revoke)
    {
      if row.None? || row.value.tokenHash.None? {
        return false;
      }
      row := Some(row.value.(tokenHash := None, tokenLabel := None, tokenCreatedAt := None));
      return true;
    }

    method VerifyToken(token: string) returns (verified: bool)
      requires RowOk(row)
      ensures verified <==> Abstract(row).current.Some? && Abstract(row).current.value.token == token
    {
      if row.None? || row.value.tokenHash.None? {
        return false;
      }
      return row.value.tokenHash.value == HashToken(token);
    }

    method ReconcileEnvToken(token: string, newId: string, now: int) returns (r: ReconcileResult)
      modifies this
      ensures (row, ReconcileReply(r)) == Exec(old(row), Reconcile(token, newId, now))
    {
      var identity := EnsureIdentity(newId);
      if identity.tokenHash.None? {
        row := Some(identity.(tokenHash := Some(HashToken(token)), tokenCreatedAt := Some(now)));
        return Reconciled;
      }
      if identity.tokenHash.value != HashToken(token) {
        return TokenMismatch;
      }
      return Reconciled;
    }
  }
}
