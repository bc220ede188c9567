/** Pairing codes and device credentials: the statements of `createPairingCode` and the transaction of
    `consumePairingCode`, over every interleaving. Code and token digests are plain values. */
module Pairing {
  import opened CommandPolicy
  import opened Fresh

  type CodeId = nat
  type Digest = string

  datatype Code = Code(installationId: string, digest: Digest, expiresAt: int, consumedAt: Option<int>)

  datatype Credential = Credential(token: Digest, connectorName: string, revoked: bool)

  /** A `connector.paired` audit record, with the code and token it came from. */
  datatype Paired = Paired(codeId: CodeId, digest: Digest, installationId: string, runtimeId: string, token: Digest, at: int)

  type Pair = (string, string)

  datatype Tables = Tables(
    codes: map<CodeId, Code>,
    credentials: map<Pair, Credential>,
    audits: seq<Paired>)

  const EMPTY_TABLES := Tables(map[], map[], [])

  /** `createPairingCode` is two statements with no transaction around them; `call` tells which call
      they belong to. */
  datatype PairingStep =
    | DeleteOpenCodes(call: nat, installationId: string)
    | InsertCode(call: nat, id: CodeId, code: Code)
    | Consume(id: CodeId, runtimeId: string, connectorName: string, token: Digest)
    | Revoke(installationId: string, runtimeId: string)

  // ---------------------------------------------------------------- the statements

  ghost predicate DigestTaken(t: Tables, digest: Digest) {
    exists id :: id in t.codes && t.codes[id].digest == digest
  }

  /** The row the consuming select locks. */
  predicate Redeemable(t: Tables, now: int, id: CodeId) {
    id in t.codes && t.codes[id].consumedAt.None? && t.codes[id].expiresAt > now
  }

  /** Another row of the credentials table has this token digest. */
  ghost predicate TokenElsewhere(t: Tables, pair: Pair, token: Digest) {
    exists other :: other in t.credentials && other != pair && t.credentials[other].token == token
  }

  ghost predicate Enabled(t: Tables, now: int, step: PairingStep) {
    match step
    case DeleteOpenCodes(_, _) => true
    case InsertCode(_, id, code) => id !in t.codes && !DigestTaken(t, code.digest) && code.consumedAt.None?
    case Consume(id, runtimeId, _, token) =>
      Redeemable(t, now, id) && !TokenElsewhere(t, (t.codes[id].installationId, runtimeId), token)
    case Revoke(i, r) => (i, r) in t.credentials
  }

  function OpenCodes(codes: map<CodeId, Code>, installationId: string): set<CodeId> {
    set id | id in codes && codes[id].installationId == installationId && codes[id].consumedAt.None?
  }

  function ConsumeStep(t: Tables, now: int, id: CodeId, runtimeId: string, connectorName: string, token: Digest): Tables
    requires id in t.codes
  {
    var code := t.codes[id];
    Tables(t.codes[id := code.(consumedAt := Some(now))],
           t.credentials[(code.installationId, runtimeId) := Credential(token, connectorName, false)],
           t.audits + [Paired(id, code.digest, code.installationId, runtimeId, token, now)])
  }

  ghost function Apply(t: Tables, now: int, step: PairingStep): Tables
    requires Enabled(t, now, step)
  {
    match step
    case DeleteOpenCodes(_, i) => t.(codes := t.codes - OpenCodes(t.codes, i))
    case InsertCode(_, id, code) => t.(codes := t.codes[id := code])
    case Consume(id, runtimeId, name, token) => ConsumeStep(t, now, id, runtimeId, name, token)
    case Revoke(i, r) => t.(credentials := t.credentials[(i, r) := t.credentials[(i, r)].(revoked := true)])
  }

  // ---------------------------------------------------------------- the invariant

  predicate ConsumedBy(t: Tables, p: Paired) {
    && p.codeId in t.codes
    && var c := t.codes[p.codeId];
       c.consumedAt == Some(p.at) && p.at < c.expiresAt && c.digest == p.digest && c.installationId == p.installationId
  }

  ghost predicate CodesOk(t: Tables) {
    && (forall a, b :: a in t.codes && b in t.codes && t.codes[a].digest == t.codes[b].digest ==> a == b)
    && (forall id :: id in t.codes && t.codes[id].consumedAt.Some? ==> exists k :: 0 <= k < |t.audits| && t.audits[k].codeId == id)
  }

  ghost predicate PairedOk(t: Tables) {
    && (forall k :: 0 <= k < |t.audits| ==> ConsumedBy(t, t.audits[k]))
    && (forall j, k :: 0 <= j < k < |t.audits| ==> t.audits[j].codeId != t.audits[k].codeId)
  }

  ghost predicate CredentialsOk(t: Tables) {
    forall a, b :: a in t.credentials && b in t.credentials && t.credentials[a].token == t.credentials[b].token ==> a == b
  }

  ghost predicate TablesOk(t: Tables) {
    CodesOk(t) && PairedOk(t) && CredentialsOk(t)
  }

  predicate CodeStays(t: Tables, t': Tables, id: CodeId) {
    id in t.codes && t.codes[id].consumedAt.Some? ==> id in t'.codes && t'.codes[id] == t.codes[id]
  }

  /** Consumed codes are never deleted, changed or reopened, and no audit record is lost. */
  ghost predicate Grows(t: Tables, t': Tables) {
    t.audits <= t'.audits && forall id :: id in t.codes ==> CodeStays(t, t', id)
  }

  lemma KeepCodes(t: Tables, now: int, step: PairingStep)
    requires CodesOk(t) && Enabled(t, now, step)
    ensures CodesOk(Apply(t, now, step)) && Grows(t, Apply(t, now, step))
  {
    var t' := Apply(t, now, step);
    forall id | id in t'.codes && t'.codes[id].consumedAt.Some?
      ensures exists k :: 0 <= k < |t'.audits| && t'.audits[k].codeId == id
    {
      if id in t.codes && t.codes[id].consumedAt.Some? {
        var k :| 0 <= k < |t.audits| && t.audits[k].codeId == id;
        assert t'.audits[k].codeId == id;
      } else {
        assert t'.audits[|t.audits|].codeId == id;
      }
    }
  }

  lemma KeepPaired(t: Tables, now: int, step: PairingStep)
    requires PairedOk(t) && Enabled(t, now, step)
    ensures PairedOk(Apply(t, now, step))
  {
    var t' := Apply(t, now, step);
    forall k | 0 <= k < |t'.audits|
      ensures ConsumedBy(t', t'.audits[k])
    {
      if k < |t.audits| {
        assert ConsumedBy(t, t.audits[k]);
      }
    }
    if step.Consume? {
      forall j | 0 <= j < |t.audits|
        ensures t.audits[j].codeId != step.id
      {
        assert ConsumedBy(t, t.audits[j]);
      }
    }
  }

  lemma KeepCredentials(t: Tables, now: int, step: PairingStep)
    requires CredentialsOk(t) && Enabled(t, now, step)
    ensures CredentialsOk(Apply(t, now, step))
  {
  }

  lemma StepKeeps(t: Tables, now: int, step: PairingStep)
    requires TablesOk(t) && Enabled(t, now, step)
    ensures TablesOk(Apply(t, now, step)) && Grows(t, Apply(t, now, step))
  {
    KeepCodes(t, now, step);
    KeepPaired(t, now, step);
    KeepCredentials(t, now, step);
  }

  // ---------------------------------------------------------------- runs

  datatype Run = Run(states: seq<Tables>, steps: seq<PairingStep>, times: seq<int>)

  ghost predicate StepsAt(r: Run, i: nat)
    requires |r.states| == |r.steps| + 1 && |r.times| == |r.steps| && i < |r.steps|
  {
    Enabled(r.states[i], r.times[i], r.steps[i]) && r.states[i + 1] == Apply(r.states[i], r.times[i], r.steps[i])
  }

  ghost predicate ValidRun(r: Run) {
    && |r.states| == |r.steps| + 1 && |r.times| == |r.steps|
    && r.states[0] == EMPTY_TABLES
    && (forall i :: 0 <= i < |r.steps| ==> StepsAt(r, i))
    && CallsInOrder(r)
  }

  predicate Clears(r: Run, d: nat, call: nat, installationId: string) {
    d < |r.steps| && r.steps[d] == DeleteOpenCodes(call, installationId)
  }

  /** Every call inserts at most once, after its delete. */
  ghost predicate CallsInOrder(r: Run) {
    && (forall k :: 0 <= k < |r.steps| && r.steps[k].InsertCode? ==>
          exists d: nat :: d < k && Clears(r, d, r.steps[k].call, r.steps[k].code.installationId))
    && (forall j, k :: 0 <= j < k < |r.steps| && r.steps[j].InsertCode? && r.steps[k].InsertCode? ==>
          r.steps[j].call != r.steps[k].call)
  }

  lemma {:induction false} RunKeeps(r: Run, i: nat)
    requires ValidRun(r) && i < |r.states|
    ensures TablesOk(r.states[i])
  {
    if i > 0 {
      RunKeeps(r, i - 1);
      assert StepsAt(r, i - 1);
      StepKeeps(r.states[i - 1], r.times[i - 1], r.steps[i - 1]);
    }
  }

  lemma {:induction false} RunGrows(r: Run, i: nat, j: nat)
    requires ValidRun(r) && i <= j < |r.states|
    ensures Grows(r.states[i], r.states[j])
  {
    if i < j {
      RunGrows(r, i, j - 1);
      RunKeeps(r, j - 1);
      assert StepsAt(r, j - 1);
      StepKeeps(r.states[j - 1], r.times[j - 1], r.steps[j - 1]);
      forall id | id in r.states[i].codes
        ensures CodeStays(r.states[i], r.states[j], id)
      {
        assert CodeStays(r.states[i], r.states[j - 1], id);
      }
    }
  }

  /** Successful consumes among the first n steps. */
  ghost function Successes(r: Run, n: nat): nat
    requires |r.states| == |r.steps| + 1 && n < |r.states|
  {
    if n == 0 then 0 else Successes(r, n - 1) + if r.steps[n - 1].Consume? then 1 else 0
  }

  function ConsumedCodes(t: Tables): set<CodeId> {
    set id | id in t.codes && t.codes[id].consumedAt.Some?
  }

  lemma {:induction false} AuditCount(r: Run, n: nat)
    requires ValidRun(r) && n < |r.states|
    ensures |r.states[n].audits| == Successes(r, n)
  {
    if n > 0 {
      AuditCount(r, n - 1);
      assert StepsAt(r, n - 1);
    }
  }

  ghost function CodesOf(audits: seq<Paired>): set<CodeId> {
    set k | 0 <= k < |audits| :: audits[k].codeId
  }

  lemma {:induction false} DistinctCount(audits: seq<Paired>)
    requires forall j, k :: 0 <= j < k < |audits| ==> audits[j].codeId != audits[k].codeId
    ensures |CodesOf(audits)| == |audits|
  {
    if audits != [] {
      var front := audits[..|audits| - 1];
      DistinctCount(front);
      assert CodesOf(audits) == CodesOf(front) + {audits[|audits| - 1].codeId};
    }
  }

  /** Successful consumes, consumed codes and audit records stay equal in number. */
  lemma PairingConserves(r: Run, n: nat)
    requires ValidRun(r) && n < |r.states|
    ensures |ConsumedCodes(r.states[n])| == |r.states[n].audits| == Successes(r, n)
  {
    var t := r.states[n];
    RunKeeps(r, n);
    AuditCount(r, n);
    DistinctCount(t.audits);
    assert ConsumedCodes(t) == CodesOf(t.audits) by {
      forall id
        ensures id in ConsumedCodes(t) <==> id in CodesOf(t.audits)
      {
        if id in CodesOf(t.audits) {
          var k :| 0 <= k < |t.audits| && t.audits[k].codeId == id;
          assert ConsumedBy(t, t.audits[k]);
        }
      }
    }
  }

  /** A code digest is redeemed at most once over a whole run, and strictly before its expiry. */
  lemma CodeRedeemedOnce(r: Run, i: nat, j: nat)
    requires ValidRun(r) && i < j < |r.steps| && r.steps[i].Consume? && r.steps[j].Consume?
    ensures r.steps[i].id in r.states[i].codes && r.steps[j].id in r.states[j].codes
    ensures r.states[i].codes[r.steps[i].id].digest != r.states[j].codes[r.steps[j].id].digest
    ensures r.times[i] < r.states[i].codes[r.steps[i].id].expiresAt
    ensures r.times[j] < r.states[j].codes[r.steps[j].id].expiresAt
  {
    assert StepsAt(r, i) && StepsAt(r, j);
    RunKeeps(r, j);
    RunGrows(r, i + 1, j);
    assert CodeStays(r.states[i + 1], r.states[j], r.steps[i].id);
  }

  /** A consumed code stays as it is for the rest of the run. */
  lemma ConsumedStays(r: Run, i: nat, j: nat, id: CodeId)
    requires ValidRun(r) && i <= j < |r.states|
    requires id in r.states[i].codes && r.states[i].codes[id].consumedAt.Some?
    ensures id in r.states[j].codes && r.states[j].codes[id] == r.states[i].codes[id]
  {
    RunGrows(r, i, j);
    assert CodeStays(r.states[i], r.states[j], id);
  }

  // ---------------------------------------------------------------- open codes

  predicate Issues(r: Run, p: nat, id: CodeId, installationId: string) {
    p < |r.steps| && r.steps[p].InsertCode? && r.steps[p].id == id && r.steps[p].code.installationId == installationId
  }

  predicate Closes(step: PairingStep, id: CodeId, installationId: string) {
    (step.DeleteOpenCodes? && step.installationId == installationId) || (step.Consume? && step.id == id)
  }

  /** Nothing between the steps p and n cleared or redeemed the code. */
  ghost predicate StaysOpen(r: Run, p: nat, n: nat, id: CodeId, installationId: string)
    requires n <= |r.steps|
  {
    forall l :: p < l < n ==> !Closes(r.steps[l], id, installationId)
  }

  lemma OpenStep(t: Tables, now: int, step: PairingStep, id: CodeId, installationId: string)
    requires Enabled(t, now, step)
    ensures id in OpenCodes(Apply(t, now, step).codes, installationId) <==>
      || (step.InsertCode? && step.id == id && step.code.installationId == installationId)
      || (id in OpenCodes(t.codes, installationId) && !Closes(step, id, installationId))
  {
  }

  /** A code is open exactly if it was issued and has since been neither cleared nor redeemed. */
  lemma {:induction false} OpenIffIssued(r: Run, n: nat, id: CodeId, installationId: string)
    requires ValidRun(r) && n < |r.states|
    ensures id in OpenCodes(r.states[n].codes, installationId) <==>
      exists p: nat :: p < n && Issues(r, p, id, installationId) && StaysOpen(r, p, n, id, installationId)
  {
    if n > 0 {
      OpenIffIssued(r, n - 1, id, installationId);
      assert StepsAt(r, n - 1);
      OpenStep(r.states[n - 1], r.times[n - 1], r.steps[n - 1], id, installationId);
      if Issues(r, n - 1, id, installationId) {
        assert StaysOpen(r, n - 1, n, id, installationId);
      }
      if p: nat :| p < n - 1 && Issues(r, p, id, installationId) && StaysOpen(r, p, n - 1, id, installationId) {
        if !Closes(r.steps[n - 1], id, installationId) {
          assert StaysOpen(r, p, n, id, installationId);
        }
      }
      if p: nat :| p < n && Issues(r, p, id, installationId) && StaysOpen(r, p, n, id, installationId) {
        if p < n - 1 {
          assert StaysOpen(r, p, n - 1, id, installationId);
        }
      }
    }
  }

  /** Step p is the insert of another call that falls between the statements d and k of this one, for
      the same installation, and its code is still open at k. */
  ghost predicate Intrudes(r: Run, d: nat, k: nat, p: nat)
    requires d < k < |r.steps| && r.steps[k].InsertCode?
  {
    && d < p < k && r.steps[p].InsertCode? && r.steps[p].call != r.steps[k].call
    && r.steps[p].code.installationId == r.steps[k].code.installationId
    && StaysOpen(r, p, k, r.steps[p].id, r.steps[k].code.installationId)
  }

  lemma OpenMeansIntruder(r: Run, d: nat, k: nat, other: CodeId)
    requires ValidRun(r) && d < k < |r.steps| && r.steps[k].InsertCode?
    requires Clears(r, d, r.steps[k].call, r.steps[k].code.installationId)
    requires other in OpenCodes(r.states[k].codes, r.steps[k].code.installationId)
    ensures exists p: nat :: Intrudes(r, d, k, p)
  {
    var i := r.steps[k].code.installationId;
    OpenIffIssued(r, k, other, i);
    var p: nat :| p < k && Issues(r, p, other, i) && StaysOpen(r, p, k, other, i);
    assert Closes(r.steps[d], other, i) && p != d;
    assert d < p;
    assert Intrudes(r, d, k, p);
  }

  /** Exactly when the code a call creates is the only open one of its installation: when no other
      call's insert fell between the two statements of this call and is still open. */
  lemma OnlyOpenCodeIff(r: Run, d: nat, k: nat)
    requires ValidRun(r) && d < k < |r.steps| && r.steps[k].InsertCode?
    requires Clears(r, d, r.steps[k].call, r.steps[k].code.installationId)
    ensures OpenCodes(r.states[k + 1].codes, r.steps[k].code.installationId) == {r.steps[k].id} <==>
      !exists p: nat :: Intrudes(r, d, k, p)
  {
    var i, id := r.steps[k].code.installationId, r.steps[k].id;
    var before, after := OpenCodes(r.states[k].codes, i), OpenCodes(r.states[k + 1].codes, i);
    assert StepsAt(r, k);
    assert after == before + {id} && id !in before;
    if p: nat :| Intrudes(r, d, k, p) {
      assert Issues(r, p, r.steps[p].id, i);
      OpenIffIssued(r, k, r.steps[p].id, i);
      assert r.steps[p].id in after && r.steps[p].id != id;
    } else if before != {} {
      var other :| other in before;
      OpenMeansIntruder(r, d, k, other);
    }
  }

  /** Two calls that both clear before either inserts leave two open codes. */
  lemma TwoOpenCodes(installationId: string, expiresAt: int)
    ensures exists r: Run :: ValidRun(r) && OpenCodes(r.states[|r.steps|].codes, installationId) == {0, 1}
  {
    var a, b := Code(installationId, "a", expiresAt, None), Code(installationId, "b", expiresAt, None);
    var t2, t3 := EMPTY_TABLES.(codes := map[0 := a]), EMPTY_TABLES.(codes := map[0 := a, 1 := b]);
    var steps := [DeleteOpenCodes(0, installationId), DeleteOpenCodes(1, installationId), InsertCode(0, 0, a), InsertCode(1, 1, b)];
    var r := Run([EMPTY_TABLES, EMPTY_TABLES, EMPTY_TABLES, t2, t3], steps, [0, 0, 0, 0]);
    assert map[][0 := a] == t2.codes && t2.codes[1 := b] == t3.codes;
    assert StepsAt(r, 0) && StepsAt(r, 1) && StepsAt(r, 2) && StepsAt(r, 3);
    assert Clears(r, 0, 0, installationId) && Clears(r, 1, 1, installationId);
    assert ValidRun(r);
    assert OpenCodes(r.states[|r.steps|].codes, installationId) == {0, 1};
  }

  // ---------------------------------------------------------------- tokens

  /** What `findConnectorByTokenHash` looks for. */
  predicate Resolves(t: Tables, token: Digest, pair: Pair) {
    pair in t.credentials && t.credentials[pair].token == token && !t.credentials[pair].revoked
  }

  /** The token of a pair as the history tells it: the one issued by the latest successful pairing,
      unless that pair was revoked afterwards. */
  ghost function ActiveToken(r: Run, n: nat, pair: Pair): Option<Digest>
    requires ValidRun(r) && n < |r.states|
  {
    if n == 0 then None
    else
      assert StepsAt(r, n - 1);
      match r.steps[n - 1]
      case Consume(id, runtimeId, _, token) =>
        if (r.states[n - 1].codes[id].installationId, runtimeId) == pair then Some(token) else ActiveToken(r, n - 1, pair)
      case Revoke(i, q) => if (i, q) == pair then None else ActiveToken(r, n - 1, pair)
      case _ => ActiveToken(r, n - 1, pair)
  }

  lemma {:induction false} ActiveTokenStored(r: Run, n: nat, pair: Pair)
    requires ValidRun(r) && n < |r.states|
    ensures ActiveToken(r, n, pair) ==
      if pair in r.states[n].credentials && !r.states[n].credentials[pair].revoked
      then Some(r.states[n].credentials[pair].token) else None
  {
    if n > 0 {
      ActiveTokenStored(r, n - 1, pair);
      assert StepsAt(r, n - 1);
    }
  }

  /** A token resolves to a pair exactly when the latest successful pairing of that pair issued it and
      the pair was not revoked afterwards; it never resolves to two pairs. */
  lemma TokenResolution(r: Run, n: nat, token: Digest, pair: Pair)
    requires ValidRun(r) && n < |r.states|
    ensures Resolves(r.states[n], token, pair) <==> ActiveToken(r, n, pair) == Some(token)
    ensures forall other :: Resolves(r.states[n], token, pair) && Resolves(r.states[n], token, other) ==> other == pair
  {
    RunKeeps(r, n);
    ActiveTokenStored(r, n, pair);
  }

  // ---------------------------------------------------------------- the repository calls

  datatype PairingError = InstallationNotFound | InvalidPairingCode | UniqueViolation

  datatype Result<+T> = Ok(value: T) | Err(error: PairingError)

  class PairingStore {
    var tables: Tables
    /** Installation owners. */
    var owners: map<string, string>

    constructor ()
      ensures tables == EMPTY_TABLES && TablesOk(tables) && owners == map[]
    {
      tables, owners := EMPTY_TABLES, map[];
    }

    /** Whatever other connections do between two statements. */
    method Interleave()
      requires TablesOk(tables)
      modifies this`tables
      ensures TablesOk(tables) && Grows(old(tables), tables)
    {
      NothingMoves(tables);
    }

    method ClearOpenCodes(call: nat, installationId: string)
      requires TablesOk(tables)
      modifies this`tables
      ensures TablesOk(tables) && Grows(old(tables), tables)
      ensures tables == Apply(old(tables), 0, DeleteOpenCodes(call, installationId))
      ensures OpenCodes(tables.codes, installationId) == {}
      ensures tables.credentials == old(tables).credentials && tables.audits == old(tables).audits
      ensures forall id :: id in tables.codes <==>
        id in old(tables).codes
        && !(old(tables).codes[id].installationId == installationId && old(tables).codes[id].consumedAt.None?)
      ensures forall id :: id in tables.codes ==> tables.codes[id] == old(tables).codes[id]
    {
      StepKeeps(tables, 0, DeleteOpenCodes(call, installationId));
      tables := tables.(codes := tables.codes - OpenCodes(tables.codes, installationId));
    }

    /** Two statements, each on whatever others have left: the open codes go, even when the insert then
        meets a digest already used; `at` is what the insert finds, and it adds this code to it. */
    method CreatePairingCode(ownerId: string, installationId: string, digest: Digest, expiresAt: int, call: nat)
      returns (r: Result<CodeId>, ghost cleared: Tables, ghost at: Tables)
      requires TablesOk(tables)
      modifies this`tables
      ensures TablesOk(tables) && Grows(old(tables), cleared) && Grows(cleared, at)
      ensures !(installationId in owners && owners[installationId] == ownerId) ==>
        r == Err(InstallationNotFound) && tables == cleared == at == old(tables)
      ensures installationId in owners && owners[installationId] == ownerId ==>
        && (forall id :: id in cleared.codes && cleared.codes[id].installationId == installationId ==>
              cleared.codes[id].consumedAt.Some?)
        && if DigestTaken(at, digest) then r == Err(UniqueViolation) && tables == at
           else && r.Ok? && r.value !in at.codes
                && tables == at.(codes := at.codes[r.value := Code(installationId, digest, expiresAt, None)])
                && OpenCodes(tables.codes, installationId) == OpenCodes(at.codes, installationId) + {r.value}
    {
      cleared, at := tables, tables;
      if installationId !in owners || owners[installationId] != ownerId {
        NothingMoves(tables);
        return Err(InstallationNotFound), cleared, at;
      }
      ClearOpenCodes(call, installationId);
      cleared := tables;
      Interleave();
      at := tables;
      if exists other :: other in tables.codes && tables.codes[other].digest == digest {
        return Err(UniqueViolation), cleared, at;
      }
      var code := Code(installationId, digest, expiresAt, None);
      ghost var unused := Unused(tables.codes);
      var id: CodeId :| id !in tables.codes;
      StepKeeps(tables, 0, InsertCode(call, id, code));
      tables := tables.(codes := tables.codes[id := code]);
      return Ok(id), cleared, at;
    }

    /** One transaction: everything it writes, or nothing. It succeeds for exactly one code, the one
        with this digest, and only if that is unconsumed and unexpired. */
    method ConsumePairingCode(digest: Digest, runtimeId: string, connectorName: string, token: Digest, now: int)
      returns (r: Result<Paired>)
      requires TablesOk(tables)
      modifies this`tables
      ensures TablesOk(tables) && Grows(old(tables), tables)
      ensures r.Ok? ==>
        && r.value.codeId in old(tables).codes
        && var code := old(tables).codes[r.value.codeId];
           && code.digest == digest && code.consumedAt.None? && now < code.expiresAt && code.installationId in owners
           && r.value == Paired(r.value.codeId, digest, code.installationId, runtimeId, token, now)
           && tables == Tables(old(tables).codes[r.value.codeId := code.(consumedAt := Some(now))],
                               old(tables).credentials[(code.installationId, runtimeId) := Credential(token, connectorName, false)],
                               old(tables).audits + [r.value])
           && Resolves(tables, token, (code.installationId, runtimeId))
      ensures r.Err? ==> tables == old(tables)
      ensures r == Err(InvalidPairingCode) <==>
        !exists id :: id in old(tables).codes && old(tables).codes[id].digest == digest
                      && old(tables).codes[id].consumedAt.None? && now < old(tables).codes[id].expiresAt
      ensures forall id | id in old(tables).codes && old(tables).codes[id].digest == digest
                          && old(tables).codes[id].consumedAt.None? && now < old(tables).codes[id].expiresAt ::
        if old(tables).codes[id].installationId !in owners then r == Err(InstallationNotFound)
        else if TokenElsewhere(old(tables), (old(tables).codes[id].installationId, runtimeId), token) then r == Err(UniqueViolation)
        else r.Ok? && r.value.codeId == id
    {
      assert forall id :: id in tables.codes ==>
        (Redeemable(tables, now, id) <==> tables.codes[id].consumedAt.None? && now < tables.codes[id].expiresAt);
      if !exists id :: id in tables.codes && tables.codes[id].digest == digest && Redeemable(tables, now, id) {
        return Err(InvalidPairingCode);
      }
      var id :| id in tables.codes && tables.codes[id].digest == digest && Redeemable(tables, now, id);
      var code := tables.codes[id];
      if code.installationId !in owners {
        return Err(InstallationNotFound);
      }
      var pair := (code.installationId, runtimeId);
      if exists other :: other in tables.credentials && other != pair && tables.credentials[other].token == token {
        return Err(UniqueViolation);
      }
      StepKeeps(tables, now, Consume(id, runtimeId, connectorName, token));
      tables := ConsumeStep(tables, now, id, runtimeId, connectorName, token);
      return Ok(tables.audits[|tables.audits| - 1]);
    }

    /** The pair whose credential has this token and is not revoked; there is at most one. */
    method FindConnectorByTokenHash(token: Digest) returns (pair: Option<Pair>)
      requires TablesOk(tables)
      ensures pair.Some? ==>
        && pair.value in tables.credentials && tables.credentials[pair.value].token == token
        && !tables.credentials[pair.value].revoked
      ensures pair.None? ==>
        forall p :: p in tables.credentials && tables.credentials[p].token == token ==> tables.credentials[p].revoked
    {
      if p :| p in tables.credentials && tables.credentials[p].token == token && !tables.credentials[p].revoked {
        return Some(p);
      }
      return None;
    }
  }

  lemma NothingMoves(t: Tables)
    ensures Grows(t, t)
  {
    assert forall id :: id in t.codes ==> CodeStays(t, t, id);
  }
}
