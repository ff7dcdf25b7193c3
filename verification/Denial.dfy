/**
 * Denials that must leave an audit receipt: a signed ticket on the wrong route
 * (proxy/key_backend_capability.go:34-117) and a signed ticket that has expired
 * (proxy/expired_handshake.go). An aggregate ticket carries one inner ticket for each target; all of
 * them are verified before any receipt is sent. Signature verification, the Engine's answers, the
 * deadline and the backend tickets are parameters.
 */
module Denial {
  import opened Prelude
  import opened Json
  import opened Delegation
  import opened RandomId

  const MAX_STATS_TARGETS := 256

  /** A receipt to send: the ticket and the host that proves it. */
  datatype Target = Target(token: string, host: string)

  datatype Failure = Failure(targets: seq<Target>, attemptId: string)

  /** Signature verification: the claims of a ticket that verifies. */
  type Verifier = string -> Option<Object>

  /** The verdict on the entry at a position of an aggregate. */
  type Judge = (nat, Value) -> Option<Target>

  /** The two times the clock is read while one ticket is judged. */
  datatype Reading = Reading(now: int, later: int)

  /** The readings for the outer ticket of a request and for the entries of its aggregate. */
  datatype Clock = Clock(outer: Reading, inner: nat -> Reading)

  function HostOf(payload: Object): string {
    if Field(payload, "hostUuid").Str? then payload["hostUuid"].s else ""
  }

  // ----- one receipt per host, in order of first appearance -----

  function FirstPerHost(ts: seq<Target>): seq<Target> {
    if ts == [] then []
    else
      var before, t := ts[..|ts| - 1], ts[|ts| - 1];
      if Seen(before, t.host) then FirstPerHost(before) else FirstPerHost(before) + [t]
  }

  predicate Seen(before: seq<Target>, host: string) {
    exists i :: 0 <= i < |before| && before[i].host == host
  }

  /**
   * `at` lists, in increasing order, the positions in `ts` where the targets of `r` stand, each the
   * first of its host.
   */
  ghost predicate FirstPositions(ts: seq<Target>, r: seq<Target>, at: seq<nat>) {
    && |at| == |r|
    && (forall n :: 0 <= n < |at| ==> at[n] < |ts| && ts[at[n]] == r[n])
    && (forall n, j :: 0 <= n < |at| && 0 <= j < at[n] ==> ts[j].host != r[n].host)
    && (forall n, p :: 0 <= n < p < |at| ==> at[n] < at[p])
  }

  ghost predicate Covers(ts: seq<Target>, r: seq<Target>) {
    forall i :: 0 <= i < |ts| ==> Seen(r, ts[i].host)
  }

  /** One target for each distinct host, where and in the order it first appears. */
  ghost predicate OneForEach(ts: seq<Target>, r: seq<Target>, at: seq<nat>) {
    FirstPositions(ts, r, at) && Covers(ts, r)
  }

  lemma FirstPositionsGrow(before: seq<Target>, t: Target, r: seq<Target>, at: seq<nat>)
    requires FirstPositions(before, r, at)
    ensures FirstPositions(before + [t], r, at)
    ensures !Seen(before, t.host) ==> FirstPositions(before + [t], r + [t], at + [|before|])
  {
  }

  lemma CoversGrows(before: seq<Target>, t: Target, r: seq<Target>)
    requires Covers(before, r)
    ensures Covers(before + [t], r + [t])
    ensures Seen(before, t.host) ==> Covers(before + [t], r)
  {
    var ts := before + [t];
    assert (r + [t])[|r|] == t;
    forall i | 0 <= i < |ts| && Seen(before, ts[i].host) ensures Seen(r, ts[i].host) && Seen(r + [t], ts[i].host) {
      var j :| 0 <= j < |before| && before[j].host == ts[i].host;
      var n :| 0 <= n < |r| && r[n].host == before[j].host;
      assert (r + [t])[n] == r[n];
    }
    forall i | 0 <= i < |before| ensures Seen(before, ts[i].host) {
      assert before[i].host == ts[i].host;
    }
  }

  lemma OneMore(ts: seq<Target>, before: seq<Target>, t: Target, r: seq<Target>, r': seq<Target>, at: seq<nat>)
    returns (at': seq<nat>)
    requires OneForEach(before, r, at) && ts == before + [t]
    requires r' == if Seen(before, t.host) then r else r + [t]
    ensures OneForEach(ts, r', at')
  {
    FirstPositionsGrow(before, t, r, at);
    CoversGrows(before, t, r);
    at' := if Seen(before, t.host) then at else at + [|before|];
  }

  /** Exactly one target for each distinct host, taken from its first entry, in the order of those entries. */
  lemma {:induction false} FirstPerHostExact(ts: seq<Target>) returns (at: seq<nat>)
    ensures OneForEach(ts, FirstPerHost(ts), at)
    decreases |ts|
  {
    if ts == [] {
      at := [];
    } else {
      var before, t := ts[..|ts| - 1], ts[|ts| - 1];
      var at0 := FirstPerHostExact(before);
      at := OneMore(ts, before, t, FirstPerHost(before), FirstPerHost(ts), at0);
    }
  }

  // ----- judging the entries of an aggregate -----

  predicate AllGood(entries: seq<Value>, judge: Judge) {
    forall i :: 0 <= i < |entries| ==> judge(i, entries[i]).Some?
  }

  function Judged(entries: seq<Value>, judge: Judge): (ts: seq<Target>)
    requires AllGood(entries, judge)
    ensures |ts| == |entries|
  {
    seq(|entries|, i requires 0 <= i < |entries| => judge(i, entries[i]).value)
  }

  /** One bad entry spoils the whole aggregate. */
  function AggregateTargets(entries: seq<Value>, judge: Judge): seq<Target> {
    if 1 <= |entries| <= MAX_STATS_TARGETS && AllGood(entries, judge) then FirstPerHost(Judged(entries, judge)) else []
  }

  function Hosts(ts: seq<Target>): set<string> {
    set n | 0 <= n < |ts| :: ts[n].host
  }

  /** What one more judged entry does to the loop's two accumulators. */
  lemma OneMoreTarget(ts: seq<Target>, t: Target)
    ensures FirstPerHost(ts + [t]) == if t.host in Hosts(ts) then FirstPerHost(ts) else FirstPerHost(ts) + [t]
    ensures Hosts(ts + [t]) == Hosts(ts) + {t.host}
  {
    var ts' := ts + [t];
    assert ts'[..|ts'| - 1] == ts && ts'[|ts|] == t;
    assert t.host in Hosts(ts) <==> Seen(ts, t.host);
    forall n | 0 <= n < |ts| ensures ts[n].host in Hosts(ts') {
      assert ts'[n] == ts[n];
    }
  }

  /** The loop both lanes run over the entries of an aggregate. */
  method CollectTargets(entries: seq<Value>, judge: Judge) returns (targets: seq<Target>)
    ensures targets == AggregateTargets(entries, judge)
  {
    if |entries| == 0 || |entries| > MAX_STATS_TARGETS {
      return [];
    }
    var seen: set<string> := {};
    targets := [];
    ghost var ts: seq<Target> := [];
    for i := 0 to |entries|
      invariant |ts| == i && forall n :: 0 <= n < i ==> judge(n, entries[n]) == Some(ts[n])
      invariant targets == FirstPerHost(ts) && seen == Hosts(ts)
    {
      var judged := judge(i, entries[i]);
      if judged.None? {
        return [];
      }
      var t := judged.value;
      OneMoreTarget(ts, t);
      ts := ts + [t];
      if t.host !in seen {
        targets := targets + [t];
        seen := seen + {t.host};
      }
    }
    assert ts == Judged(entries, judge);
  }

  // ----- the wrong-route lane -----

  /** The inner grant names the same key, revision, target and operation as the outer one. */
  predicate SameTarget(inner: Grant, outer: Grant) {
    && inner.keyId == outer.keyId && inner.revision == outer.revision
    && inner.targetType == outer.targetType && inner.targetId == outer.targetId && inner.operation == outer.operation
  }

  /** An entry whose inner ticket verifies, is bound like the outer one and names a host. */
  function RouteEntry(entry: Value, outer: Grant, verify: Verifier): Option<Target> {
    if !entry.Obj? || !Field(entry.fields, "token").Str? then None
    else
      var token := entry.fields["token"].s;
      var claims := verify(token);
      if claims.None? then None
      else
        match Parse(claims.value)
        case Granted(inner) =>
          if SameTarget(inner, outer) && HostOf(inner.payload) != "" then Some(Target(token, HostOf(inner.payload)))
            else None
        case _ => None
  }

  function RouteJudge(outer: Grant, verify: Verifier): Judge {
    (i: nat, entry: Value) => RouteEntry(entry, outer, verify)
  }

  function RouteEntries(g: Grant): seq<Value> {
    var list := if "project" in g.payload then g.payload["project"] else Field(g.payload, "service");
    if g.operation == "read" && |g.payload| == 1 && list.Arr? then list.items else []
  }

  function RouteTargets(raw: string, g: Grant, verify: Verifier): seq<Target> {
    if HostOf(g.payload) != "" then [Target(raw, HostOf(g.payload))]
    else AggregateTargets(RouteEntries(g), RouteJudge(g, verify))
  }

  /** Nothing to report on an allowed path; otherwise the receipts to send under one fresh attempt id. */
  method CheckStreamRoute(raw: string, grant: Option<Grant>, path: string, verify: Verifier, nonce: Option<Entropy>)
    returns (r: Option<Failure>)
    ensures r.None? <==> grant.None? || AllowsPath(grant.value, path)
    ensures r.Some? ==> r.value.targets == if nonce.Some? then RouteTargets(raw, grant.value, verify) else []
    ensures r.Some? && r.value.targets != [] ==> r.value.attemptId == AttemptId(nonce.value)
  {
    if grant.None? || AllowsPath(grant.value, path) {
      return None;
    }
    if nonce.None? {
      return Some(Failure([], ""));
    }
    var g, attemptId := grant.value, AttemptId(nonce.value);
    var host := HostOf(g.payload);
    if host != "" {
      return Some(Failure([Target(raw, host)], attemptId));
    }
    var targets := CollectTargets(RouteEntries(g), RouteJudge(g, verify));
    if targets == [] {
      return Some(Failure([], ""));
    }
    return Some(Failure(targets, attemptId));
  }

  // ----- the expired lane -----

  datatype Evidence = Evidence(metadata: Object, payload: Object, scoped: bool)

  predicate Positive(v: Value) {
    Integer(v).Some? && Integer(v).value > 0
  }

  /** The audit identity of a ticket that expired when the clock was read; never an authorization. */
  function ExpiredAuditMetadata(claims: Object, at: Reading): Option<Evidence> {
    var expiry, parsed := Integer(Field(claims, "exp")), Parse(claims);
    if expiry.None? || expiry.value <= 0 || expiry.value > at.now || parsed.Denied? then None
    else if parsed.Granted? && Field(claims, "apiKeyAudit") != Null then None
    else if parsed.Legacy? && !Field(claims, "apiKeyAudit").Obj? then None
    else
      var metadata := if parsed.Granted? then claims[CLAIM].fields else claims["apiKeyAudit"].fields;
      var payload := if parsed.Granted? then parsed.grant.payload else claims - {"apiKeyAudit", "exp", "iat"};
      var version, revision, issued := Integer(Field(metadata, "version")), Integer(Field(metadata, "revision")),
        Integer(Field(metadata, "issuedAt"));
      if version != Some(1) || revision.None? || revision.value < 0 then None
      else if issued.None? || issued.value <= 0 || issued.value >= expiry.value || issued.value > at.later + 30
        then None
      else if !Positive(Field(metadata, "keyId")) || !Positive(Field(metadata, "principalId")) ||
        !Positive(Field(metadata, "accountId")) then None
      else if exists f :: f in {"targetType", "targetId", "requestId", "requestMethod"} && !Name(Field(metadata, f))
        then None
      else if !Operation(Field(metadata, "operation")) then None
      else Some(Evidence(metadata, payload, parsed.Granted?))
  }

  const BOUND_FIELDS := {"keyId", "revision", "targetType", "targetId", "operation", "principalId", "accountId",
                         "requestId", "requestMethod", "requestAction", "requestLink"}

  predicate SameExpiredAuditBindings(outer: Object, inner: Object) {
    && Positive(Field(outer, "principalId")) && Positive(Field(outer, "accountId"))
    && (forall f :: f in {"requestId", "requestMethod"} ==> Field(outer, f).Str? && Field(outer, f) != Str(""))
    && forall f :: f in BOUND_FIELDS ==> Field(outer, f) == Field(inner, f)
  }

  /** A missing inner ticket is read as the empty string. */
  function TokenOf(entry: Object): string {
    if Field(entry, "token").Str? then entry["token"].s else ""
  }

  function ExpiredEntry(entry: Value, outer: Evidence, audit: Verifier, at: Reading): Option<Target> {
    if !entry.Obj? then None
    else
      var token := TokenOf(entry.fields);
      var claims := audit(token);
      if claims.None? then None
      else
        match ExpiredAuditMetadata(claims.value, at)
        case None => None
        case Some(inner) =>
          if inner.scoped == outer.scoped && SameExpiredAuditBindings(outer.metadata, inner.metadata) &&
            HostOf(inner.payload) != ""
          then Some(Target(token, HostOf(inner.payload)))
          else None
  }

  /** Each entry is judged by readings of its own. */
  function ExpiredJudge(outer: Evidence, audit: Verifier, clock: Clock): Judge {
    (i: nat, entry: Value) => ExpiredEntry(entry, outer, audit, clock.inner(i))
  }

  function ExpiredEntries(e: Evidence): seq<Value> {
    var list := if Field(e.payload, "project").Arr? then e.payload["project"] else Field(e.payload, "service");
    if Field(e.metadata, "operation") == Str("read") && |e.payload| == 1 && list.Arr? then list.items else []
  }

  function ExpiredTargets(raw: string, e: Evidence, audit: Verifier, clock: Clock): seq<Target> {
    if HostOf(e.payload) != "" then [Target(raw, HostOf(e.payload))]
    else AggregateTargets(ExpiredEntries(e), ExpiredJudge(e, audit, clock))
  }

  /** Evidence that a ticket is both signed and expired. */
  function EvidenceOf(raw: string, audit: Verifier, clock: Clock): Option<Evidence> {
    match audit(raw)
    case None => None
    case Some(claims) => ExpiredAuditMetadata(claims, clock.outer)
  }

  method ExpiredDelegationAudit(raw: string, audit: Verifier, clock: Clock, nonce: Option<Entropy>)
    returns (r: Option<Failure>)
    ensures r.None? <==> EvidenceOf(raw, audit, clock).None?
    ensures r.Some? ==> r.value.targets == if nonce.Some?
      then ExpiredTargets(raw, EvidenceOf(raw, audit, clock).value, audit, clock) else []
    ensures r.Some? && r.value.targets != [] ==> r.value.attemptId == AttemptId(nonce.value)
  {
    var claims := audit(raw);
    if claims.None? {
      return None;
    }
    var evidence := ExpiredAuditMetadata(claims.value, clock.outer);
    if evidence.None? {
      return None;
    }
    if nonce.None? {
      return Some(Failure([], ""));
    }
    var e, attemptId := evidence.value, AttemptId(nonce.value);
    if HostOf(e.payload) != "" {
      return Some(Failure([Target(raw, HostOf(e.payload))], attemptId));
    }
    var targets := CollectTargets(ExpiredEntries(e), ExpiredJudge(e, audit, clock));
    return Some(Failure(targets, attemptId));
  }

  // ----- sending the receipts -----

  /** The attempt id as both lanes cut it out of the hexadecimal nonce. */
  function AttemptId(nonce: Entropy): string {
    var encoded := Hex(Stamp(nonce));
    encoded[..8] + "-" + encoded[8..12] + "-" + encoded[12..16] + "-" + encoded[16..20] + "-" + encoded[20..]
  }

  /** It is the same layout as a message key, so the reporter's pattern never rejects it. */
  lemma AttemptIdIsUuid(nonce: Entropy)
    ensures AttemptId(nonce) == UuidText(nonce) && IsVersion4(AttemptId(nonce))
  {
    var w := Stamp(nonce);
    var encoded := Hex(w);
    assert encoded[..8] == Hex(w[0..4]);
    assert encoded[8..12] == Hex(w[4..6]);
    assert encoded[12..16] == Hex(w[6..8]);
    assert encoded[16..20] == Hex(w[8..10]);
    assert encoded[20..] == Hex(w[10..16]);
    UuidIsVersion4(nonce);
  }

  datatype Lane = WrongRoute | Expired {
    function Status(): nat { if WrongRoute? then 403 else 401 }
    function Code(): string { if WrongRoute? then "DelegationRouteDenied" else "ApiKeyExpired" }
  }

  datatype Receipt = Receipt(token: string, backendTicket: string, attemptId: string, code: string)

  /**
   * The world around the reporter: whether the backend can supply tickets and which, whether the
   * deadline passed before the n-th report, and whether the Engine accepts it.
   */
  datatype Surroundings = Surroundings(hasTickets: bool, ticket: string -> string, late: nat -> bool,
    accepts: nat -> bool)

  datatype Answer = Answer(status: nat, code: string, receipts: seq<Receipt>)

  function ReceiptFor(lane: Lane, f: Failure, env: Surroundings, n: nat): Receipt
    requires n < |f.targets|
  {
    Receipt(f.targets[n].token, env.ticket(f.targets[n].host), f.attemptId, lane.Code())
  }

  /** What the reporter checks before it sends anything (delegation/failure.go:38-56). */
  predicate Postable(r: Receipt) {
    IsVersion4(r.attemptId) && 1 <= |r.token| <= MAX_TOKEN_BYTES && 1 <= |r.backendTicket| <= MAX_TOKEN_BYTES
  }

  predicate Posted(lane: Lane, f: Failure, env: Surroundings, n: nat) {
    n < |f.targets| && !env.late(n) && Postable(ReceiptFor(lane, f, env, n))
  }

  /** How many receipts in a row were accepted. */
  function AcceptedFrom(lane: Lane, f: Failure, env: Surroundings, n: nat): (k: nat)
    requires n <= |f.targets|
    ensures n <= k <= |f.targets|
    ensures forall i :: n <= i < k ==> Posted(lane, f, env, i) && env.accepts(i)
    ensures k < |f.targets| ==> !(Posted(lane, f, env, k) && env.accepts(k))
    decreases |f.targets| - n
  {
    if Posted(lane, f, env, n) && env.accepts(n) then AcceptedFrom(lane, f, env, n + 1) else n
  }

  /** The first n receipts. */
  function Receipts(lane: Lane, f: Failure, env: Surroundings, n: nat): seq<Receipt>
    requires n <= |f.targets|
  {
    seq(n, i requires 0 <= i < n => ReceiptFor(lane, f, env, i))
  }

  function Report(lane: Lane, f: Failure, env: Surroundings): Answer {
    if !env.hasTickets || |f.targets| == 0 || |f.targets| > MAX_STATS_TARGETS then Answer(503, "AuditUnavailable", [])
    else
      var k := AcceptedFrom(lane, f, env, 0);
      if k == |f.targets| then Answer(lane.Status(), lane.Code(), Receipts(lane, f, env, k))
      else Answer(503, "AuditUnavailable", Receipts(lane, f, env, if Posted(lane, f, env, k) then k + 1 else k))
  }

  /** One more receipt sent. */
  lemma OneMoreReceipt(lane: Lane, f: Failure, env: Surroundings, n: nat)
    requires n < |f.targets|
    ensures Receipts(lane, f, env, n + 1) == Receipts(lane, f, env, n) + [ReceiptFor(lane, f, env, n)]
    ensures AcceptedFrom(lane, f, env, n) == if Posted(lane, f, env, n) && env.accepts(n)
      then AcceptedFrom(lane, f, env, n + 1) else n
  {
  }

  /** `reportRouteDenial` and `reportExpiredDenial`: stop at the first receipt that is not accepted. */
  method ReportDenial(lane: Lane, f: Failure, env: Surroundings) returns (a: Answer)
    ensures a == Report(lane, f, env)
  {
    if !env.hasTickets || |f.targets| == 0 || |f.targets| > MAX_STATS_TARGETS {
      return Answer(503, "AuditUnavailable", []);
    }
    var receipts := [];
    for n := 0 to |f.targets|
      invariant AcceptedFrom(lane, f, env, 0) == AcceptedFrom(lane, f, env, n)
      invariant receipts == Receipts(lane, f, env, n)
    {
      OneMoreReceipt(lane, f, env, n);
      var receipt := ReceiptFor(lane, f, env, n);
      if env.late(n) || !Postable(receipt) {
        return Answer(503, "AuditUnavailable", receipts);
      }
      receipts := receipts + [receipt];
      if !env.accepts(n) {
        return Answer(503, "AuditUnavailable", receipts);
      }
    }
    return Answer(lane.Status(), lane.Code(), receipts);
  }

  // ----- all or nothing -----

  /** One receipt for each distinct host among the tickets, first appearances first, under one attempt id. */
  ghost predicate OnePerHost(receipts: seq<Receipt>, tickets: seq<Target>, attemptId: string, code: string,
      env: Surroundings)
  {
    var distinct := FirstPerHost(tickets);
    && |receipts| == |distinct|
    && forall n :: 0 <= n < |receipts| ==>
       receipts[n] == Receipt(distinct[n].token, env.ticket(distinct[n].host), attemptId, code)
  }

  /** The receipt is well formed, sent in time and accepted. */
  predicate ReceiptAccepted(f: Failure, env: Surroundings, n: nat)
    requires n < |f.targets|
  {
    && IsVersion4(f.attemptId) && 1 <= |f.targets[n].token| <= 16384
    && 1 <= |env.ticket(f.targets[n].host)| <= 16384
    && !env.late(n) && env.accepts(n)
  }

  ghost predicate AllAccepted(f: Failure, env: Surroundings) {
    forall n :: 0 <= n < |f.targets| ==> ReceiptAccepted(f, env, n)
  }

  lemma AcceptedInFull(lane: Lane, f: Failure, env: Surroundings)
    ensures AcceptedFrom(lane, f, env, 0) == |f.targets| <==> AllAccepted(f, env)
  {
    forall n | 0 <= n < |f.targets|
      ensures ReceiptAccepted(f, env, n) <==> Posted(lane, f, env, n) && env.accepts(n)
    {
    }
  }

  /**
   * The receipts sent are those of the first targets, in order; all but the last were accepted, and
   * sending stopped early only at one that was refused, or before one that could not be sent.
   */
  lemma ReceiptsSent(lane: Lane, f: Failure, env: Surroundings)
    ensures var a := Report(lane, f, env);
      && |a.receipts| <= |f.targets|
      && (f.targets == [] || |f.targets| > 256 || !env.hasTickets ==> a.receipts == [])
      && (forall n :: 0 <= n < |a.receipts| ==>
            a.receipts[n] == Receipt(f.targets[n].token, env.ticket(f.targets[n].host), f.attemptId, lane.Code()))
      && (forall n :: 0 <= n < |a.receipts| - 1 ==> env.accepts(n))
      && (env.hasTickets && |a.receipts| < |f.targets| <= 256 ==>
            || (a.receipts != [] && !env.accepts(|a.receipts| - 1))
            || !Posted(lane, f, env, |a.receipts|))
  {
  }

  /**
   * A denial is answered as such exactly when there is something to report and every one of its
   * receipts was accepted; otherwise the answer is 503.
   */
  lemma ReportedInFull(lane: Lane, f: Failure, env: Surroundings)
    ensures var a := Report(lane, f, env);
      && (a.status == lane.Status() <==> env.hasTickets && 1 <= |f.targets| <= 256 && AllAccepted(f, env))
      && (a.status != lane.Status() ==> a.status == 503 && a.code == "AuditUnavailable")
      && (a.status == lane.Status() ==> a.code == lane.Code() && |a.receipts| == |f.targets|)
      && (f.targets == [] ==> a == Answer(503, "AuditUnavailable", []))
      && (forall n :: 0 <= n < |a.receipts| ==> n < |f.targets| && a.receipts[n] == ReceiptFor(lane, f, env, n))
  {
    AcceptedInFull(lane, f, env);
    ReceiptsSent(lane, f, env);
  }

  lemma {:induction false} FewerHosts(ts: seq<Target>)
    ensures |FirstPerHost(ts)| <= |ts| && (ts != [] ==> FirstPerHost(ts) != [])
    decreases |ts|
  {
    if ts == [] {
    } else {
      FewerHosts(ts[..|ts| - 1]);
    }
  }

  /** An aggregate is answered as denied exactly when all its entries are good and all its receipts accepted. */
  lemma AggregateAllOrNothing(entries: seq<Value>, judge: Judge, lane: Lane, attemptId: string, env: Surroundings)
    ensures var f := Failure(AggregateTargets(entries, judge), attemptId);
      var a := Report(lane, f, env);
      && (a.status == lane.Status() <==>
            env.hasTickets && 1 <= |entries| <= 256 && AllGood(entries, judge) &&
              AllAccepted(f, env))
      && (a.status == lane.Status() ==> OnePerHost(a.receipts, Judged(entries, judge), attemptId, lane.Code(), env))
      && (!AllGood(entries, judge) ==> a == Answer(503, "AuditUnavailable", []))
  {
    ReportedInFull(lane, Failure(AggregateTargets(entries, judge), attemptId), env);
    if AllGood(entries, judge) {
      FewerHosts(Judged(entries, judge));
    }
  }

  /**
   * The inner ticket of an entry verified, names the outer ticket's key, revision, target and
   * operation, and a host.
   */
  ghost predicate RouteEntryBound(entry: Value, outer: Grant, verify: Verifier, t: Target) {
    && entry.Obj? && Field(entry.fields, "token") == Str(t.token)
    && verify(t.token).Some? && Parse(verify(t.token).value).Granted?
    && (var inner := Parse(verify(t.token).value).grant;
        && inner == outer.(expiresAt := inner.expiresAt, payload := inner.payload)
        && t.host != "" && Field(inner.payload, "hostUuid") == Str(t.host))
  }

  /** An entry is good, for this target, exactly if it is so bound. */
  lemma RouteEntryExactly(entry: Value, outer: Grant, verify: Verifier, t: Target)
    ensures RouteEntry(entry, outer, verify) == Some(t) <==> RouteEntryBound(entry, outer, verify, t)
  {
  }

  /** Which tickets are aggregates, and of what: read tickets with nothing but a list of projects or services. */
  lemma RouteEntriesExactly(g: Grant, items: seq<Value>)
    ensures g.operation == "read" && g.payload == map["project" := Arr(items)] ==> RouteEntries(g) == items
    ensures g.operation == "read" && g.payload == map["service" := Arr(items)] ==> RouteEntries(g) == items
    ensures RouteEntries(g) != [] ==>
      && g.operation == "read"
      && (g.payload == map["project" := Arr(RouteEntries(g))] || g.payload == map["service" := Arr(RouteEntries(g))])
  {
    if RouteEntries(g) != [] {
      var name := if "project" in g.payload then "project" else "service";
      OnlyKey(g.payload, name);
    }
  }

  lemma OnlyKey(o: Object, name: string)
    requires |o| == 1 && name in o
    ensures o == map[name := o[name]]
  {
    assert |o.Keys - {name}| == 0;
    assert o.Keys == {name};
  }

  /**
   * A wrong-route aggregate is answered 403 exactly if every inner ticket verified with the outer
   * bindings and one receipt for each distinct host was accepted; one bad entry means no receipt at all.
   */
  lemma RouteDenialAllOrNothing(raw: string, g: Grant, verify: Verifier, nonce: Entropy, env: Surroundings)
    requires HostOf(g.payload) == ""
    ensures var entries := RouteEntries(g);
      var judge := RouteJudge(g, verify);
      var f := Failure(RouteTargets(raw, g, verify), AttemptId(nonce));
      var a := Report(WrongRoute, f, env);
      && (a.status == 403 <==>
            env.hasTickets && 1 <= |entries| <= 256 && AllGood(entries, judge) &&
              AllAccepted(f, env))
      && (a.status == 403 ==>
            && (forall i :: 0 <= i < |entries| ==> RouteEntryBound(entries[i], g, verify, judge(i, entries[i]).value))
            && OnePerHost(a.receipts, Judged(entries, judge), UuidText(nonce), "DelegationRouteDenied", env))
      && ((exists i :: 0 <= i < |entries| && judge(i, entries[i]).None?) ==> a == Answer(503, "AuditUnavailable", []))
  {
    var entries, judge := RouteEntries(g), RouteJudge(g, verify);
    AggregateAllOrNothing(entries, judge, WrongRoute, AttemptId(nonce), env);
    AttemptIdIsUuid(nonce);
    forall i | 0 <= i < |entries| && judge(i, entries[i]).Some?
      ensures RouteEntryBound(entries[i], g, verify, judge(i, entries[i]).value)
    {
      RouteEntryExactly(entries[i], g, verify, judge(i, entries[i]).value);
    }
  }

  /** A ticket that names a host itself is reported for that host, under its own text. */
  lemma SingleTarget(raw: string, g: Grant, e: Evidence, verify: Verifier, clock: Clock, host: string)
    requires host != ""
    ensures Field(g.payload, "hostUuid") == Str(host) ==> RouteTargets(raw, g, verify) == [Target(raw, host)]
    ensures Field(e.payload, "hostUuid") == Str(host) ==> ExpiredTargets(raw, e, verify, clock) == [Target(raw, host)]
  {
  }

  /** The fields in which the inner tickets of an aggregate agree with the outer one. */
  ghost predicate BoundAlike(outer: Object, inner: Object) {
    && Field(outer, "keyId") == Field(inner, "keyId") && Field(outer, "revision") == Field(inner, "revision")
    && Field(outer, "targetType") == Field(inner, "targetType") && Field(outer, "targetId") == Field(inner, "targetId")
    && Field(outer, "operation") == Field(inner, "operation")
    && Field(outer, "principalId") == Field(inner, "principalId")
    && Field(outer, "accountId") == Field(inner, "accountId")
    && Field(outer, "requestId") == Field(inner, "requestId")
    && Field(outer, "requestMethod") == Field(inner, "requestMethod")
    && Field(outer, "requestAction") == Field(inner, "requestAction")
    && Field(outer, "requestLink") == Field(inner, "requestLink")
  }

  /** The inner ticket of an entry verified, has itself expired and shares every bound field with the outer one. */
  ghost predicate ExpiredEntryBound(entry: Value, outer: Evidence, audit: Verifier, at: Reading, t: Target) {
    && entry.Obj? && TokenOf(entry.fields) == t.token
    && audit(t.token).Some? && ExpiredAuditMetadata(audit(t.token).value, at).Some?
    && (var inner := ExpiredAuditMetadata(audit(t.token).value, at).value;
        && inner.scoped == outer.scoped
        && BoundAlike(outer.metadata, inner.metadata)
        && t.host != "" && Field(inner.payload, "hostUuid") == Str(t.host))
  }

  /** What evidence of expiry is made of: the identity fields of the claim or of the audit claim, all in range. */
  ghost predicate Identified(metadata: Object, expiry: int, later: int) {
    && Integer(Field(metadata, "version")) == Some(1)
    && Integer(Field(metadata, "revision")).Some? && Integer(Field(metadata, "revision")).value >= 0
    && (var issued := Integer(Field(metadata, "issuedAt"));
        issued.Some? && 0 < issued.value < expiry && issued.value <= later + 30)
    && Integer(Field(metadata, "keyId")).Some? && Integer(Field(metadata, "keyId")).value > 0
    && Integer(Field(metadata, "principalId")).Some? && Integer(Field(metadata, "principalId")).value > 0
    && Integer(Field(metadata, "accountId")).Some? && Integer(Field(metadata, "accountId")).value > 0
    && (forall f :: f in {"targetType", "targetId", "requestId", "requestMethod"} ==>
          Field(metadata, f).Str? && 1 <= |Field(metadata, f).s| <= 256)
    && (Field(metadata, "operation") == Str("logs") || Field(metadata, "operation") == Str("exec")
        || Field(metadata, "operation") == Str("read"))
  }

  /**
   * Exactly when a ticket is evidence, and of what: it expired by the first reading; it is either a
   * grant without audit claim or a legacy ticket with one; and its identity is complete.
   */
  lemma EvidenceExactly(claims: Object, at: Reading, e: Evidence)
    ensures ExpiredAuditMetadata(claims, at) == Some(e) <==>
      && Integer(Field(claims, "exp")).Some? && 0 < Integer(Field(claims, "exp")).value <= at.now
      && Identified(e.metadata, Integer(Field(claims, "exp")).value, at.later)
      && (e.scoped ==>
            && Parse(claims).Granted? && Field(claims, "apiKeyAudit") == Null
            && claims[CLAIM] == Obj(e.metadata) && e.payload == Parse(claims).grant.payload)
      && (!e.scoped ==>
            && Parse(claims).Legacy? && Field(claims, "apiKeyAudit") == Obj(e.metadata)
            && e.payload == claims - {"apiKeyAudit", "exp", "iat"})
  {
    ParseSound(claims);
  }

  /** Evidence carries every field that the bindings ask of the outer ticket. */
  lemma EvidenceIsComplete(claims: Object, at: Reading)
    requires ExpiredAuditMetadata(claims, at).Some?
    ensures var m := ExpiredAuditMetadata(claims, at).value.metadata;
      forall inner :: SameExpiredAuditBindings(m, inner) <==> BoundAlike(m, inner)
  {
    var m := ExpiredAuditMetadata(claims, at).value.metadata;
    forall inner ensures SameExpiredAuditBindings(m, inner) <==> BoundAlike(m, inner) {
      BindingsExactly(m, inner);
    }
  }

  lemma BindingsExactly(outer: Object, inner: Object)
    ensures SameExpiredAuditBindings(outer, inner) <==>
      && BoundAlike(outer, inner)
      && Integer(Field(outer, "principalId")).Some? && Integer(Field(outer, "principalId")).value > 0
      && Integer(Field(outer, "accountId")).Some? && Integer(Field(outer, "accountId")).value > 0
      && Field(outer, "requestId").Str? && Field(outer, "requestId").s != ""
      && Field(outer, "requestMethod").Str? && Field(outer, "requestMethod").s != ""
  {
    assert "requestId" in {"requestId", "requestMethod"} && "requestMethod" in {"requestId", "requestMethod"};
  }

  /** An entry of a ticket that is evidence itself is good, for this target, exactly if it is so bound. */
  lemma ExpiredEntryExactly(entry: Value, outer: Evidence, audit: Verifier, at: Reading, t: Target)
    requires exists claims, before :: ExpiredAuditMetadata(claims, before) == Some(outer)
    ensures ExpiredEntry(entry, outer, audit, at) == Some(t) <==> ExpiredEntryBound(entry, outer, audit, at, t)
  {
    var claims, before :| ExpiredAuditMetadata(claims, before) == Some(outer);
    EvidenceIsComplete(claims, before);
  }

  lemma GoodExpiredEntryIsBound(entry: Value, outer: Evidence, audit: Verifier, at: Reading)
    requires ExpiredEntry(entry, outer, audit, at).Some?
    ensures ExpiredEntryBound(entry, outer, audit, at, ExpiredEntry(entry, outer, audit, at).value)
  {
    var claims := audit(TokenOf(entry.fields)).value;
    BindingsExactly(outer.metadata, ExpiredAuditMetadata(claims, at).value.metadata);
  }

  /** The expired lane takes the same aggregates. */
  lemma ExpiredEntriesExactly(e: Evidence, items: seq<Value>)
    ensures Field(e.metadata, "operation") == Str("read")
      && (e.payload == map["project" := Arr(items)] || e.payload == map["service" := Arr(items)])
      ==> ExpiredEntries(e) == items
    ensures ExpiredEntries(e) != [] ==>
      && Field(e.metadata, "operation") == Str("read")
      && (|| e.payload == map["project" := Arr(ExpiredEntries(e))]
          || e.payload == map["service" := Arr(ExpiredEntries(e))])
  {
    if ExpiredEntries(e) != [] {
      OnlyKey(e.payload, if Field(e.payload, "project").Arr? then "project" else "service");
    }
  }

  /** The same for an expired aggregate and 401. */
  lemma ExpiredDenialAllOrNothing(raw: string, e: Evidence, audit: Verifier, clock: Clock, nonce: Entropy,
      env: Surroundings)
    requires HostOf(e.payload) == ""
    ensures var entries := ExpiredEntries(e);
      var judge := ExpiredJudge(e, audit, clock);
      var f := Failure(ExpiredTargets(raw, e, audit, clock), AttemptId(nonce));
      var a := Report(Expired, f, env);
      && (a.status == 401 <==>
            env.hasTickets && 1 <= |entries| <= 256 && AllGood(entries, judge) &&
              AllAccepted(f, env))
      && (a.status == 401 ==>
            && (forall i :: 0 <= i < |entries| ==>
                  ExpiredEntryBound(entries[i], e, audit, clock.inner(i), judge(i, entries[i]).value))
            && OnePerHost(a.receipts, Judged(entries, judge), UuidText(nonce), "ApiKeyExpired", env))
      && ((exists i :: 0 <= i < |entries| && judge(i, entries[i]).None?) ==> a == Answer(503, "AuditUnavailable", []))
  {
    var entries, judge := ExpiredEntries(e), ExpiredJudge(e, audit, clock);
    AggregateAllOrNothing(entries, judge, Expired, AttemptId(nonce), env);
    AttemptIdIsUuid(nonce);
    forall i | 0 <= i < |entries| && judge(i, entries[i]).Some?
      ensures ExpiredEntryBound(entries[i], e, audit, clock.inner(i), judge(i, entries[i]).value)
    {
      GoodExpiredEntryIsBound(entries[i], e, audit, clock.inner(i));
    }
  }

  /**
   * Expiry evidence is final: a grant whose ticket was once accepted as expired can never pass a
   * live check that begins at that time or later, whatever the Engine answers.
   */
  lemma ExpiredEvidenceIsFinal(claims: Object, at: Reading, token: string, probe: Probe, digest: string -> string)
    requires ExpiredAuditMetadata(claims, at).Some? && Parse(claims).Granted?
    requires probe.before >= at.now
    ensures !Check(token, Some(Parse(claims).grant), probe, digest)
  {
    ParseSound(claims);
  }
}
