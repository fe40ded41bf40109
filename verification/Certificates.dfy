/** Node certificates (node_certificates_stage7.go, node_pki_stage7.go, pki_ops_stage8.go): issue,
    rotate, renew, revoke and the renewal sweep, over a table that is only appended to and in which
    only `revoked` changes. Times are nanoseconds, read once per request. */
module Certificates {
  import opened Options
  import opened Issuers

  datatype Certificate = Certificate(node: int, serial: int, caId: string, issuerId: string,
                                     notBefore: int, notAfter: int, revoked: bool, rotateFrom: Option<nat>)

  datatype Problem = SigningFailed | IssueFailed | NotDue | NotFound

  datatype Result = Issued(index: nat) | Failed(problem: Problem)

  const MINUTE := 60_000_000_000

  // ----- The table -----

  /** The partial unique index: one unrevoked certificate per node. */
  predicate OneUnrevoked(rows: seq<Certificate>) {
    forall i, j :: 0 <= i < j < |rows| && rows[i].node == rows[j].node ==> rows[i].revoked || rows[j].revoked
  }

  /** A link names an earlier, revoked certificate of the same node. */
  predicate Linked(rows: seq<Certificate>) {
    forall i :: 0 <= i < |rows| && rows[i].rotateFrom.Some? ==>
      var p := rows[i].rotateFrom.value;
      p < i && rows[p].node == rows[i].node && rows[p].revoked
  }

  /** No certificate has two successors. */
  predicate Unforked(rows: seq<Certificate>) {
    forall i, j :: 0 <= i < j < |rows| && rows[i].rotateFrom.Some? && rows[j].rotateFrom.Some? ==>
      rows[i].rotateFrom.value != rows[j].rotateFrom.value
  }

  /** The unique index on issuing authority and serial number. */
  predicate UniqueSerials(rows: seq<Certificate>) {
    forall i, j :: 0 <= i < j < |rows| ==> rows[i].caId != rows[j].caId || rows[i].serial != rows[j].serial
  }

  predicate History(rows: seq<Certificate>) { OneUnrevoked(rows) && Linked(rows) && Unforked(rows) && UniqueSerials(rows) }

  predicate NewSerial(rows: seq<Certificate>, serial: int) { forall i :: 0 <= i < |rows| ==> rows[i].serial != serial }

  predicate AllRevoked(rows: seq<Certificate>, node: int) { forall i :: 0 <= i < |rows| && rows[i].node == node ==> rows[i].revoked }

  /** The unrevoked certificate of the node that a request names: by number, or else by serial, or else at all. */
  predicate Names(rows: seq<Certificate>, i: nat, node: int, id: Option<nat>, serial: Option<int>)
    requires i < |rows|
  {
    && rows[i].node == node && !rows[i].revoked
    && (if id.Some? then i == id.value else if serial.Some? then rows[i].serial == serial.value else true)
  }

  lemma OnlyOneNamed(rows: seq<Certificate>, k: nat, node: int, id: Option<nat>, serial: Option<int>)
    requires OneUnrevoked(rows) && k < |rows| && Names(rows, k, node, id, serial)
    ensures forall i :: 0 <= i < |rows| && Names(rows, i, node, id, serial) ==> i == k
  {
  }

  /** What an INSERT of `c` would violate. */
  predicate Conflicts(rows: seq<Certificate>, c: Certificate) {
    || c.notAfter <= c.notBefore
    || exists i :: 0 <= i < |rows| && ((rows[i].caId == c.caId && rows[i].serial == c.serial) || (rows[i].node == c.node && !rows[i].revoked))
  }

  /** An unrevoked certificate of the node that lasts longer than `before`. */
  predicate HasUnexpiring(rows: seq<Certificate>, node: int, before: int) {
    exists i :: 0 <= i < |rows| && rows[i].node == node && !rows[i].revoked && rows[i].notAfter > before
  }

  predicate Due(c: Certificate, before: int) { !c.revoked && c.notAfter <= before }

  function DueRows(rows: seq<Certificate>, before: int): set<int> { set i | 0 <= i < |rows| && Due(rows[i], before) }

  /** Every unrevoked certificate was so before, or is a new one that expires at `stamp`. */
  predicate Refreshed(was: seq<Certificate>, rows: seq<Certificate>, stamp: int) {
    forall i :: 0 <= i < |rows| && !rows[i].revoked ==> rows[i].notAfter == stamp || (i < |was| && rows[i] == was[i])
  }

  /** What a sweep at `now` achieves: whatever is unrevoked is new or was not due. */
  predicate NoneDueLeft(rows: seq<Certificate>, before: int, stamp: int) {
    forall i :: 0 <= i < |rows| && !rows[i].revoked ==> rows[i].notAfter > before || rows[i].notAfter == stamp
  }

  /** `ids` are due certificates, soonest first, none left out that expires sooner than one listed. */
  predicate SoonestDue(rows: seq<Certificate>, before: int, ids: seq<nat>) {
    && (forall k :: 0 <= k < |ids| ==> ids[k] < |rows| && Due(rows[ids[k]], before))
    && (forall k, l :: 0 <= k < l < |ids| ==> ids[k] != ids[l] && rows[ids[k]].notAfter <= rows[ids[l]].notAfter)
    && (forall i, k :: 0 <= i < |rows| && Due(rows[i], before) && i !in ids && 0 <= k < |ids| ==> rows[ids[k]].notAfter <= rows[i].notAfter)
  }

  function Revoke(rows: seq<Certificate>, id: Option<nat>): (r: seq<Certificate>)
    requires id.Some? ==> id.value < |rows|
    ensures |r| == |rows| && forall i :: 0 <= i < |rows| ==> r[i] == if id == Some(i) then rows[i].(revoked := true) else rows[i]
  {
    match id
    case None => rows
    case Some(i) => rows[i := rows[i].(revoked := true)]
  }

  /** The active certificate is the only one of its node that is not revoked. */
  lemma OnlyActive(rows: seq<Certificate>, node: int, active: Option<nat>)
    requires OneUnrevoked(rows)
    requires match active case None => AllRevoked(rows, node) case Some(k) => k < |rows| && rows[k].node == node && !rows[k].revoked
    ensures RevokedOf(rows, Revoke(rows, active), node)
    ensures active.Some? ==> forall i :: 0 <= i < |rows| && rows[i].node == node && !rows[i].revoked ==> i == active.value
  {
  }

  lemma RevokedHistory(rows: seq<Certificate>, id: Option<nat>)
    requires History(rows) && (id.Some? ==> id.value < |rows|)
    ensures History(Revoke(rows, id))
  {
  }

  lemma AppendedHistory(rows: seq<Certificate>, c: Certificate)
    requires History(rows) && !Conflicts(rows, c) && !c.revoked
    requires c.rotateFrom.Some? ==>
      var p := c.rotateFrom.value;
      p < |rows| && rows[p].node == c.node && rows[p].revoked && forall i :: 0 <= i < |rows| ==> rows[i].rotateFrom != c.rotateFrom
    ensures History(rows + [c])
  {
    var r := rows + [c];
    assert forall i :: 0 <= i < |rows| ==> r[i] == rows[i];
  }

  /** An insert is refused exactly where it would break an index, or for an empty window. */
  lemma ConflictsExactlyWhen(rows: seq<Certificate>, c: Certificate)
    requires History(rows) && !c.revoked
    ensures Conflicts(rows, c) <==> !(c.notBefore < c.notAfter && OneUnrevoked(rows + [c]) && UniqueSerials(rows + [c]))
  {
    var r := rows + [c];
    assert forall i :: 0 <= i < |rows| ==> r[i] == rows[i];
    assert r[|rows|] == c;
  }

  /** An unrevoked certificate has no successor yet. */
  lemma NoSuccessorYet(rows: seq<Certificate>, p: nat)
    requires Linked(rows) && p < |rows| && !rows[p].revoked
    ensures forall i :: 0 <= i < |rows| ==> rows[i].rotateFrom != Some(p)
  {
  }

  // ----- The check of a presented serial -----

  datatype Verdict = Ok | UnknownCertificate | RevokedCertificate | ExpiredCertificate | UntrustedIssuer

  /** `SELECT ... WHERE node_id = node AND serial_number = serial`, from row `k` on. */
  function BySerial(rows: seq<Certificate>, node: int, serial: int, k: nat): Option<nat>
    requires k <= |rows|
    decreases |rows| - k
  {
    if k == |rows| then None
    else if rows[k].node == node && rows[k].serial == serial then Some(k)
    else BySerial(rows, node, serial, k + 1)
  }

  predicate Trusted(issuers: seq<Issuer>, configured: string, previous: seq<string>, id: string) {
    id == configured || id in previous || IsActive(issuers, id)
  }

  /** `verifyNodeTLSIdentity` in strict mode when only a serial number is presented. */
  function Verify(rows: seq<Certificate>, issuers: seq<Issuer>, configured: string, previous: seq<string>,
                  now: int, node: int, serial: int): Verdict
  {
    match BySerial(rows, node, serial, 0)
    case None => UnknownCertificate
    case Some(i) =>
      if i >= |rows| then UnknownCertificate
      else if rows[i].revoked then RevokedCertificate
      else if now < rows[i].notBefore || now > rows[i].notAfter then ExpiredCertificate
      else if !Trusted(issuers, configured, previous, rows[i].issuerId) then UntrustedIssuer
      else Ok
  }

  lemma {:induction false} BySerialFinds(rows: seq<Certificate>, i: nat, k: nat)
    requires k <= i < |rows|
    requires forall j :: 0 <= j < |rows| && rows[j].node == rows[i].node && rows[j].serial == rows[i].serial ==> j == i
    ensures BySerial(rows, rows[i].node, rows[i].serial, k) == Some(i)
    decreases i - k
  {
    if k < i { BySerialFinds(rows, i, k + 1); }
  }

  /** From an issuer that is configured, or was, or is active. */
  predicate Vouched(c: Certificate, issuers: seq<Issuer>, configured: string, previous: seq<string>) {
    || c.issuerId == configured
    || (exists i :: 0 <= i < |previous| && previous[i] == c.issuerId)
    || exists i :: 0 <= i < |issuers| && issuers[i].id == c.issuerId && issuers[i].status == Active
  }

  /** Unrevoked, inside its window, and from an issuer that vouches for it. */
  predicate Usable(c: Certificate, issuers: seq<Issuer>, configured: string, previous: seq<string>, now: int) {
    !c.revoked && c.notBefore <= now <= c.notAfter && Vouched(c, issuers, configured, previous)
  }

  /** The node has certificates of one authority only. */
  predicate OneAuthority(rows: seq<Certificate>, node: int) {
    forall i, j :: 0 <= i < j < |rows| && rows[i].node == node && rows[j].node == node ==> rows[i].caId == rows[j].caId
  }

  /** A certificate of a node with one authority passes the check exactly while it is usable. */
  lemma PassesExactlyWhile(rows: seq<Certificate>, i: nat, issuers: seq<Issuer>, configured: string, previous: seq<string>, now: int)
    requires UniqueSerials(rows) && i < |rows| && OneAuthority(rows, rows[i].node)
    ensures Verify(rows, issuers, configured, previous, now, rows[i].node, rows[i].serial) == Ok
      <==> Usable(rows[i], issuers, configured, previous, now)
  {
    BySerialFinds(rows, i, 0);
  }

  /** Why a serial number is refused: no certificate of the node has it, or the first reason there is against the one
      that does. */
  lemma RefusedBecause(rows: seq<Certificate>, i: nat, issuers: seq<Issuer>, configured: string, previous: seq<string>, now: int)
    requires UniqueSerials(rows) && i < |rows| && OneAuthority(rows, rows[i].node)
    ensures var c := rows[i];
      Verify(rows, issuers, configured, previous, now, c.node, c.serial)
      == if c.revoked then RevokedCertificate
         else if !(c.notBefore <= now <= c.notAfter) then ExpiredCertificate
         else if !Vouched(c, issuers, configured, previous) then UntrustedIssuer
         else Ok
  {
    BySerialFinds(rows, i, 0);
  }

  lemma UnknownExactlyWhen(rows: seq<Certificate>, issuers: seq<Issuer>, configured: string, previous: seq<string>, now: int, node: int, serial: int)
    ensures Verify(rows, issuers, configured, previous, now, node, serial) == UnknownCertificate
      <==> forall i :: 0 <= i < |rows| ==> rows[i].node != node || rows[i].serial != serial
  {
    BySerialMatches(rows, node, serial, 0);
    BySerialMisses(rows, node, serial, 0);
  }

  lemma {:induction false} BySerialMisses(rows: seq<Certificate>, node: int, serial: int, k: nat)
    requires k <= |rows|
    ensures BySerial(rows, node, serial, k).None? ==> forall i :: k <= i < |rows| ==> rows[i].node != node || rows[i].serial != serial
    decreases |rows| - k
  {
    if k < |rows| { BySerialMisses(rows, node, serial, k + 1); }
  }

  /** Whatever the authorities, a serial number only passes for a usable certificate of the node. */
  lemma PassingIsUsable(rows: seq<Certificate>, issuers: seq<Issuer>, configured: string, previous: seq<string>,
                        now: int, node: int, serial: int)
    requires Verify(rows, issuers, configured, previous, now, node, serial) == Ok
    ensures exists i :: 0 <= i < |rows| && rows[i].node == node && rows[i].serial == serial && Usable(rows[i], issuers, configured, previous, now)
  {
    BySerialMatches(rows, node, serial, 0);
    var i := BySerial(rows, node, serial, 0).value;
    assert Usable(rows[i], issuers, configured, previous, now);
  }

  lemma {:induction false} BySerialMatches(rows: seq<Certificate>, node: int, serial: int, k: nat)
    requires k <= |rows|
    ensures var r := BySerial(rows, node, serial, k);
      r.Some? ==> k <= r.value < |rows| && rows[r.value].node == node && rows[r.value].serial == serial
    decreases |rows| - k
  {
    if k < |rows| { BySerialMatches(rows, node, serial, k + 1); }
  }

  /** With two authorities a usable certificate can be refused: the index allows the node the same
      serial number from both, and the query takes the first row. */
  lemma SerialOfTwoAuthorities(issuers: seq<Issuer>, previous: seq<string>)
    ensures var was := Certificate(7, 1, "ca-1", "a", 0, 10, true, None);
      var rows := [was, Certificate(7, 1, "ca-2", "b", 0, 10, false, None)];
      && History(rows) && Usable(rows[1], issuers, "b", previous, 5)
      && Verify(rows, issuers, "b", previous, 5, 7, 1) == RevokedCertificate
  {
    var rows := [Certificate(7, 1, "ca-1", "a", 0, 10, true, None), Certificate(7, 1, "ca-2", "b", 0, 10, false, None)];
    assert BySerial(rows, 7, 1, 0) == Some(0);
  }

  lemma RefreshedByRevoking(rows: seq<Certificate>, id: Option<nat>, stamp: int)
    requires id.Some? ==> id.value < |rows|
    ensures Refreshed(rows, rows, stamp) && Refreshed(rows, Revoke(rows, id), stamp)
  {
  }

  lemma RefreshedByAdding(was: seq<Certificate>, rows: seq<Certificate>, c: Certificate, stamp: int)
    requires Refreshed(was, rows, stamp) && c.notAfter == stamp
    ensures Refreshed(was, rows + [c], stamp)
  {
  }

  /** With a new serial number and nothing else unrevoked the insert succeeds. */
  lemma NoConflict(rows: seq<Certificate>, id: Option<nat>, c: Certificate)
    requires OneUnrevoked(rows) && (id.Some? ==> id.value < |rows| && rows[id.value].node == c.node && !rows[id.value].revoked)
    ensures c.notBefore < c.notAfter && NewSerial(rows, c.serial) && (id.Some? || AllRevoked(rows, c.node)) ==> !Conflicts(Revoke(rows, id), c)
  {
  }

  lemma IssuerOfId(issuers: seq<Issuer>, x: Issuer)
    requires UniqueIds(issuers) && x in issuers
    ensures forall k :: 0 <= k < |issuers| && issuers[k].id == x.id ==> issuers[k] == x
  {
  }

  /** A new certificate takes the place of the one the node had, or signing failed and nothing has changed, or it could
      not be entered and the old one is revoked all the same. */
  predicate Replaced(was: seq<Certificate>, rows: seq<Certificate>, node: int, now: int, ttl: int, signed: Option<int>, r: Result) {
    match r
    case Issued(k) =>
      && k == |was| && |rows| == k + 1 && RevokedOf(was, rows, node)
      && rows[k].node == node && !rows[k].revoked && signed == Some(rows[k].serial)
      && rows[k].notBefore == now - 2 * MINUTE && rows[k].notAfter == now + ttl
      && (rows[k].rotateFrom.None? ==> AllRevoked(was, node))
      && (rows[k].rotateFrom.Some? ==> rows[k].rotateFrom.value < |was| && Serves(was[rows[k].rotateFrom.value], node))
    case Failed(SigningFailed) => rows == was && (signed.None? || ttl <= 0)
    case Failed(IssueFailed) => |rows| == |was| && RevokedOf(was, rows, node)
    case _ => false
  }

  predicate ServesAt(c: Certificate, node: int, now: int) { Serves(c, node) && c.notBefore < now < c.notAfter }

  predicate Serves(c: Certificate, node: int) { c.node == node && !c.revoked }

  /** What the node had is revoked, and nothing else has changed. */
  predicate RevokedOf(was: seq<Certificate>, rows: seq<Certificate>, node: int)
    requires |was| <= |rows|
  {
    forall i :: 0 <= i < |was| ==> rows[i] == if was[i].node == node then was[i].(revoked := true) else was[i]
  }

  // ----- The service -----

  class PkiService {
    const issuers: IssuerStore
    const configured: string
    const previous: seq<string>
    const caId: string
    const defaultTtl: int
    const maxTtl: int
    const renewBefore: int
    var certs: seq<Certificate>

    ghost predicate Valid()
      reads this, issuers
    {
      issuers.Valid() && History(certs)
    }

    constructor (configuredId: string, previousIds: seq<string>, ca: string, ttl: int, ttlMax: int, renew: int)
      ensures Valid() && certs == [] && fresh(issuers)
      ensures configured == configuredId && previous == previousIds && caId == ca
      ensures defaultTtl == ttl && maxTtl == ttlMax && renewBefore == renew
    {
      issuers := new IssuerStore();
      configured, previous, caId, defaultTtl, maxTtl, renewBefore := configuredId, previousIds, ca, ttl, ttlMax, renew;
      certs := [];
    }

    /** `certificateTTL`. */
    function CertificateTtl(requested: Option<int>): (ttl: int)
      ensures ttl <= maxTtl
      ensures requested.None? && 0 < defaultTtl <= maxTtl ==> ttl == defaultTtl
      ensures requested.Some? && 0 < requested.value <= maxTtl ==> ttl == requested.value
      ensures (requested.None? || requested.value <= 0) && defaultTtl <= 0 ==> ttl == maxTtl
      ensures ttl < maxTtl ==> requested == Some(ttl) || (ttl == defaultTtl && (requested.None? || requested.value <= 0))
    {
      var t0 := if requested.Some? && requested.value > 0 then requested.value else defaultTtl;
      var t1 := if t0 <= 0 then maxTtl else t0;
      if t1 > maxTtl then maxTtl else t1
    }

    /** `GetActiveNodeCertificate`. */
    method GetActive(node: int) returns (r: Option<nat>)
      ensures r.Some? ==> r.value < |certs| && certs[r.value].node == node && !certs[r.value].revoked
      ensures r.None? ==> forall i :: 0 <= i < |certs| && certs[i].node == node ==> certs[i].revoked
    {
      var i := |certs|;
      while i > 0
        invariant 0 <= i <= |certs| && forall j :: i <= j < |certs| && certs[j].node == node ==> certs[j].revoked
      {
        i := i - 1;
        if certs[i].node == node && !certs[i].revoked { return Some(i); }
      }
      r := None;
    }

    /** `IssueNodeCertificate` of the store: the INSERT, or a violated constraint. */
    method Insert(c: Certificate) returns (ok: bool)
      modifies this`certs
      ensures ok <==> !Conflicts(old(certs), c)
      ensures certs == if ok then old(certs) + [c] else old(certs)
    {
      if c.notAfter <= c.notBefore { return false; }
      var i := 0;
      while i < |certs|
        invariant 0 <= i <= |certs| && certs == old(certs)
        invariant forall j :: 0 <= j < i ==>
          !(certs[j].caId == c.caId && certs[j].serial == c.serial) && !(certs[j].node == c.node && !certs[j].revoked)
      {
        if (certs[i].caId == c.caId && certs[i].serial == c.serial) || (certs[i].node == c.node && !certs[i].revoked) { return false; }
        i := i + 1;
      }
      certs := certs + [c];
      ok := true;
    }

    /** The issuer of the certificate is the active one, and the configured one or that of the loaded authority. */
    predicate SignedBy(c: Certificate)
      reads this, issuers
    {
      && IsActive(issuers.rows, c.issuerId) && (c.issuerId == configured || c.caId == caId)
      && forall k :: 0 <= k < |issuers.rows| && issuers.rows[k].id == c.issuerId ==> issuers.rows[k].caId == c.caId
    }

    /** `issueNodeCertificateInternal`. `signed` is the serial number the signer drew, or its failure;
        signing comes before anything is revoked, so a failure changes no certificate. */
    method Issue(now: int, node: int, rotateFrom: Option<nat>, signed: Option<int>) returns (r: Result)
      requires Valid()
      requires rotateFrom.Some? ==> rotateFrom.value < |certs| && certs[rotateFrom.value].node == node && !certs[rotateFrom.value].revoked
      modifies this`certs, issuers
      ensures Valid()
      ensures signed.None? || CertificateTtl(None) <= 0 ==> r == Failed(SigningFailed)
      ensures r == Failed(SigningFailed) ==> certs == old(certs) && (signed.None? || CertificateTtl(None) <= 0)
      ensures r.Failed? ==> r.problem == SigningFailed || r.problem == IssueFailed
      ensures Refreshed(old(certs), certs, now + CertificateTtl(None))
      ensures r == Failed(IssueFailed) ==> certs == Revoke(old(certs), rotateFrom)
      ensures r.Issued? ==>
        && r.index == |old(certs)| && |certs| == r.index + 1 && certs[..r.index] == Revoke(old(certs), rotateFrom)
        && certs[r.index].node == node && !certs[r.index].revoked && certs[r.index].rotateFrom == rotateFrom
        && certs[r.index].notBefore == now - 2 * MINUTE && certs[r.index].notAfter == now + CertificateTtl(None)
        && signed == Some(certs[r.index].serial) && SignedBy(certs[r.index])
      ensures signed.Some? && CertificateTtl(None) > 0 && NewSerial(old(certs), signed.value) && (rotateFrom.Some? || AllRevoked(old(certs), node)) ==>
        r.Issued?
    {
      hide Conflicts, NewSerial, AllRevoked, Refreshed, UniqueSerials, Linked, Unforked;
      var issuer := issuers.EnsureSigning(configured, caId);
      RefreshedByRevoking(certs, rotateFrom, now + CertificateTtl(None));
      var ttl := CertificateTtl(None);
      if signed == None || ttl <= 0 { return Failed(SigningFailed); }
      if rotateFrom.Some? { NoSuccessorYet(certs, rotateFrom.value); }
      RevokedHistory(certs, rotateFrom);
      certs := Revoke(certs, rotateFrom);
      var c := Certificate(node, signed.value, issuer.value.caId, issuer.value.id, now - 2 * MINUTE, now + ttl, false, rotateFrom);
      ghost var before := certs;
      NoConflict(old(certs), rotateFrom, c);
      RefreshedByAdding(old(certs), before, c, now + ttl);
      var ok := Insert(c);
      if !ok { return Failed(IssueFailed); }
      AppendedHistory(before, c);
      ActiveKnown(issuers.rows, issuer.value);
      IssuerOfId(issuers.rows, issuer.value);
      r := Issued(|certs| - 1);
    }

    /** `ensureNodeCertificate`, at registration: the active certificate while it is valid. */
    method Ensure(now: int, node: int, signed: Option<int>) returns (r: Result)
      requires Valid()
      modifies this`certs, issuers
      ensures Valid()
      ensures r.Issued? ==> r.index < |certs| && certs[r.index].node == node && !certs[r.index].revoked
      ensures r.Issued? && r.index < |old(certs)| ==> certs == old(certs) && certs[r.index].notBefore < now < certs[r.index].notAfter
      ensures forall i :: 0 <= i < |old(certs)| && ServesAt(old(certs)[i], node, now) ==> r == Issued(i) && certs == old(certs)
      ensures (forall i :: 0 <= i < |old(certs)| ==> !ServesAt(old(certs)[i], node, now))
        ==> Replaced(old(certs), certs, node, now, CertificateTtl(None), signed, r)
      ensures r == Failed(SigningFailed) ==> certs == old(certs)
      ensures Refreshed(old(certs), certs, now + CertificateTtl(None))
      ensures signed.Some? && CertificateTtl(None) > 0 && NewSerial(old(certs), signed.value) ==> r.Issued?
      ensures r.Issued? && r.index >= |old(certs)| ==> certs[r.index].notAfter == now + CertificateTtl(None)
    {
      var active := GetActive(node);
      OnlyActive(certs, node, active);
      if active.Some? && certs[active.value].notBefore < now < certs[active.value].notAfter { return Issued(active.value); }
      r := Issue(now, node, active, signed);
    }

    /** `RotateNodeCertificate`. */
    method Rotate(now: int, node: int, signed: Option<int>) returns (r: Result)
      requires Valid()
      modifies this`certs, issuers
      ensures Valid()
      ensures r.Issued? ==>
        && r.index == |old(certs)| < |certs| && certs[r.index].node == node && !certs[r.index].revoked
        && forall i :: 0 <= i < r.index && certs[i].node == node ==> certs[i].revoked
      ensures Replaced(old(certs), certs, node, now, CertificateTtl(None), signed, r)
      ensures signed.Some? && CertificateTtl(None) > 0 && NewSerial(old(certs), signed.value) ==> r.Issued?
      ensures r == Failed(SigningFailed) ==> certs == old(certs)
      ensures Refreshed(old(certs), certs, now + CertificateTtl(None))
    {
      var active := GetActive(node);
      OnlyActive(certs, node, active);
      r := Issue(now, node, active, signed);
    }

    /** `RenewNodeCertificate`. */
    method Renew(now: int, node: int, force: bool, signed: Option<int>) returns (r: Result)
      requires Valid()
      modifies this`certs, issuers
      ensures Valid()
      ensures r == Failed(NotDue) <==> !force && HasUnexpiring(old(certs), node, now + renewBefore)
      ensures r == Failed(SigningFailed) || r == Failed(NotDue) ==> certs == old(certs)
      ensures r != Failed(NotDue) ==> Replaced(old(certs), certs, node, now, CertificateTtl(None), signed, r)
      ensures r != Failed(NotDue) && signed.Some? && CertificateTtl(None) > 0 && NewSerial(old(certs), signed.value) ==> r.Issued?
      ensures Refreshed(old(certs), certs, now + CertificateTtl(None))
      ensures r.Issued? ==> r.index == |old(certs)| < |certs| && certs[r.index].node == node && !certs[r.index].revoked
    {
      var active := GetActive(node);
      OnlyActive(certs, node, active);
      if active == None {
        r := Issue(now, node, None, signed);
        return;
      }
      ghost var a := active.value;
      assert forall i :: 0 <= i < |certs| && certs[i].node == node && !certs[i].revoked ==> i == a;
      if !force && certs[active.value].notAfter > now + renewBefore { return Failed(NotDue); }
      r := Issue(now, node, active, signed);
    }

    /** The row an UPDATE with `node_id = node AND revoked_at IS NULL` and the number or the serial reaches;
        the index on unrevoked certificates leaves it at most one. */
    method FindUnrevoked(node: int, id: Option<nat>, serial: Option<int>) returns (r: Option<nat>)
      ensures r.Some? ==> r.value < |certs| && Names(certs, r.value, node, id, serial)
      ensures r.None? ==> forall i :: 0 <= i < |certs| ==> !Names(certs, i, node, id, serial)
    {
      var i := 0;
      while i < |certs|
        invariant 0 <= i <= |certs| && forall j :: 0 <= j < i ==> !Names(certs, j, node, id, serial)
      {
        if Names(certs, i, node, id, serial) { return Some(i); }
        i := i + 1;
      }
      r := None;
    }

    /** `RevokeNodeCertificate`: by number when one is given, else by serial, else the active one. */
    method RevokeCertificate(node: int, id: Option<nat>, serial: Option<int>) returns (r: Result)
      requires Valid()
      modifies this`certs
      ensures Valid() && |certs| == |old(certs)|
      ensures forall i :: 0 <= i < |certs| ==> !Names(certs, i, node, id, serial)
      ensures forall i :: 0 <= i < |certs| ==>
        certs[i] == if Names(old(certs), i, node, id, serial) then old(certs)[i].(revoked := true) else old(certs)[i]
      ensures r == Failed(NotFound) <==> forall i :: 0 <= i < |old(certs)| ==> !Names(old(certs), i, node, id, serial)
      ensures r.Issued? ==> r.index < |certs| && Names(old(certs), r.index, node, id, serial)
      ensures forall stamp: int :: Refreshed(old(certs), certs, stamp)
    {
      var found;
      if id.Some? {
        found := FindUnrevoked(node, id, serial);
      } else if serial.Some? {
        found := FindUnrevoked(node, None, serial);
      } else {
        found := GetActive(node);
      }
      if found == None { return Failed(NotFound); }
      RevokedHistory(certs, found);
      OnlyOneNamed(certs, found.value, node, id, serial);
      certs := Revoke(certs, found);
      r := Issued(found.value);
    }

    // ----- The sweep -----

    /** The due certificate, not in `taken`, that expires first. */
    method Soonest(before: int, taken: seq<nat>) returns (r: Option<nat>)
      ensures r.None? ==> forall i :: 0 <= i < |certs| && Due(certs[i], before) ==> i in taken
      ensures r.Some? ==> r.value < |certs| && r.value !in taken && Due(certs[r.value], before)
      ensures r.Some? ==> forall i :: 0 <= i < |certs| && Due(certs[i], before) && i !in taken ==> certs[r.value].notAfter <= certs[i].notAfter
    {
      r := None;
      var i := 0;
      while i < |certs|
        invariant 0 <= i <= |certs|
        invariant r.None? ==> forall j :: 0 <= j < i && Due(certs[j], before) ==> j in taken
        invariant r.Some? ==> r.value < |certs| && r.value !in taken && Due(certs[r.value], before)
        invariant r.Some? ==> forall j :: 0 <= j < i && Due(certs[j], before) && j !in taken ==> certs[r.value].notAfter <= certs[j].notAfter
      {
        if Due(certs[i], before) && i !in taken && (r.None? || certs[i].notAfter < certs[r.value].notAfter) { r := Some(i); }
        i := i + 1;
      }
    }

    /** `ListNodeCertificatesExpiringBefore`. */
    method ListExpiring(before: int, limit: int) returns (ids: seq<nat>)
      ensures SoonestDue(certs, before, ids)
      ensures var n := if limit <= 0 || limit > 500 then 100 else limit;
        && |ids| <= n && (|DueRows(certs, before)| <= n ==> forall i :: 0 <= i < |certs| && Due(certs[i], before) ==> i in ids)
        && (|ids| == n || forall i :: 0 <= i < |certs| && Due(certs[i], before) ==> i in ids)
    {
      var n := if limit <= 0 || limit > 500 then 100 else limit;
      ids := [];
      while |ids| < n
        invariant |ids| <= n && SoonestDue(certs, before, ids)
        decreases n - |ids|
      {
        var next := Soonest(before, ids);
        if next == None { return; }
        Listed(certs, before, ids, next.value);
        ids := ids + [next.value];
      }
      AllListed(certs, before, ids);
    }

    /** `RunPKIRenewalSweep`. `signed` gives the signer's answer for each certificate. When every issue
        succeeds and no more are due than the limit, every unrevoked certificate afterwards is new or
        was not due. */
    method Sweep(now: int, limit: int, signed: int -> Option<int>) returns (listed: nat, renewed: nat)
      requires Valid()
      modifies this`certs, issuers
      ensures Valid() && renewed <= listed <= if limit <= 0 || limit > 500 then 100 else limit
      ensures |certs| == |old(certs)| + renewed
      ensures forall i :: 0 <= i < |old(certs)| ==>
        certs[i] == old(certs)[i] || (Due(old(certs)[i], now + renewBefore) && certs[i] == old(certs)[i].(revoked := true))
      ensures forall i :: |old(certs)| <= i < |certs| ==>
        && certs[i].notAfter == now + CertificateTtl(None) && !certs[i].revoked && certs[i].rotateFrom.Some?
        && certs[i].rotateFrom.value < |old(certs)| && Due(old(certs)[certs[i].rotateFrom.value], now + renewBefore)
        && signed(certs[i].rotateFrom.value) == Some(certs[i].serial)
      ensures listed == (if limit <= 0 || limit > 500 then 100 else limit) || listed == |DueRows(old(certs), now + renewBefore)|
      ensures AlwaysSigns(old(certs), signed) && CertificateTtl(None) > 0 ==> renewed == listed
      ensures Refreshed(old(certs), certs, now + CertificateTtl(None))
      ensures renewed == listed && |DueRows(old(certs), now + renewBefore)| <= (if limit <= 0 || limit > 500 then 100 else limit)
        ==> NoneDueLeft(certs, now + renewBefore, now + CertificateTtl(None))
    {
      hide History, SoonestDue, AlwaysSigns, Succeeds;
      var ids := ListExpiring(now + renewBefore, limit);
      listed, renewed := |ids|, 0;
      ghost var stamp := now + CertificateTtl(None);
      ListedDue(certs, now + renewBefore, ids);
      AllCounted(certs, now + renewBefore, ids);
      var k := 0;
      while k < |ids|
        invariant 0 <= k <= |ids| && Valid() && renewed <= k
        invariant Swept(old(certs), certs, now + renewBefore, stamp, ids[..k], renewed, signed)
        invariant AlwaysSigns(old(certs), signed) && CertificateTtl(None) > 0 ==> renewed == k
      {
        Untouched(old(certs), certs, now + renewBefore, stamp, ids, k, renewed, signed);
        if AlwaysSigns(old(certs), signed) { StillNew(old(certs), certs, now + renewBefore, stamp, ids, k, renewed, signed); }
        ghost var mid := certs;
        var r := Issue(now, certs[ids[k]].node, Some(ids[k]), signed(ids[k]));
        SweptStep(old(certs), mid, certs, now + renewBefore, stamp, ids, k, renewed, signed);
        if r.Issued? { renewed := renewed + 1; }
        k := k + 1;
      }
      assert ids[..k] == ids;
      SuccessorsDue(old(certs), certs, now + renewBefore, stamp, ids, renewed, signed);
    }
  }

  /** The table part of the way through a sweep that has handled `done`. */
  ghost predicate Swept(was: seq<Certificate>, rows: seq<Certificate>, before: int, stamp: int, done: seq<nat>, renewed: nat, signed: int -> Option<int>) {
    && |rows| == |was| + renewed && renewed <= |done|
    && (forall i :: 0 <= i < |was| ==>
          rows[i] == was[i] || (Due(was[i], before) && i in done && rows[i] == was[i].(revoked := true)))
    && (forall i :: |was| <= i < |rows| ==> rows[i].notAfter == stamp && !rows[i].revoked && Succeeds(rows[i], done, signed))
    && (renewed == |done| ==> forall k :: 0 <= k < |done| ==> done[k] < |was| && rows[done[k]].revoked)
  }

  /** The certificate takes the place of one of those, under the serial number drawn for that. */
  predicate Succeeds(c: Certificate, done: seq<nat>, signed: int -> Option<int>) {
    c.rotateFrom.Some? && c.rotateFrom.value in done && signed(c.rotateFrom.value) == Some(c.serial)
  }

  /** The signer always answers, and with a number that is new. */
  predicate AlwaysSigns(rows: seq<Certificate>, signed: int -> Option<int>) {
    && (forall i :: 0 <= i < |rows| ==> signed(i).Some? && NewSerial(rows, signed(i).value))
    && forall i, j :: 0 <= i < j < |rows| ==> signed(i) != signed(j)
  }

  lemma StillNew(was: seq<Certificate>, rows: seq<Certificate>, before: int, stamp: int, ids: seq<nat>, k: nat, renewed: nat, signed: int -> Option<int>)
    requires AllDue(was, before, ids) && k < |ids| && Swept(was, rows, before, stamp, ids[..k], renewed, signed) && AlwaysSigns(was, signed)
    ensures ids[k] < |was| && signed(ids[k]).Some? && NewSerial(rows, signed(ids[k]).value)
  {
    var v := signed(ids[k]).value;
    forall i | 0 <= i < |rows| ensures rows[i].serial != v {
      if i < |was| {
        assert rows[i].serial == was[i].serial;
      } else {
        var p := rows[i].rotateFrom.value;
        assert Succeeds(rows[i], ids[..k], signed);
        var j :| 0 <= j < k && ids[j] == p;
        assert ids[j] != ids[k] && ids[j] < |was|;
      }
    }
  }

  ghost predicate AllDue(rows: seq<Certificate>, before: int, ids: seq<nat>) {
    && (forall k :: 0 <= k < |ids| ==> ids[k] < |rows| && Due(rows[ids[k]], before))
    && (forall k, l :: 0 <= k < l < |ids| ==> ids[k] != ids[l])
  }

  lemma ListedDue(rows: seq<Certificate>, before: int, ids: seq<nat>)
    requires SoonestDue(rows, before, ids)
    ensures AllDue(rows, before, ids)
  {
  }

  lemma Untouched(was: seq<Certificate>, rows: seq<Certificate>, before: int, stamp: int, ids: seq<nat>, k: nat, renewed: nat, signed: int -> Option<int>)
    requires AllDue(was, before, ids) && k < |ids| && Swept(was, rows, before, stamp, ids[..k], renewed, signed)
    ensures ids[k] < |was| <= |rows| && rows[ids[k]] == was[ids[k]] && Due(rows[ids[k]], before)
  {
    assert ids[k] !in ids[..k];
  }

  /** One certificate handled: renewed, only revoked, or left as it was. */
  lemma SweptStep(was: seq<Certificate>, mid: seq<Certificate>, end: seq<Certificate>, before: int, stamp: int,
                  ids: seq<nat>, k: nat, renewed: nat, signed: int -> Option<int>)
    requires AllDue(was, before, ids) && k < |ids| && Swept(was, mid, before, stamp, ids[..k], renewed, signed)
    requires ids[k] < |mid| && mid[ids[k]] == was[ids[k]]
    requires
      || end == mid
      || end == Revoke(mid, Some(ids[k]))
      || (|end| == |mid| + 1 && end[..|mid|] == Revoke(mid, Some(ids[k])) && end[|mid|].notAfter == stamp && !end[|mid|].revoked
          && end[|mid|].rotateFrom == Some(ids[k]) && signed(ids[k]) == Some(end[|mid|].serial))
    ensures Swept(was, end, before, stamp, ids[..k + 1], if |end| > |mid| then renewed + 1 else renewed, signed)
  {
    var id := ids[k];
    assert ids[..k + 1] == ids[..k] + [id];
    assert forall i :: i in ids[..k] ==> i in ids[..k + 1];
    assert id in ids[..k + 1];
    if |end| > |mid| {
      assert forall i :: 0 <= i < |mid| ==> end[i] == Revoke(mid, Some(id))[i] by {
        assert forall i :: 0 <= i < |mid| ==> end[..|mid|][i] == end[i];
      }
    }
    forall i | 0 <= i < |was|
      ensures end[i] == was[i] || (Due(was[i], before) && i in ids[..k + 1] && end[i] == was[i].(revoked := true))
    {
      if i == id { assert id in ids[..k + 1]; }
    }
  }

  /** When as many are listed as are due, all are. */
  lemma AllListed(rows: seq<Certificate>, before: int, ids: seq<nat>)
    requires SoonestDue(rows, before, ids)
    ensures |DueRows(rows, before)| <= |ids| ==> forall i :: 0 <= i < |rows| && Due(rows[i], before) ==> i in ids
  {
    var listed := set i: int | 0 <= i < |rows| && i in ids;
    SetSize(ids, listed);
    assert listed <= DueRows(rows, before);
    if |DueRows(rows, before)| <= |ids| {
      Subset(listed, DueRows(rows, before));
      assert forall i :: i in DueRows(rows, before) ==> i in listed;
    }
  }

  lemma AllCounted(rows: seq<Certificate>, before: int, ids: seq<nat>)
    requires SoonestDue(rows, before, ids)
    ensures (forall i :: 0 <= i < |rows| && Due(rows[i], before) ==> i in ids) ==> |ids| == |DueRows(rows, before)|
  {
    var listed := set i: int | 0 <= i < |rows| && i in ids;
    SetSize(ids, listed);
    if forall i :: 0 <= i < |rows| && Due(rows[i], before) ==> i in ids { assert listed == DueRows(rows, before); }
  }

  lemma SuccessorsDue(was: seq<Certificate>, rows: seq<Certificate>, before: int, stamp: int, ids: seq<nat>, renewed: nat, signed: int -> Option<int>)
    requires AllDue(was, before, ids) && Swept(was, rows, before, stamp, ids, renewed, signed)
    ensures forall i :: |was| <= i < |rows| ==>
      && rows[i].rotateFrom.Some? && rows[i].rotateFrom.value < |was| && Due(was[rows[i].rotateFrom.value], before)
      && signed(rows[i].rotateFrom.value) == Some(rows[i].serial)
  {
    forall i | |was| <= i < |rows|
      ensures rows[i].rotateFrom.Some? && rows[i].rotateFrom.value < |was| && Due(was[rows[i].rotateFrom.value], before)
    {
      var j :| 0 <= j < |ids| && ids[j] == rows[i].rotateFrom.value;
    }
  }

  lemma Subset(a: set<int>, b: set<int>)
    requires a <= b && |b| <= |a|
    ensures a == b
  {
    assert a + (b - a) == b && |b - a| == 0;
  }

  lemma {:induction false} SetSize(ids: seq<nat>, listed: set<int>)
    requires forall k, l :: 0 <= k < l < |ids| ==> ids[k] != ids[l]
    requires forall i: int :: i in listed <==> i >= 0 && i in ids
    ensures |listed| == |ids|
  {
    if ids == [] {
      assert forall i: int :: i !in listed;
    } else {
      var n := |ids| - 1;
      var last: int := ids[n];
      assert ids == ids[..n] + [ids[n]];
      forall i: int ensures i in listed - {last} <==> i >= 0 && i in ids[..n] {
        assert forall k :: 0 <= k < n ==> ids[..n][k] == ids[k] != ids[n];
      }
      SetSize(ids[..n], listed - {last});
    }
  }

  lemma Listed(rows: seq<Certificate>, before: int, ids: seq<nat>, next: nat)
    requires SoonestDue(rows, before, ids) && next < |rows| && next !in ids && Due(rows[next], before)
    requires forall i :: 0 <= i < |rows| && Due(rows[i], before) && i !in ids ==> rows[next].notAfter <= rows[i].notAfter
    ensures SoonestDue(rows, before, ids + [next])
  {
    var r := ids + [next];
    assert forall k :: 0 <= k < |ids| ==> r[k] == ids[k];
    assert forall i :: i in ids ==> i in r;
  }
}
