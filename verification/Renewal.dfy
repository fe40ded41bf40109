/** The renewal schedule (cmd/core-platform/main.go, `startRenewalScheduler`) over whole runs: when no
    certificate expires between two sweeps, and when one does. Times are nanoseconds. */
module Renewal {
  import opened Options
  import opened Certificates

  const HOUR := 60 * MINUTE

  function Interval(renewBefore: int): int {
    if 0 < renewBefore && MINUTE <= renewBefore / 2 < HOUR then renewBefore / 2 else HOUR
  }

  /** The interval of the ticker: between a minute and an hour, the longest that fits twice into the
      renewal window, or an hour when none does. */
  method SchedulerInterval(renewBefore: int) returns (interval: int)
    ensures MINUTE <= interval <= HOUR
    ensures 2 * interval <= renewBefore <==> renewBefore >= 2 * MINUTE
    ensures forall i :: MINUTE <= i <= HOUR && 2 * i <= renewBefore ==> i <= interval
    ensures renewBefore < 2 * MINUTE ==> interval == HOUR
    ensures interval == Interval(renewBefore)
  {
    interval := HOUR;
    if renewBefore > 0 {
      var half := renewBefore / 2;
      if half >= MINUTE && half < interval { interval := half; }
    }
  }

  // ----- Runs -----

  datatype Policy = Policy(renewBefore: int, ttl: int)

  /** Something happens to the certificates: a sweep, or any other request. */
  datatype Moment = Moment(at: int, sweep: bool)

  predicate Outlive(rows: seq<Certificate>, t: int) {
    forall i :: 0 <= i < |rows| && !rows[i].revoked ==> rows[i].notAfter > t
  }

  predicate Follows(p: Policy, was: seq<Certificate>, m: Moment, rows: seq<Certificate>) {
    && History(rows)
    && Refreshed(was, rows, m.at + p.ttl)
    && (m.sweep ==> NoneDueLeft(rows, m.at + p.renewBefore, m.at + p.ttl))
  }

  /** `tables[k]` is the table before moment `k`. */
  ghost predicate Trace(p: Policy, run: seq<Moment>, tables: seq<seq<Certificate>>) {
    && |tables| == |run| + 1 && History(tables[0])
    && forall k :: 0 <= k < |run| ==> Follows(p, tables[k], run[k], tables[k + 1])
  }

  /** The latest sweep before moment `k` of a run that starts just after a sweep at `start`. */
  function LastSweep(run: seq<Moment>, start: int, k: nat): int
    requires k <= |run|
  {
    if k == 0 then start else if run[k - 1].sweep then run[k - 1].at else LastSweep(run, start, k - 1)
  }

  /** Times do not go back, and a sweep is never more than `interval` after the one before it. */
  ghost predicate Scheduled(run: seq<Moment>, start: int, interval: int) {
    forall k :: 0 <= k < |run| ==> LastSweep(run, start, k) <= run[k].at <= LastSweep(run, start, k) + interval
  }

  /** Nothing unrevoked has expired at any moment. */
  ghost predicate NoneExpired(run: seq<Moment>, tables: seq<seq<Certificate>>)
    requires |tables| > |run|
  {
    forall k :: 0 <= k < |run| ==> Outlive(tables[k], run[k].at)
  }

  /** Until the next sweep is due, nothing expires. */
  lemma {:induction false} OutlivesInterval(p: Policy, run: seq<Moment>, tables: seq<seq<Certificate>>, start: int, interval: int, k: nat)
    requires 0 < interval < p.ttl && interval < p.renewBefore
    requires Trace(p, run, tables) && Outlive(tables[0], start + p.renewBefore) && Scheduled(run, start, interval) && k <= |run|
    ensures Outlive(tables[k], LastSweep(run, start, k) + interval)
  {
    hide Follows, Outlive, History;
    if k == 0 {
      OutliveLess(tables[0], start + p.renewBefore, start + interval);
    } else {
      OutlivesInterval(p, run, tables, start, interval, k - 1);
      assert Follows(p, tables[k - 1], run[k - 1], tables[k - 1 + 1]);
      StepOutlives(p, tables[k - 1], run[k - 1], tables[k], LastSweep(run, start, k - 1), interval);
    }
  }

  lemma OutliveLess(rows: seq<Certificate>, t: int, u: int)
    requires Outlive(rows, t) && u <= t
    ensures Outlive(rows, u)
  {
  }

  /** What is new lasts longer than an interval; what a sweep leaves was not due. */
  lemma StepOutlives(p: Policy, was: seq<Certificate>, m: Moment, rows: seq<Certificate>, last: int, interval: int)
    requires 0 < interval < p.ttl && interval < p.renewBefore && Follows(p, was, m, rows)
    requires Outlive(was, last + interval) && last <= m.at <= last + interval
    ensures Outlive(rows, (if m.sweep then m.at else last) + interval)
  {
    hide History;
  }

  /** No renewal gap: starting just after a sweep, no unrevoked certificate is past its NotAfter at any
      moment of a run that keeps to the scheduler's interval. */
  lemma NoRenewalGap(p: Policy, run: seq<Moment>, tables: seq<seq<Certificate>>, start: int)
    requires p.renewBefore >= 2 * MINUTE && p.ttl > Interval(p.renewBefore)
    requires Trace(p, run, tables) && Outlive(tables[0], start + p.renewBefore)
    requires Scheduled(run, start, Interval(p.renewBefore))
    ensures 2 * Interval(p.renewBefore) <= p.renewBefore && NoneExpired(run, tables)
  {
    hide Follows, History, Outlive, LastSweep;
    var interval := Interval(p.renewBefore);
    forall k | 0 <= k < |run| ensures Outlive(tables[k], run[k].at) {
      OutlivesInterval(p, run, tables, start, interval, k);
      OutliveLess(tables[k], LastSweep(run, start, k) + interval, run[k].at);
    }
  }

  ghost predicate Gap(p: Policy, run: seq<Moment>, tables: seq<seq<Certificate>>, start: int) {
    && Trace(p, run, tables) && Outlive(tables[0], start + p.renewBefore)
    && Scheduled(run, start, Interval(p.renewBefore)) && !NoneExpired(run, tables)
  }

  /** Some run meets an expired certificate exactly when the renewal window is shorter than two minutes,
      for which the scheduler falls back to a whole hour, or a new certificate does not outlast an interval. */
  lemma GapExactlyWhen(p: Policy)
    requires p.ttl > 0
    ensures (exists run: seq<Moment>, tables: seq<seq<Certificate>>, start: int :: Gap(p, run, tables, start))
      <==> p.renewBefore < 2 * MINUTE || p.ttl <= Interval(p.renewBefore)
  {
    if p.renewBefore < 2 * MINUTE {
      var c := Certificate(0, 0, "", "", 0, p.renewBefore + 1, false, None);
      var run := [Moment(HOUR, true)];
      var tables := [[c], [c.(revoked := true)]];
      assert LastSweep(run, 0, 0) == 0;
      assert !Outlive(tables[0], run[0].at) by { assert !tables[0][0].revoked && tables[0][0].notAfter <= HOUR; }
      assert Gap(p, run, tables, 0);
    } else if p.ttl <= Interval(p.renewBefore) {
      ShortLivedGap(p);
    } else if exists run: seq<Moment>, tables: seq<seq<Certificate>>, start: int :: Gap(p, run, tables, start) {
      var run: seq<Moment>, tables: seq<seq<Certificate>>, start: int :| Gap(p, run, tables, start);
      NoRenewalGap(p, run, tables, start);
    }
  }

  /** Issued just after a sweep, expired when the next one comes. */
  lemma ShortLivedGap(p: Policy)
    requires 0 < p.ttl <= Interval(p.renewBefore)
    ensures exists run: seq<Moment>, tables: seq<seq<Certificate>>, start: int :: Gap(p, run, tables, start)
  {
    var interval := Interval(p.renewBefore);
    var c := Certificate(0, 0, "", "", 0, p.ttl, false, None);
    var run := [Moment(0, false), Moment(interval, true)];
    var tables := [[], [c], [c.(revoked := true)]];
    assert LastSweep(run, 0, 0) == 0 && LastSweep(run, 0, 1) == 0;
    assert Follows(p, tables[0], run[0], tables[1]) && Follows(p, tables[1], run[1], tables[2]);
    assert !Outlive(tables[1], run[1].at) by { assert !tables[1][0].revoked && tables[1][0].notAfter <= interval; }
    assert Gap(p, run, tables, 0);
  }

  // ----- The service under the schedule -----

  /** Such a gap in the life of a service: a certificate issued at registration is past its NotAfter when the
      node registers again, though the sweeps keep to the interval. */
  method ServedGap(renewBefore: int, ttl: int)
    returns (svc: PkiService, ghost run: seq<Moment>, ghost tables: seq<seq<Certificate>>, ghost start: int)
    requires ttl > 0 && (renewBefore < 2 * MINUTE || ttl <= Interval(renewBefore))
    ensures fresh(svc) && svc.Valid() && svc.renewBefore == renewBefore && svc.CertificateTtl(None) == ttl
    ensures tables != [] && svc.certs == tables[|tables| - 1] && Gap(Policy(renewBefore, ttl), run, tables, start)
  {
    hide History, Refreshed;
    svc := new PkiService("ca", [], "ca", ttl, ttl, renewBefore);
    tables := [svc.certs];
    var r := svc.Ensure(0, 0, Some(1)) by { assert NewSerial([], 1); }
    tables := tables + [svc.certs];
    ghost var c := svc.certs[0];
    var again := svc.Ensure(ttl, 0, Some(2));
    tables := tables + [svc.certs];
    if ttl <= Interval(renewBefore) {
      run, start := [Moment(0, false), Moment(ttl, false)], 0;
      assert LastSweep(run, 0, 0) == 0 && LastSweep(run, 0, 1) == 0;
      assert !Outlive(tables[1], run[1].at);
    } else {
      run, start, tables := [Moment(ttl, false)], ttl - HOUR / 2, tables[1..];
      assert LastSweep(run, start, 0) == start;
      assert !Outlive(tables[0], run[0].at);
    }
  }

  datatype Request = Register(node: int) | Rotate(node: int) | Renew(node: int, force: bool) | Revocation(node: int, id: Option<nat>, serial: Option<int>) | Tick

  /** What a sweep found due, listed and renewed. */
  datatype Tally = Tally(due: nat, listed: nat, renewed: nat)

  predicate Complete(t: Tally) { t.renewed == t.listed && t.due <= 100 }

  /** The service handles `requests` at the moments of `run`; `tallies[k]` is what the sweep at moment `k`
      did. When every sweep is complete, the tables it goes through are a trace, so under the
      scheduler's interval nothing unrevoked is ever met expired, whichever other requests fail. */
  method Serve(svc: PkiService, run: seq<Moment>, requests: seq<Request>, signer: (nat, int) -> Option<int>, ghost start: int)
    returns (ghost tables: seq<seq<Certificate>>, ghost tallies: seq<Tally>)
    requires svc.Valid() && |requests| == |run| && forall k :: 0 <= k < |run| ==> run[k].sweep == requests[k].Tick?
    modifies svc`certs, svc.issuers
    ensures svc.Valid() && |tallies| == |run|
    ensures |tables| == |run| + 1 && tables[0] == old(svc.certs) && tables[|run|] == svc.certs
    ensures (forall k :: 0 <= k < |run| && run[k].sweep ==> Complete(tallies[k]))
      ==> Trace(Policy(svc.renewBefore, svc.CertificateTtl(None)), run, tables)
    ensures
      && svc.renewBefore >= 2 * MINUTE && svc.CertificateTtl(None) > Interval(svc.renewBefore)
      && Outlive(tables[0], start + svc.renewBefore) && Scheduled(run, start, Interval(svc.renewBefore))
      && (forall k :: 0 <= k < |run| && run[k].sweep ==> Complete(tallies[k]))
      ==> NoneExpired(run, tables)
  {
    hide History, Refreshed, NoneDueLeft, Scheduled, NoneExpired, Outlive;
    ghost var p := Policy(svc.renewBefore, svc.CertificateTtl(None));
    tables, tallies := [svc.certs], [];
    var k := 0;
    while k < |run|
      invariant 0 <= k <= |run| == |requests| && svc.Valid() && |tables| == k + 1 && |tallies| == k
      invariant tables[0] == old(svc.certs) && tables[k] == svc.certs && History(tables[0])
      invariant forall j :: 0 <= j < k && (run[j].sweep ==> Complete(tallies[j])) ==> Follows(p, tables[j], run[j], tables[j + 1])
    {
      ghost var tally := ServeOne(svc, run[k], requests[k], i => signer(k, i));
      tables, tallies, k := tables + [svc.certs], tallies + [tally], k + 1;
    }
    if && svc.renewBefore >= 2 * MINUTE && svc.CertificateTtl(None) > Interval(svc.renewBefore)
       && Outlive(tables[0], start + svc.renewBefore) && Scheduled(run, start, Interval(svc.renewBefore))
       && forall k :: 0 <= k < |run| && run[k].sweep ==> Complete(tallies[k])
    {
      NoRenewalGap(p, run, tables, start);
    }
  }

  method ServeOne(svc: PkiService, m: Moment, request: Request, signer: int -> Option<int>) returns (ghost tally: Tally)
    requires svc.Valid() && m.sweep == request.Tick?
    modifies svc`certs, svc.issuers
    ensures svc.Valid()
    ensures (m.sweep ==> Complete(tally))
      ==> Follows(Policy(svc.renewBefore, svc.CertificateTtl(None)), old(svc.certs), m, svc.certs)
    ensures m.sweep ==> tally.due == |DueRows(old(svc.certs), m.at + svc.renewBefore)| && tally.renewed <= tally.listed <= 100
  {
    hide History, Refreshed, NoneDueLeft;
    ghost var ttl := svc.CertificateTtl(None);
    tally := Tally(0, 0, 0);
    match request {
      case Register(node) => var _ := svc.Ensure(m.at, node, signer(0));
      case Rotate(node) => var _ := svc.Rotate(m.at, node, signer(0));
      case Renew(node, force) => var _ := svc.Renew(m.at, node, force, signer(0));
      case Revocation(node, id, serial) =>
        var _ := svc.RevokeCertificate(node, id, serial);
      case Tick =>
        ghost var due := |DueRows(svc.certs, m.at + svc.renewBefore)|;
        var listed, renewed := svc.Sweep(m.at, 100, signer);
        tally := Tally(due, listed, renewed);
    }
  }
}
