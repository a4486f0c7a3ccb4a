/** The personal dashboard's figures: per-status counts, success rate, pending and bookmark counts. */
module Dashboard {
  import opened Seqs
  import opened UserTypes

  /** `applications.filter(app => app.status === status).length`. */
  function CountStatus(apps: seq<Application>, status: ApplicationStatus): nat {
    |Filter(apps, (a: Application) => a.status == status)|
  }

  /** Every application has exactly one of the four statuses. */
  lemma {:induction false} StatusCountsSum(apps: seq<Application>)
    ensures CountStatus(apps, Applied) + CountStatus(apps, Shortlisted) +
            CountStatus(apps, Accepted) + CountStatus(apps, Rejected) == |apps|
  {
    if apps != [] {
      StatusCountsSum(apps[1..]);
    }
  }

  datatype ApplicationStats = ApplicationStats(total: nat, applied: nat, shortlisted: nat, accepted: nat, rejected: nat)

  /** `applicationStats`: the total and the four status counts, which add up to the total. */
  function Stats(apps: seq<Application>): (s: ApplicationStats)
    ensures s.total == |apps|
    ensures s.applied + s.shortlisted + s.accepted + s.rejected == s.total
    ensures s.applied == CountStatus(apps, Applied) && s.rejected == CountStatus(apps, Rejected)
    ensures s.accepted == CountStatus(apps, Accepted) && s.shortlisted == CountStatus(apps, Shortlisted)
  {
    StatusCountsSum(apps);
    ApplicationStats(|apps|, CountStatus(apps, Applied), CountStatus(apps, Shortlisted),
                     CountStatus(apps, Accepted), CountStatus(apps, Rejected))
  }

  /**
   * `successRate`: the percentage of applications that are accepted or shortlisted, in
   * [0, 100], and 0 (not a division by zero) when there are none.
   */
  function SuccessRate(apps: seq<Application>): (r: real)
    ensures 0.0 <= r <= 100.0
    ensures |apps| == 0 ==> r == 0.0
    ensures |apps| > 0 ==>
      r * (|apps| as real) == 100.0 * ((CountStatus(apps, Accepted) + CountStatus(apps, Shortlisted)) as real)
  {
    var s := Stats(apps);
    if s.total > 0 then
      var good := (s.accepted + s.shortlisted) as real;
      var t := s.total as real;
      PercentageBounds(good, t);
      (good / t) * 100.0
    else 0.0
  }

  lemma PercentageBounds(part: real, whole: real)
    requires 0.0 <= part <= whole && whole > 0.0
    ensures 0.0 <= (part / whole) * 100.0 <= 100.0
    ensures (part / whole) * 100.0 * whole == 100.0 * part
  {
    var q := part / whole;
    assert q * whole == part;
    assert q >= 0.0;
  }

  /** Counting over a sequence that starts with `a`. */
  lemma {:induction false} CountStatusCons(a: Application, rest: seq<Application>, s: ApplicationStatus)
    ensures CountStatus([a] + rest, s) == (if a.status == s then 1 else 0) + CountStatus(rest, s)
  {
    assert ([a] + rest)[1..] == rest;
  }

  /** No applications: every figure is 0 and there is no division by zero. */
  lemma EmptyStats()
    ensures Stats([]) == ApplicationStats(0, 0, 0, 0, 0)
    ensures SuccessRate([]) == 0.0
  {
  }

  /** Three accepted and one rejected application make a 75% success rate. */
  lemma SuccessRateExample(a: Application)
    ensures SuccessRate([a.(status := Accepted), a.(status := Accepted), a.(status := Accepted),
                         a.(status := Rejected)]) == 75.0
  {
    var acc, rej := a.(status := Accepted), a.(status := Rejected);
    var apps := [acc, acc, acc, rej];
    forall s: ApplicationStatus
      ensures CountStatus(apps, s) == 3 * (if s == Accepted then 1 else 0) + (if s == Rejected then 1 else 0)
    {
      CountStatusCons(rej, [], s);
      assert [rej] + [] == [rej];
      CountStatusCons(acc, [rej], s);
      CountStatusCons(acc, [acc, rej], s);
      CountStatusCons(acc, [acc, acc, rej], s);
      assert [acc] + [rej] == [acc, rej];
      assert [acc] + [acc, rej] == [acc, acc, rej];
      assert [acc] + [acc, acc, rej] == apps;
    }
    assert (3.0 / 4.0) * 100.0 == 75.0;
  }

  /** The four summary cards. */
  datatype Overview = Overview(totalApplications: nat, bookmarked: nat, successRate: real, pending: nat)

  /** Pending is the number of applications still at `applied`; Bookmarked is the bookmark list's length. */
  function DashboardOverview(apps: seq<Application>, bookmarks: seq<Bookmark>): (o: Overview)
    ensures o.totalApplications == |apps| && o.bookmarked == |bookmarks|
    ensures o.pending == CountStatus(apps, Applied) && o.pending <= o.totalApplications
    ensures o.successRate == SuccessRate(apps) && 0.0 <= o.successRate <= 100.0
  {
    var s := Stats(apps);
    Overview(s.total, |bookmarks|, SuccessRate(apps), s.applied)
  }

  /** `getStatusColor`: a colour per status, grey for anything else. */
  function StatusColor(status: string): (c: string)
    ensures c == "bg-gray-100 text-gray-800" <==> status !in {"applied", "shortlisted", "accepted", "rejected"}
  {
    match status
    case "applied" => "bg-blue-100 text-blue-800"
    case "shortlisted" => "bg-yellow-100 text-yellow-800"
    case "accepted" => "bg-green-100 text-green-800"
    case "rejected" => "bg-red-100 text-red-800"
    case _ => "bg-gray-100 text-gray-800"
  }

  /** No status an application can have is shown in grey. */
  lemma KnownStatusesAreColoured(s: ApplicationStatus)
    ensures StatusColor(s.Name()) != "bg-gray-100 text-gray-800"
  {
  }
}
