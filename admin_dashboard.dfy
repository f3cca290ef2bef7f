/** The administrator's overview: headline counts, user growth over the last
    30 days against the 30 before, the ten most recent registrations and
    applications, and the pending items that need attention. */
module AdminDashboard {
  import opened Wrappers
  import opened Lists
  import opened Sorting
  import opened AdminHelpers

  /** Milliseconds in a day. */
  const DayMs := 86_400_000

  // ---------------------------------------------------------------------------
  // Statistics
  // ---------------------------------------------------------------------------

  /** A `profiles` row: its id and the instant it was created. */
  datatype UserRow = UserRow(id: string, createdAt: int)

  /** A `programs` or `business_registrations` row. */
  datatype StatusRow = StatusRow(id: string, status: string, createdAt: int)

  datatype DashboardStats = DashboardStats(
    totalUsers: nat, activePrograms: nat, pendingRegistrations: nat,
    userGrowth: real, programGrowth: real, registrationGrowth: real)

  const InitialStats := DashboardStats(0, 0, 0, 0.0, 0.0, 0.0)

  function HasStatus(status: string): StatusRow -> bool {
    (r: StatusRow) => r.status == status
  }

  /** `data?.filter(r => r.status === status).length || 0`. */
  function CountWithStatus(rows: Option<seq<StatusRow>>, status: string): (n: nat)
    ensures rows.None? ==> n == 0
    ensures rows.Some? ==> n <= |rows.value|
    ensures rows.Some? ==> n == multiset(StatusesOf(rows.value))[status]
  {
    CountIsMultiplicity(rows.GetOr([]), status);
    Count(rows.GetOr([]), HasStatus(status))
  }

  /** The statuses of the rows, in order. */
  function StatusesOf(rows: seq<StatusRow>): (r: seq<string>)
    ensures |r| == |rows| && forall i :: 0 <= i < |rows| ==> r[i] == rows[i].status
  {
    seq(|rows|, i requires 0 <= i < |rows| => rows[i].status)
  }

  /** Counting the rows with a status is counting how often the status occurs
      among the rows' statuses. */
  lemma {:induction false} CountIsMultiplicity(rows: seq<StatusRow>, status: string)
    ensures Count(rows, HasStatus(status)) == multiset(StatusesOf(rows))[status]
  {
    if rows != [] {
      CountIsMultiplicity(rows[1..], status);
      assert StatusesOf(rows) == [rows[0].status] + StatusesOf(rows[1..]);
      assert multiset(StatusesOf(rows)) == multiset([rows[0].status]) + multiset(StatusesOf(rows[1..]));
    }
  }

  /** Created strictly after the instant thirty days before `now`. */
  function InRecentWindow(now: int): UserRow -> bool {
    (u: UserRow) => u.createdAt > now - 30 * DayMs
  }

  /** Created after sixty days before `now` and at or before thirty days before. */
  function InPreviousWindow(now: int): UserRow -> bool {
    (u: UserRow) => now - 60 * DayMs < u.createdAt <= now - 30 * DayMs
  }

  /** No user falls in both windows, so the two counts together never exceed
      the number of users. */
  lemma WindowsDisjoint(users: seq<UserRow>, now: int)
    ensures forall u :: !(InRecentWindow(now)(u) && InPreviousWindow(now)(u))
    ensures Count(users, InRecentWindow(now)) + Count(users, InPreviousWindow(now)) <= |users|
  {
    CountDisjoint(users, InRecentWindow(now), InPreviousWindow(now));
  }

  /** `previous > 0 ? (recent - previous) / previous * 100 : 0`, rounded to one
      decimal as `Math.round(g * 10) / 10` does. */
  function UserGrowth(recent: nat, previous: nat): (g: real)
    ensures previous == 0 ==> g == 0.0
  {
    if previous > 0 then
      Round((recent - previous) as real / previous as real * 100.0 * 10.0) as real / 10.0
    else 0.0
  }

  /** With users in the earlier window the overview agrees with the shared
      growth helper; without any it shows 0 where the helper would show 100. */
  lemma UserGrowthAgreesWithHelper(recent: nat, previous: nat)
    ensures previous > 0 ==> UserGrowth(recent, previous) == CalculateGrowthRate(recent, previous)
    ensures previous == 0 && recent > 0 ==> UserGrowth(recent, previous) != CalculateGrowthRate(recent, previous)
  {
  }

  /** The statistics block: program and registration growth are fixed figures. */
  function Stats(users: Option<seq<UserRow>>, programs: Option<seq<StatusRow>>,
                 registrations: Option<seq<StatusRow>>, now: int): (s: DashboardStats)
    ensures s.totalUsers == |users.GetOr([])|
    ensures s.activePrograms == CountWithStatus(programs, "active")
    ensures s.pendingRegistrations == CountWithStatus(registrations, "pending")
    ensures s.programGrowth == 12.5 && s.registrationGrowth == 8.3
    ensures var us := users.GetOr([]);
      s.userGrowth == UserGrowth(Count(us, InRecentWindow(now)), Count(us, InPreviousWindow(now)))
  {
    var us := users.GetOr([]);
    DashboardStats(
      |us|,
      CountWithStatus(programs, "active"),
      CountWithStatus(registrations, "pending"),
      UserGrowth(Count(us, InRecentWindow(now)), Count(us, InPreviousWindow(now))),
      12.5, 8.3)
  }

  /** Growth is 0 whenever nobody joined in the earlier window. */
  lemma StatsGrowthZero(users: Option<seq<UserRow>>, programs: Option<seq<StatusRow>>,
                        registrations: Option<seq<StatusRow>>, now: int)
    requires Count(users.GetOr([]), InPreviousWindow(now)) == 0
    ensures Stats(users, programs, registrations, now).userGrowth == 0.0
  {
  }

  // ---------------------------------------------------------------------------
  // Recent activity and notifications
  // ---------------------------------------------------------------------------

  /** `value ?? 'undefined'` as a template literal prints a missing value. */
  function Shown(o: Option<string>): string {
    o.GetOr("undefined")
  }

  datatype Source = FromRegistration | FromApplication

  datatype RecentRegistration = RecentRegistration(
    id: string, businessName: string, fullName: string, status: string, createdAt: int)

  /** An application row with its joined program and applicant names. */
  datatype RecentApplication = RecentApplication(
    id: string, status: string, submittedAt: int, programName: Option<string>, applicantName: Option<string>)

  datatype Activity = Activity(
    id: string, source: Source, title: string, description: string, timestamp: int, status: string)

  function RegistrationActivity(r: RecentRegistration): Activity {
    Activity("reg-" + r.id, FromRegistration, "New business registration",
             r.businessName + " by " + r.fullName, r.createdAt, r.status)
  }

  function ApplicationActivity(a: RecentApplication): Activity {
    Activity("app-" + a.id, FromApplication, "Program application",
             Shown(a.applicantName) + " applied to " + Shown(a.programName), a.submittedAt, a.status)
  }

  function ActivityTime(a: Activity): int { a.timestamp }

  /** The registrations first, then the applications, before sorting. */
  function ActivityFeed(regs: seq<RecentRegistration>, apps: seq<RecentApplication>): (r: seq<Activity>)
    ensures |r| == |regs| + |apps|
    ensures forall i | 0 <= i < |regs| :: r[i] == RegistrationActivity(regs[i])
    ensures forall i | 0 <= i < |apps| :: r[|regs| + i] == ApplicationActivity(apps[i])
  {
    seq(|regs|, i requires 0 <= i < |regs| => RegistrationActivity(regs[i])) +
    seq(|apps|, i requires 0 <= i < |apps| => ApplicationActivity(apps[i]))
  }

  /** Newest first, at most ten. */
  function RecentActivity(regs: seq<RecentRegistration>, apps: seq<RecentApplication>): (r: seq<Activity>)
    ensures |r| == if |ActivityFeed(regs, apps)| <= 10 then |ActivityFeed(regs, apps)| else 10
    ensures SortedDesc(r, ActivityTime)
    ensures r == SortDesc(ActivityFeed(regs, apps), ActivityTime)[..|r|]
    ensures |ActivityFeed(regs, apps)| <= 10 ==> multiset(r) == multiset(ActivityFeed(regs, apps))
  {
    var all := SortDesc(ActivityFeed(regs, apps), ActivityTime);
    assert |multiset(all)| == |multiset(ActivityFeed(regs, apps))|;
    TakeSorted(all, 10, ActivityTime);
    Take(SortDesc(ActivityFeed(regs, apps), ActivityTime), 10)
  }

  /** Every entry of the feed carries the id prefix of its source. */
  lemma ActivityIds(regs: seq<RecentRegistration>, apps: seq<RecentApplication>)
    ensures forall a | a in ActivityFeed(regs, apps) ::
              (a.source == FromRegistration ==> a.id[..4] == "reg-") &&
              (a.source == FromApplication ==> a.id[..4] == "app-")
  {
    var feed := ActivityFeed(regs, apps);
    forall a | a in feed
      ensures a.source == FromRegistration ==> a.id[..4] == "reg-"
      ensures a.source == FromApplication ==> a.id[..4] == "app-"
    {
      var i :| 0 <= i < |feed| && feed[i] == a;
      if i < |regs| {
        assert a.id == "reg-" + regs[i].id;
      } else {
        assert a.id == "app-" + apps[i - |regs|].id;
      }
    }
  }

  /** The shown activity is the ten newest entries of the feed (all of them
      when there are fewer), newest first, each taken from the feed, and
      nothing left out is newer than anything shown. */
  lemma RecentActivityShape(regs: seq<RecentRegistration>, apps: seq<RecentApplication>)
    ensures var feed := ActivityFeed(regs, apps);
            var all := SortDesc(feed, ActivityTime);
            var shown := RecentActivity(regs, apps);
            && |shown| == (if |feed| <= 10 then |feed| else 10)
            && shown == all[..|shown|]
            && SortedDesc(shown, ActivityTime)
            && (forall a | a in shown :: a in feed)
            && (forall i, j | 0 <= i < |shown| <= j < |all| :: shown[i].timestamp >= all[j].timestamp)
            && (|feed| <= 10 ==> multiset(shown) == multiset(feed))
  {
    var feed := ActivityFeed(regs, apps);
    var all := SortDesc(feed, ActivityTime);
    var shown := Take(all, 10);
    assert |multiset(all)| == |multiset(feed)|;
    TakeSorted(all, 10, ActivityTime);
    forall a | a in shown ensures a in feed {
      assert a in multiset(all);
      assert a in multiset(feed);
    }
    forall i, j | 0 <= i < |shown| <= j < |all| ensures shown[i].timestamp >= all[j].timestamp {
      assert shown[i] == all[i];
      assert ActivityTime(all[i]) >= ActivityTime(all[j]);
    }
  }

  datatype PendingRegistration = PendingRegistration(id: string, businessName: string, createdAt: int)

  datatype PendingApplication = PendingApplication(
    id: string, submittedAt: int, programName: Option<string>, applicantName: Option<string>)

  datatype Notification = Notification(
    id: string, source: Source, title: string, message: string, timestamp: int, priority: string)

  function RegistrationNotice(r: PendingRegistration): Notification {
    Notification("reg-" + r.id, FromRegistration, "Business registration pending review",
                 r.businessName + " is waiting for approval", r.createdAt, "medium")
  }

  function ApplicationNotice(a: PendingApplication): Notification {
    Notification("app-" + a.id, FromApplication, "Program application pending review",
                 Shown(a.applicantName) + " applied to " + Shown(a.programName), a.submittedAt, "high")
  }

  function NoticeTime(n: Notification): int { n.timestamp }

  function NoticeFeed(regs: seq<PendingRegistration>, apps: seq<PendingApplication>): (r: seq<Notification>)
    ensures |r| == |regs| + |apps|
    ensures forall i | 0 <= i < |regs| :: r[i] == RegistrationNotice(regs[i])
    ensures forall i | 0 <= i < |apps| :: r[|regs| + i] == ApplicationNotice(apps[i])
  {
    seq(|regs|, i requires 0 <= i < |regs| => RegistrationNotice(regs[i])) +
    seq(|apps|, i requires 0 <= i < |apps| => ApplicationNotice(apps[i]))
  }

  /** Every pending item, newest first. */
  function Notifications(regs: seq<PendingRegistration>, apps: seq<PendingApplication>): (r: seq<Notification>)
    ensures SortedDesc(r, NoticeTime)
    ensures multiset(r) == multiset(NoticeFeed(regs, apps))
  {
    SortDesc(NoticeFeed(regs, apps), NoticeTime)
  }

  /** All pending items are kept, newest first; registrations are of medium
      priority and applications of high. */
  lemma NotificationsShape(regs: seq<PendingRegistration>, apps: seq<PendingApplication>)
    ensures var ns := Notifications(regs, apps);
            && SortedDesc(ns, NoticeTime)
            && multiset(ns) == multiset(NoticeFeed(regs, apps))
            && |ns| == |regs| + |apps|
            && (forall n | n in ns :: (n.source == FromRegistration <==> n.priority == "medium"))
            && (forall n | n in ns :: (n.source == FromApplication <==> n.priority == "high"))
  {
    var feed := NoticeFeed(regs, apps);
    var ns := Notifications(regs, apps);
    assert |ns| == |multiset(ns)| == |multiset(feed)| == |feed|;
    forall n | n in ns
      ensures n.source == FromRegistration <==> n.priority == "medium"
      ensures n.source == FromApplication <==> n.priority == "high"
    {
      assert n in multiset(ns);
      assert n in multiset(feed);
      var i :| 0 <= i < |feed| && feed[i] == n;
      if i < |regs| {
        assert n == RegistrationNotice(regs[i]);
      } else {
        assert n == ApplicationNotice(apps[i - |regs|]);
      }
    }
  }

  // ---------------------------------------------------------------------------
  // The page
  // ---------------------------------------------------------------------------

  class AdminDashboardPage {
    var dashboardStats: DashboardStats
    var recentActivity: seq<Activity>
    var notifications: seq<Notification>
    var loading: bool

    constructor ()
      ensures dashboardStats == InitialStats && recentActivity == [] && notifications == [] && loading
    {
      dashboardStats := InitialStats;
      recentActivity := [];
      notifications := [];
      loading := true;
    }

    /** `loadDashboardData` with the query results as parameters (`None`: the
        query returned no data) and `now` the moment of loading. */
    method LoadDashboardData(
      users: Option<seq<UserRow>>, programs: Option<seq<StatusRow>>, registrations: Option<seq<StatusRow>>,
      now: int,
      latestRegistrations: Option<seq<RecentRegistration>>, latestApplications: Option<seq<RecentApplication>>,
      pendingRegistrations: Option<seq<PendingRegistration>>, pendingApplications: Option<seq<PendingApplication>>)
      modifies this
      ensures dashboardStats == Stats(users, programs, registrations, now)
      ensures recentActivity == RecentActivity(latestRegistrations.GetOr([]), latestApplications.GetOr([]))
      ensures notifications == Notifications(pendingRegistrations.GetOr([]), pendingApplications.GetOr([]))
      ensures !loading
    {
      loading := true;
      dashboardStats := Stats(users, programs, registrations, now);
      recentActivity := RecentActivity(latestRegistrations.GetOr([]), latestApplications.GetOr([]));
      notifications := Notifications(pendingRegistrations.GetOr([]), pendingApplications.GetOr([]));
      loading := false;
    }
  }
}
