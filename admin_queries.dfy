/** The administrator's query layer over the database tables: paging the user
    list, reviewing applications and registrations, deleting a user's data,
    the pending-item notifications and the two CSV exports. */
module AdminQueries {
  import opened Wrappers
  import opened Strings
  import opened Lists
  import opened Sorting
  import opened Csv
  import opened AdminDashboard

  // ---------------------------------------------------------------------------
  // Paging
  // ---------------------------------------------------------------------------

  /** The rows a query asks for: all of them, the first `n`, or the inclusive
      index range `from..to`. */
  datatype Window = Everything | FirstN(n: nat) | Between(from: nat, to: int)

  /** `if (limit) { limit(limit); if (offset) range(offset, offset + limit - 1) }`;
      a limit or offset of 0 is falsy. */
  function RequestedWindow(limit: Option<nat>, offset: Option<nat>): (w: Window)
    ensures w.Everything? <==> limit.None? || limit.value == 0
    ensures w.FirstN? ==> w.n == limit.value && (offset.None? || offset.value == 0)
    ensures w.Between? ==> limit.Some? && offset.Some? && w.from == offset.value > 0 && w.to - w.from + 1 == limit.value
  {
    if limit.None? || limit.value == 0 then Everything
    else if offset.None? || offset.value == 0 then FirstN(limit.value)
    else Between(offset.value, offset.value + limit.value - 1)
  }

  /** The rows a window selects from the ordered result. */
  function Page<T>(rows: seq<T>, w: Window): (r: seq<T>)
    ensures w.Everything? ==> r == rows
    ensures w.FirstN? ==> |r| == MinNat(w.n, |rows|) && r == rows[..|r|]
    ensures w.Between? ==>
              |r| == if w.from >= |rows| || w.to < w.from then 0 else MinNat(w.to + 1 - w.from, |rows| - w.from)
    ensures w.Between? && w.from <= |rows| ==> r == rows[w.from..w.from + |r|]
  {
    match w
    case Everything => rows
    case FirstN(n) => Take(rows, n)
    case Between(from, to) =>
      var hi := if to + 1 < |rows| then to + 1 else |rows|;
      if from >= hi then [] else rows[from..hi]
  }

  function MinNat(a: nat, b: nat): nat { if a < b then a else b }

  /** The offset a request starts at: its truthy offset when it has a limit, else 0. */
  function StartOf(limit: Option<nat>, offset: Option<nat>): nat {
    if limit.Some? && limit.value > 0 && offset.Some? then offset.value else 0
  }

  /** A limited request returns at most `limit` consecutive rows from its
      offset on, and all of them when fewer remain; an unlimited one returns
      every row. */
  lemma PageRows<T>(rows: seq<T>, limit: Option<nat>, offset: Option<nat>)
    ensures var page := Page(rows, RequestedWindow(limit, offset));
            var start := StartOf(limit, offset);
            && (limit.None? || limit.value == 0 ==> page == rows)
            && (limit.Some? && limit.value > 0 ==>
                  |page| <= limit.value
                  && (start <= |rows| ==> page == rows[start..start + |page|])
                  && (start + limit.value <= |rows| ==> |page| == limit.value)
                  && (start <= |rows| <= start + limit.value ==> |page| == |rows| - start))
  {
  }

  /** Two requests whose offsets are one limit apart return adjacent pages. */
  lemma PagesAdjacent<T>(rows: seq<T>, limit: nat, offset: nat)
    requires limit > 0 && offset > 0 && offset + limit <= |rows|
    ensures Page(rows, RequestedWindow(Some(limit), Some(offset))) +
            Page(rows, RequestedWindow(Some(limit), Some(offset + limit))) ==
            rows[offset..if offset + 2 * limit < |rows| then offset + 2 * limit else |rows|]
  {
  }

  // ---------------------------------------------------------------------------
  // Tables
  // ---------------------------------------------------------------------------

  datatype ApplicationRow = ApplicationRow(
    id: string, programId: string, applicantId: string, status: string,
    reviewedAt: Option<string>, reviewedBy: Option<string>, notes: Option<string>)

  datatype EnrollmentRow = EnrollmentRow(programId: string, participantId: string, applicationId: string)

  datatype RegistrationRow = RegistrationRow(
    id: string, status: string, reviewedAt: Option<string>, reviewedBy: Option<string>, reviewNotes: Option<string>)

  datatype RoleRow = RoleRow(userId: string, role: string)

  datatype BusinessRow = BusinessRow(id: string, ownerId: string)

  datatype ProfileRow = ProfileRow(id: string, fullName: string)

  datatype Tables = Tables(
    applications: seq<ApplicationRow>, enrollments: seq<EnrollmentRow>,
    registrations: seq<RegistrationRow>, userRoles: seq<RoleRow>,
    businesses: seq<BusinessRow>, profiles: seq<ProfileRow>)

  /** The tables after a query and what the query returned or threw. */
  datatype Outcome<T> = Outcome(tables: Tables, result: Result<T, string>)

  /** The first index holding `id`, as `maybeSingle()` returns the one row a
      primary key can match. */
  function FindId<T>(rows: seq<T>, idOf: T -> string, id: string): (r: Option<nat>)
    ensures r.Some? ==> r.value < |rows| && idOf(rows[r.value]) == id
    ensures r.None? ==> forall i | 0 <= i < |rows| :: idOf(rows[i]) != id
  {
    if rows == [] then None
    else if idOf(rows[0]) == id then Some(0)
    else match FindId(rows[1..], idOf, id)
      case None => None
      case Some(i) => Some(i + 1)
  }

  function ApplicationId(a: ApplicationRow): string { a.id }
  function RegistrationId(r: RegistrationRow): string { r.id }

  /** The update object: status, review time and reviewer always; `notes`
      only when given, since `JSON.stringify` drops an undefined property. */
  function ReviewApplication(a: ApplicationRow, status: string, reviewerId: string,
                             notes: Option<string>, now: string): ApplicationRow {
    a.(status := status, reviewedAt := Some(now), reviewedBy := Some(reviewerId),
       notes := if notes.Some? then notes else a.notes)
  }

  /** `update(...).eq('id', id)` on `program_applications`. */
  function ReviewApplications(rows: seq<ApplicationRow>, id: string, status: string, reviewerId: string,
                              notes: Option<string>, now: string): (r: seq<ApplicationRow>)
    ensures |r| == |rows|
    ensures forall i | 0 <= i < |rows| ::
              r[i] == if rows[i].id == id then ReviewApplication(rows[i], status, reviewerId, notes, now) else rows[i]
  {
    seq(|rows|, i requires 0 <= i < |rows| =>
      if rows[i].id == id then ReviewApplication(rows[i], status, reviewerId, notes, now) else rows[i])
  }

  /** `updateApplicationStatus`; `enrollmentError` is what the enrollment
      insert reports, if anything. */
  function UpdateApplicationStatus(t: Tables, applicationId: string, status: string, reviewerId: string,
                                   notes: Option<string>, now: string,
                                   enrollmentError: Option<string>): (o: Outcome<ApplicationRow>)
    ensures o.result.Ok? ==> o.result.value.id == applicationId && o.result.value.status == status
                             && o.result.value.reviewedBy == Some(reviewerId) && o.result.value.reviewedAt == Some(now)
    ensures (forall i | 0 <= i < |t.applications| :: t.applications[i].id != applicationId) ==>
              o.result == Err("Application not found")
    ensures o.tables.enrollments == t.enrollments
            || (status == "approved" && o.result.Ok?
                && o.tables.enrollments == t.enrollments
                     + [EnrollmentRow(o.result.value.programId, o.result.value.applicantId, applicationId)])
    ensures o.tables == t.(applications := o.tables.applications, enrollments := o.tables.enrollments)
  {
    var apps := ReviewApplications(t.applications, applicationId, status, reviewerId, notes, now);
    var t1 := t.(applications := apps);
    match FindId(apps, ApplicationId, applicationId)
    case None => Outcome(t1, Err("Application not found"))
    case Some(i) =>
      var row := apps[i];
      if status != "approved" then Outcome(t1, Ok(row))
      else if enrollmentError.Some? then Outcome(t1, Err(enrollmentError.value))
      else Outcome(t1.(enrollments := t.enrollments + [EnrollmentRow(row.programId, row.applicantId, applicationId)]),
                   Ok(row))
  }

  /** The review touches the matching application and no other row or table. */
  lemma ApplicationUpdateScope(t: Tables, applicationId: string, status: string, reviewerId: string,
                               notes: Option<string>, now: string, enrollmentError: Option<string>)
    ensures var o := UpdateApplicationStatus(t, applicationId, status, reviewerId, notes, now, enrollmentError);
            && |o.tables.applications| == |t.applications|
            && (forall i | 0 <= i < |t.applications| && t.applications[i].id != applicationId ::
                  o.tables.applications[i] == t.applications[i])
            && (forall i | 0 <= i < |t.applications| && t.applications[i].id == applicationId ::
                  o.tables.applications[i].status == status
                  && o.tables.applications[i].reviewedBy == Some(reviewerId)
                  && o.tables.applications[i].programId == t.applications[i].programId)
            && o.tables.registrations == t.registrations && o.tables.userRoles == t.userRoles
            && o.tables.businesses == t.businesses && o.tables.profiles == t.profiles
  {
  }

  /** Without a matching row the call fails with `Application not found`,
      creates no enrollment and changes nothing. */
  lemma ApplicationNotFound(t: Tables, applicationId: string, status: string, reviewerId: string,
                            notes: Option<string>, now: string, enrollmentError: Option<string>)
    requires forall i | 0 <= i < |t.applications| :: t.applications[i].id != applicationId
    ensures UpdateApplicationStatus(t, applicationId, status, reviewerId, notes, now, enrollmentError) ==
              Outcome(t, Err("Application not found"))
  {
    var apps := ReviewApplications(t.applications, applicationId, status, reviewerId, notes, now);
    assert apps == t.applications;
  }

  /** Approval inserts exactly one enrollment for the application's program and
      applicant; any other status inserts none. */
  lemma ApprovalEnrolls(t: Tables, i: nat, status: string, reviewerId: string,
                        notes: Option<string>, now: string, enrollmentError: Option<string>)
    requires i < |t.applications|
    requires forall j | 0 <= j < i :: t.applications[j].id != t.applications[i].id
    ensures var a := t.applications[i];
            var o := UpdateApplicationStatus(t, a.id, status, reviewerId, notes, now, enrollmentError);
            && (status == "approved" && enrollmentError.None? ==>
                  o.tables.enrollments == t.enrollments + [EnrollmentRow(a.programId, a.applicantId, a.id)]
                  && o.result == Ok(ReviewApplication(a, status, reviewerId, notes, now)))
            && (status != "approved" ==>
                  o.tables.enrollments == t.enrollments
                  && o.result == Ok(ReviewApplication(a, status, reviewerId, notes, now)))
            && (status == "approved" && enrollmentError.Some? ==>
                  o.tables.enrollments == t.enrollments && o.result == Err(enrollmentError.value))
  {
    var a := t.applications[i];
    var apps := ReviewApplications(t.applications, a.id, status, reviewerId, notes, now);
    FindFirst(apps, ApplicationId, a.id, i);
  }

  /** `FindId` returns the first index holding the id. */
  lemma {:induction false} FindFirst<T>(rows: seq<T>, idOf: T -> string, id: string, i: nat)
    requires i < |rows| && idOf(rows[i]) == id
    requires forall j | 0 <= j < i :: idOf(rows[j]) != id
    ensures FindId(rows, idOf, id) == Some(i)
  {
    if i > 0 {
      FindFirst(rows[1..], idOf, id, i - 1);
    }
  }

  function ReviewRegistration(r: RegistrationRow, status: string, reviewerId: string,
                              notes: Option<string>, now: string): RegistrationRow {
    r.(status := status, reviewedAt := Some(now), reviewedBy := Some(reviewerId),
       reviewNotes := if notes.Some? then notes else r.reviewNotes)
  }

  function ReviewRegistrations(rows: seq<RegistrationRow>, id: string, status: string, reviewerId: string,
                               notes: Option<string>, now: string): (r: seq<RegistrationRow>)
    ensures |r| == |rows|
    ensures forall i | 0 <= i < |rows| ::
              r[i] == if rows[i].id == id then ReviewRegistration(rows[i], status, reviewerId, notes, now) else rows[i]
  {
    seq(|rows|, i requires 0 <= i < |rows| =>
      if rows[i].id == id then ReviewRegistration(rows[i], status, reviewerId, notes, now) else rows[i])
  }

  /** `updateBusinessRegistrationStatus`: approval has no further effect. */
  function UpdateBusinessRegistrationStatus(t: Tables, registrationId: string, status: string,
                                            reviewerId: string, notes: Option<string>, now: string): (o: Outcome<RegistrationRow>)
    ensures o.result.Ok? ==> o.result.value.id == registrationId && o.result.value.status == status
                             && o.result.value.reviewedBy == Some(reviewerId) && o.result.value.reviewedAt == Some(now)
    ensures o.result.Err? <==> forall i | 0 <= i < |t.registrations| :: t.registrations[i].id != registrationId
    ensures o.tables == t.(registrations := o.tables.registrations)
  {
    var regs := ReviewRegistrations(t.registrations, registrationId, status, reviewerId, notes, now);
    match FindId(regs, RegistrationId, registrationId)
    case None => Outcome(t.(registrations := regs), Err("Registration not found"))
    case Some(i) => Outcome(t.(registrations := regs), Ok(regs[i]))
  }

  /** Whatever the status, approval included, only the matching registration
      changes; a missing one fails with `Registration not found`. */
  lemma RegistrationUpdateScope(t: Tables, registrationId: string, status: string,
                                reviewerId: string, notes: Option<string>, now: string)
    ensures var o := UpdateBusinessRegistrationStatus(t, registrationId, status, reviewerId, notes, now);
            && o.tables.applications == t.applications && o.tables.enrollments == t.enrollments
            && o.tables.userRoles == t.userRoles && o.tables.businesses == t.businesses
            && o.tables.profiles == t.profiles
            && |o.tables.registrations| == |t.registrations|
            && (forall i | 0 <= i < |t.registrations| ::
                  o.tables.registrations[i] ==
                    if t.registrations[i].id == registrationId
                    then ReviewRegistration(t.registrations[i], status, reviewerId, notes, now)
                    else t.registrations[i])
            && ((forall i | 0 <= i < |t.registrations| :: t.registrations[i].id != registrationId) ==>
                  o.result == Err("Registration not found"))
            && (o.result.Ok? ==> o.result.value.id == registrationId && o.result.value.status == status)
  {
  }

  // ---------------------------------------------------------------------------
  // Deleting a user's data
  // ---------------------------------------------------------------------------

  function RoleNotOf(userId: string): RoleRow -> bool { (r: RoleRow) => r.userId != userId }
  function BusinessNotOf(userId: string): BusinessRow -> bool { (b: BusinessRow) => b.ownerId != userId }
  function ProfileNotOf(userId: string): ProfileRow -> bool { (p: ProfileRow) => p.id != userId }

  /** What each of the three deletes reports, if anything. */
  datatype DeleteErrors = DeleteErrors(roles: Option<string>, businesses: Option<string>, profile: Option<string>)

  /** `deleteUserData`: roles, then businesses, then the profile; the first
      delete that fails throws and the later ones never run. */
  function DeleteUserData(t: Tables, userId: string, errors: DeleteErrors): (o: Outcome<bool>)
    ensures o.result.Ok? <==> errors == DeleteErrors(None, None, None)
    ensures o.result.Ok? ==> o.result.value
    ensures o.tables.applications == t.applications && o.tables.enrollments == t.enrollments
            && o.tables.registrations == t.registrations
    ensures forall x | x in o.tables.userRoles :: x in t.userRoles
    ensures forall x | x in o.tables.businesses :: x in t.businesses
    ensures forall x | x in o.tables.profiles :: x in t.profiles
    ensures o.result.Ok? ==>
              && (forall x | x in o.tables.userRoles :: x.userId != userId)
              && (forall x | x in o.tables.businesses :: x.ownerId != userId)
              && (forall x | x in o.tables.profiles :: x.id != userId)
  {
    FilterAllPass(t.userRoles, RoleNotOf(userId));
    FilterAllPass(t.businesses, BusinessNotOf(userId));
    FilterAllPass(t.profiles, ProfileNotOf(userId));
    if errors.roles.Some? then Outcome(t, Err(errors.roles.value))
    else
      var t1 := t.(userRoles := Filter(t.userRoles, RoleNotOf(userId)));
      if errors.businesses.Some? then Outcome(t1, Err(errors.businesses.value))
      else
        var t2 := t1.(businesses := Filter(t.businesses, BusinessNotOf(userId)));
        if errors.profile.Some? then Outcome(t2, Err(errors.profile.value))
        else Outcome(t2.(profiles := Filter(t.profiles, ProfileNotOf(userId))), Ok(true))
  }

  /** When every delete succeeds nothing of the user is left and everything
      of everybody else is kept. */
  lemma DeleteUserDataRemovesAll(t: Tables, userId: string, r: RoleRow, b: BusinessRow, p: ProfileRow)
    ensures var o := DeleteUserData(t, userId, DeleteErrors(None, None, None));
            && o.result == Ok(true)
            && (r in o.tables.userRoles <==> r in t.userRoles && r.userId != userId)
            && (b in o.tables.businesses <==> b in t.businesses && b.ownerId != userId)
            && (p in o.tables.profiles <==> p in t.profiles && p.id != userId)
            && o.tables.applications == t.applications && o.tables.enrollments == t.enrollments
            && o.tables.registrations == t.registrations
  {
    FilterMember(t.userRoles, RoleNotOf(userId), r);
    FilterMember(t.businesses, BusinessNotOf(userId), b);
    FilterMember(t.profiles, ProfileNotOf(userId), p);
  }

  /** A failure aborts the later deletes and undoes none of the earlier ones. */
  lemma DeleteUserDataOrder(t: Tables, userId: string, errors: DeleteErrors)
    ensures var o := DeleteUserData(t, userId, errors);
            && (errors.roles.Some? ==> o == Outcome(t, Err(errors.roles.value)))
            && (errors.roles.None? ==> o.tables.userRoles == Filter(t.userRoles, RoleNotOf(userId)))
            && (errors.roles.None? && errors.businesses.Some? ==>
                  o.result == Err(errors.businesses.value)
                  && o.tables.businesses == t.businesses && o.tables.profiles == t.profiles)
            && (errors.roles.None? && errors.businesses.None? ==>
                  o.tables.businesses == Filter(t.businesses, BusinessNotOf(userId)))
            && (errors.roles.None? && errors.businesses.None? && errors.profile.Some? ==>
                  o.result == Err(errors.profile.value) && o.tables.profiles == t.profiles)
  {
  }

  // ---------------------------------------------------------------------------
  // Notifications
  // ---------------------------------------------------------------------------

  datatype AdminNotification = AdminNotification(
    id: string, source: Source, title: string, message: string, timestamp: int, priority: string, read: bool)

  function RegistrationAlert(r: PendingRegistration): AdminNotification {
    AdminNotification("reg-" + r.id, FromRegistration, "Business registration pending review",
                      r.businessName + " is waiting for approval", r.createdAt, "medium", false)
  }

  function ApplicationAlert(a: PendingApplication): AdminNotification {
    AdminNotification("app-" + a.id, FromApplication, "Program application pending review",
                      Shown(a.applicantName) + " applied to " + Shown(a.programName), a.submittedAt, "high", false)
  }

  function AlertTime(n: AdminNotification): int { n.timestamp }

  /** `getAdminNotifications`: both pending lists, newest first. */
  function AdminNotifications(regs: seq<PendingRegistration>, apps: seq<PendingApplication>): (r: seq<AdminNotification>)
    ensures SortedDesc(r, AlertTime)
    ensures multiset(r) == multiset(MapSeq(regs, RegistrationAlert)) + multiset(MapSeq(apps, ApplicationAlert))
  {
    SortDesc(MapSeq(regs, RegistrationAlert) + MapSeq(apps, ApplicationAlert), AlertTime)
  }

  /** The dashboard's notification marked unread. */
  function Unread(n: Notification): AdminNotification {
    AdminNotification(n.id, n.source, n.title, n.message, n.timestamp, n.priority, false)
  }

  /** The query layer's list is the dashboard's list, entry for entry, with
      every entry unread; it holds every pending item, newest first. */
  lemma AdminNotificationsAreDashboards(regs: seq<PendingRegistration>, apps: seq<PendingApplication>)
    ensures AdminNotifications(regs, apps) == MapSeq(Notifications(regs, apps), Unread)
    ensures forall n | n in AdminNotifications(regs, apps) :: !n.read
    ensures SortedDesc(AdminNotifications(regs, apps), AlertTime)
    ensures |AdminNotifications(regs, apps)| == |regs| + |apps|
  {
    var feed := NoticeFeed(regs, apps);
    assert MapSeq(regs, RegistrationAlert) + MapSeq(apps, ApplicationAlert) == MapSeq(feed, Unread);
    SortMap(feed, NoticeTime, Unread, AlertTime);
    NotificationsShape(regs, apps);
  }

  // ---------------------------------------------------------------------------
  // CSV exports
  // ---------------------------------------------------------------------------

  /** `value || ''`. */
  function OrEmpty(o: Option<string>): string { o.GetOr("") }

  datatype BusinessSummary = BusinessSummary(businessName: Option<string>, category: Option<string>, location: Option<string>)

  /** A user with the joined rows the export reads; `joined` is the
      locale-formatted creation date. */
  datatype UserDetail = UserDetail(
    fullName: string, email: Option<string>, mobile: Option<string>,
    businesses: seq<BusinessSummary>, roles: Option<seq<string>>, joined: string)

  const UserHeader := ["Name", "Email", "Mobile", "Business", "Category", "Location", "Roles", "Joined", "Status"]

  /** The first business's field, or empty. */
  function FirstBusiness(u: UserDetail, field: BusinessSummary -> Option<string>): string {
    if u.businesses == [] then "" else OrEmpty(field(u.businesses[0]))
  }

  function BusinessNameOf(b: BusinessSummary): Option<string> { b.businessName }
  function CategoryOf(b: BusinessSummary): Option<string> { b.category }
  function LocationOf(b: BusinessSummary): Option<string> { b.location }

  function UserCsvRow(u: UserDetail): (row: seq<string>)
    ensures |row| == |UserHeader| && row[8] == "Active"
    ensures row[6] == Join(", ", u.roles.GetOr([])) && row[7] == u.joined
  {
    [u.fullName, OrEmpty(u.email), OrEmpty(u.mobile),
     FirstBusiness(u, BusinessNameOf), FirstBusiness(u, CategoryOf), FirstBusiness(u, LocationOf),
     Join(", ", u.roles.GetOr([])), u.joined, "Active"]
  }

  /** `exportUsersToCSV`: the header, then one row per user. */
  function ExportUsersCsv(users: seq<UserDetail>): (r: string)
    ensures Parse(r)[0] == UserHeader
  {
    DocumentFirstRow([UserHeader] + MapSeq(users, UserCsvRow));
    Document([UserHeader] + MapSeq(users, UserCsvRow))
  }

  /** A user with two roles has a comma inside the Roles field, so when the
      other fields are plain the line reads back as ten cells: the roles take
      two, and Joined and Status each move one column right. */
  lemma TwoRolesShiftColumns(u: UserDetail)
    requires u.roles == Some(["admin", "participant"])
    requires forall k | 0 <= k < |UserHeader| && k != 6 :: ',' !in UserCsvRow(u)[k]
    ensures ',' in UserCsvRow(u)[6]
    ensures var cells := Split(Line(UserCsvRow(u)), ',');
      |cells| == 10 && cells[6] == "admin" && cells[7] == " participant"
      && cells[8] == u.joined && cells[9] == "Active"
  {
    var row := UserCsvRow(u);
    assert row[6] == "admin" + "," + " participant" by {
      assert Join(", ", ["admin", "participant"]) == "admin" + ", " + "participant";
    }
    assert ("admin" + "," + " participant")[5] == ',';
    SplitCommaCell(row, 6, "admin", " participant");
  }

  /** The joined program rows carry ids only, as the `!inner(id)` selections
      return them; the counts are the separate exact counts. */
  datatype ProgramWithStats = ProgramWithStats(
    name: string, description: Option<string>, status: string,
    applicationRefs: seq<string>, enrollmentRefs: seq<string>,
    applicationsCount: nat, enrollmentsCount: nat,
    startDate: Option<string>, endDate: Option<string>, created: string)

  const ProgramHeader := ["Name", "Description", "Status", "Applications", "Enrollments", "Start Date", "End Date", "Created"]

  /** `program_applications?.[0]?.count || 0` as written: the joined rows have no
      `count` property, so the column is always 0. */
  function ProgramCsvRowAsWritten(p: ProgramWithStats): (row: seq<string>)
    ensures |row| == |ProgramHeader|
  {
    [p.name, OrEmpty(p.description), p.status, NatToString(0), NatToString(0),
     OrEmpty(p.startDate), OrEmpty(p.endDate), p.created]
  }

  /** As written, a program with three applications exports 0 applications. */
  lemma ProgramCountsLost(p: ProgramWithStats)
    requires p.applicationsCount == 3
    ensures ProgramCsvRowAsWritten(p)[3] == "0"
    ensures ProgramCsvRowAsWritten(p)[3] != NatToString(p.applicationsCount)
  {
  }

  /** The row with the counts `getProgramsWithStats` computed. */
  function ProgramCsvRow(p: ProgramWithStats): (row: seq<string>)
    ensures |row| == |ProgramHeader|
  {
    [p.name, OrEmpty(p.description), p.status, NatToString(p.applicationsCount), NatToString(p.enrollmentsCount),
     OrEmpty(p.startDate), OrEmpty(p.endDate), p.created]
  }

  /** The corrected columns read back as the program's counts. */
  lemma ProgramCountsKept(p: ProgramWithStats)
    ensures JsParseInt(ProgramCsvRow(p)[3]) == Some(p.applicationsCount as int)
    ensures JsParseInt(ProgramCsvRow(p)[4]) == Some(p.enrollmentsCount as int)
    ensures PlainField(ProgramCsvRow(p)[3]) && PlainField(ProgramCsvRow(p)[4])
  {
    ParseIntOfNatToString(p.applicationsCount);
    ParseIntOfNatToString(p.enrollmentsCount);
    NumberPlain(p.applicationsCount);
    NumberPlain(p.enrollmentsCount);
  }

  /** `exportProgramsToCSV` as written: the header, then one row per program
      with both count columns at 0. */
  function ExportProgramsCsv(programs: seq<ProgramWithStats>): (r: string)
    ensures Parse(r)[0] == ProgramHeader
  {
    DocumentFirstRow([ProgramHeader] + MapSeq(programs, ProgramCsvRowAsWritten));
    Document([ProgramHeader] + MapSeq(programs, ProgramCsvRowAsWritten))
  }

  /** The export with the computed counts. */
  function ExportProgramsCsvIntended(programs: seq<ProgramWithStats>): (r: string)
    ensures Parse(r)[0] == ProgramHeader
  {
    DocumentFirstRow([ProgramHeader] + MapSeq(programs, ProgramCsvRow));
    Document([ProgramHeader] + MapSeq(programs, ProgramCsvRow))
  }

  /** Every line of the exports has the header's width; as written, every
      program line has 0 in both count columns, while the intended lines carry
      the counts. */
  lemma ExportWidths(users: seq<UserDetail>, programs: seq<ProgramWithStats>)
    ensures var rows := [UserHeader] + MapSeq(users, UserCsvRow);
            forall i | 0 <= i < |rows| :: |rows[i]| == 9 && (i > 0 ==> rows[i][8] == "Active")
    ensures var rows := [ProgramHeader] + MapSeq(programs, ProgramCsvRowAsWritten);
            forall i | 0 <= i < |rows| :: |rows[i]| == 8 && (i > 0 ==> rows[i][3] == "0" && rows[i][4] == "0")
    ensures var rows := [ProgramHeader] + MapSeq(programs, ProgramCsvRow);
            forall i | 0 <= i < |rows| :: |rows[i]| == 8
              && (i > 0 ==> rows[i][3] == NatToString(programs[i - 1].applicationsCount)
                            && rows[i][4] == NatToString(programs[i - 1].enrollmentsCount))
  {
    var rows := [UserHeader] + MapSeq(users, UserCsvRow);
    forall i | 0 <= i < |rows|
      ensures |rows[i]| == 9 && (i > 0 ==> rows[i][8] == "Active")
    {
      if i > 0 {
        assert rows[i] == UserCsvRow(users[i - 1]);
      }
    }
    var wrows := [ProgramHeader] + MapSeq(programs, ProgramCsvRowAsWritten);
    forall i | 0 <= i < |wrows| ensures |wrows[i]| == 8 && (i > 0 ==> wrows[i][3] == "0" && wrows[i][4] == "0") {
      if i > 0 {
        assert wrows[i] == ProgramCsvRowAsWritten(programs[i - 1]);
      }
    }
    var prows := [ProgramHeader] + MapSeq(programs, ProgramCsvRow);
    forall i | 0 <= i < |prows|
      ensures |prows[i]| == 8
      ensures i > 0 ==> prows[i][3] == NatToString(programs[i - 1].applicationsCount)
                        && prows[i][4] == NatToString(programs[i - 1].enrollmentsCount)
    {
      if i > 0 {
        assert prows[i] == ProgramCsvRow(programs[i - 1]);
      }
    }
  }

  // ---------------------------------------------------------------------------
  // The database as one store
  // ---------------------------------------------------------------------------

  class Backend {
    var tables: Tables

    constructor (initial: Tables)
      ensures tables == initial
    {
      tables := initial;
    }

    method UpdateApplication(applicationId: string, status: string, reviewerId: string,
                             notes: Option<string>, now: string, enrollmentError: Option<string>)
      returns (r: Result<ApplicationRow, string>)
      modifies this
      ensures var o := UpdateApplicationStatus(old(tables), applicationId, status, reviewerId, notes, now, enrollmentError);
              tables == o.tables && r == o.result
    {
      var o := UpdateApplicationStatus(tables, applicationId, status, reviewerId, notes, now, enrollmentError);
      tables := o.tables;
      r := o.result;
    }

    method UpdateRegistration(registrationId: string, status: string, reviewerId: string,
                              notes: Option<string>, now: string)
      returns (r: Result<RegistrationRow, string>)
      modifies this
      ensures var o := UpdateBusinessRegistrationStatus(old(tables), registrationId, status, reviewerId, notes, now);
              tables == o.tables && r == o.result
    {
      var o := UpdateBusinessRegistrationStatus(tables, registrationId, status, reviewerId, notes, now);
      tables := o.tables;
      r := o.result;
    }

    /** The three deletes in turn, each skipped once one has failed. */
    method DeleteUser(userId: string, errors: DeleteErrors) returns (r: Result<bool, string>)
      modifies this
      ensures var o := DeleteUserData(old(tables), userId, errors);
              tables == o.tables && r == o.result
    {
      if errors.roles.Some? {
        return Err(errors.roles.value);
      }
      tables := tables.(userRoles := Filter(tables.userRoles, RoleNotOf(userId)));
      if errors.businesses.Some? {
        return Err(errors.businesses.value);
      }
      tables := tables.(businesses := Filter(tables.businesses, BusinessNotOf(userId)));
      if errors.profile.Some? {
        return Err(errors.profile.value);
      }
      tables := tables.(profiles := Filter(tables.profiles, ProfileNotOf(userId)));
      r := Ok(true);
    }
  }
}
