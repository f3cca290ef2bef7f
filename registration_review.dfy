/** The admin screen that lists business registrations: search and status
    filtering, the five status counts, the CSV export and the status buttons of
    the review dialog. Loading and updating rows are calls into the database;
    their outcomes are parameters. */
module RegistrationReview {
  import opened Wrappers
  import opened Strings
  import opened Lists
  import Csv

  /** The five statuses a registration row can have. */
  datatype Status = Pending | UnderReview | Approved | Rejected | RequiresDocuments

  function StatusName(s: Status): string {
    match s
    case Pending => "pending"
    case UnderReview => "under_review"
    case Approved => "approved"
    case Rejected => "rejected"
    case RequiresDocuments => "requires_documents"
  }

  /** The status dropdown: `all` or one status. */
  datatype StatusFilter = AllStatuses | Only(status: Status)

  /** The columns of a registration row that this screen reads. */
  datatype Registration = Registration(
    id: string,
    fullName: string,
    email: string,
    businessName: string,
    businessCategory: string,
    businessLocation: string,
    status: Status,
    submittedAt: string,
    reviewNotes: Option<string>,
    referenceNumber: string)

  /** The search box test: the lower-cased term occurs in the lower-cased
      business name, owner name, email or reference number. */
  predicate SearchHit(r: Registration, term: string) {
    var t := ToLower(term);
    || Contains(ToLower(r.businessName), t)
    || Contains(ToLower(r.fullName), t)
    || Contains(ToLower(r.email), t)
    || Contains(ToLower(r.referenceNumber), t)
  }

  predicate StatusHit(r: Registration, sf: StatusFilter) {
    sf.AllStatuses? || r.status == sf.status
  }

  /** A row is shown when it passes the search (an empty term passes all) and
      the status filter. */
  predicate Kept(r: Registration, term: string, sf: StatusFilter) {
    (term == "" || SearchHit(r, term)) && StatusHit(r, sf)
  }

  /** The list the screen shows, as one filter by both tests. */
  function Shown(regs: seq<Registration>, term: string, sf: StatusFilter): (r: seq<Registration>)
    ensures IsSubsequence(r, regs)
    ensures forall x | x in r :: x in regs && Kept(x, term, sf)
  {
    FilterIsSubsequence(regs, x => Kept(x, term, sf));
    FilterAllPass(regs, x => Kept(x, term, sf));
    Filter(regs, r => Kept(r, term, sf))
  }

  /** A row is shown exactly when it is loaded and passes both tests. */
  lemma ShownMember(regs: seq<Registration>, term: string, sf: StatusFilter, r: Registration)
    ensures r in Shown(regs, term, sf) <==> r in regs && Kept(r, term, sf)
  {
    FilterMember(regs, r => Kept(r, term, sf), r);
  }

  /** With a non-empty term, a row survives the search exactly when the term
      occurs in one of its four fields. */
  lemma ShownBySearch(regs: seq<Registration>, term: string, r: Registration)
    requires term != ""
    ensures r in Shown(regs, term, AllStatuses) <==> r in regs && SearchHit(r, term)
  {
    ShownMember(regs, term, AllStatuses, r);
  }

  /** An empty term and `all` show every loaded row. */
  lemma ShownEverything(regs: seq<Registration>)
    ensures Shown(regs, "", AllStatuses) == regs
  {
    FilterAll(regs, r => Kept(r, "", AllStatuses));
  }

  /** A status other than `all` keeps exactly the rows with that status. */
  lemma ShownByStatus(regs: seq<Registration>, s: Status, r: Registration)
    ensures r in Shown(regs, "", Only(s)) <==> r in regs && r.status == s
  {
    ShownMember(regs, "", Only(s), r);
  }

  /** The shown list keeps the loaded order. */
  lemma ShownIsSubsequence(regs: seq<Registration>, term: string, sf: StatusFilter)
    ensures IsSubsequence(Shown(regs, term, sf), regs)
  {
    FilterIsSubsequence(regs, r => Kept(r, term, sf));
  }

  /** Applying the same search and status again changes nothing. */
  lemma ShownIdempotent(regs: seq<Registration>, term: string, sf: StatusFilter)
    ensures Shown(Shown(regs, term, sf), term, sf) == Shown(regs, term, sf)
  {
    FilterIdempotent(regs, r => Kept(r, term, sf));
  }

  /** `registrations.filter(r => r.status === s).length`. */
  function CountStatus(regs: seq<Registration>, s: Status): nat {
    Count(regs, (r: Registration) => r.status == s)
  }

  /** The five stat cards add up to the number of loaded rows, since every
      row has one of the five statuses. */
  lemma {:induction false} StatusCountsSum(regs: seq<Registration>)
    ensures CountStatus(regs, Pending) + CountStatus(regs, UnderReview) + CountStatus(regs, Approved)
          + CountStatus(regs, Rejected) + CountStatus(regs, RequiresDocuments) == |regs|
  {
    if regs != [] {
      StatusCountsSum(regs[1..]);
    }
  }

  /** The buttons of the review dialog. */
  datatype Decision = Approve | SetToReview | NeedDocs | Reject

  /** The status and notes a button sends: Reject falls back to
      `Application rejected` when the notes are empty, the others send the
      notes as they are. */
  function DecisionRequest(d: Decision, notes: string): (r: (Status, string))
    ensures r.0 == match d
                   case Approve => Approved
                   case SetToReview => UnderReview
                   case NeedDocs => RequiresDocuments
                   case Reject => Rejected
    ensures d == Reject && notes == "" ==> r.1 == "Application rejected"
    ensures d != Reject || notes != "" ==> r.1 == notes
    ensures r.1 != "" || d != Reject
  {
    match d
    case Approve => (Approved, notes)
    case SetToReview => (UnderReview, notes)
    case NeedDocs => (RequiresDocuments, notes)
    case Reject => (Rejected, if notes != "" then notes else "Application rejected")
  }

  const ExportHeader: seq<string> :=
    ["Reference", "Business Name", "Owner", "Email", "Category", "Location", "Status", "Submitted"]

  /** One CSV row; `dateText` stands for `new Date(...).toLocaleDateString()`. */
  function ExportRow(r: Registration, dateText: string -> string): seq<string> {
    [r.referenceNumber, r.businessName, r.fullName, r.email, r.businessCategory,
     r.businessLocation, StatusName(r.status), dateText(r.submittedAt)]
  }

  /** The header followed by one row per shown registration. */
  function ExportRows(regs: seq<Registration>, dateText: string -> string): (rows: seq<seq<string>>)
    ensures |rows| == |regs| + 1 && rows[0] == ExportHeader
    ensures forall i :: 0 <= i < |regs| ==> rows[i + 1] == ExportRow(regs[i], dateText)
  {
    [ExportHeader] + seq(|regs|, i requires 0 <= i < |regs| => ExportRow(regs[i], dateText))
  }

  function ExportCsv(regs: seq<Registration>, dateText: string -> string): (r: string)
    ensures Csv.Parse(r)[0] == ExportHeader
  {
    HeaderPlain();
    Csv.DocumentFirstRow(ExportRows(regs, dateText));
    Csv.Document(ExportRows(regs, dateText))
  }

  /** Every row of the export has the eight columns of the header. */
  lemma ExportRowsWidth(regs: seq<Registration>, dateText: string -> string)
    ensures forall i :: 0 <= i < |ExportRows(regs, dateText)| ==> |ExportRows(regs, dateText)[i]| == 8
  {
    var rows := ExportRows(regs, dateText);
    forall i | 0 <= i < |rows| ensures |rows[i]| == 8 {
      if i > 0 {
        assert rows[i] == ExportRow(regs[i - 1], dateText);
      }
    }
  }

  /** No exported field of the row holds `,` or a line break. */
  predicate PlainRegistration(r: Registration, dateText: string -> string) {
    forall j :: 0 <= j < 8 ==> Csv.PlainField(ExportRow(r, dateText)[j])
  }

  lemma HeaderPlain()
    ensures forall j :: 0 <= j < 8 ==> Csv.PlainField(ExportHeader[j])
  {
    forall j | 0 <= j < 8 ensures Csv.PlainField(ExportHeader[j]) {
      var f := ExportHeader[j];
      forall k | 0 <= k < |f| ensures f[k] != ',' && f[k] != '\n' {
        assert 'A' <= f[k] <= 'z' || f[k] == ' ';
      }
    }
  }

  /** When no field holds `,` or a line break, splitting the export on line
      breaks and commas gives back the header and the rows. */
  lemma ExportRoundTrip(regs: seq<Registration>, dateText: string -> string)
    requires forall i :: 0 <= i < |regs| ==> PlainRegistration(regs[i], dateText)
    ensures Csv.Parse(ExportCsv(regs, dateText)) == ExportRows(regs, dateText)
  {
    var rows := ExportRows(regs, dateText);
    ExportRowsWidth(regs, dateText);
    HeaderPlain();
    forall i, j | 0 <= i < |rows| && 0 <= j < |rows[i]| ensures Csv.PlainField(rows[i][j]) {
      if i > 0 {
        assert rows[i] == ExportRow(regs[i - 1], dateText);
      }
    }
    Csv.CsvRoundTrip(rows);
  }

  /** A business name with a comma shifts the later columns of its row. */
  lemma CommaInNameShifts(r: Registration, dateText: string -> string)
    requires r.businessName == "a,b"
    ensures ',' in ExportRow(r, dateText)[1]
  {
    assert "a,b"[1] == ',';
  }

  /** The state of the review screen. */
  class ReviewPage {
    var registrations: seq<Registration>
    var filteredRegistrations: seq<Registration>
    var searchTerm: string
    var selectedStatus: StatusFilter
    var selectedRegistration: Option<Registration>
    var showReviewModal: bool
    var reviewNotes: string
    var loading: bool

    /** The shown list is the loaded list under the current search and status. */
    predicate InSync()
      reads this
    {
      filteredRegistrations == Shown(registrations, searchTerm, selectedStatus)
    }

    constructor ()
      ensures registrations == [] && filteredRegistrations == [] && searchTerm == ""
      ensures selectedStatus == AllStatuses && selectedRegistration == None
      ensures !showReviewModal && reviewNotes == "" && loading
      ensures InSync()
    {
      registrations := [];
      filteredRegistrations := [];
      searchTerm := "";
      selectedStatus := AllStatuses;
      selectedRegistration := None;
      showReviewModal := false;
      reviewNotes := "";
      loading := true;
    }

    /** `filterRegistrations`: copy the list, narrow it by the search term when
        there is one, then by the status unless it is `all`. */
    method FilterRegistrations()
      modifies this
      ensures InSync()
      ensures registrations == old(registrations) && searchTerm == old(searchTerm)
      ensures selectedStatus == old(selectedStatus) && selectedRegistration == old(selectedRegistration)
      ensures showReviewModal == old(showReviewModal) && reviewNotes == old(reviewNotes)
      ensures loading == old(loading)
    {
      var term, sf := searchTerm, selectedStatus;
      var filtered := registrations;
      if term != "" {
        filtered := Filter(filtered, (r: Registration) => SearchHit(r, term));
      }
      ghost var afterSearch := filtered;
      if sf != AllStatuses {
        filtered := Filter(filtered, (r: Registration) => StatusHit(r, sf));
      }
      ShownInStages(registrations, term, sf, afterSearch, filtered);
      filteredRegistrations := filtered;
    }

    /** `loadRegistrations`: `fetched` is the rows with their documents, or
        `None` when a query failed, in which case the list stays as it was.
        The filter effect then runs on the new list. */
    method LoadRegistrations(fetched: Option<seq<Registration>>)
      modifies this
      ensures registrations == if fetched.Some? then fetched.value else old(registrations)
      ensures !loading && InSync()
      ensures searchTerm == old(searchTerm) && selectedStatus == old(selectedStatus)
      ensures selectedRegistration == old(selectedRegistration)
      ensures showReviewModal == old(showReviewModal) && reviewNotes == old(reviewNotes)
    {
      loading := true;
      if fetched.Some? {
        registrations := fetched.value;
      }
      loading := false;
      FilterRegistrations();
    }

    /** Typing in the search box; the filter effect follows. */
    method SetSearchTerm(term: string)
      modifies this
      ensures searchTerm == term && InSync()
      ensures registrations == old(registrations) && selectedStatus == old(selectedStatus)
      ensures selectedRegistration == old(selectedRegistration)
      ensures showReviewModal == old(showReviewModal) && reviewNotes == old(reviewNotes)
      ensures loading == old(loading)
    {
      searchTerm := term;
      FilterRegistrations();
    }

    /** `handleFilterSelect`; the filter effect follows. */
    method HandleFilterSelect(sf: StatusFilter)
      modifies this
      ensures selectedStatus == sf && InSync()
      ensures registrations == old(registrations) && searchTerm == old(searchTerm)
      ensures selectedRegistration == old(selectedRegistration)
      ensures showReviewModal == old(showReviewModal) && reviewNotes == old(reviewNotes)
      ensures loading == old(loading)
    {
      selectedStatus := sf;
      FilterRegistrations();
    }

    /** The Review button: select the row, start from its stored notes (or
        nothing) and open the dialog. */
    method OpenReview(r: Registration)
      modifies this
      ensures selectedRegistration == Some(r) && showReviewModal
      ensures reviewNotes == if r.reviewNotes.Some? then r.reviewNotes.value else ""
      ensures registrations == old(registrations) && filteredRegistrations == old(filteredRegistrations)
      ensures searchTerm == old(searchTerm) && selectedStatus == old(selectedStatus)
      ensures loading == old(loading)
    {
      selectedRegistration := Some(r);
      reviewNotes := r.reviewNotes.GetOr("");
      showReviewModal := true;
    }

    /** `handleStatusUpdate`: `updated` is whether the status update succeeded
        and `fetched` the outcome of the reload that follows it. On success the
        list is reloaded, the dialog closed and the notes cleared; on failure
        nothing changes. The result is the alert text. */
    method HandleStatusUpdate(updated: bool, fetched: Option<seq<Registration>>) returns (alert: string)
      modifies this
      ensures updated ==> alert == "Registration status updated successfully!"
      ensures updated ==> registrations == (if fetched.Some? then fetched.value else old(registrations))
      ensures updated ==> !showReviewModal && reviewNotes == "" && !loading && InSync()
      ensures !updated ==> alert == "Error updating registration status"
      ensures !updated ==> registrations == old(registrations) && showReviewModal == old(showReviewModal)
      ensures !updated ==> reviewNotes == old(reviewNotes) && loading == old(loading)
      ensures !updated ==> filteredRegistrations == old(filteredRegistrations)
      ensures searchTerm == old(searchTerm) && selectedStatus == old(selectedStatus)
      ensures selectedRegistration == old(selectedRegistration)
    {
      if !updated {
        return "Error updating registration status";
      }
      LoadRegistrations(fetched);
      showReviewModal := false;
      reviewNotes := "";
      alert := "Registration status updated successfully!";
    }
  }

  /** The two stages of `filterRegistrations` give the one-filter list. */
  lemma ShownInStages(regs: seq<Registration>, term: string, sf: StatusFilter,
                      afterSearch: seq<Registration>, filtered: seq<Registration>)
    requires afterSearch == if term != "" then Filter(regs, r => SearchHit(r, term)) else regs
    requires filtered == if sf != AllStatuses then Filter(afterSearch, r => StatusHit(r, sf)) else afterSearch
    ensures filtered == Shown(regs, term, sf)
  {
    var kept := (r: Registration) => Kept(r, term, sf);
    if term != "" && sf != AllStatuses {
      FilterTwice(regs, (r: Registration) => SearchHit(r, term), (r: Registration) => StatusHit(r, sf), kept);
    } else if term != "" {
      FilterSameTest(regs, (r: Registration) => SearchHit(r, term), kept);
    } else if sf != AllStatuses {
      FilterSameTest(regs, (r: Registration) => StatusHit(r, sf), kept);
    } else {
      FilterAll(regs, kept);
    }
  }
}
