/**
 * The community board: a fixed list of scam reports filtered by a search
 * box, a draft form for a new report, and vote buttons.
 */
module Community {
  import opened JsStrings
  import opened Ui

  datatype Report = Report(
    id: int,
    title: string,
    description: string,
    company: string,
    recruiterEmail: string,
    scamType: string,
    upvotes: int,
    downvotes: int,
    comments: int,
    reportedBy: string,
    timeAgo: string,
    status: string)

  /** The reports the board shows; nothing on the page adds to them. */
  const MOCK_REPORTS: seq<Report> := [
    Report(1, "Fake Amazon Internship Scam",
      "They asked for \U{20B9}2000 as registration fee for Amazon internship. Completely fake!",
      "Amazon (Fake)", "hr.amazon.india@gmail.com", "money-request",
      45, 2, 12, "SafeUser123", "2 hours ago", "verified"),
    Report(2, "Flipkart WhatsApp Scam",
      "Received internship offer via WhatsApp from fake Flipkart HR. Asked for personal documents.",
      "Flipkart (Fake)", "flipkart.careers@yahoo.com", "document-theft",
      32, 1, 8, "AlertStudent", "5 hours ago", "investigating"),
    Report(3, "Microsoft Teams Fake Interview",
      "Scheduled fake Microsoft interview and asked for bank details for 'salary processing'.",
      "Microsoft (Fake)", "microsoft.hr.india@gmail.com", "banking-fraud",
      67, 0, 23, "TechGuard", "1 day ago", "verified")
  ]

  /** The new-report form. */
  datatype ReportDraft = ReportDraft(
    title: string,
    description: string,
    company: string,
    recruiterEmail: string,
    scamType: string)
  {
    function Get(field: DraftField): string {
      match field
      case Title => title
      case Description => description
      case Company => company
      case RecruiterEmail => recruiterEmail
      case ScamType => scamType
    }
  }

  datatype DraftField = Title | Description | Company | RecruiterEmail | ScamType

  const EMPTY_DRAFT := ReportDraft("", "", "", "", "money-request")

  const FIELDS_MISSING := "Please fill in all required fields"
  const REPORT_SUBMITTED := "Report submitted successfully! Thank you for helping the community."

  datatype VoteType = Up | Down

  /**
   * The search test: the lower-cased term occurs in the lower-cased title,
   * company or description.
   */
  predicate MatchesSearch(report: Report, searchTerm: string) {
    var term := ToLower(searchTerm);
    || Includes(ToLower(report.title), term)
    || Includes(ToLower(report.company), term)
    || Includes(ToLower(report.description), term)
  }

  /**
   * filteredReports: the reports that match the search term, in their
   * original order.
   */
  function FilterReports(reports: seq<Report>, searchTerm: string): (kept: seq<Report>)
    ensures IsSubsequence(kept, reports)
    ensures forall r :: r in kept ==> MatchesSearch(r, searchTerm)
    ensures forall r :: r in reports && MatchesSearch(r, searchTerm) ==> r in kept
    ensures forall r :: multiset(kept)[r] == if MatchesSearch(r, searchTerm) then multiset(reports)[r] else 0
  {
    if reports == [] then []
    else
      var rest := FilterReports(reports[1..], searchTerm);
      assert reports == [reports[0]] + reports[1..];
      assert multiset(reports) == multiset{reports[0]} + multiset(reports[1..]);
      if MatchesSearch(reports[0], searchTerm) then
        assert ([reports[0]] + rest)[1..] == rest;
        assert multiset([reports[0]] + rest) == multiset{reports[0]} + multiset(rest);
        [reports[0]] + rest
      else
        assert forall r :: r in reports ==> r == reports[0] || r in reports[1..];
        rest
  }

  /** Filtering never lengthens the list and never shows a report that is not on the board. */
  lemma FilterNeverGrows(reports: seq<Report>, searchTerm: string)
    ensures |FilterReports(reports, searchTerm)| <= |reports|
    ensures forall r :: r in FilterReports(reports, searchTerm) ==> r in reports
  {
    SubsequenceElements(FilterReports(reports, searchTerm), reports);
  }

  /** The empty search box keeps every report. */
  lemma {:induction false} EmptySearchKeepsAll(reports: seq<Report>)
    ensures FilterReports(reports, "") == reports
  {
    if reports != [] {
      IncludesEmpty(ToLower(reports[0].title));
      EmptySearchKeepsAll(reports[1..]);
    }
  }

  /** The recruiter email and the scam type are never searched. */
  lemma SearchIgnoresEmailAndType(report: Report, searchTerm: string, recruiterEmail: string, scamType: string)
    ensures MatchesSearch(report.(recruiterEmail := recruiterEmail, scamType := scamType), searchTerm)
        == MatchesSearch(report, searchTerm)
  {
  }

  /** Typing the search term in lower case makes no difference. */
  lemma {:induction false} SearchIsCaseInsensitive(reports: seq<Report>, searchTerm: string)
    ensures FilterReports(reports, ToLower(searchTerm)) == FilterReports(reports, searchTerm)
  {
    ToLowerIdempotent(searchTerm);
    if reports != [] {
      SearchIsCaseInsensitive(reports[1..], searchTerm);
    }
  }

  /**
   * Narrowing the search keeps a subset: a report that matches a term also
   * matches every part of that term.
   */
  lemma NarrowingSearch(reports: seq<Report>, searchTerm: string, part: string)
    requires Includes(ToLower(searchTerm), ToLower(part))
    ensures forall r :: r in FilterReports(reports, searchTerm) ==> r in FilterReports(reports, part)
  {
    forall r | r in FilterReports(reports, searchTerm)
      ensures MatchesSearch(r, part)
    {
      var term := ToLower(searchTerm);
      if Includes(ToLower(r.title), term) {
        IncludesTransitive(ToLower(r.title), term, ToLower(part));
      } else if Includes(ToLower(r.company), term) {
        IncludesTransitive(ToLower(r.company), term, ToLower(part));
      } else {
        IncludesTransitive(ToLower(r.description), term, ToLower(part));
      }
    }
  }

  /** The community page's state; the reports themselves are fixed. */
  class CommunityPage {
    const reports: seq<Report>
    var searchTerm: string
    var showReportForm: bool
    var newReport: ReportDraft

    constructor ()
      ensures reports == MOCK_REPORTS && searchTerm == ""
      ensures !showReportForm && newReport == EMPTY_DRAFT
    {
      reports := MOCK_REPORTS;
      searchTerm := "";
      showReportForm := false;
      newReport := EMPTY_DRAFT;
    }

    /**
     * filteredReports: the list the page renders for the current search term,
     * the matching reports in their order, each as often as it occurs.
     */
    function FilteredReports(): (shown: seq<Report>)
      reads this
      ensures IsSubsequence(shown, reports)
      ensures forall r :: r in shown <==> r in reports && MatchesSearch(r, searchTerm)
      ensures forall r :: multiset(shown)[r] == if MatchesSearch(r, searchTerm) then multiset(reports)[r] else 0
    {
      FilterReports(reports, searchTerm)
    }

    /** The search box takes the raw value. */
    method SetSearchTerm(term: string)
      modifies this
      ensures searchTerm == term
      ensures showReportForm == old(showReportForm) && newReport == old(newReport)
    {
      searchTerm := term;
    }

    /** Either "Report a Scam" button opens the form; the draft is kept. */
    method OpenReportForm()
      modifies this
      ensures showReportForm
      ensures searchTerm == old(searchTerm) && newReport == old(newReport)
    {
      showReportForm := true;
    }

    /** Cancel closes the form without clearing the draft. */
    method CancelReportForm()
      modifies this
      ensures !showReportForm
      ensures searchTerm == old(searchTerm) && newReport == old(newReport)
    {
      showReportForm := false;
    }

    /** A draft field takes the raw value. */
    method EditDraft(field: DraftField, value: string)
      modifies this
      ensures newReport.Get(field) == value
      ensures forall g :: g != field ==> newReport.Get(g) == old(newReport).Get(g)
      ensures searchTerm == old(searchTerm) && showReportForm == old(showReportForm)
    {
      newReport := match field
        case Title => newReport.(title := value)
        case Description => newReport.(description := value)
        case Company => newReport.(company := value)
        case RecruiterEmail => newReport.(recruiterEmail := value)
        case ScamType => newReport.(scamType := value);
    }

    /**
     * handleReportSubmit: a blank title or description is refused and nothing
     * changes; otherwise the form closes and the draft is reset. Only the
     * title and the description are checked, and the submitted report is not
     * added to the board.
     */
    method HandleReportSubmit() returns (toast: Toast)
      modifies this
      ensures searchTerm == old(searchTerm)
      ensures IsBlank(old(newReport).title) || IsBlank(old(newReport).description) ==>
        toast == Error(FIELDS_MISSING) && showReportForm == old(showReportForm) && newReport == old(newReport)
      ensures !IsBlank(old(newReport).title) && !IsBlank(old(newReport).description) ==>
        toast == Success(REPORT_SUBMITTED) && !showReportForm && newReport == EMPTY_DRAFT
    {
      if IsBlank(newReport.title) || IsBlank(newReport.description) {
        return Error(FIELDS_MISSING);
      }
      toast := Success(REPORT_SUBMITTED);
      showReportForm := false;
      newReport := EMPTY_DRAFT;
    }

    /** handleVote: acknowledges the vote; no count changes. */
    method HandleVote(reportId: int, voteType: VoteType) returns (toast: Toast)
      ensures toast == Success(if voteType == Up then "Vote up recorded!" else "Vote down recorded!")
    {
      toast := Success("Vote " + (if voteType == Up then "up" else "down") + " recorded!");
    }
  }
}
