/**
 * The admin dashboard's state cells and the handlers that update them. The
 * network calls are replaced by their outcomes, given to the handlers as
 * inputs; the calls the page issues are recorded so that contracts can say
 * which were made.
 */
module Dashboard {
  import opened Wrappers
  import opened DriverFilter

  /** What the licence OCR step reports. */
  datatype OcrLicense = OcrLicense(success: bool, number: string, name: Option<string>, expiry: string)

  /** What the national-identity-card OCR step reports. */
  datatype OcrNic = OcrNic(success: bool, number: string, name: Option<string>)

  /** The result object the simulated AI verification produces. */
  datatype AiReport = AiReport(faceMatch: bool, ocrLicense: OcrLicense, ocrNic: OcrNic, overallScore: int)

  /** The expiry date the page fills in, since the listing carries none. */
  const PlaceholderExpiry: string := "2025-06-30"

  /** The fixed score of the simulated verification. */
  const SimulatedScore: int := 95

  /** The text of the notification shown on rejection. */
  const RejectedNotice: string := "Driver rejected"

  /**
   * The report fabricated for a driver: every check succeeds, the face
   * matches, the score is fixed, and the OCR fields are copied from the
   * driver's own record.
   */
  function SimulatedReport(d: Driver): (r: AiReport)
    ensures r.faceMatch && r.overallScore == SimulatedScore
    ensures r.ocrLicense.success && r.ocrNic.success
    ensures r.ocrLicense.number == d.license_number && r.ocrLicense.name == d.full_name
    ensures r.ocrNic.number == d.nic_number && r.ocrNic.name == d.full_name
    ensures r.ocrLicense.expiry == PlaceholderExpiry
  {
    AiReport(
      true,
      OcrLicense(true, d.license_number, d.full_name, PlaceholderExpiry),
      OcrNic(true, d.nic_number, d.full_name),
      SimulatedScore)
  }

  /**
   * Two drivers get the same report exactly when their licence number, NIC
   * number and name agree: no other field of the record is looked at.
   */
  lemma SameReportIffSameDocuments(d1: Driver, d2: Driver)
    ensures SimulatedReport(d1) == SimulatedReport(d2)
            <==> d1.license_number == d2.license_number && d1.nic_number == d2.nic_number
                 && d1.full_name == d2.full_name
  {
  }

  /** How a driver-list request ends: the parsed list, or a rejected promise. */
  datatype Fetch = Fetched(list: seq<Driver>) | FetchFailed

  class AdminDashboard {
    var selectedTab: string
    var searchQuery: string
    var selectedDriver: Option<Driver>
    var verificationResult: Option<AiReport>
    var processing: bool
    var drivers: seq<Driver>

    /** Driver-list requests issued so far. */
    var listRequests: nat
    /** Driver ids sent to the verification endpoint, in order. */
    var verifyRequests: seq<int>
    /** Blocking notifications shown, in order. */
    var alerts: seq<string>
    /** Simulated-verification timers scheduled and not yet fired, oldest first. */
    var timers: seq<Driver>

    /** The state a freshly mounted page starts in. */
    constructor ()
      ensures selectedTab == "pending" && searchQuery == ""
      ensures selectedDriver == None && verificationResult == None
      ensures !processing && drivers == []
      ensures listRequests == 0 && verifyRequests == [] && alerts == [] && timers == []
    {
      selectedTab := "pending";
      searchQuery := "";
      selectedDriver := None;
      verificationResult := None;
      processing := false;
      drivers := [];
      listRequests := 0;
      verifyRequests := [];
      alerts := [];
      timers := [];
    }

    /**
     * The rows the table shows: the drivers of the current list that pass the
     * selected tab and the search query, each as often as it is listed, in
     * list order, each with a name.
     */
    function Rows(): (r: seq<Driver>)
      reads this
      ensures forall d :: d in r <==> d in drivers && Keep(d, selectedTab, searchQuery)
      ensures forall d :: d in r ==> d.full_name.Some?
      ensures IsSubsequence(r, drivers)
      ensures forall d :: multiset(r)[d] == if Keep(d, selectedTab, searchQuery) then multiset(drivers)[d] else 0
    {
      var r := FilteredDrivers(drivers, selectedTab, searchQuery);
      forall d ensures d in r <==> d in drivers && Keep(d, selectedTab, searchQuery) {
        FilterMembership(drivers, selectedTab, searchQuery, d);
      }
      FilterIsSubsequence(drivers, selectedTab, searchQuery);
      FilterCounts(drivers, selectedTab, searchQuery);
      r
    }

    /**
     * The load on mount: one list request; a resolved list replaces the
     * current one, a failure is only logged and keeps it.
     */
    method LoadDrivers(outcome: Fetch)
      modifies this`drivers, this`listRequests
      ensures listRequests == old(listRequests) + 1
      ensures drivers == if outcome.Fetched? then outcome.list else old(drivers)
    {
      listRequests := listRequests + 1;
      if outcome.Fetched? {
        drivers := outcome.list;
      }
    }

    method SelectTab(tab: string)
      modifies this`selectedTab
      ensures selectedTab == tab
    {
      selectedTab := tab;
    }

    method SetSearchQuery(query: string)
      modifies this`searchQuery
      ensures searchQuery == query
    {
      searchQuery := query;
    }

    /** The row's "Verify" button. */
    method SelectDriver(d: Driver)
      modifies this`selectedDriver
      ensures selectedDriver == Some(d)
    {
      selectedDriver := Some(d);
    }

    /** Starting the simulated verification: busy, and a timer scheduled for `d`. */
    method RunAiVerification(d: Driver)
      modifies this`processing, this`timers
      ensures processing
      ensures timers == old(timers) + [d]
    {
      processing := true;
      timers := timers + [d];
    }

    /**
     * The oldest pending timer fires: the report for the driver it was
     * scheduled with becomes the verification result, and the page is idle.
     */
    method AiTimerFires()
      requires timers != []
      modifies this`verificationResult, this`processing, this`timers
      ensures verificationResult == Some(SimulatedReport(old(timers)[0]))
      ensures !processing
      ensures timers == old(timers)[1..]
    {
      var d := timers[0];
      timers := timers[1..];
      verificationResult := Some(SimulatedReport(d));
      processing := false;
    }

    /**
     * Approval. With a selected driver, its id is sent for verification (that
     * call never rejects) and the list is requested again; a resolved list
     * replaces the current one and clears the selection and the result. With
     * no selection, or when the new list request fails, the handler's catch
     * runs: only `processing` is reset. The page is idle afterwards either way.
     */
    method ApproveDriver(refetch: Fetch)
      modifies this`processing, this`drivers, this`selectedDriver, this`verificationResult
      modifies this`verifyRequests, this`listRequests
      ensures !processing
      ensures verifyRequests == if old(selectedDriver).Some? then old(verifyRequests) + [old(selectedDriver).value.id]
                                else old(verifyRequests)
      ensures listRequests == if old(selectedDriver).Some? then old(listRequests) + 1 else old(listRequests)
      ensures old(selectedDriver).Some? && refetch.Fetched? ==>
                drivers == refetch.list && selectedDriver == None && verificationResult == None
      ensures old(selectedDriver).None? || refetch.FetchFailed? ==>
                drivers == old(drivers) && selectedDriver == old(selectedDriver)
                && verificationResult == old(verificationResult)
    {
      processing := true;
      if selectedDriver.None? {
        // reading `id` of null throws before any request is issued
        processing := false;
        return;
      }
      verifyRequests := verifyRequests + [selectedDriver.value.id];
      listRequests := listRequests + 1;
      if refetch.FetchFailed? {
        processing := false;
        return;
      }
      drivers := refetch.list;
      selectedDriver := None;
      verificationResult := None;
      processing := false;
    }

    /**
     * Rejection is a stub: a notification, and the selection and result are
     * cleared. No request is made, and the list and `processing` are kept.
     */
    method RejectDriver()
      modifies this`alerts, this`selectedDriver, this`verificationResult
      ensures alerts == old(alerts) + [RejectedNotice]
      ensures selectedDriver == None && verificationResult == None
    {
      alerts := alerts + [RejectedNotice];
      selectedDriver := None;
      verificationResult := None;
    }
  }
}
