/** The dashboard controller: session flag, upload/analysis status, the
    installed dataset, the segment filter, the customer selection, the
    offer dialog's recipients and the confirmation notice.

    Each user action or analysis outcome is an `Event`; `Step` gives the
    state it leads to, and the `App` class applies it field by field as
    the handlers do. The effect that empties the selection whenever the
    dataset or the filter changes is folded into the transitions that
    change them: it fires only on an actual change, and a freshly analysed
    dataset is always a new object. */
module Dashboard {
  import opened Wrappers
  import opened JsText
  import opened Types
  import opened CustomerTable
  import Offer
  import Analysis

  // ---------------------------------------------------------------------
  // Lists

  /** `s` can be obtained from `t` by deleting elements: order is kept. */
  ghost predicate Subsequence<T>(s: seq<T>, t: seq<T>)
    decreases |t|
  {
    if s == [] then true
    else if t == [] then false
    else if s[0] == t[0] then Subsequence(s[1..], t[1..])
    else Subsequence(s, t[1..])
  }

  /** `Array.prototype.filter`: exactly the elements that pass. */
  function Filter<T(!new)>(s: seq<T>, p: T -> bool): (r: seq<T>)
    ensures |r| <= |s|
    ensures forall i :: 0 <= i < |r| ==> p(r[i])
    ensures forall x :: x in r <==> x in s && p(x)
  {
    if s == [] then []
    else (if p(s[0]) then [s[0]] else []) + Filter(s[1..], p)
  }

  /** Filtering keeps each passing element as often as it occurs. */
  lemma {:induction false} FilterKeepsCounts<T(!new)>(s: seq<T>, p: T -> bool)
    ensures forall x :: multiset(Filter(s, p))[x] == if p(x) then multiset(s)[x] else 0
  {
    if s != [] {
      FilterKeepsCounts(s[1..], p);
      assert s == [s[0]] + s[1..];
    }
  }

  /** Filtering keeps the input order. */
  lemma {:induction false} FilterKeepsOrder<T(!new)>(s: seq<T>, p: T -> bool)
    ensures Subsequence(Filter(s, p), s)
  {
    if s != [] {
      FilterKeepsOrder(s[1..], p);
      var rest := Filter(s[1..], p);
      if p(s[0]) {
        assert ([s[0]] + rest)[1..] == rest;
      } else {
        assert Filter(s, p) == rest;
        assert rest != [] ==> rest[0] != s[0];
      }
    }
  }

  lemma {:induction false} FilterAppend<T(!new)>(a: seq<T>, b: seq<T>, p: T -> bool)
    ensures Filter(a + b, p) == Filter(a, p) + Filter(b, p)
  {
    if a == [] {
      assert a + b == b;
    } else {
      var head := if p(a[0]) then [a[0]] else [];
      assert (a + b)[0] == a[0] && (a + b)[1..] == a[1..] + b;
      calc {
        Filter(a + b, p);
        head + Filter(a[1..] + b, p);
        { FilterAppend(a[1..], b, p); }
        head + (Filter(a[1..], p) + Filter(b, p));
        (head + Filter(a[1..], p)) + Filter(b, p);
        Filter(a, p) + Filter(b, p);
      }
    }
  }

  lemma {:induction false} FilterKeepsAll<T(!new)>(s: seq<T>, p: T -> bool)
    requires forall i :: 0 <= i < |s| ==> p(s[i])
    ensures Filter(s, p) == s
  {
    if s != [] {
      FilterKeepsAll(s[1..], p);
    }
  }

  /** The tests the dashboard filters by. */
  function SegmentIs(seg: Segment): TopCustomer -> bool {
    (c: TopCustomer) => c.segment == seg
  }

  function IdIn(ids: seq<string>): TopCustomer -> bool {
    (c: TopCustomer) => c.id in ids
  }

  function NotEqualTo(id: string): string -> bool {
    (x: string) => x != id
  }

  /** No value occurs twice. */
  ghost predicate NoDuplicates<T(!new)>(s: seq<T>) {
    forall x :: multiset(s)[x] <= 1
  }

  /** `customers.map(c => c.id)`. */
  function Ids(cs: seq<TopCustomer>): (ids: seq<string>)
    ensures |ids| == |cs| && forall i :: 0 <= i < |cs| ==> ids[i] == cs[i].id
  {
    if cs == [] then [] else [cs[0].id] + Ids(cs[1..])
  }

  // ---------------------------------------------------------------------
  // The filtered view

  /** The customers the table shows: none without a dataset, all of them
      under `all`, otherwise exactly the customers of the chosen segment,
      as often as they occur and in dataset order. */
  function FilteredTopCustomers(data: Option<DashboardData>, filter: SegmentFilter)
    : (r: seq<TopCustomer>)
    ensures data.None? ==> r == []
    ensures data.Some? && filter.All? ==> r == data.value.topCustomers
    ensures data.Some? && filter.Only? ==>
      forall c :: c in r <==> c in data.value.topCustomers && c.segment == filter.segment
  {
    match data
    case None => []
    case Some(d) =>
      if filter.All? then d.topCustomers
      else Filter(d.topCustomers, SegmentIs(filter.segment))
  }

  /** Under a segment filter the view is the order-preserving sublist of
      the dataset's customers of that segment, each as often as it occurs. */
  lemma SegmentViewIsOrderedSublist(d: DashboardData, seg: Segment)
    ensures var r := FilteredTopCustomers(Some(d), Only(seg));
      && (forall i :: 0 <= i < |r| ==> r[i].segment == seg)
      && (forall c :: multiset(r)[c] == if c.segment == seg then multiset(d.topCustomers)[c] else 0)
      && Subsequence(r, d.topCustomers)
  {
    FilterKeepsCounts(d.topCustomers, SegmentIs(seg));
    FilterKeepsOrder(d.topCustomers, SegmentIs(seg));
  }

  // ---------------------------------------------------------------------
  // Selection

  /** A row checkbox click: the clicked id changes membership, every other
      id keeps it, and no id is duplicated that was not already. */
  function Toggled(selected: seq<string>, id: string): (r: seq<string>)
    ensures id in r <==> id !in selected
    ensures forall x :: x != id ==> (x in r <==> x in selected)
    ensures NoDuplicates(selected) ==> NoDuplicates(r)
  {
    if id in selected then
      FilterKeepsCounts(selected, NotEqualTo(id));
      Filter(selected, NotEqualTo(id))
    else
      var r := selected + [id];
      assert multiset(r) == multiset(selected) + multiset{id};
      r
  }

  /** Clicking an unselected id twice gives back exactly the list it
      started from, order included. */
  lemma ToggleTwiceRestores(selected: seq<string>, id: string)
    requires id !in selected
    ensures Toggled(Toggled(selected, id), id) == selected
  {
    var p := NotEqualTo(id);
    FilterAppend(selected, [id], p);
    FilterKeepsAll(selected, p);
    assert Filter([id], p) == [];
  }

  /** Clicking any id twice restores that id's membership. */
  lemma ToggleTwiceMembership(selected: seq<string>, id: string)
    ensures id in Toggled(Toggled(selected, id), id) <==> id in selected
  {
  }

  /** The header checkbox click: clear when the selection is as long as the
      visible list, otherwise select every visible id in view order. */
  function SelectAllResult(selected: seq<string>, visible: seq<TopCustomer>): (r: seq<string>)
    ensures r == [] || r == Ids(visible)
    ensures r == Ids(visible) <==> |selected| != |visible| || visible == []
  {
    if |selected| == |visible| then [] else Ids(visible)
  }

  /** Two clicks on the header checkbox give back the selection exactly
      when it started empty or as all visible ids; from any other start
      the second click clears it or selects everything. */
  lemma SelectAllTwiceRestoresIff(selected: seq<string>, visible: seq<TopCustomer>)
    ensures SelectAllResult(SelectAllResult(selected, visible), visible) == selected
        <==> selected == [] || selected == Ids(visible)
  {
    var once := SelectAllResult(selected, visible);
    if selected != [] && selected != Ids(visible) {
      if |selected| == |visible| {
        assert once == [] && visible != [];
        assert SelectAllResult(once, visible) == Ids(visible);
      } else {
        assert once == Ids(visible) && |once| == |visible|;
      }
    }
  }

  /** The dataset customers a bulk offer goes to: those whose id is
      selected, in dataset order. */
  function BulkTargets(customers: seq<TopCustomer>, selected: seq<string>): (r: seq<TopCustomer>)
    ensures forall c :: c in r <==> c in customers && c.id in selected
    ensures forall c :: multiset(r)[c] == if c.id in selected then multiset(customers)[c] else 0
    ensures Subsequence(r, customers)
  {
    FilterKeepsCounts(customers, IdIn(selected));
    FilterKeepsOrder(customers, IdIn(selected));
    Filter(customers, IdIn(selected))
  }

  // ---------------------------------------------------------------------
  // Notices

  datatype Thrown = ErrorObject(message: string) | NonError

  const UnknownErrorMessage: string := "An unknown error occurred."

  /** `err instanceof Error ? err.message : 'An unknown error occurred.'`. */
  function ErrorMessage(t: Thrown): string {
    match t
    case ErrorObject(m) => m
    case NonError => UnknownErrorMessage
  }

  const SingleRecipientHead: string := "customer at "
  const CountRecipientTail: string := " customer(s)"

  /** Whom the confirmation names: the number, for one recipient with a
      non-empty number; otherwise the recipient count. */
  function Recipient(count: nat, mobileNumber: Option<string>): string {
    if count == 1 && mobileNumber.Some? && mobileNumber.value != ""
    then SingleRecipientHead + mobileNumber.value
    else Decimal(count) + CountRecipientTail
  }

  /** The two forms cannot be confused: a recipient names a number exactly
      for one recipient with a non-empty number, and otherwise states a
      count that reads back as the number of recipients. */
  lemma RecipientForms(count: nat, mobileNumber: Option<string>)
    ensures StartsWith(Recipient(count, mobileNumber), SingleRecipientHead)
        <==> count == 1 && mobileNumber.Some? && mobileNumber.value != ""
    ensures !(count == 1 && mobileNumber.Some? && mobileNumber.value != "") ==>
      exists digits: string ::
        && Recipient(count, mobileNumber) == digits + CountRecipientTail
        && (forall i :: 0 <= i < |digits| ==> IsDigit(digits[i]))
        && DecimalValue(digits) == count
  {
    var r := Recipient(count, mobileNumber);
    if !(count == 1 && mobileNumber.Some? && mobileNumber.value != "") {
      var digits := Decimal(count);
      assert r == digits + CountRecipientTail;
      assert IsDigit(r[0]);
      assert !IsDigit(SingleRecipientHead[0]);
    }
  }

  /** How many customers the open dialog was sending to, 0 when none. */
  function SentCount(pending: Option<seq<TopCustomer>>): nat {
    if pending.Some? then |pending.value| else 0
  }

  /** The confirmation notice after an offer is sent. */
  function ToastText(count: nat, platform: Offer.Platform, mobileNumber: Option<string>): string {
    "Offer sent to " + Recipient(count, mobileNumber) + " via " + UpperAscii(platform.Name()) + "!"
  }

  /** The notice names the platform in capitals: "SMS" or "WHATSAPP". */
  lemma PlatformInCapitals(platform: Offer.Platform)
    ensures UpperAscii(platform.Name()) == if platform.Sms? then "SMS" else "WHATSAPP"
  {
  }

  // ---------------------------------------------------------------------
  // The state machine

  datatype AppState = AppState(
    isAuthenticated: bool,
    dashboardData: Option<DashboardData>,
    isLoading: bool,
    error: Option<string>,
    isInitialState: bool,
    selectedCustomersToSend: Option<seq<TopCustomer>>,
    selectedCustomerIds: seq<string>,
    toastMessage: Option<string>,
    customerSegmentFilter: SegmentFilter)

  const Initial: AppState :=
    AppState(false, None, false, None, true, None, [], None, All)

  /** The customers the table is showing in state `s`. */
  function Visible(s: AppState): seq<TopCustomer> {
    FilteredTopCustomers(s.dashboardData, s.customerSegmentFilter)
  }

  datatype Event =
    | LoginSucceeded
    | UploadStarted
    | UploadFinished(outcome: Result<DashboardData, Thrown>)
    | ResetClicked
    | FilterChanged(filter: SegmentFilter)
    | SelectionChanged(id: string)
    | SelectAllClicked
    | BulkOfferOpened
    | SingleOfferOpened(customer: TopCustomer)
    | OfferClosed
    | OfferSent(message: string, platform: Offer.Platform, mobileNumber: Option<string>)
    | ToastDismissed

  /** The state after one event. */
  function Step(s: AppState, e: Event): AppState {
    match e
    case LoginSucceeded => s.(isAuthenticated := true)
    case UploadStarted => s.(isLoading := true, error := None)
    case UploadFinished(Success(d)) =>
      s.(dashboardData := Some(d), isInitialState := false, isLoading := false,
         selectedCustomerIds := [])
    case UploadFinished(Failure(t)) =>
      s.(error := Some(ErrorMessage(t)), isInitialState := true, isLoading := false)
    case ResetClicked =>
      var changed := s.dashboardData.Some? || s.customerSegmentFilter != All;
      s.(dashboardData := None, error := None, isInitialState := true,
         customerSegmentFilter := All, isAuthenticated := false,
         selectedCustomerIds := if changed then [] else s.selectedCustomerIds)
    case FilterChanged(f) =>
      if f == s.customerSegmentFilter then s
      else s.(customerSegmentFilter := f, selectedCustomerIds := [])
    case SelectionChanged(id) =>
      s.(selectedCustomerIds := Toggled(s.selectedCustomerIds, id))
    case SelectAllClicked =>
      s.(selectedCustomerIds := SelectAllResult(s.selectedCustomerIds, Visible(s)))
    case BulkOfferOpened =>
      if s.dashboardData.Some?
         && |BulkTargets(s.dashboardData.value.topCustomers, s.selectedCustomerIds)| > 0
      then s.(selectedCustomersToSend :=
                Some(BulkTargets(s.dashboardData.value.topCustomers, s.selectedCustomerIds)))
      else s
    case SingleOfferOpened(c) => s.(selectedCustomersToSend := Some([c]))
    case OfferClosed => s.(selectedCustomersToSend := None)
    case OfferSent(_, platform, mobileNumber) =>
      s.(toastMessage := Some(ToastText(SentCount(s.selectedCustomersToSend), platform, mobileNumber)),
         selectedCustomersToSend := None, selectedCustomerIds := [])
    case ToastDismissed => s.(toastMessage := None)
  }

  /** The transitions that replace the dataset or change the filter leave
      the selection empty. */
  lemma DatasetOrFilterChangeClearsSelection(s: AppState, e: Event)
    requires || (e.UploadFinished? && e.outcome.Success?)
             || Step(s, e).dashboardData != s.dashboardData
             || Step(s, e).customerSegmentFilter != s.customerSegmentFilter
    ensures Step(s, e).selectedCustomerIds == []
  {
  }

  /** Starting an upload turns loading on and clears the error. A success
      installs the data and leaves the upload screen; a failure records
      the message, returns to the upload screen and keeps whatever data
      was there. Loading ends either way; the filter is kept either way. */
  lemma UploadTransitions(s: AppState, d: DashboardData, t: Thrown)
    ensures Step(s, UploadStarted).isLoading && Step(s, UploadStarted).error == None
    ensures var ok := Step(s, UploadFinished(Success(d)));
      ok.dashboardData == Some(d) && !ok.isInitialState && !ok.isLoading
      && ok.customerSegmentFilter == s.customerSegmentFilter
    ensures var bad := Step(s, UploadFinished(Failure(t)));
      bad.dashboardData == s.dashboardData && bad.error == Some(ErrorMessage(t))
      && bad.isInitialState && !bad.isLoading
      && bad.customerSegmentFilter == s.customerSegmentFilter
  {
  }

  /** A failed analysis is recorded with the analysis client's one
      catch-all message. */
  lemma AnalysisFailureRecorded(s: AppState, outcome: Analysis.CallOutcome,
                                parse: string -> Option<Analysis.Json>)
    requires Analysis.HandleReply(outcome, parse).Failure?
    ensures var t := ErrorObject(Analysis.HandleReply(outcome, parse).error);
      Step(s, UploadFinished(Failure(t))).error == Some(Analysis.AnalysisFailedMessage)
  {
  }

  /** Reset logs out, drops the data and the error, returns to the upload
      state and the `all` filter. */
  lemma ResetTransition(s: AppState)
    ensures var r := Step(s, ResetClicked);
      && !r.isAuthenticated && r.dashboardData == None && r.error == None
      && r.isInitialState && r.customerSegmentFilter == All
      && r.toastMessage == s.toastMessage && r.isLoading == s.isLoading
  {
  }

  /** A bulk offer goes to the selected dataset customers in dataset order;
      with no match, nothing changes. */
  lemma BulkOfferTransition(s: AppState)
    requires s.dashboardData.Some?
    ensures var targets := BulkTargets(s.dashboardData.value.topCustomers, s.selectedCustomerIds);
      Step(s, BulkOfferOpened) == if targets == [] then s
                                  else s.(selectedCustomersToSend := Some(targets))
  {
  }

  /** An enabled bulk-send button always opens the dialog: every selected
      id belongs to a shown, hence dataset, customer, so the targets are
      never empty. */
  lemma BulkSendEnabledOpensDialog(s: AppState)
    requires SelectionWithinView(s) && s.dashboardData.Some?
    requires !BulkSendDisabled(s.selectedCustomerIds)
    ensures Step(s, BulkOfferOpened).selectedCustomersToSend.Some?
  {
    SelectionHasTargets(s.dashboardData.value, s.customerSegmentFilter, s.selectedCustomerIds);
    BulkOfferTransition(s);
  }

  lemma SelectionHasTargets(d: DashboardData, filter: SegmentFilter, selected: seq<string>)
    requires selected != []
    requires forall i :: 0 <= i < |selected| ==>
      selected[i] in Ids(FilteredTopCustomers(Some(d), filter))
    ensures BulkTargets(d.topCustomers, selected) != []
  {
    var shown := FilteredTopCustomers(Some(d), filter);
    assert selected[0] in Ids(shown);
    var k :| 0 <= k < |shown| && Ids(shown)[k] == selected[0];
    var c := shown[k];
    assert c in d.topCustomers;
    assert c in BulkTargets(d.topCustomers, selected);
  }

  /** Sending closes the dialog, clears the selection and names the single
      recipient's number only when there is one recipient with a number. */
  lemma SendOfferTransition(s: AppState, message: string, platform: Offer.Platform,
                            mobileNumber: Option<string>)
    ensures var r := Step(s, OfferSent(message, platform, mobileNumber));
      && r.selectedCustomersToSend == None && r.selectedCustomerIds == []
      && r.toastMessage.Some?
      && r.dashboardData == s.dashboardData
  {
  }

  /** The whole state after sending: the notice is set, the dialog closed
      and the selection cleared; nothing else changes. */
  lemma SendOfferStep(s: AppState, message: string, platform: Offer.Platform,
                      mobileNumber: Option<string>)
    ensures Step(s, OfferSent(message, platform, mobileNumber))
        == s.(toastMessage := Some(ToastText(SentCount(s.selectedCustomersToSend), platform, mobileNumber)),
              selectedCustomersToSend := None, selectedCustomerIds := [])
  {
  }

  /** Ticking a row touches the selection only. */
  lemma SelectionChangeStep(s: AppState, id: string)
    ensures Step(s, SelectionChanged(id)) == s.(selectedCustomerIds := Toggled(s.selectedCustomerIds, id))
  {
  }

  /** Choosing a different filter installs it and, through the selection
      effect, empties the selection; nothing else changes. */
  lemma FilterChangeStep(s: AppState, filter: SegmentFilter)
    requires filter != s.customerSegmentFilter
    ensures Step(s, FilterChanged(filter)) == s.(customerSegmentFilter := filter, selectedCustomerIds := [])
  {
  }

  /** Clicking the header checkbox checks it exactly when the table is
      non-empty and the selection did not already have as many ids as
      rows. */
  lemma HeaderCheckboxAfterSelectAll(s: AppState)
    ensures AreAllSelected(Visible(s), Step(s, SelectAllClicked).selectedCustomerIds)
        <==> |Visible(s)| > 0 && |s.selectedCustomerIds| != |Visible(s)|
  {
  }

  // ---------------------------------------------------------------------
  // Selection stays inside the view

  /** Every selected id belongs to a customer the table is showing. */
  predicate SelectionWithinView(s: AppState) {
    forall i :: 0 <= i < |s.selectedCustomerIds| ==> s.selectedCustomerIds[i] in Ids(Visible(s))
  }

  /** What the screen makes possible: a row checkbox can only be clicked
      for a row the table shows. */
  predicate Enabled(s: AppState, e: Event) {
    e.SelectionChanged? ==> e.id in Ids(Visible(s))
  }

  /** A row click on a shown row keeps the selection inside the view. */
  lemma SelectionChangeKeepsSelectionWithinView(s: AppState, id: string)
    requires SelectionWithinView(s) && id in Ids(Visible(s))
    ensures SelectionWithinView(Step(s, SelectionChanged(id)))
  {
    var t := Step(s, SelectionChanged(id));
    assert Visible(t) == Visible(s);
    forall i | 0 <= i < |t.selectedCustomerIds|
      ensures t.selectedCustomerIds[i] in Ids(Visible(t))
    {
      var x := t.selectedCustomerIds[i];
      if x != id {
        assert x in s.selectedCustomerIds;
        var j :| 0 <= j < |s.selectedCustomerIds| && s.selectedCustomerIds[j] == x;
      }
    }
  }

  /** A header click selects nothing or exactly the shown ids. */
  lemma SelectAllKeepsSelectionWithinView(s: AppState)
    ensures SelectionWithinView(Step(s, SelectAllClicked))
  {
    var t := Step(s, SelectAllClicked);
    assert Visible(t) == Visible(s);
  }

  /** Every other event either leaves the view and the selection as they
      were, or clears the selection, and so keeps the invariant. */
  lemma {:induction false} OtherEventsKeepSelectionWithinView(s: AppState, e: Event)
    requires SelectionWithinView(s)
    requires !e.SelectionChanged? && !e.SelectAllClicked?
    ensures var t := Step(s, e);
      t.selectedCustomerIds == []
      || (t.selectedCustomerIds == s.selectedCustomerIds && Visible(t) == Visible(s))
    ensures SelectionWithinView(Step(s, e))
  {
    var t := Step(s, e);
    if t.selectedCustomerIds != [] {
      assert t.selectedCustomerIds == s.selectedCustomerIds;
      assert Visible(t) == Visible(s);
    }
  }

  /** Every enabled event keeps the selection inside the view. */
  lemma {:induction false} StepKeepsSelectionWithinView(s: AppState, e: Event)
    requires SelectionWithinView(s) && Enabled(s, e)
    ensures SelectionWithinView(Step(s, e))
  {
    match e
    case SelectionChanged(id) => SelectionChangeKeepsSelectionWithinView(s, id);
    case SelectAllClicked => SelectAllKeepsSelectionWithinView(s);
    case _ => OtherEventsKeepSelectionWithinView(s, e);
  }

  /** Without a dataset the table is empty, and so is a selection inside it. */
  lemma NoDataNoSelection(s: AppState)
    requires SelectionWithinView(s) && s.dashboardData.None?
    ensures forall id :: id !in s.selectedCustomerIds
  {
    assert Ids(Visible(s)) == [];
  }

  /** Replays events one after another. */
  function Run(s: AppState, events: seq<Event>): AppState
    decreases |events|
  {
    if events == [] then s else Run(Step(s, events[0]), events[1..])
  }

  /** Every event of the sequence is enabled when it happens. */
  predicate EnabledRun(s: AppState, events: seq<Event>)
    decreases |events|
  {
    events == [] || (Enabled(s, events[0]) && EnabledRun(Step(s, events[0]), events[1..]))
  }

  /** From the initial state, whatever the user does, the selection only
      ever holds ids of customers on screen; in particular it is empty
      whenever there is no dataset. */
  lemma {:induction false} RunKeepsSelectionWithinView(s: AppState, events: seq<Event>)
    requires SelectionWithinView(s) && EnabledRun(s, events)
    ensures SelectionWithinView(Run(s, events))
    ensures Run(s, events).dashboardData.None? ==> forall id :: id !in Run(s, events).selectedCustomerIds
    decreases |events|
  {
    if events != [] {
      StepKeepsSelectionWithinView(s, events[0]);
      RunKeepsSelectionWithinView(Step(s, events[0]), events[1..]);
    } else if s.dashboardData.None? {
      assert Run(s, events) == s;
      NoDataNoSelection(s);
    }
  }

  // ---------------------------------------------------------------------
  // View routing

  datatype Screen = LoginScreen | UploadScreen(isLoading: bool) | BrokenScreen | DashboardScreen

  /** Which screen is shown: login until authenticated, then upload while
      in the initial state, then the dashboard when there is data. */
  function ScreenOf(s: AppState): Screen {
    if !s.isAuthenticated then LoginScreen
    else if s.isInitialState then UploadScreen(s.isLoading)
    else if s.dashboardData.None? then BrokenScreen
    else DashboardScreen
  }

  /** Signing in from the start leads to the idle upload screen, a
      successful analysis to the dashboard, a failed one back to the
      upload screen, and reset to the login screen. */
  lemma Routing(s: AppState, d: DashboardData, t: Thrown)
    ensures ScreenOf(Step(Initial, LoginSucceeded)) == UploadScreen(false)
    ensures s.isAuthenticated ==> ScreenOf(Step(s, UploadFinished(Success(d)))) == DashboardScreen
    ensures s.isAuthenticated ==> ScreenOf(Step(s, UploadFinished(Failure(t)))) == UploadScreen(false)
    ensures ScreenOf(Step(s, ResetClicked)) == LoginScreen
  {
  }

  /** The error text on screen, as written: only the dashboard has an error
      box; the upload screen is given no error to show. */
  function DisplayedError(s: AppState): Option<string> {
    if ScreenOf(s) == DashboardScreen then s.error else None
  }

  /** As written, a failed analysis routes back to the upload screen, where
      its message is never shown. */
  lemma FailureMessageNotShown(s: AppState, t: Thrown)
    requires s.isAuthenticated
    ensures Step(s, UploadFinished(Failure(t))).error == Some(ErrorMessage(t))
    ensures DisplayedError(Step(s, UploadFinished(Failure(t)))) == None
  {
  }

  /** The error text on screen as evidently intended: the upload screen
      shows the error too. */
  function DisplayedErrorIntended(s: AppState): Option<string> {
    match ScreenOf(s)
    case DashboardScreen => s.error
    case UploadScreen(_) => s.error
    case _ => None
  }

  lemma FailureMessageShownIntended(s: AppState, t: Thrown)
    requires s.isAuthenticated
    ensures DisplayedErrorIntended(Step(s, UploadFinished(Failure(t)))) == Some(ErrorMessage(t))
    ensures DisplayedErrorIntended(Step(s, UploadStarted)) == None
  {
  }

  // ---------------------------------------------------------------------
  // The component

  class App {
    var isAuthenticated: bool
    var dashboardData: Option<DashboardData>
    var isLoading: bool
    var error: Option<string>
    var isInitialState: bool
    var selectedCustomersToSend: Option<seq<TopCustomer>>
    var selectedCustomerIds: seq<string>
    var toastMessage: Option<string>
    var customerSegmentFilter: SegmentFilter

    function State(): AppState
      reads this
    {
      AppState(isAuthenticated, dashboardData, isLoading, error, isInitialState,
               selectedCustomersToSend, selectedCustomerIds, toastMessage, customerSegmentFilter)
    }

    constructor()
      ensures State() == Initial
    {
      isAuthenticated := false;
      dashboardData := None;
      isLoading := false;
      error := None;
      isInitialState := true;
      selectedCustomersToSend := None;
      selectedCustomerIds := [];
      toastMessage := None;
      customerSegmentFilter := All;
    }

    /** The customers the table shows. */
    function VisibleCustomers(): seq<TopCustomer>
      reads this
    {
      Visible(State())
    }

    method HandleLoginSuccess()
      modifies this
      ensures State() == Step(old(State()), LoginSucceeded)
    {
      isAuthenticated := true;
    }

    /** The part of the upload handler before the analysis is awaited. */
    method BeginUpload()
      modifies this
      ensures State() == Step(old(State()), UploadStarted)
    {
      isLoading := true;
      error := None;
    }

    /** The part after it: the analysis produced data or threw. */
    method CompleteUpload(outcome: Result<DashboardData, Thrown>)
      modifies this
      ensures State() == Step(old(State()), UploadFinished(outcome))
    {
      match outcome {
        case Success(data) =>
          dashboardData := Some(data);
          isInitialState := false;
          // a new dataset object: the selection effect fires
          selectedCustomerIds := [];
        case Failure(thrown) =>
          error := Some(ErrorMessage(thrown));
          isInitialState := true;
      }
      isLoading := false;
    }

    method HandleReset()
      modifies this
      ensures State() == Step(old(State()), ResetClicked)
    {
      var changed := dashboardData.Some? || customerSegmentFilter != All;
      dashboardData := None;
      error := None;
      isInitialState := true;
      customerSegmentFilter := All;
      isAuthenticated := false;
      if changed {
        selectedCustomerIds := [];
      }
    }

    method SetCustomerSegmentFilter(filter: SegmentFilter)
      modifies this
      ensures State() == Step(old(State()), FilterChanged(filter))
    {
      if filter != customerSegmentFilter {
        customerSegmentFilter := filter;
        selectedCustomerIds := [];
      }
    }

    method HandleSelectionChange(customerId: string)
      modifies this
      ensures State() == Step(old(State()), SelectionChanged(customerId))
    {
      selectedCustomerIds := Toggled(selectedCustomerIds, customerId);
    }

    method HandleSelectAll()
      modifies this
      ensures State() == Step(old(State()), SelectAllClicked)
    {
      var visible := VisibleCustomers();
      if |selectedCustomerIds| == |visible| {
        selectedCustomerIds := [];
      } else {
        selectedCustomerIds := Ids(visible);
      }
    }

    method HandleOpenBulkOfferModal()
      modifies this
      ensures State() == Step(old(State()), BulkOfferOpened)
    {
      if dashboardData.Some? {
        var customers := BulkTargets(dashboardData.value.topCustomers, selectedCustomerIds);
        if |customers| > 0 {
          selectedCustomersToSend := Some(customers);
        }
      }
    }

    method HandleOpenSingleOfferModal(customer: TopCustomer)
      modifies this
      ensures State() == Step(old(State()), SingleOfferOpened(customer))
    {
      selectedCustomersToSend := Some([customer]);
    }

    method HandleCloseOfferModal()
      modifies this
      ensures State() == Step(old(State()), OfferClosed)
    {
      selectedCustomersToSend := None;
    }

    method HandleSendOffer(message: string, platform: Offer.Platform, mobileNumber: Option<string>)
      modifies this
      ensures State() == Step(old(State()), OfferSent(message, platform, mobileNumber))
    {
      ghost var before := State();
      SendOfferStep(before, message, platform, mobileNumber);
      var toast := ToastText(SentCount(selectedCustomersToSend), platform, mobileNumber);
      toastMessage := Some(toast);
      // closing the dialog, as the close handler does
      selectedCustomersToSend := None;
      selectedCustomerIds := [];
      assert State() == AppState(before.isAuthenticated, before.dashboardData, before.isLoading,
                                 before.error, before.isInitialState, None, [], Some(toast),
                                 before.customerSegmentFilter);
    }

    /** The notice closes itself (after a delay) or is closed by the user. */
    method DismissToast()
      modifies this
      ensures State() == Step(old(State()), ToastDismissed)
    {
      toastMessage := None;
    }
  }

  /** Selecting two customers and then filtering to a segment neither
      belongs to leaves nothing selected. */
  method FilterClearsSelectionScenario(a: TopCustomer, b: TopCustomer, d: DashboardData)
    requires d.topCustomers == [a, b] && a.segment == Premium && b.segment == Premium
  {
    var app := new App();
    app.HandleLoginSuccess();
    app.CompleteUpload(Success(d));
    assert app.dashboardData == Some(d) && app.customerSegmentFilter == All;
    SelectionChangeStep(app.State(), a.id);
    app.HandleSelectionChange(a.id);
    SelectionChangeStep(app.State(), b.id);
    app.HandleSelectionChange(b.id);
    FilterChangeStep(app.State(), Only(Normal));
    app.SetCustomerSegmentFilter(Only(Normal));
    assert app.selectedCustomerIds == [];
    assert app.dashboardData == Some(d) && app.customerSegmentFilter == Only(Normal);
    assert forall c :: c !in app.VisibleCustomers();
  }
}
