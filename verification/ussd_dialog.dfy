/**
 * What the USSD dialog guarantees across its handlers and across turns: who
 * is refused, where each main-menu choice leads, when the payment and
 * complaint wizards advance, when a charge is requested or a complaint
 * filed, and which invariants of the session record every turn keeps.
 */
module UssdDialog {
  import opened Util
  import opened UssdMenu
  import opened UssdController

  // ---------------------------------------------------------------------------
  // The start of a turn

  /** An unregistered number is refused and its session closed; nothing else in the record changes. */
  lemma UnregisteredCallerRefused(st: SessionState, text: Option<string>, w: World)
    ensures TurnOutcome(st, None, text, w).reply == End(AccessDeniedNotice)
    ensures TurnOutcome(st, None, text, w).state == st.(isActive := false)
  {
  }

  /** A registered caller's empty text shows the main menu, whatever step the record was on. */
  lemma EmptyTextShowsMainMenu(st: SessionState, u: User, text: Option<string>, w: World)
    requires text == None || text == Some("")
    ensures TurnOutcome(st, Some(u), text, w).reply == Continue(MainMenuScreen(u, w.pendingBills))
    ensures TurnOutcome(st, Some(u), text, w).state == st.(userId := Some(u.id), currentStep := MainMenu)
  {
  }

  /** A handler's outcome once the turn has marked an ending session inactive. */
  function Settle(o: Outcome): Outcome {
    if o.reply.endSession then Outcome(o.state.(isActive := false), o.reply) else o
  }

  /** A registered caller's turn with a non-empty newest input is that input routed, then settled. */
  lemma TurnRoutes(st: SessionState, u: User, text: Option<string>, w: World)
    requires text != None && text != Some("")
    ensures TurnOutcome(st, Some(u), text, w) == Settle(Route(st.(userId := Some(u.id)), w, u, LastInput(text)))
  {
  }

  // ---------------------------------------------------------------------------
  // The main menu

  /**
   * A main-menu choice keeps the dialog open exactly for `1` with bills on
   * record, `2` with a fresh payment wizard and pending bills, `3` with a
   * fresh complaint wizard, and `6`; everything else ends it.
   */
  lemma MainChoiceContinues(st: SessionState, w: World, u: User, choice: string)
    ensures !MainChoice(st, w, u, choice).reply.endSession <==>
      || (choice == "1" && w.userBills != [])
      || (choice == "2" && st.data.paymentStep.None? && w.pendingBills != [])
      || (choice == "3" && st.data.complaintStep.None?)
      || choice == "6"
  {
  }

  /** Where each open-ended choice leaves the session. */
  lemma MainChoiceSteps(st: SessionState, w: World, u: User, choice: string)
    ensures choice == "1" && w.userBills != [] ==>
      MainChoice(st, w, u, choice).state.currentStep == BillsDisplayed
    ensures choice == "2" && st.data.paymentStep.None? && w.pendingBills != [] ==>
      MainChoice(st, w, u, choice).state.currentStep == SelectBill &&
      MainChoice(st, w, u, choice).state.data.pendingBills == Some(w.pendingBills)
    ensures choice == "3" && st.data.complaintStep.None? ==>
      MainChoice(st, w, u, choice).state.currentStep == SelectComplaintCategory &&
      MainChoice(st, w, u, choice).state.data.complaintCategories == Some(ComplaintCategories())
    ensures choice == "6" ==> MainChoice(st, w, u, choice).state.currentStep == HelpMenu
  {
  }

  /** The closing choices and an unknown choice end the dialog with their own notices. */
  lemma MainChoiceEndings(st: SessionState, w: World, u: User, choice: string)
    ensures choice == "4" ==> MainChoice(st, w, u, choice).reply == End(ProfileCard(u, w.userBills))
    ensures choice == "5" ==>
      MainChoice(st, w, u, choice).reply == End(LandlordCard(FindLandlord(w.users, u.apartmentName)))
    ensures choice == "0" ==> MainChoice(st, w, u, choice).reply == End(GoodbyeNotice)
    ensures choice !in {"1", "2", "3", "4", "5", "6", "0"} ==>
      MainChoice(st, w, u, choice).reply == End(InvalidMainOptionNotice)
  {
  }

  /**
   * Re-entering a wizard whose sub-step survived from earlier in the session
   * hands that sub-step a missing input, which it refuses: the dialog ends.
   */
  lemma StaleWizardEnds(st: SessionState, w: World, u: User)
    ensures st.data.paymentStep == Some(SelectBillStep) ==>
      MainChoice(st, w, u, "2").reply == End(InvalidSelectionNotice)
    ensures st.data.paymentStep == Some(EnterAmountStep) && st.data.selectedBill.Some? ==>
      MainChoice(st, w, u, "2").reply == End(InvalidAmountNotice)
    ensures st.data.paymentStep == Some(ConfirmPaymentStep) ==>
      MainChoice(st, w, u, "2").reply == End(PaymentCancelledNotice)
    ensures st.data.complaintStep == Some(SelectCategoryStep) ==>
      MainChoice(st, w, u, "3").reply == End(InvalidCategoryNotice)
    ensures st.data.complaintStep == Some(EnterDescriptionStep) ==>
      MainChoice(st, w, u, "3").reply == End(ComplaintErrorNotice)
  {
  }

  /** `0` inside any sub-menu goes back to the main menu and keeps everything else, scratch data included. */
  lemma ZeroGoesBack(st: SessionState, w: World, u: User)
    requires st.currentStep in {ViewBills, BillsDisplayed, MakePayment, SelectBill, EnterAmount, ConfirmPayment,
                                FileComplaint, SelectComplaintCategory, EnterComplaintDescription, HelpMenu}
    ensures Route(st, w, u, "0").reply == Continue(MainMenuScreen(u, w.pendingBills))
    ensures Route(st, w, u, "0").state == st.(currentStep := MainMenu)
  {
  }

  // ---------------------------------------------------------------------------
  // The payment wizard

  /** A bill is selected exactly when the input parses to an index between 1 and the number of listed bills. */
  lemma BillSelection(st: SessionState, bills: seq<BillInfo>, input: Option<string>)
    requires st.data.pendingBills == Some(bills)
    ensures !SelectBillOutcome(st, input).reply.endSession <==>
      ParseIndex(input).Some? && 1 <= ParseIndex(input).value <= |bills|
    ensures !SelectBillOutcome(st, input).reply.endSession ==>
      SelectBillOutcome(st, input).state.data.selectedBill == Some(bills[ParseIndex(input).value - 1]) &&
      SelectBillOutcome(st, input).state.data.paymentStep == Some(EnterAmountStep) &&
      SelectBillOutcome(st, input).state.currentStep == EnterAmount &&
      SelectBillOutcome(st, input).reply.message == AmountRequest(bills[ParseIndex(input).value - 1])
    ensures SelectBillOutcome(st, input).reply.endSession ==>
      SelectBillOutcome(st, input) == Outcome(st, End(InvalidSelectionNotice))
  {
  }

  /** Typing the number shown next to a bill selects that bill. */
  lemma TypedNumberSelectsBill(st: SessionState, bills: seq<BillInfo>, k: nat)
    requires st.data.pendingBills == Some(bills) && 1 <= k <= |bills|
    ensures SelectBillOutcome(st, Some(ToDecimal(k))).state.data.selectedBill == Some(bills[k - 1])
    ensures !SelectBillOutcome(st, Some(ToDecimal(k))).reply.endSession
  {
    ParseIntOfRendered(k);
  }

  /**
   * The amount step accepts a valid amount of at least 100 and at most the
   * outstanding balance, stores it and previews the balance left after it;
   * a refused amount ends the dialog and leaves the record as it was.
   */
  lemma AmountEntry(st: SessionState, bill: BillInfo, input: Option<string>)
    requires st.data.selectedBill == Some(bill)
    ensures !EnterAmountOutcome(st, input).reply.endSession <==>
      EnteredAmount(input).Some? && EnteredAmount(input).value <= Outstanding(bill)
    ensures EnteredAmount(input).None? ==>
      EnterAmountOutcome(st, input) == Outcome(st, End(InvalidAmountNotice))
    ensures EnteredAmount(input).Some? && EnteredAmount(input).value > Outstanding(bill) ==>
      EnterAmountOutcome(st, input) == Outcome(st, End(AmountTooHighNotice))
    ensures !EnterAmountOutcome(st, input).reply.endSession ==>
      EnterAmountOutcome(st, input).state.data.paymentAmount == Some(EnteredAmount(input).value) &&
      EnterAmountOutcome(st, input).state.data.paymentStep == Some(ConfirmPaymentStep) &&
      EnterAmountOutcome(st, input).state.currentStep == ConfirmPayment &&
      EnterAmountOutcome(st, input).reply.message == ConfirmRequest(bill, EnteredAmount(input).value) &&
      0 <= Outstanding(bill) - EnteredAmount(input).value
  {
  }

  /** Typing an amount between 100 and the outstanding balance (and at most one million) is accepted as that amount. */
  lemma TypedAmountAccepted(st: SessionState, bill: BillInfo, a: nat)
    requires st.data.selectedBill == Some(bill)
    requires MinimumPayment <= a <= MaxAmount && a <= Outstanding(bill)
    ensures EnterAmountOutcome(st, Some(ToDecimal(a))).state.data.paymentAmount == Some(a)
    ensures EnterAmountOutcome(st, Some(ToDecimal(a))).reply == Continue(ConfirmRequest(bill, a))
  {
    ValidAmountOfRendered(a);
    AmountRoundTrip(a);
  }

  /**
   * Confirmation: `1` asks the gateway to charge the caller's primary number
   * the stored amount for the stored bill and ends; `2` goes back to the
   * main menu; anything else cancels. Only `1` ever requests a charge.
   */
  lemma Confirmation(st: SessionState, w: World, u: User, bill: BillInfo, amount: int, input: Option<string>)
    requires st.data.selectedBill == Some(bill) && st.data.paymentAmount == Some(amount)
    ensures input == Some("1") ==>
      ConfirmOutcome(st, w, u, input).reply.charge == Some(Charge(u.primaryPhone, amount, bill.id)) &&
      ConfirmOutcome(st, w, u, input).reply.endSession &&
      ConfirmOutcome(st, w, u, input).state == st
    ensures input == Some("1") ==>
      (ConfirmOutcome(st, w, u, input).reply.message == PaymentInitiatedNotice(bill, amount) <==> w.gatewayAccepts)
    ensures input == Some("2") ==>
      ConfirmOutcome(st, w, u, input) ==
        Outcome(st.(currentStep := MainMenu), Continue(MainMenuScreen(u, w.pendingBills)))
    ensures input != Some("1") ==> ConfirmOutcome(st, w, u, input).reply.charge.None?
    ensures input != Some("1") && input != Some("2") ==>
      ConfirmOutcome(st, w, u, input) == Outcome(st, End(PaymentCancelledNotice))
  {
  }

  /**
   * The payment scratch data is consistent: before an amount step nothing
   * is stored as the amount, and a stored amount was accepted against the
   * stored bill (at least 100, at most one million and the outstanding balance).
   */
  predicate PaymentConsistent(d: Scratch) {
    && (d.paymentStep.None? || d.paymentStep == Some(SelectBillStep) ==> d.paymentAmount.None?)
    && (d.paymentAmount.Some? ==>
          && d.selectedBill.Some?
          && MinimumPayment <= d.paymentAmount.value <= MaxAmount
          && d.paymentAmount.value <= Outstanding(d.selectedBill.value))
  }

  /** The payment part of the scratch data. */
  predicate SamePayment(a: Scratch, b: Scratch) {
    a.paymentStep == b.paymentStep && a.pendingBills == b.pendingBills &&
    a.selectedBill == b.selectedBill && a.paymentAmount == b.paymentAmount
  }

  lemma PaymentFlowConsistent(st: SessionState, w: World, u: User, input: Option<string>)
    requires PaymentConsistent(st.data)
    ensures PaymentConsistent(PaymentFlow(st, w, u, input).state.data)
  {
  }

  lemma ComplaintFlowKeepsPayment(st: SessionState, w: World, u: User, input: Option<string>)
    ensures SamePayment(st.data, ComplaintFlow(st, w, u, input).state.data)
  {
  }

  lemma MainChoiceConsistent(st: SessionState, w: World, u: User, choice: string)
    requires PaymentConsistent(st.data)
    ensures PaymentConsistent(MainChoice(st, w, u, choice).state.data)
  {
    var waiting := st.(currentStep := AwaitingMainChoice);
    BillsMenuKeeps(waiting.(currentStep := ViewBills), w, u, None);
    PaymentFlowConsistent(waiting.(currentStep := MakePayment), w, u, None);
    ComplaintFlowKeepsPayment(waiting.(currentStep := FileComplaint), w, u, None);
    HelpFlowKeeps(waiting.(currentStep := HelpMenu), w, u, None);
  }

  lemma RouteConsistent(st: SessionState, w: World, u: User, lastInput: string)
    requires PaymentConsistent(st.data)
    ensures PaymentConsistent(Route(st, w, u, lastInput).state.data)
  {
    match st.currentStep
    case MainMenu => MainChoiceConsistent(st.(currentStep := AwaitingMainChoice), w, u, lastInput);
    case AwaitingMainChoice => MainChoiceConsistent(st, w, u, lastInput);
    case ViewBills | BillsDisplayed => BillsMenuKeeps(st, w, u, Some(lastInput));
    case MakePayment | SelectBill | EnterAmount | ConfirmPayment => PaymentFlowConsistent(st, w, u, Some(lastInput));
    case FileComplaint | SelectComplaintCategory | EnterComplaintDescription =>
      ComplaintFlowKeepsPayment(st, w, u, Some(lastInput));
    case HelpMenu => HelpFlowKeeps(st, w, u, Some(lastInput));
    case _ =>
  }

  /** Every turn keeps the payment scratch data consistent. */
  lemma TurnKeepsPaymentConsistent(st: SessionState, caller: Option<User>, text: Option<string>, w: World)
    requires PaymentConsistent(st.data)
    ensures PaymentConsistent(TurnOutcome(st, caller, text, w).state.data)
  {
    if caller.Some? && !(text == None || text == Some("")) {
      RouteConsistent(st.(userId := Some(caller.value.id)), w, caller.value, LastInput(text));
    }
  }

  /** A charge requested by the payment handler comes from the confirmation step and the input `1`. */
  lemma PaymentFlowCharge(st: SessionState, w: World, u: User, input: Option<string>)
    requires PaymentConsistent(st.data)
    ensures PaymentFlow(st, w, u, input).reply.charge.Some? ==>
      st.data.paymentStep == Some(ConfirmPaymentStep) && input == Some("1") &&
      st.data.selectedBill.Some? && st.data.paymentAmount.Some? &&
      PaymentFlow(st, w, u, input).reply.charge ==
        Some(Charge(u.primaryPhone, st.data.paymentAmount.value, st.data.selectedBill.value.id))
  {
  }

  /** The other handlers never request a charge. */
  lemma BillsMenuNoCharge(st: SessionState, w: World, u: User, input: Option<string>)
    ensures BillsMenu(st, w, u, input).reply.charge.None?
  {
  }

  lemma ComplaintFlowNoCharge(st: SessionState, w: World, u: User, input: Option<string>)
    ensures ComplaintFlow(st, w, u, input).reply.charge.None?
  {
  }

  lemma HelpFlowNoCharge(st: SessionState, w: World, u: User, input: Option<string>)
    ensures HelpFlow(st, w, u, input).reply.charge.None?
  {
  }

  /** A main-menu choice never requests a charge: re-entering the payment wizard hands it no input. */
  lemma MainChoiceNoCharge(st: SessionState, w: World, u: User, choice: string)
    ensures MainChoice(st, w, u, choice).reply.charge.None?
  {
    var waiting := st.(currentStep := AwaitingMainChoice);
    BillsMenuNoCharge(waiting.(currentStep := ViewBills), w, u, None);
    ComplaintFlowNoCharge(waiting.(currentStep := FileComplaint), w, u, None);
    HelpFlowNoCharge(waiting.(currentStep := HelpMenu), w, u, None);
  }

  /** Routed input asks for money only at the confirmation step on `1`, within the stored bill's balance. */
  lemma RouteCharge(st: SessionState, w: World, u: User, last: string)
    requires PaymentConsistent(st.data)
    ensures Route(st, w, u, last).reply.charge.Some? ==>
      && st.currentStep in {MakePayment, SelectBill, EnterAmount, ConfirmPayment}
      && st.data.paymentStep == Some(ConfirmPaymentStep)
      && last == "1"
      && st.data.selectedBill.Some?
      && Route(st, w, u, last).reply.charge.value.phone == u.primaryPhone
      && Route(st, w, u, last).reply.charge.value.billId == st.data.selectedBill.value.id
      && MinimumPayment <= Route(st, w, u, last).reply.charge.value.amount
      && Route(st, w, u, last).reply.charge.value.amount <= Outstanding(st.data.selectedBill.value)
  {
    match st.currentStep
    case MakePayment | SelectBill | EnterAmount | ConfirmPayment =>
      assert Route(st, w, u, last) == PaymentFlow(st, w, u, Some(last));
      PaymentFlowCharge(st, w, u, Some(last));
    case MainMenu =>
      if last != "" {
        assert Route(st, w, u, last) == MainChoice(st.(currentStep := AwaitingMainChoice), w, u, last);
        MainChoiceNoCharge(st.(currentStep := AwaitingMainChoice), w, u, last);
      }
    case AwaitingMainChoice =>
      assert Route(st, w, u, last) == MainChoice(st, w, u, last);
      MainChoiceNoCharge(st, w, u, last);
    case ViewBills | BillsDisplayed =>
      assert Route(st, w, u, last) == BillsMenu(st, w, u, Some(last));
      BillsMenuNoCharge(st, w, u, Some(last));
    case FileComplaint | SelectComplaintCategory | EnterComplaintDescription =>
      assert Route(st, w, u, last) == ComplaintFlow(st, w, u, Some(last));
      ComplaintFlowNoCharge(st, w, u, Some(last));
    case HelpMenu =>
      assert Route(st, w, u, last) == HelpFlow(st, w, u, Some(last));
      HelpFlowNoCharge(st, w, u, Some(last));
    case _ =>
  }

  /**
   * A turn asks the gateway for money only at the confirmation step on the
   * input `1`, for the registered caller's primary number and the stored
   * bill, and never for less than 100 or more than the bill's outstanding balance.
   */
  lemma ChargeOnlyOnConfirmation(st: SessionState, caller: Option<User>, text: Option<string>, w: World)
    requires PaymentConsistent(st.data)
    ensures TurnOutcome(st, caller, text, w).reply.charge.Some? ==>
      && caller.Some?
      && st.currentStep in {MakePayment, SelectBill, EnterAmount, ConfirmPayment}
      && st.data.paymentStep == Some(ConfirmPaymentStep)
      && LastInput(text) == "1"
      && st.data.selectedBill.Some?
      && TurnOutcome(st, caller, text, w).reply.charge.value.phone == caller.value.primaryPhone
      && TurnOutcome(st, caller, text, w).reply.charge.value.billId == st.data.selectedBill.value.id
      && MinimumPayment <= TurnOutcome(st, caller, text, w).reply.charge.value.amount
      && TurnOutcome(st, caller, text, w).reply.charge.value.amount <= Outstanding(st.data.selectedBill.value)
  {
    if caller.Some? && !(text == None || text == Some("")) {
      TurnRoutes(st, caller.value, text, w);
      RouteCharge(st.(userId := Some(caller.value.id)), w, caller.value, LastInput(text));
    }
  }

  // ---------------------------------------------------------------------------
  // The complaint wizard

  /** A category is chosen exactly when the input parses to an index between 1 and the number of listed categories. */
  lemma CategorySelection(st: SessionState, categories: seq<string>, input: Option<string>)
    requires st.data.complaintCategories == Some(categories)
    ensures !SelectCategoryOutcome(st, input).reply.endSession <==>
      ParseIndex(input).Some? && 1 <= ParseIndex(input).value <= |categories|
    ensures !SelectCategoryOutcome(st, input).reply.endSession ==>
      SelectCategoryOutcome(st, input).state.data.complaintCategory == Some(categories[ParseIndex(input).value - 1]) &&
      SelectCategoryOutcome(st, input).state.data.complaintStep == Some(EnterDescriptionStep) &&
      SelectCategoryOutcome(st, input).state.currentStep == EnterComplaintDescription &&
      SelectCategoryOutcome(st, input).reply.message == DescriptionRequest(categories[ParseIndex(input).value - 1])
    ensures SelectCategoryOutcome(st, input).reply.endSession ==>
      SelectCategoryOutcome(st, input) == Outcome(st, End(InvalidCategoryNotice))
  {
  }

  /** Typing the number shown next to a category chooses that category. */
  lemma TypedNumberChoosesCategory(st: SessionState, categories: seq<string>, k: nat)
    requires st.data.complaintCategories == Some(categories) && 1 <= k <= |categories|
    ensures SelectCategoryOutcome(st, Some(ToDecimal(k))).state.data.complaintCategory == Some(categories[k - 1])
    ensures !SelectCategoryOutcome(st, Some(ToDecimal(k))).reply.endSession
  {
    ParseIntOfRendered(k);
  }

  /**
   * The description step files a complaint exactly when the trimmed text is
   * 10 to 500 UTF-16 units long and the store accepts it; the complaint is
   * Open, of Medium priority, in the chosen category, for the caller and
   * their apartment. The tenant is acknowledged first, then the landlord of
   * the apartment is alerted when there is one.
   */
  lemma DescriptionRules(w: World, u: User, category: string, text: string)
    ensures DescriptionReply(w, u, Some(category), Some(text)).complaint.Some? <==>
      MinDescription <= JsLength(Trim(text)) <= MaxDescription && w.complaintSaved
    ensures JsLength(Trim(text)) < MinDescription ==>
      DescriptionReply(w, u, Some(category), Some(text)) == End(DescriptionTooShortNotice)
    ensures MaxDescription < JsLength(Trim(text)) ==>
      DescriptionReply(w, u, Some(category), Some(text)) == End(DescriptionTooLongNotice)
    ensures DescriptionReply(w, u, Some(category), Some(text)).complaint.Some? ==>
      DescriptionReply(w, u, Some(category), Some(text)).complaint.value ==
        Complaint(w.newComplaintId, u.id, u.apartmentName, category, Trim(text), "Open", "Medium") &&
      DescriptionReply(w, u, Some(category), Some(text)).message == ComplaintFiledNotice(category, w.newComplaintId)
    ensures DescriptionReply(w, u, Some(category), Some(text)).complaint.Some? ==>
      |DescriptionReply(w, u, Some(category), Some(text)).sms| >= 1 &&
      DescriptionReply(w, u, Some(category), Some(text)).sms[0] ==
        ComplaintAcknowledgment(u, DescriptionReply(w, u, Some(category), Some(text)).complaint.value) &&
      (|DescriptionReply(w, u, Some(category), Some(text)).sms| == 2 <==> FindLandlord(w.users, u.apartmentName).Some?)
    ensures DescriptionReply(w, u, Some(category), Some(text)).complaint.None? ==>
      DescriptionReply(w, u, Some(category), Some(text)).sms == []
    ensures DescriptionReply(w, u, Some(category), Some(text)).charge.None?
  {
    var d := Trim(text);
    assert DescriptionReply(w, u, Some(category), Some(text)) == FileDescription(w, u, Some(category), d);
    if JsLength(d) < MinDescription {
    } else if JsLength(d) > MaxDescription {
    } else if !w.complaintSaved {
    } else {
      assert FileDescription(w, u, Some(category), d) == ComplaintFiling(w, u, category, d);
    }
  }

  /** Surrounding blanks do not matter: a description and its trimmed form get the same reply. */
  lemma DescriptionTrimmedOnce(w: World, u: User, category: Option<string>, text: string)
    ensures DescriptionReply(w, u, category, Some(Trim(text))) == DescriptionReply(w, u, category, Some(text))
  {
    TrimIdempotent(text);
  }

  /** A complaint is only ever filed from the description step, for the caller, with a description of 10 to 500 UTF-16 units. */
  lemma ComplaintOnlyFromDescription(st: SessionState, caller: Option<User>, text: Option<string>, w: World)
    ensures TurnOutcome(st, caller, text, w).reply.complaint.Some? ==>
      && caller.Some?
      && st.currentStep in {FileComplaint, SelectComplaintCategory, EnterComplaintDescription}
      && st.data.complaintStep == Some(EnterDescriptionStep)
      && TurnOutcome(st, caller, text, w).reply.complaint.value.tenant == caller.value.id
      && MinDescription <= JsLength(TurnOutcome(st, caller, text, w).reply.complaint.value.description) <= MaxDescription
  {
    if caller.Some? && !(text == None || text == Some("")) {
      RouteFiling(st.(userId := Some(caller.value.id)), w, caller.value, LastInput(text));
    }
  }

  lemma RouteFiling(st: SessionState, w: World, u: User, last: string)
    ensures Route(st, w, u, last).reply.complaint.Some? ==>
      && st.currentStep in {FileComplaint, SelectComplaintCategory, EnterComplaintDescription}
      && st.data.complaintStep == Some(EnterDescriptionStep)
      && Route(st, w, u, last).reply.complaint.value.tenant == u.id
      && MinDescription <= JsLength(Route(st, w, u, last).reply.complaint.value.description) <= MaxDescription
  {
    match st.currentStep
    case MainMenu => MainChoiceFilesNothing(st.(currentStep := AwaitingMainChoice), w, u, last);
    case AwaitingMainChoice => MainChoiceFilesNothing(st, w, u, last);
    case ViewBills | BillsDisplayed => BillsMenuFilesNothing(st, w, u, Some(last));
    case MakePayment | SelectBill | EnterAmount | ConfirmPayment => PaymentFlowFilesNothing(st, w, u, Some(last));
    case FileComplaint | SelectComplaintCategory | EnterComplaintDescription =>
      ComplaintFlowFiling(st, w, u, Some(last));
    case HelpMenu => HelpFlowFilesNothing(st, w, u, Some(last));
    case _ =>
  }

  lemma BillsMenuFilesNothing(st: SessionState, w: World, u: User, input: Option<string>)
    ensures BillsMenu(st, w, u, input).reply.complaint.None?
  {
  }

  lemma PaymentFlowFilesNothing(st: SessionState, w: World, u: User, input: Option<string>)
    ensures PaymentFlow(st, w, u, input).reply.complaint.None?
  {
  }

  lemma HelpFlowFilesNothing(st: SessionState, w: World, u: User, input: Option<string>)
    ensures HelpFlow(st, w, u, input).reply.complaint.None?
  {
  }

  /** The complaint handler files only at its description step, for the caller, with a description of 10 to 500 units. */
  lemma ComplaintFlowFiling(st: SessionState, w: World, u: User, input: Option<string>)
    ensures ComplaintFlow(st, w, u, input).reply.complaint.Some? ==>
      st.data.complaintStep == Some(EnterDescriptionStep) &&
      ComplaintFlow(st, w, u, input).reply.complaint.value.tenant == u.id &&
      MinDescription <= JsLength(ComplaintFlow(st, w, u, input).reply.complaint.value.description) <= MaxDescription
  {
    if input != Some("0") {
      match st.data.complaintStep
      case None =>
      case Some(SelectCategoryStep) => CategoryFilesNothing(st, input);
      case Some(EnterDescriptionStep) =>
        assert ComplaintFlow(st, w, u, input).reply == DescriptionReply(w, u, st.data.complaintCategory, input);
        DescriptionFilesForCaller(w, u, st.data.complaintCategory, input);
    }
  }

  lemma CategoryFilesNothing(st: SessionState, input: Option<string>)
    ensures SelectCategoryOutcome(st, input).reply.complaint.None?
  {
  }

  lemma DescriptionFilesForCaller(w: World, u: User, category: Option<string>, input: Option<string>)
    ensures DescriptionReply(w, u, category, input).complaint.Some? ==>
      DescriptionReply(w, u, category, input).complaint.value.tenant == u.id &&
      MinDescription <= JsLength(DescriptionReply(w, u, category, input).complaint.value.description) <= MaxDescription
  {
  }

  /** A main-menu choice never files a complaint: re-entering the complaint wizard hands it no input. */
  lemma MainChoiceFilesNothing(st: SessionState, w: World, u: User, choice: string)
    ensures MainChoice(st, w, u, choice).reply.complaint.None?
  {
    var waiting := st.(currentStep := AwaitingMainChoice);
    BillsMenuFilesNothing(waiting.(currentStep := ViewBills), w, u, None);
    PaymentFlowFilesNothing(waiting.(currentStep := MakePayment), w, u, None);
    HelpFlowFilesNothing(waiting.(currentStep := HelpMenu), w, u, None);
  }

  // ---------------------------------------------------------------------------
  // A whole dialog

  /** One gateway request: the caller it resolves to, the accumulated text, and the world it sees. */
  datatype Request = Request(caller: Option<User>, text: Option<string>, world: World)

  /** The replies a session gives to a series of requests, and the record it is left with. */
  datatype Transcript = Transcript(state: SessionState, replies: seq<Reply>)

  function Converse(st: SessionState, reqs: seq<Request>): (t: Transcript)
    ensures |t.replies| == |reqs|
    decreases |reqs|
  {
    if reqs == [] then Transcript(st, [])
    else
      var o := TurnOutcome(st, reqs[0].caller, reqs[0].text, reqs[0].world);
      var rest := Converse(o.state, reqs[1..]);
      Transcript(rest.state, [o.reply] + rest.replies)
  }

  /** The invariants of the session record. */
  predicate RecordValid(st: SessionState) {
    ScratchValid(st.data) && PaymentConsistent(st.data)
  }

  lemma InitialRecordValid(phone: string)
    ensures RecordValid(InitialState(phone))
  {
  }

  /** What one turn keeps of the record, and how its reply and the record's activity agree. */
  predicate TurnKept(st: SessionState, o: Outcome) {
    && RecordValid(o.state)
    && o.state.phoneNumber == st.phoneNumber
    && WellTagged(o.reply)
    && o.state.isActive == (st.isActive && !o.reply.endSession)
  }

  lemma TurnKeptHolds(st: SessionState, r: Request)
    requires RecordValid(st)
    ensures TurnKept(st, TurnOutcome(st, r.caller, r.text, r.world))
  {
    TurnKeeps(st, r.caller, r.text, r.world);
    TurnKeepsPaymentConsistent(st, r.caller, r.text, r.world);
  }

  /** A reply list headed by `first`: every reply is tagged, or none ends, exactly when that holds of `first` and of the rest. */
  lemma RepliesCons(first: Reply, rest: seq<Reply>)
    ensures (forall i :: 0 <= i < |[first] + rest| ==> WellTagged(([first] + rest)[i])) <==>
      WellTagged(first) && forall j :: 0 <= j < |rest| ==> WellTagged(rest[j])
    ensures (forall i :: 0 <= i < |[first] + rest| ==> !([first] + rest)[i].endSession) <==>
      !first.endSession && forall j :: 0 <= j < |rest| ==> !rest[j].endSession
  {
    var all := [first] + rest;
    assert all[0] == first;
    assert forall j :: 0 <= j < |rest| ==> all[j + 1] == rest[j];
    assert forall i :: 1 <= i < |all| ==> all[i] == rest[i - 1];
  }

  /**
   * Over any series of requests the record stays valid and keeps its phone
   * number, every reply is tagged by whether it prompts, and the session is
   * still active exactly when it was and no reply ended it.
   */
  lemma {:induction false} ConverseKeeps(st: SessionState, reqs: seq<Request>)
    requires RecordValid(st)
    ensures RecordValid(Converse(st, reqs).state)
    ensures Converse(st, reqs).state.phoneNumber == st.phoneNumber
    ensures forall i :: 0 <= i < |reqs| ==> WellTagged(Converse(st, reqs).replies[i])
    ensures Converse(st, reqs).state.isActive <==>
      st.isActive && forall i :: 0 <= i < |reqs| ==> !Converse(st, reqs).replies[i].endSession
    decreases |reqs|
  {
    if reqs != [] {
      var r := reqs[0];
      var o := TurnOutcome(st, r.caller, r.text, r.world);
      TurnKeptHolds(st, r);
      ConverseKeeps(o.state, reqs[1..]);
      var rest := Converse(o.state, reqs[1..]);
      assert Converse(st, reqs) == Transcript(rest.state, [o.reply] + rest.replies);
      RepliesCons(o.reply, rest.replies);
    }
  }

  // ---------------------------------------------------------------------------
  // Two complete dialogs

  /** A typed amount is a token the input parser keeps whole. */
  lemma RenderedIsToken(n: nat)
    ensures '*' !in ToDecimal(n) && !IsBlank(ToDecimal(n))
  {
    var r := ToDecimal(n);
    assert IsDigit(r[0]) && !IsJsSpace(r[0]);
  }

  /** Choosing "pay" from the main menu lists the pending bills. */
  lemma ChoosePay(st: SessionState, u: User, w: World)
    requires st.currentStep == MainMenu && st.data.paymentStep.None? && w.pendingBills != []
    ensures Settle(Route(st, w, u, "2")) == Outcome(
      st.(currentStep := SelectBill,
          data := st.data.(pendingBills := Some(w.pendingBills), paymentStep := Some(SelectBillStep))),
      Continue(BillList(PendingListing, w.today, w.pendingBills)))
  {
  }

  /** Typing `k` at the bill list selects the k-th listed bill. */
  lemma ChooseBill(st: SessionState, u: User, w: World, bills: seq<BillInfo>, k: nat)
    requires st.currentStep == SelectBill && st.data.paymentStep == Some(SelectBillStep)
    requires st.data.pendingBills == Some(bills) && 1 <= k <= |bills|
    ensures Settle(Route(st, w, u, ToDecimal(k))) == Outcome(
      st.(currentStep := EnterAmount,
          data := st.data.(selectedBill := Some(bills[k - 1]), paymentStep := Some(EnterAmountStep))),
      Continue(AmountRequest(bills[k - 1])))
  {
    ParseIntOfRendered(k);
  }

  /** Typing an acceptable amount at the amount prompt asks for confirmation of it. */
  lemma ChooseAmount(st: SessionState, u: User, w: World, bill: BillInfo, a: nat)
    requires st.currentStep == EnterAmount && st.data.paymentStep == Some(EnterAmountStep)
    requires st.data.selectedBill == Some(bill)
    requires MinimumPayment <= a <= MaxAmount && a <= Outstanding(bill)
    ensures Settle(Route(st, w, u, ToDecimal(a))) == Outcome(
      st.(currentStep := ConfirmPayment,
          data := st.data.(paymentAmount := Some(a), paymentStep := Some(ConfirmPaymentStep))),
      Continue(ConfirmRequest(bill, a)))
  {
    TypedAmountAccepted(st, bill, a);
  }

  /** Typing `1` at the confirmation requests the charge and closes the session. */
  lemma ConfirmCharge(st: SessionState, u: User, w: World, bill: BillInfo, a: int)
    requires st.currentStep == ConfirmPayment && st.data.paymentStep == Some(ConfirmPaymentStep)
    requires st.data.selectedBill == Some(bill) && st.data.paymentAmount == Some(a)
    ensures Settle(Route(st, w, u, "1")).reply.charge == Some(Charge(u.primaryPhone, a, bill.id))
    ensures Settle(Route(st, w, u, "1")).reply.endSession
    ensures !Settle(Route(st, w, u, "1")).state.isActive
  {
  }

  /** The newest inputs of the four payment requests. */
  lemma FirstInput()
    ensures LastInput(Some("2")) == "2"
  {
    assert !IsJsSpace("2"[0]);
    LastInputOfSingleToken("2");
  }

  lemma SecondInput(choice: string)
    requires '*' !in choice && !IsBlank(choice)
    ensures LastInput(Some("2*" + choice)) == choice
  {
    assert "2*" + choice == "2" + "*" + choice;
    LastInputAppend("2", choice);
  }

  lemma ThirdInput(choice: string, amount: string)
    requires '*' !in amount && !IsBlank(amount)
    ensures LastInput(Some("2*" + choice + "*" + amount)) == amount
  {
    LastInputAppend("2*" + choice, amount);
  }

  lemma FourthInput(choice: string, amount: string)
    ensures LastInput(Some("2*" + choice + "*" + amount + "*1")) == "1"
  {
    assert !IsJsSpace("1"[0]);
    assert "2*" + choice + "*" + amount + "*1" == ("2*" + choice + "*" + amount) + "*" + "1";
    LastInputAppend("2*" + choice + "*" + amount, "1");
  }

  /**
   * A tenant pays `a` of their k-th pending bill in four requests (the texts
   * `2`, `2*k`, `2*k*a`, `2*k*a*1`): the first three prompt, the last asks the
   * gateway to charge exactly `a` to the tenant's primary number for that
   * bill, ends, and closes the session.
   */
  lemma PayingABill(phone: string, u: User, w: World, k: nat, a: nat)
    requires 1 <= k <= |w.pendingBills|
    requires MinimumPayment <= a <= MaxAmount && a <= Outstanding(w.pendingBills[k - 1])
    ensures
      var b := w.pendingBills[k - 1];
      var choice := ToDecimal(k);
      var amount := ToDecimal(a);
      var o1 := TurnOutcome(InitialState(phone), Some(u), Some("2"), w);
      var o2 := TurnOutcome(o1.state, Some(u), Some("2*" + choice), w);
      var o3 := TurnOutcome(o2.state, Some(u), Some("2*" + choice + "*" + amount), w);
      var o4 := TurnOutcome(o3.state, Some(u), Some("2*" + choice + "*" + amount + "*1"), w);
      && o1.reply == Continue(BillList(PendingListing, w.today, w.pendingBills))
      && o2.reply == Continue(AmountRequest(b))
      && o3.reply == Continue(ConfirmRequest(b, a))
      && o4.reply.charge == Some(Charge(u.primaryPhone, a, b.id))
      && o4.reply.endSession && !o4.state.isActive
  {
    var b := w.pendingBills[k - 1];
    var choice := ToDecimal(k);
    var amount := ToDecimal(a);
    RenderedIsToken(k);
    RenderedIsToken(a);
    FirstInput();
    SecondInput(choice);
    ThirdInput(choice, amount);
    FourthInput(choice, amount);
    var s0 := InitialState(phone);
    var k0 := s0.(userId := Some(u.id));
    TurnRoutes(s0, u, Some("2"), w);
    ChoosePay(k0, u, w);
    var o1 := TurnOutcome(s0, Some(u), Some("2"), w);
    var k1 := o1.state.(userId := Some(u.id));
    TurnRoutes(o1.state, u, Some("2*" + choice), w);
    ChooseBill(k1, u, w, w.pendingBills, k);
    var o2 := TurnOutcome(o1.state, Some(u), Some("2*" + choice), w);
    var k2 := o2.state.(userId := Some(u.id));
    TurnRoutes(o2.state, u, Some("2*" + choice + "*" + amount), w);
    ChooseAmount(k2, u, w, b, a);
    var o3 := TurnOutcome(o2.state, Some(u), Some("2*" + choice + "*" + amount), w);
    var k3 := o3.state.(userId := Some(u.id));
    TurnRoutes(o3.state, u, Some("2*" + choice + "*" + amount + "*1"), w);
    ConfirmCharge(k3, u, w, b, a);
  }

  /** Choosing "complaint" from the main menu lists the categories. */
  lemma ChooseComplaint(st: SessionState, u: User, w: World)
    requires st.currentStep == MainMenu && st.data.complaintStep.None?
    ensures Settle(Route(st, w, u, "3")) == Outcome(
      st.(currentStep := SelectComplaintCategory,
          data := st.data.(complaintStep := Some(SelectCategoryStep), complaintCategories := Some(ComplaintCategories()))),
      Continue(CategoryMenu))
  {
  }

  /** Typing `k` at the category list chooses the k-th category. */
  lemma ChooseCategory(st: SessionState, u: User, w: World, categories: seq<string>, k: nat)
    requires st.currentStep == SelectComplaintCategory && st.data.complaintStep == Some(SelectCategoryStep)
    requires st.data.complaintCategories == Some(categories) && 1 <= k <= |categories|
    ensures Settle(Route(st, w, u, ToDecimal(k))) == Outcome(
      st.(currentStep := EnterComplaintDescription,
          data := st.data.(complaintCategory := Some(categories[k - 1]), complaintStep := Some(EnterDescriptionStep))),
      Continue(DescriptionRequest(categories[k - 1])))
  {
    ParseIntOfRendered(k);
  }

  /** An acceptable description at the description prompt files the complaint and closes the session. */
  lemma Describe(st: SessionState, u: User, w: World, category: string, text: string)
    requires st.currentStep == EnterComplaintDescription && st.data.complaintStep == Some(EnterDescriptionStep)
    requires st.data.complaintCategory == Some(category)
    requires MinDescription <= JsLength(Trim(text)) <= MaxDescription && w.complaintSaved
    ensures Settle(Route(st, w, u, text)).reply.complaint ==
      Some(Complaint(w.newComplaintId, u.id, u.apartmentName, category, Trim(text), "Open", "Medium"))
    ensures !Settle(Route(st, w, u, text)).state.isActive
  {
    assert |text| >= 5 by {
      assert JsLength(Trim(text)) <= 2 * |Trim(text)| && |Trim(text)| <= |text|;
    }
    RouteDescription(st, w, u, text);
    DescriptionRules(w, u, category, text);
  }

  /** At the description step any input but `0` is taken as the description. */
  lemma RouteDescription(st: SessionState, w: World, u: User, text: string)
    requires st.currentStep == EnterComplaintDescription && st.data.complaintStep == Some(EnterDescriptionStep)
    requires text != "0"
    ensures Route(st, w, u, text) == Outcome(st, DescriptionReply(w, u, st.data.complaintCategory, Some(text)))
  {
  }

  /** The newest inputs of the three complaint requests. */
  lemma FirstComplaintInput()
    ensures LastInput(Some("3")) == "3"
  {
    assert !IsJsSpace("3"[0]);
    LastInputOfSingleToken("3");
  }

  lemma SecondComplaintInput(k: string)
    requires '*' !in k && !IsBlank(k)
    ensures LastInput(Some("3*" + k)) == k
  {
    assert "3*" + k == "3" + "*" + k;
    LastInputAppend("3", k);
  }

  lemma ThirdComplaintInput(k: string, text: string)
    requires '*' !in text && !IsBlank(text)
    ensures LastInput(Some("3*" + k + "*" + text)) == text
  {
    LastInputAppend("3*" + k, text);
  }

  /**
   * A tenant files a complaint in three requests (the texts `3`, `3*k`,
   * `3*k*text`): the first two prompt, the third files an Open, Medium
   * complaint in the k-th category with the trimmed text, and closes the session.
   */
  lemma FilingAComplaint(phone: string, u: User, w: World, k: nat, text: string)
    requires 1 <= k <= |ComplaintCategories()| && '*' !in text
    requires MinDescription <= JsLength(Trim(text)) <= MaxDescription && w.complaintSaved
    ensures
      var choice := ToDecimal(k);
      var o1 := TurnOutcome(InitialState(phone), Some(u), Some("3"), w);
      var o2 := TurnOutcome(o1.state, Some(u), Some("3*" + choice), w);
      var o3 := TurnOutcome(o2.state, Some(u), Some("3*" + choice + "*" + text), w);
      && o1.reply == Continue(CategoryMenu)
      && o2.reply == Continue(DescriptionRequest(ComplaintCategories()[k - 1]))
      && o3.reply.complaint ==
           Some(Complaint(w.newComplaintId, u.id, u.apartmentName, ComplaintCategories()[k - 1], Trim(text), "Open", "Medium"))
      && !o3.state.isActive
  {
    var choice := ToDecimal(k);
    var categories := ComplaintCategories();
    RenderedIsToken(k);
    assert !IsBlank(text);
    FirstComplaintInput();
    SecondComplaintInput(choice);
    ThirdComplaintInput(choice, text);
    var s0 := InitialState(phone);
    TurnRoutes(s0, u, Some("3"), w);
    ChooseComplaint(s0.(userId := Some(u.id)), u, w);
    var o1 := TurnOutcome(s0, Some(u), Some("3"), w);
    TurnRoutes(o1.state, u, Some("3*" + choice), w);
    ChooseCategory(o1.state.(userId := Some(u.id)), u, w, categories, k);
    var o2 := TurnOutcome(o1.state, Some(u), Some("3*" + choice), w);
    TurnRoutes(o2.state, u, Some("3*" + choice + "*" + text), w);
    Describe(o2.state.(userId := Some(u.id)), u, w, categories[k - 1], text);
  }
}
