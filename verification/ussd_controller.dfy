/**
 * The USSD dialog engine. One gateway callback is one turn: the caller is
 * resolved by phone number, the newest `*`-separated token is routed on the
 * session's current step, and the turn answers with a `CON` (continue) or
 * `END` (terminate) text while updating the session record in place.
 *
 * Each handler has a specification function over a value snapshot of the
 * session (`SessionState`) and a method of the `Session` class that performs
 * the same updates field by field and is proved to agree with it. A handler
 * picks the `Message` it answers with; `Render` gives that message's exact
 * text. Database reads arrive as a `World` value; the mobile-money request and
 * the complaint save are abstract outcomes carried in the same value.
 */
module UssdController {
  import opened Util
  import opened Billing
  import opened UssdMenu

  // ---------------------------------------------------------------------------
  // Data the engine reads

  datatype Role = Tenant | Landlord

  function RoleName(r: Role): string {
    match r
    case Tenant => "Tenant"
    case Landlord => "Landlord"
  }

  /** An account in the user directory. A zero rent stands for "no rent recorded". */
  datatype User = User(
    id: string,
    name: string,
    role: Role,
    email: string,
    primaryPhone: string,
    secondaryPhone: Option<string>,
    apartmentName: string,
    rentAmount: int,
    dateMovedIn: Option<int>)

  /** A bill as the bill queries return it; a zero `remainingAmount` also stands for an absent one. */
  datatype BillInfo = BillInfo(
    id: string,
    month: string,
    year: int,
    amount: int,
    remainingAmount: int,
    dueDate: int,
    status: BillStatus)

  /** `bill.remainingAmount || bill.amount`: a remaining balance of 0 falls back to the full amount. */
  function Outstanding(b: BillInfo): (r: int)
    ensures b.remainingAmount != 0 ==> r == b.remainingAmount
    ensures b.remainingAmount == 0 ==> r == b.amount
  {
    if b.remainingAmount != 0 then b.remainingAmount else b.amount
  }

  /**
   * What the turn reads from the outside world: the user directory in store
   * order, the caller's bills newest first, the caller's Pending/Partial bills
   * earliest due first, the clock, whether the mobile-money gateway accepts a
   * charge request, whether the complaint store accepts a new complaint, and the
   * identifier the store gives it.
   */
  datatype World = World(
    users: seq<User>,
    userBills: seq<BillInfo>,
    pendingBills: seq<BillInfo>,
    today: int,
    gatewayAccepts: bool,
    complaintSaved: bool,
    newComplaintId: string)

  predicate PhoneMatches(u: User, phone: string) {
    u.primaryPhone == phone || u.secondaryPhone == Some(phone)
  }

  /** The first user whose primary or secondary number equals the normalised or the raw number. */
  function FindUser(users: seq<User>, raw: string, normalized: string): (r: Option<User>)
    ensures r.Some? ==> r.value in users && (PhoneMatches(r.value, normalized) || PhoneMatches(r.value, raw))
    ensures r.None? <==> forall u :: u in users ==> !PhoneMatches(u, normalized) && !PhoneMatches(u, raw)
  {
    FindFirst(users, (u: User) => PhoneMatches(u, normalized) || PhoneMatches(u, raw))
  }

  /** The first landlord registered for the given apartment. */
  function FindLandlord(users: seq<User>, apartment: string): (r: Option<User>)
    ensures r.Some? ==> r.value in users && r.value.role == Landlord && r.value.apartmentName == apartment
    ensures r.None? <==> forall u :: u in users ==> !(u.role == Landlord && u.apartmentName == apartment)
  {
    FindFirst(users, (u: User) => u.role == Landlord && u.apartmentName == apartment)
  }

  // ---------------------------------------------------------------------------
  // Session record

  datatype Step =
    | MainMenu | AwaitingMainChoice
    | ViewBills | BillsDisplayed
    | MakePayment | SelectBill | EnterAmount | ConfirmPayment
    | FileComplaint | SelectComplaintCategory | EnterComplaintDescription
    | ViewProfile | ContactLandlord | HelpMenu
    | UnknownStep(name: string)

  datatype PaymentStep = SelectBillStep | EnterAmountStep | ConfirmPaymentStep

  datatype ComplaintStep = SelectCategoryStep | EnterDescriptionStep

  /** The session's scratch map `data`; an absent key is `None`. */
  datatype Scratch = Scratch(
    paymentStep: Option<PaymentStep>,
    pendingBills: Option<seq<BillInfo>>,
    selectedBill: Option<BillInfo>,
    paymentAmount: Option<int>,
    complaintStep: Option<ComplaintStep>,
    complaintCategories: Option<seq<string>>,
    complaintCategory: Option<string>)

  const EmptyScratch: Scratch := Scratch(None, None, None, None, None, None, None)

  /** Every sub-step finds the keys that the step before it stored. */
  predicate ScratchValid(d: Scratch) {
    && (d.paymentStep == Some(SelectBillStep) ==> d.pendingBills.Some?)
    && (d.paymentStep == Some(EnterAmountStep) ==> d.selectedBill.Some?)
    && (d.paymentStep == Some(ConfirmPaymentStep) ==> d.selectedBill.Some? && d.paymentAmount.Some?)
    && (d.complaintStep == Some(SelectCategoryStep) ==> d.complaintCategories.Some?)
    && (d.complaintStep == Some(EnterDescriptionStep) ==> d.complaintCategory.Some?)
  }

  /** A value snapshot of the session record's fields. */
  datatype SessionState = SessionState(
    phoneNumber: string,
    userId: Option<string>,
    currentStep: Step,
    data: Scratch,
    isActive: bool)

  /** The record created for a session identifier seen for the first time. */
  function InitialState(normalizedPhone: string): (s: SessionState)
    ensures s.currentStep == MainMenu && s.isActive && s.userId.None? && ScratchValid(s.data)
    ensures s.data.paymentStep.None? && s.data.complaintStep.None?
  {
    SessionState(normalizedPhone, None, MainMenu, EmptyScratch, true)
  }

  // ---------------------------------------------------------------------------
  // What a turn produces

  /** The two numbered bill listings the engine renders. */
  datatype Listing = RecentListing | PendingListing

  /** The fixed help topics, in menu order. */
  datatype HelpTopic = PayingTopic | ComplaintsTopic | RightsTopic | SupportTopic

  /** Every response text the engine sends, by what it says. */
  datatype Message =
    | MainMenuScreen(user: User, pending: seq<BillInfo>)
    | AccessDeniedNotice
    | NoBillsNotice
    | BillList(kind: Listing, today: int, bills: seq<BillInfo>)
    | NoPendingBillsNotice
    | AmountRequest(bill: BillInfo)
    | InvalidSelectionNotice
    | InvalidAmountNotice
    | AmountTooHighNotice
    | ConfirmRequest(bill: BillInfo, amount: int)
    | PaymentInitiatedNotice(bill: BillInfo, amount: int)
    | PaymentFailedNotice
    | PaymentCancelledNotice
    | PaymentErrorNotice
    | CategoryMenu
    | DescriptionRequest(category: string)
    | InvalidCategoryNotice
    | DescriptionTooShortNotice
    | DescriptionTooLongNotice
    | ComplaintErrorNotice
    | ComplaintFiledNotice(category: string, complaintId: string)
    | ProfileCard(user: User, bills: seq<BillInfo>)
    | LandlordCard(landlord: Option<User>)
    | HelpScreen
    | HelpTopicCard(topic: HelpTopic)
    | InvalidHelpNotice
    | GoodbyeNotice
    | InvalidMainOptionNotice

  /** The messages that ask for another input, and so are sent with `CON`. */
  predicate Prompts(m: Message) {
    m.MainMenuScreen? || m.BillList? || m.AmountRequest? || m.ConfirmRequest?
    || m.CategoryMenu? || m.DescriptionRequest? || m.HelpScreen?
  }

  /** The mobile-money charge request sent to the payment gateway. */
  datatype Charge = Charge(phone: string, amount: int, billId: string)

  datatype Complaint = Complaint(
    id: string,
    tenant: string,
    apartmentName: string,
    category: string,
    description: string,
    status: string,
    priority: string)

  /** Best-effort SMS notifications. */
  datatype Sms =
    | ComplaintAcknowledgment(tenant: User, complaint: Complaint)
    | LandlordAlert(landlord: User, tenant: User, complaint: Complaint)

  /** A handler's result: the message, whether the session ends, and the side effects requested. */
  datatype Reply = Reply(
    message: Message,
    endSession: bool,
    charge: Option<Charge>,
    complaint: Option<Complaint>,
    sms: seq<Sms>)

  function Continue(m: Message): Reply {
    Reply(m, false, None, None, [])
  }

  function End(m: Message): Reply {
    Reply(m, true, None, None, [])
  }

  /** The session ends exactly when the message is not a prompt. */
  predicate WellTagged(r: Reply) {
    r.endSession == !Prompts(r.message)
  }

  datatype Outcome = Outcome(state: SessionState, reply: Reply)

  /** A handler touches only the step and the scratch data. */
  predicate SameRecord(a: SessionState, b: SessionState) {
    a.phoneNumber == b.phoneNumber && a.userId == b.userId && a.isActive == b.isActive
  }

  /** The properties every handler keeps. */
  predicate HandlerKeeps(st: SessionState, o: Outcome) {
    && WellTagged(o.reply)
    && SameRecord(st, o.state)
    && (ScratchValid(st.data) ==> ScratchValid(o.state.data))
  }

  // ---------------------------------------------------------------------------
  // Texts

  /**
   * The glyphs in the controller's own literals are the UTF-8 bytes of the
   * intended symbols read back as Windows-1252, and they are sent that way.
   */
  const WarningGlyph: string := "\U{00E2}\U{0161}\U{00A0}"
  const MoneyGlyph: string := "\U{00F0}\U{0178}\U{2019}\U{00B0}"
  const TickGlyph: string := "\U{00E2}\U{0153}\U{201C}"
  const BulletGlyph: string := "\U{00E2}\U{20AC}\U{00A2}"

  function SumRemaining(bills: seq<BillInfo>): int {
    if bills == [] then 0 else bills[0].remainingAmount + SumRemaining(bills[1..])
  }

  function CountPaid(bills: seq<BillInfo>): nat {
    if bills == [] then 0 else (if bills[0].status == Paid then 1 else 0) + CountPaid(bills[1..])
  }

  /** The remaining balances of the Pending and Partial bills. */
  function SumOwed(bills: seq<BillInfo>): int {
    if bills == [] then 0
    else (if bills[0].status != Paid then bills[0].remainingAmount else 0) + SumOwed(bills[1..])
  }

  const MainMenuChoices: string :=
    "\n1. View Bills\n2. Make Payment\n3. File Complaint\n4. View Profile\n5. Contact Landlord\n6. Help\n0. Exit"

  /** The main menu's line about the pending bills: their count and total, or that all are paid. */
  function PendingSummary(pending: seq<BillInfo>): string {
    if |pending| > 0 then
      WarningGlyph + " You have " + ToDecimal(|pending|) + " pending bill(s)\n"
      + MoneyGlyph + " Total owed: KES " + IntToDecimal(SumRemaining(pending)) + "\n"
    else TickGlyph + " All bills are up to date!\n"
  }

  /** `showMainMenu`: greeting, pending-bill summary and the seven choices. */
  function MainMenuText(user: User, pending: seq<BillInfo>): (r: string)
    ensures IsContinue(r)
  {
    Con("Welcome to SafeStay, " + user.name + "!\n" + PendingSummary(pending) + MainMenuChoices)
  }

  /** `viewProfile`: account details and bill totals. */
  function ProfileText(user: User, bills: seq<BillInfo>): (r: string)
    ensures IsEnd(r)
  {
    var movedIn := if user.dateMovedIn.Some? then "Move-in Date: " + FormatDate(user.dateMovedIn.value) else "";
    var rent := if user.rentAmount != 0 then "Monthly Rent: " + FormatCurrency(user.rentAmount) else "";
    BuildEndMessage("Your Profile",
      "Name: " + user.name + "\nApartment: " + user.apartmentName + "\nPhone: " + user.primaryPhone
      + "\nRole: " + RoleName(user.role) + "\n" + movedIn
      + "\n\nBill Summary:\nTotal Bills: " + ToDecimal(|bills|) + "\nPaid Bills: " + ToDecimal(CountPaid(bills))
      + "\nOutstanding: " + FormatCurrency(SumOwed(bills)) + "\n" + rent)
  }

  /** `contactLandlord`: the landlord's details, or the support fallback when there is none. */
  function LandlordContactText(landlord: Option<User>): (r: string)
    ensures IsEnd(r)
  {
    match landlord
    case None =>
      BuildEndMessage("Contact Information",
        "Landlord contact information not available.\n\nPlease contact SafeStay support:\nEmail: support@safestay.com\nPhone: +254-XXX-XXXXXX")
    case Some(l) =>
      var alt := if l.secondaryPhone.Some? && l.secondaryPhone.value != "" then "Alt Phone: " + l.secondaryPhone.value else "";
      BuildEndMessage("Landlord Contact",
        "Landlord Details:\n\nName: " + l.name + "\nPhone: " + l.primaryPhone + "\n" + alt
        + "\nEmail: " + l.email + "\n\nPlease contact your landlord directly for urgent matters.")
  }

  /** `formatBillSummary` */
  function BillSummary(b: BillInfo, today: int): string {
    var days := DaysOverdue(today, b.dueDate);
    [StatusIcon(StatusName(b.status))] + " " + b.month + " " + IntToDecimal(b.year) + " - " + FormatCurrency(Outstanding(b))
    + (if days > 0 then " (" + ToDecimal(days) + "d overdue)" else "")
  }

  /**
   * A bill summary opens with the status icon, the period and the amount still
   * owed, and carries a day count exactly when the bill is past due.
   */
  lemma BillSummaryShowsOverdue(b: BillInfo, today: int)
    ensures var head := [StatusIcon(StatusName(b.status))] + " " + b.month + " " + IntToDecimal(b.year)
                        + " - " + FormatCurrency(Outstanding(b));
      && StartsWith(BillSummary(b, today), head)
      && (today <= b.dueDate ==> BillSummary(b, today) == head)
      && (today > b.dueDate ==>
            BillSummary(b, today) == head + " (" + ToDecimal(DaysOverdue(today, b.dueDate)) + "d overdue)")
  {
    var head := [StatusIcon(StatusName(b.status))] + " " + b.month + " " + IntToDecimal(b.year)
                + " - " + FormatCurrency(Outstanding(b));
    var r := BillSummary(b, today);
    assert r[..|head|] == head;
  }

  /** Entry `n` (counting from 1) of a listing. */
  function Entry(kind: Listing, today: int, n: nat, b: BillInfo): string {
    var days := DaysOverdue(today, b.dueDate);
    match kind
    case RecentListing =>
      ToDecimal(n) + ". " + BillSummary(b, today) + "\n"
      + (if b.status != Paid then "   Due: " + FormatDate(b.dueDate) + "\n" else "") + "\n"
    case PendingListing =>
      ToDecimal(n) + ". " + b.month + " " + IntToDecimal(b.year) + "\n"
      + "   " + FormatCurrency(Outstanding(b)) + "\n"
      + (if days > 0 then "   (" + ToDecimal(days) + " days overdue)\n" else "") + "\n"
  }

  /** The entries of a listing, numbered 1..|bills| in order. */
  function Entries(kind: Listing, today: int, bills: seq<BillInfo>): string {
    if bills == [] then ""
    else Entries(kind, today, bills[..|bills| - 1]) + Entry(kind, today, |bills|, bills[|bills| - 1])
  }

  function ListingHeader(kind: Listing): string {
    match kind
    case RecentListing => "Your Recent Bills:\n\n"
    case PendingListing => "Select bill to pay:\n\n"
  }

  /** A whole listing: header, entries, and the way back. */
  function ListingText(kind: Listing, today: int, bills: seq<BillInfo>): (r: string)
    ensures IsContinue(r)
  {
    Con(ListingHeader(kind) + Entries(kind, today, bills) + "0. Back to Main Menu")
  }

  /** The listing loop: each bill's entry appended in order. */
  method RenderListing(kind: Listing, today: int, bills: seq<BillInfo>) returns (response: string)
    ensures response == ListingText(kind, today, bills)
  {
    var entries := "";
    var i := 0;
    while i < |bills|
      invariant 0 <= i <= |bills|
      invariant entries == Entries(kind, today, bills[..i])
    {
      assert bills[..i + 1][..i] == bills[..i];
      entries := entries + Entry(kind, today, i + 1, bills[i]);
      i := i + 1;
    }
    assert bills[..i] == bills;
    response := Con(ListingHeader(kind) + entries + "0. Back to Main Menu");
  }

  function ToUpperAscii(c: char): char {
    if 'a' <= c <= 'z' then (c as int - 32) as char else c
  }

  /** The complaint reference: the first eight characters of the identifier, upper-cased. */
  function Reference(id: string): (r: string)
    ensures |r| == (if |id| < 8 then |id| else 8)
    ensures forall i :: 0 <= i < |r| ==> r[i] == ToUpperAscii(id[i])
  {
    var prefix := if |id| < 8 then id else id[..8];
    seq(|prefix|, i requires 0 <= i < |prefix| => ToUpperAscii(prefix[i]))
  }

  const HelpOptions: seq<string> :=
    ["How to Pay Bills", "Filing Complaints", "Understanding Your Rights", "Contact Support"]

  function HelpTopicText(t: HelpTopic): (r: string)
    ensures IsEnd(r)
  {
    match t
    case PayingTopic =>
      BuildEndMessage("How to Pay Bills",
        "1. Select \"Make Payment\" from main menu\n2. Choose the bill to pay\n3. Enter payment amount\n4. Confirm payment\n5. Complete M-Pesa transaction\n\nYou can make partial payments. Your landlord will be notified automatically.")
    case ComplaintsTopic =>
      BuildEndMessage("Filing Complaints",
        "1. Select \"File Complaint\" from main menu\n2. Choose complaint category\n3. Provide detailed description\n4. Submit complaint\n\nYour landlord will be notified immediately. You will receive a reference number for tracking.")
    case RightsTopic =>
      BuildEndMessage("Your Tenant Rights",
        BulletGlyph + " Right to peaceful enjoyment\n" + BulletGlyph + " 2-month notice before eviction\n"
        + BulletGlyph + " Safe and habitable living conditions\n" + BulletGlyph + " Privacy rights\n"
        + BulletGlyph + " Right to proper receipts\n\nFor legal advice, contact a tenant rights organization.")
    case SupportTopic =>
      BuildEndMessage("Contact Support",
        "SafeStay Support:\n\nEmail: support@safestay.com\nPhone: +254-XXX-XXXXXX\nHours: Mon-Fri 8AM-6PM\n\nFor emergencies, contact your landlord directly.")
  }

  /** The texts of the prompts. */
  function PromptText(m: Message): (r: string)
    requires Prompts(m)
    ensures IsContinue(r) && !IsEnd(r)
  {
    var r :=
      match m
      case MainMenuScreen(user, pending) => MainMenuText(user, pending)
      case BillList(kind, today, bills) => ListingText(kind, today, bills)
      case AmountRequest(bill) =>
        var outstanding := Outstanding(bill);
        Con("Payment for " + bill.month + " " + IntToDecimal(bill.year)
          + "\nOutstanding: " + FormatCurrency(outstanding)
          + "\n\nEnter amount to pay:\n(Min: 100, Max: " + IntToDecimal(outstanding) + ")")
      case ConfirmRequest(bill, amount) =>
        Con("Confirm Payment:\n\nBill: " + bill.month + " " + IntToDecimal(bill.year)
          + "\nAmount: " + FormatCurrency(amount)
          + "\nNew Balance: " + FormatCurrency(Outstanding(bill) - amount)
          + "\n\n1. Confirm\n2. Cancel")
      case CategoryMenu => BuildMenu("Select complaint category:", ComplaintCategories(), true)
      case DescriptionRequest(category) =>
        Con("Enter complaint description for " + category + ":\n\n(Keep it brief but detailed)\n\nDescription:")
      case _ => BuildMenu("Help & Support", HelpOptions, true);
    TagsExclusive(r);
    r
  }

  const AccessDeniedText: string := BuildEndMessage("Access Denied",
    "Your phone number is not registered with SafeStay.\n\nPlease contact your landlord to register your number.\n\nFor support: info@safestay.com")
  const NoBillsText: string := BuildEndMessage("No Bills", "You have no bills at the moment.")
  const NoPendingBillsText: string := BuildEndMessage("No Pending Bills", "You have no pending bills to pay.")
  const InvalidSelectionText: string := EndText("Invalid selection. Please try again.")
  const InvalidAmountText: string := EndText("Invalid amount. Minimum payment is KSh 100.")
  const AmountTooHighText: string := EndText("Amount exceeds outstanding balance.")
  const PaymentFailedText: string := EndText("Payment initiation failed. Please try again later.")
  const PaymentCancelledText: string := EndText("Invalid option. Payment cancelled.")
  const PaymentErrorText: string := EndText("Error processing payment. Please try again later.")
  const InvalidCategoryText: string := EndText("Invalid category selection.")
  const DescriptionTooShortText: string :=
    EndText("Description too short. Please provide more details (minimum 10 characters).")
  const DescriptionTooLongText: string := EndText("Description too long. Please keep it under 500 characters.")
  const ComplaintErrorText: string := EndText("Error filing complaint. Please try again later.")
  const InvalidHelpText: string := EndText("Invalid option. Please try again.")
  const GoodbyeText: string := EndText("Thank you for using SafeStay. Have a great day!")
  const InvalidMainOptionText: string := EndText("Invalid option. Please dial again and select a valid option.")

  function PaymentInitiatedText(bill: BillInfo, amount: int): (r: string)
    ensures IsEnd(r)
  {
    BuildEndMessage("Payment Initiated",
      "Payment of " + FormatCurrency(amount) + " for " + bill.month + " " + IntToDecimal(bill.year)
      + " has been initiated.\n\nYou will receive an M-Pesa prompt shortly. Please enter your PIN to complete the payment.")
  }

  function ComplaintFiledText(category: string, complaintId: string): (r: string)
    ensures IsEnd(r)
  {
    BuildEndMessage("Complaint Filed Successfully",
      "Category: " + category + "\n\nYour complaint has been forwarded to your landlord.\n\nReference: "
      + Reference(complaintId) + "\n\nYou will be contacted soon.")
  }

  /** The texts of the messages that end the session. */
  function EndingText(m: Message): (r: string)
    requires !Prompts(m)
    ensures IsEnd(r) && !IsContinue(r)
  {
    var r :=
      match m
      case AccessDeniedNotice => AccessDeniedText
      case NoBillsNotice => NoBillsText
      case NoPendingBillsNotice => NoPendingBillsText
      case InvalidSelectionNotice => InvalidSelectionText
      case InvalidAmountNotice => InvalidAmountText
      case AmountTooHighNotice => AmountTooHighText
      case PaymentInitiatedNotice(bill, amount) => PaymentInitiatedText(bill, amount)
      case PaymentFailedNotice => PaymentFailedText
      case PaymentCancelledNotice => PaymentCancelledText
      case PaymentErrorNotice => PaymentErrorText
      case InvalidCategoryNotice => InvalidCategoryText
      case DescriptionTooShortNotice => DescriptionTooShortText
      case DescriptionTooLongNotice => DescriptionTooLongText
      case ComplaintErrorNotice => ComplaintErrorText
      case ComplaintFiledNotice(category, complaintId) => ComplaintFiledText(category, complaintId)
      case ProfileCard(user, bills) => ProfileText(user, bills)
      case LandlordCard(landlord) => LandlordContactText(landlord)
      case HelpTopicCard(topic) => HelpTopicText(topic)
      case InvalidHelpNotice => InvalidHelpText
      case GoodbyeNotice => GoodbyeText
      case _ => InvalidMainOptionText;
    TagsExclusive(r);
    r
  }

  /** The exact response text of a message: `CON` for the prompts and `END` for everything else. */
  function Render(m: Message): (r: string)
    ensures Prompts(m) ==> IsContinue(r) && !IsEnd(r)
    ensures !Prompts(m) ==> IsEnd(r) && !IsContinue(r)
  {
    if Prompts(m) then PromptText(m) else EndingText(m)
  }

  /** `res.send(response)`: the text the gateway receives, with the listings built by their loop. */
  method Send(m: Message) returns (response: string)
    ensures response == Render(m)
    ensures Prompts(m) <==> IsContinue(response)
  {
    if m.BillList? {
      response := RenderListing(m.kind, m.today, m.bills);
    } else {
      response := Render(m);
    }
  }

  // ---------------------------------------------------------------------------
  // Handlers, as functions of the session snapshot

  /** Input `0`: back to the main menu, the session continues. */
  function BackToMain(st: SessionState, w: World, user: User): Outcome
  {
    Outcome(st.(currentStep := MainMenu), Continue(MainMenuScreen(user, w.pendingBills)))
  }

  /** The five most recent bills (`.limit(5)`). */
  function RecentBills(bills: seq<BillInfo>): (r: seq<BillInfo>)
    ensures |r| <= 5 && |r| <= |bills| && r == bills[..|r|]
    ensures |r| == 5 || r == bills
  {
    if |bills| <= 5 then bills else bills[..5]
  }

  /** `handleBillsMenu` */
  function BillsMenu(st: SessionState, w: World, user: User, input: Option<string>): Outcome
  {
    if input == Some("0") then BackToMain(st, w, user)
    else
      var bills := RecentBills(w.userBills);
      if bills == [] then Outcome(st, End(NoBillsNotice))
      else Outcome(st.(currentStep := BillsDisplayed), Continue(BillList(RecentListing, w.today, bills)))
  }

  /** `parseInt(input)`, where a missing input parses to `NaN`. */
  function ParseIndex(input: Option<string>): Option<int> {
    match input
    case None => None
    case Some(s) => ParseIntPrefix(s)
  }

  const MinimumPayment: int := 100

  /** The amount typed at the amount step, when it is valid and at least the minimum. */
  function EnteredAmount(input: Option<string>): (r: Option<nat>)
    ensures r.Some? ==> MinimumPayment <= r.value <= MaxAmount
    ensures r.Some? <==> input.Some? && IsValidAmount(input.value) && ParseAmount(input.value).value >= MinimumPayment
    ensures r.Some? ==> r == ParseAmount(input.value)
  {
    match input
    case None => None
    case Some(s) =>
      if IsValidAmount(s) && ParseAmount(s).value >= MinimumPayment then ParseAmount(s) else None
  }

  /** Bill selection: a 1-based index into the stored pending bills. */
  function SelectBillOutcome(st: SessionState, input: Option<string>): Outcome
  {
    var n := ParseIndex(input);
    if n.Some? && n.value - 1 >= 0 then
      match st.data.pendingBills
      case None => Outcome(st, End(PaymentErrorNotice))
      case Some(bills) =>
        if n.value - 1 < |bills| then
          var bill := bills[n.value - 1];
          Outcome(
            st.(currentStep := EnterAmount,
                data := st.data.(selectedBill := Some(bill), paymentStep := Some(EnterAmountStep))),
            Continue(AmountRequest(bill)))
        else Outcome(st, End(InvalidSelectionNotice))
    else Outcome(st, End(InvalidSelectionNotice))
  }

  /** Amount entry: at least 100, a valid amount, and no more than the outstanding balance. */
  function EnterAmountOutcome(st: SessionState, input: Option<string>): Outcome
  {
    match st.data.selectedBill
    case None => Outcome(st, End(PaymentErrorNotice))
    case Some(bill) =>
      var amount := EnteredAmount(input);
      if amount.None? then Outcome(st, End(InvalidAmountNotice))
      else if amount.value > Outstanding(bill) then Outcome(st, End(AmountTooHighNotice))
      else
        Outcome(
          st.(currentStep := ConfirmPayment,
              data := st.data.(paymentAmount := Some(amount.value), paymentStep := Some(ConfirmPaymentStep))),
          Continue(ConfirmRequest(bill, amount.value)))
  }

  /** Confirmation: `1` requests the charge, `2` goes back, anything else cancels. */
  function ConfirmOutcome(st: SessionState, w: World, user: User, input: Option<string>): Outcome
  {
    if input == Some("1") then
      match (st.data.selectedBill, st.data.paymentAmount)
      case (Some(bill), Some(amount)) =>
        var charge := Charge(user.primaryPhone, amount, bill.id);
        var message := if w.gatewayAccepts then PaymentInitiatedNotice(bill, amount) else PaymentFailedNotice;
        Outcome(st, Reply(message, true, Some(charge), None, []))
      case _ => Outcome(st, End(PaymentErrorNotice))
    else if input == Some("2") then BackToMain(st, w, user)
    else Outcome(st, End(PaymentCancelledNotice))
  }

  /** `handlePaymentFlow`: the three-step wizard driven by `data.paymentStep`. */
  function PaymentFlow(st: SessionState, w: World, user: User, input: Option<string>): Outcome
  {
    if input == Some("0") then BackToMain(st, w, user)
    else
      match st.data.paymentStep
      case None =>
        if w.pendingBills == [] then Outcome(st, End(NoPendingBillsNotice))
        else
          Outcome(
            st.(currentStep := SelectBill,
                data := st.data.(pendingBills := Some(w.pendingBills), paymentStep := Some(SelectBillStep))),
            Continue(BillList(PendingListing, w.today, w.pendingBills)))
      case Some(SelectBillStep) => SelectBillOutcome(st, input)
      case Some(EnterAmountStep) => EnterAmountOutcome(st, input)
      case Some(ConfirmPaymentStep) => ConfirmOutcome(st, w, user, input)
  }

  const MinDescription: nat := 10
  const MaxDescription: nat := 500

  /** Category selection: a 1-based index into the stored categories. */
  function SelectCategoryOutcome(st: SessionState, input: Option<string>): Outcome
  {
    var n := ParseIndex(input);
    if n.Some? && n.value - 1 >= 0 then
      match st.data.complaintCategories
      case None => Outcome(st, End(ComplaintErrorNotice))
      case Some(categories) =>
        if n.value - 1 < |categories| then
          var category := categories[n.value - 1];
          Outcome(
            st.(currentStep := EnterComplaintDescription,
                data := st.data.(complaintCategory := Some(category), complaintStep := Some(EnterDescriptionStep))),
            Continue(DescriptionRequest(category)))
        else Outcome(st, End(InvalidCategoryNotice))
    else Outcome(st, End(InvalidCategoryNotice))
  }

  /**
   * A template literal's rendering of a possibly missing category. The
   * description step runs only with a category stored (`ScratchValid`, kept by
   * every turn), so the `undefined` case is never reached from a new session.
   */
  function CategoryText(c: Option<string>): string {
    match c
    case Some(s) => s
    case None => "undefined"
  }

  /** The complaint the description step saves. */
  function NewComplaint(w: World, user: User, category: string, description: string): Complaint {
    Complaint(w.newComplaintId, user.id, user.apartmentName, category, description, "Open", "Medium")
  }

  /** The acknowledgment to the tenant, then the alert to the landlord when there is one. */
  function ComplaintSms(w: World, user: User, complaint: Complaint): seq<Sms> {
    var landlord := FindLandlord(w.users, user.apartmentName);
    [ComplaintAcknowledgment(user, complaint)] + (if landlord.Some? then [LandlordAlert(landlord.value, user, complaint)] else [])
  }

  /** Description entry: the typed text is trimmed before it is checked and filed. */
  function DescriptionReply(w: World, user: User, category: Option<string>, input: Option<string>): (r: Reply)
    ensures WellTagged(r) && r.endSession
  {
    match input
    case None => End(ComplaintErrorNotice)
    case Some(text) => FileDescription(w, user, category, Trim(text))
  }

  /** A trimmed description of 10 to 500 UTF-16 units is saved and announced; anything else is refused. */
  function FileDescription(w: World, user: User, category: Option<string>, description: string): (r: Reply)
    ensures WellTagged(r) && r.endSession
  {
    if JsLength(description) < MinDescription then End(DescriptionTooShortNotice)
    else if JsLength(description) > MaxDescription then End(DescriptionTooLongNotice)
    else if !w.complaintSaved then End(ComplaintErrorNotice)
    else ComplaintFiling(w, user, CategoryText(category), description)
  }

  /** A saved complaint: the confirmation with its reference, the complaint, and the notifications. */
  function ComplaintFiling(w: World, user: User, category: string, description: string): (r: Reply)
    ensures WellTagged(r) && r.endSession
  {
    var complaint := NewComplaint(w, user, category, description);
    Reply(ComplaintFiledNotice(category, complaint.id), true, None, Some(complaint), ComplaintSms(w, user, complaint))
  }

  /** `handleComplaintFlow`: the two-step wizard driven by `data.complaintStep`. */
  function ComplaintFlow(st: SessionState, w: World, user: User, input: Option<string>): Outcome
  {
    if input == Some("0") then BackToMain(st, w, user)
    else
      match st.data.complaintStep
      case None =>
        Outcome(
          st.(currentStep := SelectComplaintCategory,
              data := st.data.(complaintStep := Some(SelectCategoryStep), complaintCategories := Some(ComplaintCategories()))),
          Continue(CategoryMenu))
      case Some(SelectCategoryStep) => SelectCategoryOutcome(st, input)
      case Some(EnterDescriptionStep) => Outcome(st, DescriptionReply(w, user, st.data.complaintCategory, input))
  }

  /** The help topic chosen by `choice`, when there is one. */
  function ChosenTopic(choice: string): (r: Option<HelpTopic>)
    ensures r.Some? <==> choice in {"1", "2", "3", "4"}
  {
    if choice == "1" then Some(PayingTopic)
    else if choice == "2" then Some(ComplaintsTopic)
    else if choice == "3" then Some(RightsTopic)
    else if choice == "4" then Some(SupportTopic)
    else None
  }

  /** `handleHelpMenu`: the help list, one of four fixed topics, or back. */
  function HelpFlow(st: SessionState, w: World, user: User, input: Option<string>): Outcome
  {
    if input == Some("0") then BackToMain(st, w, user)
    else if input == None || input == Some("") then Outcome(st, Continue(HelpScreen))
    else
      var topic := ChosenTopic(input.value);
      Outcome(st, End(if topic.Some? then HelpTopicCard(topic.value) else InvalidHelpNotice))
  }

  /** `handleMainMenuChoice`: `1`-`3` and `6` enter a sub-flow, `4`, `5` and `0` end, anything else is invalid. */
  function MainChoice(st: SessionState, w: World, user: User, choice: string): Outcome
  {
    var waiting := st.(currentStep := AwaitingMainChoice);
    if choice == "1" then BillsMenu(waiting.(currentStep := ViewBills), w, user, None)
    else if choice == "2" then PaymentFlow(waiting.(currentStep := MakePayment), w, user, None)
    else if choice == "3" then ComplaintFlow(waiting.(currentStep := FileComplaint), w, user, None)
    else if choice == "4" then Outcome(waiting, End(ProfileCard(user, w.userBills)))
    else if choice == "5" then Outcome(waiting, End(LandlordCard(FindLandlord(w.users, user.apartmentName))))
    else if choice == "6" then HelpFlow(waiting.(currentStep := HelpMenu), w, user, None)
    else if choice == "0" then Outcome(waiting, End(GoodbyeNotice))
    else Outcome(waiting, End(InvalidMainOptionNotice))
  }

  /** `routeRequest`: dispatch on the current step. */
  function Route(st: SessionState, w: World, user: User, lastInput: string): Outcome
  {
    match st.currentStep
    case MainMenu =>
      if lastInput != "" then MainChoice(st.(currentStep := AwaitingMainChoice), w, user, lastInput)
      else Outcome(st, Continue(MainMenuScreen(user, w.pendingBills)))
    case AwaitingMainChoice => MainChoice(st, w, user, lastInput)
    case ViewBills | BillsDisplayed => BillsMenu(st, w, user, Some(lastInput))
    case MakePayment | SelectBill | EnterAmount | ConfirmPayment => PaymentFlow(st, w, user, Some(lastInput))
    case FileComplaint | SelectComplaintCategory | EnterComplaintDescription =>
      ComplaintFlow(st, w, user, Some(lastInput))
    case ViewProfile => Outcome(st, End(ProfileCard(user, w.userBills)))
    case ContactLandlord => Outcome(st, End(LandlordCard(FindLandlord(w.users, user.apartmentName))))
    case HelpMenu => HelpFlow(st, w, user, Some(lastInput))
    case UnknownStep(_) => Outcome(st.(currentStep := MainMenu), Continue(MainMenuScreen(user, w.pendingBills)))
  }

  /** The registered user calling from `phone`, looked up by its normalised and its raw form. */
  function Caller(w: World, phone: string): Option<User> {
    FindUser(w.users, phone, NormalizePhone(phone))
  }

  /**
   * `handleUSSD` after the session is loaded and the caller looked up: refuse
   * an unknown caller, show the main menu on an empty text, otherwise route
   * the newest input; the session is marked inactive when the reply ends it.
   */
  function TurnOutcome(st: SessionState, caller: Option<User>, text: Option<string>, w: World): Outcome {
    var handled :=
      match caller
      case None => Outcome(st, End(AccessDeniedNotice))
      case Some(u) =>
        var known := st.(userId := Some(u.id));
        if text == None || text == Some("") then
          Outcome(known.(currentStep := MainMenu), Continue(MainMenuScreen(u, w.pendingBills)))
        else Route(known, w, u, LastInput(text));
    if handled.reply.endSession then Outcome(handled.state.(isActive := false), handled.reply) else handled
  }

  // ---------------------------------------------------------------------------
  // What every handler keeps

  lemma BillsMenuKeeps(st: SessionState, w: World, user: User, input: Option<string>)
    ensures HandlerKeeps(st, BillsMenu(st, w, user, input))
    ensures BillsMenu(st, w, user, input).state.data == st.data
  {
  }

  lemma PaymentFlowKeeps(st: SessionState, w: World, user: User, input: Option<string>)
    ensures HandlerKeeps(st, PaymentFlow(st, w, user, input))
  {
  }

  lemma ComplaintFlowKeeps(st: SessionState, w: World, user: User, input: Option<string>)
    ensures HandlerKeeps(st, ComplaintFlow(st, w, user, input))
  {
  }

  lemma HelpFlowKeeps(st: SessionState, w: World, user: User, input: Option<string>)
    ensures HandlerKeeps(st, HelpFlow(st, w, user, input))
    ensures HelpFlow(st, w, user, input).state.data == st.data
  {
  }

  lemma MainChoiceKeeps(st: SessionState, w: World, user: User, choice: string)
    ensures HandlerKeeps(st, MainChoice(st, w, user, choice))
  {
    var waiting := st.(currentStep := AwaitingMainChoice);
    BillsMenuKeeps(waiting.(currentStep := ViewBills), w, user, None);
    PaymentFlowKeeps(waiting.(currentStep := MakePayment), w, user, None);
    ComplaintFlowKeeps(waiting.(currentStep := FileComplaint), w, user, None);
    HelpFlowKeeps(waiting.(currentStep := HelpMenu), w, user, None);
  }

  lemma RouteKeeps(st: SessionState, w: World, user: User, lastInput: string)
    ensures HandlerKeeps(st, Route(st, w, user, lastInput))
  {
    match st.currentStep
    case MainMenu => MainChoiceKeeps(st.(currentStep := AwaitingMainChoice), w, user, lastInput);
    case AwaitingMainChoice => MainChoiceKeeps(st, w, user, lastInput);
    case ViewBills | BillsDisplayed => BillsMenuKeeps(st, w, user, Some(lastInput));
    case MakePayment | SelectBill | EnterAmount | ConfirmPayment => PaymentFlowKeeps(st, w, user, Some(lastInput));
    case FileComplaint | SelectComplaintCategory | EnterComplaintDescription =>
      ComplaintFlowKeeps(st, w, user, Some(lastInput));
    case HelpMenu => HelpFlowKeeps(st, w, user, Some(lastInput));
    case _ =>
  }

  /**
   * A turn answers `END` exactly when its message is not a prompt, leaves the
   * session active exactly when it was active and the reply continues, never
   * changes the phone number, and keeps the scratch data consistent.
   */
  lemma TurnKeeps(st: SessionState, caller: Option<User>, text: Option<string>, w: World)
    ensures WellTagged(TurnOutcome(st, caller, text, w).reply)
    ensures TurnOutcome(st, caller, text, w).state.isActive == (st.isActive && !TurnOutcome(st, caller, text, w).reply.endSession)
    ensures TurnOutcome(st, caller, text, w).state.phoneNumber == st.phoneNumber
    ensures ScratchValid(st.data) ==> ScratchValid(TurnOutcome(st, caller, text, w).state.data)
  {
    if caller.Some? && !(text == None || text == Some("")) {
      RouteKeeps(st.(userId := Some(caller.value.id)), w, caller.value, LastInput(text));
    }
  }

  // ---------------------------------------------------------------------------
  // The session record, updated in place

  class Session {
    const sessionId: string
    var phoneNumber: string
    var userId: Option<string>
    var currentStep: Step
    var data: Scratch
    var isActive: bool

    function State(): SessionState
      reads this
    {
      SessionState(phoneNumber, userId, currentStep, data, isActive)
    }

    /** A new record for a session identifier not seen before. */
    constructor (sessionId: string, normalizedPhone: string)
      ensures this.sessionId == sessionId
      ensures State() == InitialState(normalizedPhone)
    {
      this.sessionId := sessionId;
      phoneNumber := normalizedPhone;
      userId := None;
      currentStep := MainMenu;
      data := EmptyScratch;
      isActive := true;
    }

    method ShowMainMenu(w: World, user: User) returns (reply: Reply)
      modifies this
      ensures State() == BackToMain(old(State()), w, user).state
      ensures reply == BackToMain(old(State()), w, user).reply
    {
      currentStep := MainMenu;
      reply := Continue(MainMenuScreen(user, w.pendingBills));
    }

    method HandleBillsMenu(input: Option<string>, w: World, user: User) returns (reply: Reply)
      modifies this
      ensures State() == BillsMenu(old(State()), w, user, input).state
      ensures reply == BillsMenu(old(State()), w, user, input).reply
    {
      if input == Some("0") {
        reply := ShowMainMenu(w, user);
        return;
      }
      var bills := RecentBills(w.userBills);
      if bills == [] {
        reply := End(NoBillsNotice);
        return;
      }
      currentStep := BillsDisplayed;
      reply := Continue(BillList(RecentListing, w.today, bills));
    }

    method HandlePaymentFlow(input: Option<string>, w: World, user: User) returns (reply: Reply)
      modifies this
      ensures State() == PaymentFlow(old(State()), w, user, input).state
      ensures reply == PaymentFlow(old(State()), w, user, input).reply
    {
      if input == Some("0") {
        reply := ShowMainMenu(w, user);
        return;
      }
      match data.paymentStep {
        case None =>
          if w.pendingBills == [] {
            reply := End(NoPendingBillsNotice);
            return;
          }
          data := data.(pendingBills := Some(w.pendingBills), paymentStep := Some(SelectBillStep));
          currentStep := SelectBill;
          reply := Continue(BillList(PendingListing, w.today, w.pendingBills));
        case Some(SelectBillStep) => reply := SelectBillFromList(input);
        case Some(EnterAmountStep) => reply := EnterPaymentAmount(input);
        case Some(ConfirmPaymentStep) => reply := ConfirmPaymentChoice(input, w, user);
      }
    }

    method SelectBillFromList(input: Option<string>) returns (reply: Reply)
      modifies this
      ensures State() == SelectBillOutcome(old(State()), input).state
      ensures reply == SelectBillOutcome(old(State()), input).reply
    {
      var n := ParseIndex(input);
      if !(n.Some? && n.value - 1 >= 0) {
        reply := End(InvalidSelectionNotice);
        return;
      }
      if data.pendingBills.None? {
        reply := End(PaymentErrorNotice);
        return;
      }
      var bills := data.pendingBills.value;
      if n.value - 1 >= |bills| {
        reply := End(InvalidSelectionNotice);
        return;
      }
      var bill := bills[n.value - 1];
      data := data.(selectedBill := Some(bill), paymentStep := Some(EnterAmountStep));
      currentStep := EnterAmount;
      reply := Continue(AmountRequest(bill));
    }

    method EnterPaymentAmount(input: Option<string>) returns (reply: Reply)
      modifies this
      ensures State() == EnterAmountOutcome(old(State()), input).state
      ensures reply == EnterAmountOutcome(old(State()), input).reply
    {
      if data.selectedBill.None? {
        reply := End(PaymentErrorNotice);
        return;
      }
      var bill := data.selectedBill.value;
      var amount := EnteredAmount(input);
      if amount.None? {
        reply := End(InvalidAmountNotice);
        return;
      }
      if amount.value > Outstanding(bill) {
        reply := End(AmountTooHighNotice);
        return;
      }
      data := data.(paymentAmount := Some(amount.value), paymentStep := Some(ConfirmPaymentStep));
      currentStep := ConfirmPayment;
      reply := Continue(ConfirmRequest(bill, amount.value));
    }

    method ConfirmPaymentChoice(input: Option<string>, w: World, user: User) returns (reply: Reply)
      modifies this
      ensures State() == ConfirmOutcome(old(State()), w, user, input).state
      ensures reply == ConfirmOutcome(old(State()), w, user, input).reply
    {
      if input == Some("1") {
        if data.selectedBill.None? || data.paymentAmount.None? {
          reply := End(PaymentErrorNotice);
          return;
        }
        var bill := data.selectedBill.value;
        var amount := data.paymentAmount.value;
        var charge := Charge(user.primaryPhone, amount, bill.id);
        if w.gatewayAccepts {
          reply := Reply(PaymentInitiatedNotice(bill, amount), true, Some(charge), None, []);
        } else {
          reply := Reply(PaymentFailedNotice, true, Some(charge), None, []);
        }
      } else if input == Some("2") {
        reply := ShowMainMenu(w, user);
      } else {
        reply := End(PaymentCancelledNotice);
      }
    }

    method HandleComplaintFlow(input: Option<string>, w: World, user: User) returns (reply: Reply)
      modifies this
      ensures State() == ComplaintFlow(old(State()), w, user, input).state
      ensures reply == ComplaintFlow(old(State()), w, user, input).reply
    {
      if input == Some("0") {
        reply := ShowMainMenu(w, user);
        return;
      }
      match data.complaintStep {
        case None =>
          data := data.(complaintStep := Some(SelectCategoryStep), complaintCategories := Some(ComplaintCategories()));
          currentStep := SelectComplaintCategory;
          reply := Continue(CategoryMenu);
        case Some(SelectCategoryStep) => reply := SelectComplaintCategoryFromList(input);
        case Some(EnterDescriptionStep) => reply := FileComplaintWithDescription(input, w, user);
      }
    }

    method SelectComplaintCategoryFromList(input: Option<string>) returns (reply: Reply)
      modifies this
      ensures State() == SelectCategoryOutcome(old(State()), input).state
      ensures reply == SelectCategoryOutcome(old(State()), input).reply
    {
      var n := ParseIndex(input);
      if !(n.Some? && n.value - 1 >= 0) {
        reply := End(InvalidCategoryNotice);
        return;
      }
      if data.complaintCategories.None? {
        reply := End(ComplaintErrorNotice);
        return;
      }
      var categories := data.complaintCategories.value;
      if n.value - 1 >= |categories| {
        reply := End(InvalidCategoryNotice);
        return;
      }
      var category := categories[n.value - 1];
      data := data.(complaintCategory := Some(category), complaintStep := Some(EnterDescriptionStep));
      currentStep := EnterComplaintDescription;
      reply := Continue(DescriptionRequest(category));
    }

    /** The description step reads the stored category and changes nothing in the record. */
    method FileComplaintWithDescription(input: Option<string>, w: World, user: User) returns (reply: Reply)
      ensures reply == DescriptionReply(w, user, data.complaintCategory, input)
    {
      if input.None? {
        reply := End(ComplaintErrorNotice);
        return;
      }
      var description := Trim(input.value);
      if JsLength(description) < MinDescription {
        reply := End(DescriptionTooShortNotice);
      } else if JsLength(description) > MaxDescription {
        reply := End(DescriptionTooLongNotice);
      } else if !w.complaintSaved {
        reply := End(ComplaintErrorNotice);
      } else {
        var category := CategoryText(data.complaintCategory);
        var complaint := NewComplaint(w, user, category, description);
        reply := Reply(ComplaintFiledNotice(category, complaint.id), true, None, Some(complaint),
          ComplaintSms(w, user, complaint));
      }
    }

    method HandleHelpMenu(input: Option<string>, w: World, user: User) returns (reply: Reply)
      modifies this
      ensures State() == HelpFlow(old(State()), w, user, input).state
      ensures reply == HelpFlow(old(State()), w, user, input).reply
    {
      if input == Some("0") {
        reply := ShowMainMenu(w, user);
      } else if input == None || input == Some("") {
        reply := Continue(HelpScreen);
      } else {
        var topic := ChosenTopic(input.value);
        if topic.Some? {
          reply := End(HelpTopicCard(topic.value));
        } else {
          reply := End(InvalidHelpNotice);
        }
      }
    }

    method HandleMainMenuChoice(choice: string, w: World, user: User) returns (reply: Reply)
      modifies this
      ensures State() == MainChoice(old(State()), w, user, choice).state
      ensures reply == MainChoice(old(State()), w, user, choice).reply
    {
      currentStep := AwaitingMainChoice;
      if choice == "1" {
        currentStep := ViewBills;
        reply := HandleBillsMenu(None, w, user);
      } else if choice == "2" {
        currentStep := MakePayment;
        reply := HandlePaymentFlow(None, w, user);
      } else if choice == "3" {
        currentStep := FileComplaint;
        reply := HandleComplaintFlow(None, w, user);
      } else if choice == "4" {
        reply := End(ProfileCard(user, w.userBills));
      } else if choice == "5" {
        reply := End(LandlordCard(FindLandlord(w.users, user.apartmentName)));
      } else if choice == "6" {
        currentStep := HelpMenu;
        reply := HandleHelpMenu(None, w, user);
      } else if choice == "0" {
        reply := End(GoodbyeNotice);
      } else {
        reply := End(InvalidMainOptionNotice);
      }
    }

    method RouteRequest(lastInput: string, w: World, user: User) returns (reply: Reply)
      modifies this
      ensures State() == Route(old(State()), w, user, lastInput).state
      ensures reply == Route(old(State()), w, user, lastInput).reply
    {
      match currentStep {
        case MainMenu =>
          if lastInput != "" {
            currentStep := AwaitingMainChoice;
            reply := HandleMainMenuChoice(lastInput, w, user);
          } else {
            reply := Continue(MainMenuScreen(user, w.pendingBills));
          }
        case AwaitingMainChoice => reply := HandleMainMenuChoice(lastInput, w, user);
        case ViewBills | BillsDisplayed => reply := HandleBillsMenu(Some(lastInput), w, user);
        case MakePayment | SelectBill | EnterAmount | ConfirmPayment =>
          reply := HandlePaymentFlow(Some(lastInput), w, user);
        case FileComplaint | SelectComplaintCategory | EnterComplaintDescription =>
          reply := HandleComplaintFlow(Some(lastInput), w, user);
        case ViewProfile => reply := End(ProfileCard(user, w.userBills));
        case ContactLandlord => reply := End(LandlordCard(FindLandlord(w.users, user.apartmentName)));
        case HelpMenu => reply := HandleHelpMenu(Some(lastInput), w, user);
        case UnknownStep(_) =>
          currentStep := MainMenu;
          reply := Continue(MainMenuScreen(user, w.pendingBills));
      }
    }

    /** One gateway callback against this session record. */
    method Turn(caller: Option<User>, text: Option<string>, w: World) returns (reply: Reply)
      modifies this
      ensures State() == TurnOutcome(old(State()), caller, text, w).state
      ensures reply == TurnOutcome(old(State()), caller, text, w).reply
    {
      if caller.None? {
        reply := End(AccessDeniedNotice);
      } else {
        userId := Some(caller.value.id);
        if text == None || text == Some("") {
          currentStep := MainMenu;
          reply := Continue(MainMenuScreen(caller.value, w.pendingBills));
        } else {
          reply := RouteRequest(LastInput(text), w, caller.value);
        }
      }
      if reply.endSession {
        isActive := false;
      }
    }
  }

  /**
   * `handleUSSD`: load the record for the session identifier (or create it
   * with the normalised number and step `main_menu`), run the turn on it, and
   * send the response text. `existing` is the record stored under
   * `sessionId`, or `null` when there is none.
   */
  method HandleUssd(existing: Session?, sessionId: string, phone: string, text: Option<string>, w: World)
    returns (session: Session, reply: Reply, response: string)
    requires existing != null ==> existing.sessionId == sessionId
    modifies existing
    ensures session.sessionId == sessionId
    ensures existing != null ==> session == existing
    ensures existing != null ==> session.State() == TurnOutcome(old(existing.State()), Caller(w, phone), text, w).state
    ensures existing != null ==> reply == TurnOutcome(old(existing.State()), Caller(w, phone), text, w).reply
    ensures existing == null ==> fresh(session) && session.sessionId == sessionId
    ensures existing == null ==> session.State() == TurnOutcome(InitialState(NormalizePhone(phone)), Caller(w, phone), text, w).state
    ensures existing == null ==> reply == TurnOutcome(InitialState(NormalizePhone(phone)), Caller(w, phone), text, w).reply
    ensures response == Render(reply.message)
    ensures reply.endSession <==> IsEnd(response)
  {
    if existing == null {
      session := new Session(sessionId, NormalizePhone(phone));
    } else {
      session := existing;
    }
    var caller := Caller(w, phone);
    ghost var before := session.State();
    reply := session.Turn(caller, text, w);
    TurnKeeps(before, caller, text, w);
    response := Send(reply.message);
  }
}
