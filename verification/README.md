# SafeStay USSD dialog and payment application — a Dafny model

SafeStay is a property-management application. Tenants on feature phones reach it
through a USSD channel: the carrier gateway posts one callback per keypress round,
carrying the session identifier, the caller's phone number and the whole `*`-joined
text typed so far. The server answers with a `CON …` (prompt, session continues) or
`END …` (session over) text.

This project models three parts of the server:

- **The menu helpers** of `server/utils/ussdMenuService.js` (module `UssdMenu`,
  file `ussd_menu.dfy`). They are pure functions: phone-number normalisation,
  splitting the gateway text into inputs, the last input, amount validation,
  days overdue, priority and status icons, menu rendering, and the fixed complaint
  categories. The JavaScript primitives they rely on are modelled explicitly:
  `String.prototype.trim` and its whitespace set, `split`/`filter`, `parseInt`'s
  digit-prefix parse, and `length` in UTF-16 code units.
- **The dialog engine** of `server/controllers/ussdController.js` (module
  `UssdController`, file `ussd_controller.dfy`). The persisted session record is a
  `Session` class. Its fields are the phone number, the resolved user, the current
  step, the scratch map `data` and the active flag. Each controller method that
  changes the record is a method of the class; `viewProfile` and
  `contactLandlord`, which only read, become the message texts `ProfileText`
  and `LandlordContactText`. Every method is specified by a pure function of the old
  record (`BillsMenu`, `PaymentFlow`, `ComplaintFlow`, `HelpFlow`, `MainChoice`,
  `Route`, `TurnOutcome`). A handler's result is a `Reply`. It carries:
  - the message;
  - whether the session ends;
  - the mobile-money charge requested, if any;
  - the complaint saved, if any;
  - the SMS messages sent.

  `Render` gives the text of each message, tagged `CON` or `END`. The database
  answers and the gateway answers are inputs, grouped in a `World` value:
  - the directory of users;
  - all of the caller's bills, newest first, and the caller's pending bills,
    earliest due first (the totals the main menu and the profile show are
    summed from these lists);
  - whether the charge request was accepted;
  - whether the complaint was saved, and under which identifier.
- **Payment application** of `server/controllers/paymentWebhookController.js`
  (module `PaymentWebhook`, file `payment_webhook.dfy`). A bill is a `Bill` class
  updated in place by `RecordPayment`, specified by the pure `ApplyPayment`. Three
  handlers act on a store of bills keyed by identifier:
  - the gateway's payment notification;
  - the manual payment entry;
  - the transaction-status query.

The properties proved about the dialog across turns are in `ussd_dialog.dfy`
(module `UssdDialog`):

- which turn can request a charge, and for how much;
- which turn can file a complaint;
- which invariants every turn keeps;
- two whole conversations, turn by turn: paying a bill and filing a complaint.

Two behaviours of the code are worth knowing, and the model keeps both:

- **Outstanding balance.** A bill's `remainingAmount` field holds what is still
  owed, but the payment wizard reads the balance as `remainingAmount || amount`
  (`server/controllers/ussdController.js:302`). A bill whose remaining amount is 0
  is therefore offered with its full amount as outstanding
  (`UssdController.Outstanding`).
- **Main menu choices.** The main menu always lists six options
  (`server/controllers/ussdController.js:160`), but not every choice leads to its
  sub-menu. "1" with no bills and "2" with no pending bills end the session with a
  notice. So does "2" or "3" while a wizard step from earlier in the same session is
  still stored in the record: backing out with "0", or answering "2" at the payment
  confirmation, returns to the main menu but leaves that step behind
  (`UssdDialog.MainChoiceContinues`).

## Model

| member | source | states |
|---|---|---|
| UssdMenu.StripSeparators | server/utils/ussdMenuService.js:43 | the result keeps no whitespace, `-` or `+`, and is never longer than the input |
| UssdMenu.StripSeparatorsKeepsClean | server/utils/ussdMenuService.js:52 | a number with no separators is left exactly as it was |
| UssdMenu.StripSeparatorsConcat | server/utils/ussdMenuService.js:52 | removing separators from two joined texts is the same as removing them from each part |
| UssdMenu.NormalizePhone | server/utils/ussdMenuService.js:50-62 | the normalised number starts with 254 and has no separators; a leading 0 is replaced by 254, a leading 254 is kept, anything else is prefixed with 254 |
| UssdMenu.NormalizePhoneIdempotent | server/utils/ussdMenuService.js:50-62 | normalising an already normalised number changes nothing |
| UssdMenu.ValidatePhone | server/utils/ussdMenuService.js:41-47 | `validatePhoneNumber`: the separator-free number is 254 or 0 or nothing, then 1 or 7, then eight digits; `UssdMenu.ValidPhoneNormalForm` states what normalising an accepted number gives |
| UssdMenu.ValidPhoneNormalForm | server/utils/ussdMenuService.js:41-62 | every number the validator accepts normalises to 254 followed by 1 or 7 and eight more digits |
| UssdMenu.TrimStart | server/utils/ussdMenuService.js:113 | removes exactly a blank prefix, and what is left does not start with JavaScript whitespace |
| UssdMenu.TrimEnd | server/utils/ussdMenuService.js:113 | removes exactly a blank suffix, and what is left does not end with JavaScript whitespace |
| UssdMenu.Trim | server/controllers/ussdController.js:399 | the trimmed text is empty exactly when the input is blank; otherwise it neither starts nor ends with whitespace |
| UssdMenu.TrimIdempotent | server/controllers/ussdController.js:399 | trimming twice is the same as trimming once |
| UssdMenu.JsLength | server/controllers/ussdController.js:401-405 | the UTF-16 length lies between the number of characters and twice that number |
| UssdMenu.SplitOn | server/utils/ussdMenuService.js:113 | splitting gives at least one segment, and no segment contains the separator |
| UssdMenu.JoinSplit | server/utils/ussdMenuService.js:113 | joining the segments with the separator gives back the original text, so nothing is lost or reordered |
| UssdMenu.SplitWithoutSeparator | server/utils/ussdMenuService.js:113 | a text without the separator splits into itself alone |
| UssdMenu.SplitAppend | server/utils/ussdMenuService.js:113 | appending a separator and a token appends exactly that token to the segments |
| UssdMenu.KeepNonBlank | server/utils/ussdMenuService.js:113 | keeps exactly the segments that are not blank after trimming: every kept segment is non-blank and from the input, and every non-blank segment of the input is kept |
| UssdMenu.KeepNonBlankConcat | server/utils/ussdMenuService.js:113 | filtering distributes over concatenation, so the relative order of kept segments is preserved |
| UssdMenu.ParseInput | server/utils/ussdMenuService.js:111-114 | a missing or empty text gives no inputs; every input is non-blank and contains no `*`; every non-blank `*`-separated segment of the text is among the inputs |
| UssdMenu.ParseInputBlankAppend | server/utils/ussdMenuService.js:111-114 | a blank segment, as in `1**2` or `1* *2`, adds nothing to the inputs |
| UssdMenu.ParseInputAppend | server/utils/ussdMenuService.js:111-114 | typing `*` and a non-blank token adds exactly that token as the last input |
| UssdMenu.LastInput | server/utils/ussdMenuService.js:116-119 | the last input is empty exactly when there are no inputs; otherwise it is non-blank and contains no `*` |
| UssdMenu.LastInputOfSingleToken | server/utils/ussdMenuService.js:116-119 | a text that is one non-blank token is its own last input |
| UssdMenu.LastInputAppend | server/utils/ussdMenuService.js:116-119 | after `*` and a new non-blank token, the last input is that token |
| UssdMenu.ToDecimal | server/utils/ussdMenuService.js:68-71 | a number renders as one or more digits with no leading zero |
| UssdMenu.DecimalValueOfToDecimal | server/utils/ussdMenuService.js:68-71 | the rendered digits have the number's value |
| UssdMenu.ParseAmount | server/utils/ussdMenuService.js:68-71 | an amount parses exactly when it is a non-empty run of digits |
| UssdMenu.AmountRoundTrip | server/utils/ussdMenuService.js:68-71 | parsing a rendered amount gives back that amount |
| UssdMenu.IsValidAmount | server/utils/ussdMenuService.js:68-71 | `isValidAmount` on whole amounts; its properties are stated by `UssdMenu.ValidAmountOfRendered` |
| UssdMenu.ValidAmountOfRendered | server/utils/ussdMenuService.js:68-71 | a typed whole amount is valid exactly when it is positive and at most 1,000,000 |
| UssdMenu.DigitPrefix | server/controllers/ussdController.js:279 | the digits `parseInt` reads are a prefix of the text, and the prefix is maximal |
| UssdMenu.ParseIntOfRendered | server/controllers/ussdController.js:279 | `parseInt` of a typed number gives that number |
| UssdMenu.CeilDays | server/utils/ussdMenuService.js:77 | the day count is the ceiling of the elapsed milliseconds divided by a day |
| UssdMenu.DaysOverdue | server/utils/ussdMenuService.js:73-79 | zero exactly when the due date has not passed; otherwise the number of started days since the due date |
| UssdMenu.DaysOverdueMonotone | server/utils/ussdMenuService.js:73-79 | a later day never reports fewer days overdue |
| UssdMenu.PriorityLevel | server/utils/ussdMenuService.js:90-95 | High exactly when more than 30 days are past due, Medium for more than 7 up to 30, Low otherwise |
| UssdMenu.PriorityMonotone | server/utils/ussdMenuService.js:90-95 | a later day never lowers the priority |
| UssdMenu.StatusIcon | server/utils/ussdMenuService.js:81-88 | the bullet icon is shown exactly for a status other than Paid, Partial and Pending |
| UssdMenu.TagsExclusive | server/utils/ussdMenuService.js:23-39 | no response text is both a `CON` and an `END` response |
| UssdMenu.Con | server/utils/ussdMenuService.js:34 | a prompt is tagged `CON` and not `END` |
| UssdMenu.EndText | server/utils/ussdMenuService.js:38 | a final text is tagged `END` and not `CON` |
| UssdMenu.Utf16Prefix | server/utils/ussdMenuService.js:20 | the longest prefix of the text that fits in the given number of UTF-16 code units |
| UssdMenu.JsLengthOfBmp | server/utils/ussdMenuService.js:19 | in text within the Basic Multilingual Plane, the UTF-16 length is the number of characters |
| UssdMenu.TruncateText | server/utils/ussdMenuService.js:18-21 | lengths in UTF-16 units, limit 50 by default: a text within the limit is unchanged; a longer one keeps the longest prefix fitting in three units fewer and ends in `...`, and so is exactly the limit long when the text is within the Basic Multilingual Plane |
| UssdMenu.MenuLines | server/utils/ussdMenuService.js:26-28 | no options give no lines; otherwise every line, the last included, ends with a newline |
| UssdMenu.MenuLinesConcat | server/utils/ussdMenuService.js:26-28 | the lines of two option lists follow one another with the numbering continued |
| UssdMenu.MenuLinesAt | server/utils/ussdMenuService.js:26-28 | the option at position i is shown as `i+1. option` |
| UssdMenu.BuildMenu | server/utils/ussdMenuService.js:23-35 | a menu is a prompt made of the title, a blank line and the options numbered from 1, and it ends with the back line exactly when the back option is asked for |
| UssdMenu.BuildMenuNumbersOption | server/utils/ussdMenuService.js:26-28 | option i of a menu is shown as the line `i+1. option`, after the title and the options before it |
| UssdMenu.BuildEndMessage | server/utils/ussdMenuService.js:37-39 | a final message starts with `END`, the title and a blank line, and ends with the thank-you line |
| UssdMenu.ComplaintCategories | server/utils/ussdMenuService.js:121-131 | seven categories, pairwise distinct, from Maintenance Issue to Other |
| UssdController.Outstanding | server/controllers/ussdController.js:302 | the bill's remaining amount, or its full amount when the remaining amount is 0 |
| UssdController.FindUser | server/controllers/ussdController.js:27-34 | a found user is in the directory and has the normalised or the raw number as primary or secondary phone; none is found exactly when nobody has |
| UssdController.FindLandlord | server/controllers/ussdController.js:425-428 | a found landlord has the landlord role and the tenant's apartment; none is found exactly when no such user exists |
| UssdController.InitialState | server/controllers/ussdController.js:17-24 | a new session starts active at the main menu, with no user and no wizard in progress |
| UssdController.MainMenuText | server/controllers/ussdController.js:137-162 | the main menu is a prompt |
| UssdController.ProfileText | server/controllers/ussdController.js:449-495 | the profile card ends the session |
| UssdController.LandlordContactText | server/controllers/ussdController.js:497-526 | the landlord card, or the notice that none is found, ends the session |
| UssdController.BillSummary | server/utils/ussdMenuService.js:97-109 | `formatBillSummary`; its content is stated by `UssdController.BillSummaryShowsOverdue` |
| UssdController.BillSummaryShowsOverdue | server/utils/ussdMenuService.js:97-109 | a summary opens with the status icon, the period and the amount still owed, and adds the day count exactly when the bill is past due |
| UssdController.ListingText | server/controllers/ussdController.js:215-228 | a numbered bill listing is a prompt |
| UssdController.RenderListing | server/controllers/ussdController.js:216-224 | the loop that appends one entry per bill produces the listing text |
| UssdController.Reference | server/controllers/ussdController.js:437 | the reference is the first eight characters of the complaint id, or the whole id when it is shorter, upper-cased |
| UssdController.HelpTopicText | server/controllers/ussdController.js:546-585 | each help topic card ends the session |
| UssdController.PromptText | server/controllers/ussdController.js:84-586 | every prompt is tagged `CON` and not `END` |
| UssdController.PaymentInitiatedText | server/controllers/ussdController.js:336-340 | the payment-initiated notice ends the session |
| UssdController.ComplaintFiledText | server/controllers/ussdController.js:435-438 | the complaint-filed notice ends the session |
| UssdController.EndingText | server/controllers/ussdController.js:84-586 | every final notice is tagged `END` and not `CON` |
| UssdController.Render | server/controllers/ussdController.js:84-586 | a message is sent with `CON` exactly when it asks for another input, and with `END` otherwise |
| UssdController.Send | server/controllers/ussdController.js:72-75 | the response text is the rendered message, and it continues exactly for prompts |
| UssdController.RecentBills | server/controllers/ussdController.js:202-206 | at most the first five bills in their given order, and all of them when there are fewer |
| UssdController.EnteredAmount | server/controllers/ussdController.js:300-306 | an amount is accepted exactly when it is a valid whole amount of at least 100, and then lies between 100 and 1,000,000 |
| UssdController.DescriptionReply | server/controllers/ussdController.js:398-445 | the description step always ends the session with a correctly tagged reply |
| UssdController.FileDescription | server/controllers/ussdController.js:398-441 | checking and filing a trimmed description always ends the session |
| UssdController.ComplaintFiling | server/controllers/ussdController.js:409-440 | saving a valid complaint always ends the session |
| UssdController.ChosenTopic | server/controllers/ussdController.js:546-585 | a help topic is chosen exactly for inputs 1 to 4 |
| UssdController.BillsMenuKeeps | server/controllers/ussdController.js:196-234 | the bills menu keeps phone, user and active flag and the scratch data, and tags its reply correctly |
| UssdController.PaymentFlowKeeps | server/controllers/ussdController.js:236-355 | the payment wizard keeps phone, user and active flag, keeps every wizard step's stored keys present, and tags its reply correctly |
| UssdController.ComplaintFlowKeeps | server/controllers/ussdController.js:357-447 | the complaint wizard keeps the same record invariants |
| UssdController.HelpFlowKeeps | server/controllers/ussdController.js:528-586 | the help menu keeps the record and the scratch data, and tags its reply correctly |
| UssdController.MainChoiceKeeps | server/controllers/ussdController.js:169-194 | a main-menu choice keeps the record invariants |
| UssdController.RouteKeeps | server/controllers/ussdController.js:84-135 | routing by current step keeps the record invariants, whatever the step |
| UssdController.TurnKeeps | server/controllers/ussdController.js:9-82 | each turn's reply is correctly tagged, the phone is kept, the scratch data stays valid, and the session stays active exactly when it was and the reply continues |
| UssdController.BackToMain | server/controllers/ussdController.js:197-200 | input 0 in a sub-menu; `UssdDialog.ZeroGoesBack` states that only the step changes and the main menu is shown |
| UssdController.ParseIndex | server/controllers/ussdController.js:279 | `parseInt(input) - 1`; `UssdMenu.ParseIntOfRendered` and `UssdDialog.TypedNumberSelectsBill` state what a typed number gives |
| UssdController.BillsMenu | server/controllers/ussdController.js:196-234 | `handleBillsMenu`; `UssdController.BillsMenuKeeps`, `UssdDialog.ZeroGoesBack` and `UssdDialog.BillsMenuNoCharge` state its properties |
| UssdController.SelectBillOutcome | server/controllers/ussdController.js:278-296 | the bill-selection step; `UssdDialog.BillSelection` characterises it |
| UssdController.EnterAmountOutcome | server/controllers/ussdController.js:299-320 | the amount step; `UssdDialog.AmountEntry` characterises it |
| UssdController.ConfirmOutcome | server/controllers/ussdController.js:323-349 | the confirmation step; `UssdDialog.Confirmation` characterises it |
| UssdController.PaymentFlow | server/controllers/ussdController.js:236-355 | `handlePaymentFlow`; `UssdController.PaymentFlowKeeps`, `UssdDialog.PaymentFlowConsistent`, `UssdDialog.PaymentFlowCharge` and `UssdDialog.StaleWizardEnds` state its properties |
| UssdController.SelectCategoryOutcome | server/controllers/ussdController.js:379-395 | the category step; `UssdDialog.CategorySelection` characterises it |
| UssdController.ComplaintFlow | server/controllers/ussdController.js:357-447 | `handleComplaintFlow`; `UssdController.ComplaintFlowKeeps`, `UssdDialog.ComplaintFlowFiling` and `UssdDialog.DescriptionRules` state its properties |
| UssdController.HelpFlow | server/controllers/ussdController.js:528-586 | `handleHelpMenu`; `UssdController.HelpFlowKeeps` and `UssdController.ChosenTopic` state its properties |
| UssdController.MainChoice | server/controllers/ussdController.js:169-194 | `handleMainMenuChoice`; `UssdDialog.MainChoiceContinues`, `UssdDialog.MainChoiceSteps` and `UssdDialog.MainChoiceEndings` characterise it |
| UssdController.Route | server/controllers/ussdController.js:84-135 | `routeRequest`; `UssdController.RouteKeeps`, `UssdDialog.RouteCharge` and `UssdDialog.RouteFiling` state its properties |
| UssdController.TurnOutcome | server/controllers/ussdController.js:35-70 | one turn of `handleUSSD`; `UssdDialog.UnregisteredCallerRefused`, `UssdDialog.EmptyTextShowsMainMenu`, `UssdDialog.TurnRoutes` and `UssdController.TurnKeeps` characterise it |
| UssdController.Session.constructor | server/controllers/ussdController.js:17-24 | a new record for an unseen session identifier |
| UssdController.Session.ShowMainMenu | server/controllers/ussdController.js:137-167 | returns the record to the main-menu step, changing nothing else, and shows the menu with the caller's pending bills |
| UssdController.Session.HandleBillsMenu | server/controllers/ussdController.js:196-234 | the new record and reply are those of the bills-menu specification |
| UssdController.Session.HandlePaymentFlow | server/controllers/ussdController.js:236-355 | the new record and reply are those of the payment-wizard specification |
| UssdController.Session.SelectBillFromList | server/controllers/ussdController.js:278-296 | the new record and reply are those of the bill-selection step |
| UssdController.Session.EnterPaymentAmount | server/controllers/ussdController.js:299-320 | the new record and reply are those of the amount step |
| UssdController.Session.ConfirmPaymentChoice | server/controllers/ussdController.js:323-349 | the new record and reply are those of the confirmation step |
| UssdController.Session.HandleComplaintFlow | server/controllers/ussdController.js:357-447 | the new record and reply are those of the complaint-wizard specification |
| UssdController.Session.SelectComplaintCategoryFromList | server/controllers/ussdController.js:379-395 | the new record and reply are those of the category step |
| UssdController.Session.FileComplaintWithDescription | server/controllers/ussdController.js:398-441 | the reply is the description step's reply for the stored category |
| UssdController.Session.HandleHelpMenu | server/controllers/ussdController.js:528-586 | the new record and reply are those of the help-menu specification |
| UssdController.Session.HandleMainMenuChoice | server/controllers/ussdController.js:169-194 | the new record and reply are those of the main-choice specification |
| UssdController.Session.RouteRequest | server/controllers/ussdController.js:84-135 | the new record and reply are those of routing by the current step |
| UssdController.Session.Turn | server/controllers/ussdController.js:35-70 | the new record and reply are those of one whole turn |
| UssdController.HandleUssd | server/controllers/ussdController.js:9-82 | the record stored under the session identifier is reused, an unseen identifier gets a new one, the turn is applied, and the response ends exactly when the reply does |
| UssdDialog.UnregisteredCallerRefused | server/controllers/ussdController.js:46-53 | an unknown caller is refused with the access-denied notice and the session becomes inactive |
| UssdDialog.EmptyTextShowsMainMenu | server/controllers/ussdController.js:55-58 | the first round, with empty text, records the caller and shows the main menu |
| UssdDialog.TurnRoutes | server/controllers/ussdController.js:36-70 | a known caller's non-empty text is routed by its last input, and an ending reply deactivates the session |
| UssdDialog.MainChoiceContinues | server/controllers/ussdController.js:169-194 | a main choice continues exactly for 1 with bills, 2 with pending bills and no payment step, 3 with no complaint step, and 6 |
| UssdDialog.MainChoiceSteps | server/controllers/ussdController.js:169-194 | each continuing choice moves to its sub-flow's step |
| UssdDialog.MainChoiceEndings | server/controllers/ussdController.js:180-192 | 4 shows the profile, 5 the landlord, 0 says goodbye, and anything else is an invalid option |
| UssdDialog.StaleWizardEnds | server/controllers/ussdController.js:244-349 | a stale payment or complaint step left from earlier in the same session (after backing out with `0`, or `2` at the confirmation) ends the dialog with that step's rejection |
| UssdDialog.ZeroGoesBack | server/controllers/ussdController.js:197-200 | in a sub-menu, 0 goes back to the main menu and changes only the step |
| UssdDialog.BillSelection | server/controllers/ussdController.js:278-296 | a bill is selected exactly when the number is within the list; it is stored and its amount asked for; otherwise the session ends with nothing changed |
| UssdDialog.TypedNumberSelectsBill | server/controllers/ussdController.js:278-296 | typing k selects the k-th listed bill |
| UssdDialog.AmountEntry | server/controllers/ussdController.js:299-320 | an amount is accepted exactly when it is valid, at least 100 and at most the outstanding balance; an accepted amount is stored and moves the record to confirm_payment, and the confirmation shows a new balance that is not negative |
| UssdDialog.TypedAmountAccepted | server/controllers/ussdController.js:299-320 | typing an amount of at least 100 and at most both 1,000,000 and the outstanding balance moves to confirmation with that amount |
| UssdDialog.Confirmation | server/controllers/ussdController.js:323-349 | 1 requests a charge of the stored amount for the stored bill to the caller's primary phone and reports success exactly when the gateway accepts; 2 cancels to the main menu; anything else cancels without a charge |
| UssdDialog.PaymentFlowConsistent | server/controllers/ussdController.js:236-355 | the stored amount always belongs to a stored bill and lies between 100 and its outstanding balance |
| UssdDialog.ComplaintFlowKeepsPayment | server/controllers/ussdController.js:357-447 | the complaint wizard does not touch the payment data |
| UssdDialog.MainChoiceConsistent | server/controllers/ussdController.js:169-194 | a main choice keeps the payment data consistent |
| UssdDialog.RouteConsistent | server/controllers/ussdController.js:84-135 | routing keeps the payment data consistent |
| UssdDialog.TurnKeepsPaymentConsistent | server/controllers/ussdController.js:9-82 | every turn keeps the payment data consistent |
| UssdDialog.PaymentFlowCharge | server/controllers/ussdController.js:323-340 | the payment wizard requests a charge only at the confirmation step on input 1 |
| UssdDialog.RouteCharge | server/controllers/ussdController.js:84-135 | no handler other than the payment confirmation requests a charge |
| UssdDialog.ChargeOnlyOnConfirmation | server/controllers/ussdController.js:323-340 | a turn requests a charge only from a registered caller confirming with 1, to their primary phone, for the stored bill, and for an amount between 100 and its outstanding balance |
| UssdDialog.CategorySelection | server/controllers/ussdController.js:379-395 | a category is chosen exactly when the number is within the list, and its description is asked for; otherwise the session ends |
| UssdDialog.TypedNumberChoosesCategory | server/controllers/ussdController.js:379-395 | typing k chooses the k-th category |
| UssdDialog.DescriptionRules | server/controllers/ussdController.js:398-441 | a complaint is filed exactly when the trimmed description has 10 to 500 UTF-16 units and the save succeeds; it is Open, Medium, with the trimmed text; the caller is acknowledged, and the landlord is alerted exactly when one exists |
| UssdDialog.DescriptionTrimmedOnce | server/controllers/ussdController.js:399 | surrounding whitespace never affects the outcome of the description step |
| UssdDialog.ComplaintOnlyFromDescription | server/controllers/ussdController.js:398-441 | a turn files a complaint only at the description step, for the registered caller, with a description of 10 to 500 UTF-16 units |
| UssdDialog.RouteFiling | server/controllers/ussdController.js:84-135 | no handler other than the description step files a complaint, and a filed complaint is the caller's, with a description of 10 to 500 UTF-16 units |
| UssdDialog.ComplaintFlowFiling | server/controllers/ussdController.js:357-447 | the complaint wizard files only at its description step, for the caller, with a description of 10 to 500 UTF-16 units |
| UssdDialog.Converse | server/controllers/ussdController.js:9-82 | a conversation gives one reply per request |
| UssdDialog.InitialRecordValid | server/controllers/ussdController.js:17-24 | a new session's record satisfies every invariant |
| UssdDialog.ConverseKeeps | server/controllers/ussdController.js:9-82 | over any sequence of turns the record invariants and the phone are kept, every reply is correctly tagged, and the session is active exactly when it was and no reply ended it |
| UssdDialog.PayingABill | server/controllers/ussdController.js:236-349 | for any k-th pending bill, typing 2, then k, then an amount, then 1 lists the bills, asks the amount, asks for confirmation, and requests exactly that charge, ending the session |
| UssdDialog.FilingAComplaint | server/controllers/ussdController.js:357-441 | typing 3, then a category, then a valid description files it and ends the session |
| PaymentWebhook.ApplyPayment | server/controllers/paymentWebhookController.js:35-53 | the amount is added to paid; the remaining balance is never negative and equals amount less paid when positive; the bill is Paid with today's date exactly when nothing remains, Partial otherwise; the history grows by exactly the entry |
| PaymentWebhook.Bill.constructor | server/controllers/paymentWebhookController.js:28 | a bill object holding a stored record |
| PaymentWebhook.Bill.RecordPayment | server/controllers/paymentWebhookController.js:35-55 | the bill's new state is the payment applied to its old state |
| PaymentWebhook.NotifiedBillId | server/controllers/paymentWebhookController.js:22-26 | the bill identifier is present exactly when the metadata carries a non-empty one |
| PaymentWebhook.GatewayEntry | server/controllers/paymentWebhookController.js:40-45 | a notified payment is recorded as M-Pesa with its amount and transaction id |
| PaymentWebhook.HandlePaymentNotification | server/controllers/paymentWebhookController.js:7-80 | a non-success status, missing bill id or unknown bill changes nothing; otherwise only that bill gets the payment applied, the tenant is confirmed, and the landlord is sent a receipt, or the result is a 500 when there is no landlord |
| PaymentWebhook.MethodOrCash | server/controllers/paymentWebhookController.js:142 | the given method, or Cash when none is given |
| PaymentWebhook.ManualEntry | server/controllers/paymentWebhookController.js:139-144 | a manual payment is recorded with its amount, method and notes, and no transaction id |
| PaymentWebhook.RecordManualPayment | server/controllers/paymentWebhookController.js:118-178 | an unknown bill is a 404, an amount outside (0, remaining] a 400, both changing nothing; otherwise only that bill gets the payment applied and the reply carries its new totals |
| PaymentWebhook.QueryPaymentStatus | server/controllers/paymentWebhookController.js:83-115 | not found exactly when no bill has the transaction; otherwise, for a bill holding it, the reply reports that bill's first entry with the transaction id, the tenant's name and the bill's `month year` label |
| PaymentWebhook.RedeliveryReportsFirstPayment | server/controllers/paymentWebhookController.js:35-55 | a notification delivered twice is applied twice, and the query then reports the first of the two payments, with its date |
| PaymentWebhook.ManualPaymentKeepsBalance | server/controllers/paymentWebhookController.js:129-136 | an accepted manual payment keeps remaining = amount − paid, never overpays, and strictly lowers the balance |
| PaymentWebhook.OverpaymentClearsBalance | server/controllers/paymentWebhookController.js:35-53 | a notified payment larger than the balance marks the bill Paid with nothing remaining and paid above the amount |
| PaymentWebhook.ApplyPaymentKeepsHistoryTotal | server/controllers/paymentWebhookController.js:36-45 | paid stays equal to the sum of the history |
| PaymentWebhook.ManualPaymentsKeepInvariants | server/controllers/paymentWebhookController.js:118-154 | any sequence of accepted manual payments keeps the balance, the history total and paid ≤ amount |
| PaymentWebhook.NotifiedPaymentIsQueryable | server/controllers/paymentWebhookController.js:40-45 | once a notification is applied, its transaction can be found by the query |
| PaymentWebhook.NowHasTransaction | server/controllers/paymentWebhookController.js:40-45 | the bill now holds an entry with the notified transaction id |
| PaymentWebhook.NewPaymentQueryReportsIt | server/controllers/paymentWebhookController.js:83-115 | a fresh transaction id, once applied, is reported with that payment's amount, date and method and the bill's tenant |
| PaymentWebhook.OnlyBillWithTransaction | server/controllers/paymentWebhookController.js:88-94 | the query finds the only bill that holds the transaction |
| PaymentWebhook.OnlyEntryWithTransaction | server/controllers/paymentWebhookController.js:96 | the query finds the only entry that holds the transaction |

## Left out

- Amounts are whole shillings read by a digit-only parser. `parseFloat`, fractional amounts and the `NaN` that a non-numeric manual amount produces are not modelled; the notification and manual amounts are integers.
- `parseInt` is modelled as its decimal digit-prefix parse; radix detection (`0x…`) is not modelled.
- `formatCurrency` and `formatDate` (`FormatCurrency`, `FormatDate`) give text only. Locale-dependent thousands grouping from `toLocaleString` is not modelled, dates are rendered in UTC, and neither function has a contract of its own. The main menu's `amountOwed.toLocaleString()` is handled the same way.
- `generateSessionId` is not modelled; the session identifier comes from the gateway.
- The session store's five-minute expiry (`server/models/UssdSession.js`) is not modelled; a session that expired is simply one the caller does not have.
- How the Mixed `data` field is persisted is not modelled; the scratch map is a record of optional keys.
- Two turns of one session running at the same time are not modelled; turns are applied one after another.
- The Africa's Talking SDK is not modelled. The charge request and the SMS messages are values in the reply, and whether the gateway accepted the charge is an input.
- Database reads are not modelled. User lookups, bill lists, whether a complaint save succeeds and the new complaint's identifier are inputs.
- The Complaint and Bill schemas (`server/models/Complaint.js`, `server/models/Bills.js`) are not part of this model; the model follows the field names the controllers use.
- Database failures caught by a handler's `catch` are not modelled, apart from the complaint save and the missing landlord after a notification. These include the main-menu fallback, the profile and landlord lookup errors, the routing catch and the top-level technical-error reply.
- A session whose stored user has been deleted is not modelled; the caller resolved for the turn is the user.
- The glyphs in the controller's literals are kept exactly as the file holds them (UTF-8 bytes read back as Windows-1252).
- `ParseIntPrefix` (leading whitespace, an optional sign, then the digit prefix) has no contract of its own; `UssdMenu.ParseIntOfRendered` states what it gives for a typed number.
- UssdController.MainMenuText: states only how its text is tagged, not its wording.
- UssdController.ProfileText: states only how its text is tagged, not its wording.
- UssdController.LandlordContactText: states only how its text is tagged, not its wording.
- UssdController.ListingText: states only how its text is tagged, not its wording; the numbered entries are built by `UssdController.RenderListing`.
- UssdController.HelpTopicText: states only how its text is tagged, not its wording.
- UssdController.PaymentInitiatedText: states only how its text is tagged, not its wording.
- UssdController.ComplaintFiledText: states only how its text is tagged, not its wording; its reference is stated by `UssdController.Reference`.
- UssdMenu.TruncateText: when the cut falls inside a surrogate pair, JavaScript's `substring` keeps the lone high surrogate. A Dafny `char` cannot hold a lone surrogate, so the model drops the whole character and the result is one unit shorter.
- The query reads the bills in the store's scan order as a sequence, while the two payment handlers act on the store keyed by identifier. No lemma converts one form into the other; the query lemmas take the sequence of the bills' states.
