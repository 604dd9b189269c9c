# ProList Protect escrow lifecycle, in Dafny

This project models the escrow order lifecycle of the ProList Protect marketplace: who may move a
transaction from one status to the next, what happens to the stored records when they do, and who is
told. A buyer requests a payment on a listing; the paid order is held in escrow; the seller ships it to
the ProList hub; an administrator receives it and assigns a delivery agent; the agent hands it over
against the buyer's code; the buyer's confirmation completes the order and releases the payment.

The modules follow the source files:

- `Types` and `DbTypes` are the two vocabularies, kept apart. The browser-storage side has nine
  lower-case statuses and the roles buyer-seller, admin and agent. The hosted database has nine
  upper-case statuses, including cancelled, and the roles buyer, seller, agent and admin.
- `Permissions` holds the transition table, the transition guard, the action resolver, and the view
  and listing rules.
- `Storage.LocalStore` is the browser storage. It is a class with one sequence field per storage key:
  keyed upserts, the status update, the party lookups, the demo-seed merges and the bounded
  most-recent lists.
- `Notifications.NotificationStore` is the notification list: one-minute de-duplication, at most ten
  records per user, and read-marking. Beside it is the table of who is told about each status.
- `Invoice.InvoiceCounter` is the persisted invoice counter, the invoice record and the idempotent
  attach.
- The call sites of the transitions are classes whose fields are the component's state:
  - the seller, administrator and agent order panels;
  - the agent's hand-over step machine;
  - the seller's dropoff dialog;
  - the buyer's confirmation page;
  - the listing page that creates a request;
  - the payments dashboard;
  - the buyer's tracking page on the database.

  Each handler is written as the source writes it: a guard, a record update, then a write. Some
  handlers skip the guard. Some write through the plain save, which notifies nobody.
- `UseAuth`, `BuyerOrders`, `TransactionStatus` and `DeliveryLocations` are the pure mappings:
  - the primary role;
  - the timeline positions;
  - the status sections;
  - the role gates of the tracking page and the records it hands to the panels;
  - the configured delivery areas.
- `Seqs`, `Text`, `Wrappers` and `Feedback` are helpers:
  - generic filter, find and take over sequences;
  - `trim`, `toUpperCase`, `includes`, decimal rendering and `padStart`;
  - the option type;
  - the toast messages.

Clocks, random ids and codes are parameters. The hosted database's "set status" call is an opaque
`Reply` that a handler receives: an updated row, no configured client, or an error.

## Model

| member | source | states |
|---|---|---|
| Types.ParseStatus | src/types/transaction.ts:1-10 | Reading a status from its spelling gives back a status spelled exactly so |
| Types.ParseStatusName | src/types/transaction.ts:1-10 | Every status is read back from its own spelling, so the nine spellings are pairwise distinct |
| Permissions.OrderIndex | src/lib/permissions.ts:54-63 | The position of a status in the status order; -1 exactly for refunded, which is not in the order |
| Permissions.AllowedTargets | src/lib/permissions.ts:9-51 | The transition table: at most one target per role and status, each exactly one step forward in the order, and nothing out of completed, refunded, pending_setup or awaiting_payment |
| Permissions.EachStepHasOneRole | src/lib/permissions.ts:9-51 | No target status appears in the table for two different roles or two different source statuses |
| Permissions.CanTransitionTo | src/lib/permissions.ts:68-108 | The guard: true only for a signed-in user and a target in the table, hence one step forward; in_transit_to_hub only for the seller, completed only for the buyer by id or phone, delivered only for the assigned agent, the hub steps only for an admin |
| Permissions.GetAvailableAction | src/lib/permissions.ts:122-185 | The resolver: no action exactly for no user or a completed or refunded transaction; before payment only the waiting notice |
| Permissions.GuardedTargetIsOffered | src/lib/permissions.ts:68-108 | A target the guard allows is the target of the action the resolver offers |
| Permissions.OfferedTargetIsGuarded | src/lib/permissions.ts:122-185 | The target of an offered action is allowed by the guard |
| Permissions.ActionStepsForward | src/lib/permissions.ts:122-185 | Every offered action moves the transaction exactly one step along the status order |
| Permissions.ResolverMatchesGuard | src/lib/permissions.ts:68-185 | The guard allows a target exactly when the resolver offers the action that sets it, in both directions |
| Permissions.WaitingMeansNoTransition | src/lib/permissions.ts:135-185 | When the resolver offers only a waiting notice or nothing, the guard allows no target at all |
| Permissions.GuardedRunAdvances | src/lib/permissions.ts:9-108 | A run of guarded transitions advances one status per step, starts at escrow_held or later and has at most five steps |
| Permissions.CanViewTransaction | src/lib/permissions.ts:190-205 | An admin views everything, an agent exactly the transactions assigned to them, a buyer-seller exactly those where they are the seller or the buyer by id or phone; nobody signed out |
| Permissions.ActorCanView | src/lib/permissions.ts:68-205 | Anyone the guard lets move a transaction may also view it |
| Permissions.CanCreateListing | src/lib/permissions.ts:210-222 | Admins and agents may always create listings; a buyer-seller exactly when verified; nobody signed out |
| Permissions.StatusLabelNamesTheStatus | src/lib/permissions.ts:227-244 | The status label is the same for every role, and different statuses get different labels |
| Storage.IndexOfId | src/lib/storage.ts:366-396 | The first position holding the id, or -1 exactly when no record has it |
| Storage.IndexOfIdIs | src/lib/storage.ts:366-396 | A position with the id and none before it is the one the lookup finds |
| Storage.FindById | src/lib/storage.ts:379-382 | The first record with the id: a found record is stored, has the id and no earlier record has it; nothing is found exactly when no record has it |
| Storage.Upsert | src/lib/storage.ts:366-377 | The saved record is in the result, nothing else new appears, every record with another id is kept, and the list grows by one exactly when the id was not yet stored |
| Storage.UpsertPlaces | src/lib/storage.ts:366-377 | An existing id is replaced where it stands and nothing else moves; a new record is added at the front or the back and the rest is kept |
| Storage.UpsertThenFind | src/lib/storage.ts:366-377 | After an upsert, looking the id up returns the saved record |
| Storage.UpsertLeavesOtherIds | src/lib/storage.ts:366-377 | An upsert changes the lookup of no other id |
| Storage.UpsertKeepsUnique | src/lib/storage.ts:366-377 | An upsert keeps ids unique when they were unique |
| Storage.Ids | src/lib/storage.ts:210-246 | One id per demo record; the id of every demo record is listed, and every listed id belongs to a demo record |
| Storage.MergeSeed | src/lib/storage.ts:208-253 | The merge holds nothing but stored and demo records, and keeps every stored record whose id is not a demo id |
| Storage.MergeSeedHasAll | src/lib/storage.ts:208-253 | After each demo seed merge every demo id is present |
| Storage.MergeSeedKeepsOthers | src/lib/storage.ts:208-253 | The seed merge keeps exactly the records with non-demo ids, in their order |
| Storage.WithStatus | src/lib/storage.ts:384-392 | The status update keeps the length and every record with another id; a record not there before carries the id, the new status and the new update time |
| Storage.WithStatusTouchesOnlyThat | src/lib/storage.ts:384-396 | The status update changes nothing for an unknown id; otherwise only the status and update time of the first record with that id |
| Storage.NotificationsAfterUpdate | src/lib/storage.ts:384-405 | The notification list is unchanged when the id is unknown, notification is skipped or nobody is signed in |
| Storage.RememberBuyerTransaction | src/lib/storage.ts:408-415 | The id is remembered afterwards, at most one entry is added, and nothing but the id and the earlier ids appears |
| Storage.RememberBuyerTransactionShape | src/lib/storage.ts:408-415 | A remembered id changes nothing; a new id goes first, followed by the newest earlier ids, so the list is one longer but at most fifty long, and it stays free of duplicates |
| Storage.PushBounded | src/lib/storage.ts:428-454 | The new entry comes first, followed by the newest earlier entries; the list is one longer than before, but never longer than the bound |
| Storage.PostsWithout | src/lib/storage.ts:340-343 | Exactly the posts without that id remain |
| Storage.LocalStore.constructor | src/lib/storage.ts:4-12 | Every storage key starts empty and nobody is signed in |
| Storage.LocalStore.InitializeDemoUsers | src/lib/storage.ts:208-217 | The users become the seed merge with the four demo users |
| Storage.LocalStore.InitializeDemoPosts | src/lib/storage.ts:232-241 | The posts become the seed merge with the two demo listings |
| Storage.LocalStore.InitializeDemoTransactions | src/lib/storage.ts:244-253 | The transactions become the seed merge with the four demo transactions |
| Storage.LocalStore.GetUserById | src/lib/storage.ts:271-274 | A user found is stored and has the id; none is found exactly when no stored user has it |
| Storage.LocalStore.SaveUser | src/lib/storage.ts:276-287 | Upsert of the user, a new user appended |
| Storage.LocalStore.GetSessionId | src/lib/storage.ts:290-293 | An id exactly when someone is signed in, and then the signed-in user's id |
| Storage.LocalStore.SetSession | src/lib/storage.ts:295-297 | The session becomes the user |
| Storage.LocalStore.ClearSession | src/lib/storage.ts:299-301 | Nobody is signed in afterwards |
| Storage.LocalStore.GetSellerPosts | src/lib/storage.ts:318-320 | Exactly the posts of that seller |
| Storage.LocalStore.SavePost | src/lib/storage.ts:322-333 | Upsert of the post, a new post put first |
| Storage.LocalStore.GetPost | src/lib/storage.ts:335-338 | A listing found is stored and has the id; none is found exactly when no stored listing has it |
| Storage.LocalStore.DeletePost | src/lib/storage.ts:340-343 | The posts become those without that id |
| Storage.LocalStore.GetSellerTransactions | src/lib/storage.ts:358-360 | Exactly the transactions with that seller id |
| Storage.LocalStore.GetBuyerTransactions | src/lib/storage.ts:362-364 | Exactly the transactions whose buyer id or buyer phone is the given value |
| Storage.LocalStore.GetTransaction | src/lib/storage.ts:379-382 | A transaction found is stored and has the id; none is found exactly when no stored transaction has it |
| Storage.LocalStore.SaveTransaction | src/lib/storage.ts:366-377 | Upsert of the transaction, a new one put first; the notification list is outside its frame |
| Storage.LocalStore.UpdateTransactionStatus | src/lib/storage.ts:384-405 | The transactions become the status update of that id, with no permission check; the notification list gets the rules table's notes for the updated record unless the id is unknown, notification is skipped or nobody is signed in |
| Storage.LocalStore.SaveBuyerTransaction | src/lib/storage.ts:408-415 | The remembered ids after recording the id |
| Storage.LocalStore.SaveSmartShareHistory | src/lib/storage.ts:428-433 | The entry goes first and the history is cut to twenty |
| Storage.LocalStore.SaveAIHistory | src/lib/storage.ts:449-454 | The entry goes first and the history is cut to fifty |
| Notifications.ForUserCons | src/lib/notifications.ts:24-26 | A user's list of a list with a record in front is that record (when it is theirs) followed by their list of the rest |
| Notifications.IsDuplicate | src/lib/notifications.ts:42-54 | A duplicate always has a first matching record to return |
| Notifications.FirstMatch | src/lib/notifications.ts:50-54 | The first stored record with the draft's user and message, and none exactly when there is no such record |
| Notifications.Inserted | src/lib/notifications.ts:63-73 | The new record is in the list, nothing else new appears, and no record of another user is lost |
| Notifications.AfterSave | src/lib/notifications.ts:39-76 | A save adds nothing but the fresh record, adds it whenever the save is no duplicate, and loses no record of another user |
| Notifications.TakeOfUser | src/lib/notifications.ts:67-70 | The kept newest records of a user all belong to that user |
| Notifications.InsertedForUser | src/lib/notifications.ts:63-71 | After an insert the user's list is the new record followed by their earlier records, cut to the ten newest |
| Notifications.InsertedLeavesOthers | src/lib/notifications.ts:67-73 | An insert leaves every other user's records, and their order, as they were |
| Notifications.SaveShape | src/lib/notifications.ts:42-64 | A save within a minute of a save of the same message for the same user changes nothing; otherwise the new unread record comes first |
| Notifications.SaveCapsUser | src/lib/notifications.ts:5-73 | After a save the recipient has at most ten records, and a fresh save keeps the ten newest |
| Notifications.SaveLeavesOthers | src/lib/notifications.ts:63-73 | A save never changes another user's records or their order |
| Notifications.SaveDelivers | src/lib/notifications.ts:39-76 | After any save the recipient holds a record with that message |
| Notifications.RepeatWithinWindowIsDuplicate | src/lib/notifications.ts:42-54 | Saving the same draft again within a minute of a fresh save is a duplicate and changes nothing |
| Notifications.MarkWhere | src/lib/notifications.ts:79-103 | Read-marking keeps the length and every field but the read flag, and sets the flag exactly where the rule holds |
| Notifications.MarkWhereIdempotent | src/lib/notifications.ts:79-103 | Marking twice by a rule that ignores the read flag is marking once |
| Notifications.MarkingRulesIdempotent | src/lib/notifications.ts:79-103 | Mark-as-read by ids, by user and by user and types are each idempotent |
| Notifications.UnreadFilterIsTally | src/lib/notifications.ts:29-31 | The unread filter of a user's list has exactly as many records as the user's unread records counted one by one |
| Notifications.SellerNote | src/lib/notifications.ts:119-142 | The seller's line goes to the seller only when a seller id is set and differs from the acting user |
| Notifications.BuyerNote | src/lib/notifications.ts:144-160 | The buyer's line goes to the buyer only when a buyer id is set and differs from the acting user |
| Notifications.AdminNote | src/lib/notifications.ts:162-169 | The in-transit line always goes to the all-admins marker |
| Notifications.OutForDeliveryNotes | src/lib/notifications.ts:144-178 | Out for delivery tells the buyer as above, and the assigned agent exactly when an agent id is set, with no acting-user check |
| Notifications.NoNotes | src/lib/notifications.ts:112-181 | The statuses with no rule produce no notification |
| Notifications.GetStatusNotifications | src/lib/notifications.ts:112-181 | The rules table: each kind occurs at most once, goes to the party its kind names, and occurs exactly in the listed situations |
| Notifications.DraftsOf | src/lib/notifications.ts:193-202 | One draft per rule; every draft is tagged with the transaction id and carries the message, kind and recipient of one of the rules |
| Notifications.SaveAll | src/lib/notifications.ts:184-203 | A batch save adds nothing but fresh records of its drafts, and loses no record of a user none of the drafts names |
| Notifications.SaveAllLeavesOthers | src/lib/notifications.ts:184-203 | Saving a batch leaves the records of any user none of the drafts names unchanged |
| Notifications.HasPendingBuyerAction | src/lib/notifications.ts:206-210 | A transaction of the list where the user is the buyer by id and delivery awaits confirmation, with no such transaction before it; none exactly when no such transaction exists |
| Notifications.NotificationStore.constructor | src/lib/notifications.ts:18-21 | The store starts with the stored list |
| Notifications.NotificationStore.Save | src/lib/notifications.ts:39-76 | The stored list becomes the list after the save; a duplicate returns the first stored record with that user and message, otherwise the fresh record |
| Notifications.NotificationStore.MarkAsRead | src/lib/notifications.ts:79-85 | Marks exactly the listed ids read |
| Notifications.NotificationStore.MarkAllAsRead | src/lib/notifications.ts:88-94 | Marks exactly the user's records read |
| Notifications.NotificationStore.MarkTypeAsRead | src/lib/notifications.ts:97-103 | Marks exactly the user's records of the listed types read |
| Notifications.NotificationStore.UserNotifications | src/lib/notifications.ts:24-26 | Exactly the stored records addressed to the user |
| Notifications.NotificationStore.UnreadCount | src/lib/notifications.ts:29-31 | The number of the user's unread records |
| Notifications.NotificationStore.HasUnreadByType | src/lib/notifications.ts:34-36 | True exactly when some stored record of the user is unread and of a listed type |
| Notifications.NotificationStore.SaveDrafts | src/lib/notifications.ts:193-202 | Saves the drafts one after another, in order |
| Notifications.NotificationStore.NotifyStatusChange | src/lib/notifications.ts:184-203 | Nothing without a session; otherwise every rule of the table for the acting user is saved in order, tagged with the transaction id |
| Invoice.SequenceField | src/lib/invoice.ts:11 | The sequence field is at least six decimal digits and reads back as the counter |
| Invoice.InvoiceNumber | src/lib/invoice.ts:10-12 | The number starts with PL- and ends with a dash and the sequence field |
| Invoice.DigitsEndAtDash | src/lib/invoice.ts:12 | The digit run of a digit string followed by a dash is exactly that string |
| Invoice.SplitAtDash | src/lib/invoice.ts:12 | A digit field followed by a dash splits off unambiguously |
| Invoice.SplitInvoiceNumber | src/lib/invoice.ts:12 | The year and sequence fields can be read back from an invoice number |
| Invoice.InvoiceNumberInjective | src/lib/invoice.ts:7-13 | Different (year, sequence) pairs never share an invoice number |
| Invoice.InvoiceFor | src/lib/invoice.ts:15-33 | The invoice carries the given number and the transaction id; the total is the item price plus the delivery fee, both copied from the transaction; both cities are the delivery location; missing buyer name and phone become "Unknown Buyer" and "" |
| Invoice.InvoiceCounter.constructor | src/lib/invoice.ts:5 | The counter starts at the stored value |
| Invoice.InvoiceCounter.GenerateInvoiceNumber | src/lib/invoice.ts:7-13 | The counter goes up by exactly one and the number is PL-year-counter padded to six digits |
| Invoice.InvoiceCounter.GenerateInvoice | src/lib/invoice.ts:15-33 | One counter step, and the invoice for the transaction under the new number |
| Invoice.InvoiceCounter.AttachInvoiceToTransaction | src/lib/invoice.ts:35-50 | Nothing for an unknown id; an existing invoice is returned without advancing the counter or writing; otherwise a new invoice is saved on the transaction with no other field changed, and the lookup returns it |
| AdminOrderActions.PanelFor | src/components/admin/AdminOrderActions.tsx:86-177 | The panel depends on the kind of the offered action alone: receive, assign, the waiting text, or nothing |
| AdminOrderActions.Agents | src/components/admin/AdminOrderActions.tsx:32 | Exactly the stored users with the agent role |
| AdminOrderActions.PanelByStatus | src/components/admin/AdminOrderActions.tsx:86-177 | An admin sees the receive panel in transit and the assign panel at the hub; nobody else ever sees either |
| AdminOrderActions.AssignedRecord | src/components/admin/AdminOrderActions.tsx:72-78 | The assigned record carries the chosen agent's id and name and out_for_delivery, one step after the hub, and differs from the original in nothing else but the update time |
| AdminOrderActions.AdminOrderActions.constructor | src/components/admin/AdminOrderActions.tsx:23-32 | No agent is selected at first |
| AdminOrderActions.AdminOrderActions.SelectAgent | src/components/admin/AdminOrderActions.tsx:28 | The selection becomes the picked id |
| AdminOrderActions.AdminOrderActions.HandleReceiveAtHub | src/components/admin/AdminOrderActions.tsx:34-49 | Denied with the permission message and nothing written unless the action is receive; otherwise the notifying status update to at_prolist_hub, which the guard allows, and the stored record handed back |
| AdminOrderActions.AdminOrderActions.HandleAssignAgent | src/components/admin/AdminOrderActions.tsx:51-84 | Denied unless the action is assign, then refused with no agent selected or an id that is no agent's; otherwise the assigned record is saved by the plain upsert, so nobody is notified |
| SellerOrderActions.PanelFor | src/components/seller/SellerOrderActions.tsx:43-153 | Nothing for anyone but the seller; the ship panel exactly when the seller is offered shipping; the completion card exactly for the seller of a completed order |
| SellerOrderActions.WaitingContent | src/components/seller/SellerOrderActions.tsx:86-119 | The four middle stages each get their own description; any other status falls back to the resolver's label with "Processing..." |
| SellerOrderActions.SellerPanelByStatus | src/components/seller/SellerOrderActions.tsx:43-153 | What an ordinary seller sees at each of the nine statuses: ship panel when paid, the status's waiting card while others act, the resolver's text before payment, the delivered card unless the seller is also the buyer, the completion card, and nothing once refunded |
| SellerOrderActions.ShippedRecord | src/components/seller/SellerOrderActions.tsx:33-38 | The shipped record carries the logistics and in_transit_to_hub and differs from the original in nothing else but the update time |
| SellerOrderActions.SellerOrderActions.constructor | src/components/seller/SellerOrderActions.tsx:17-25 | The dropoff dialog starts closed |
| SellerOrderActions.SellerOrderActions.OpenDropoff | src/components/seller/SellerOrderActions.tsx:65-70 | The ship button opens the dialog |
| SellerOrderActions.SellerOrderActions.HandleDropoffSubmit | src/components/seller/SellerOrderActions.tsx:27-41 | Denied with the permission message and nothing written unless the action is shipping, which the guard then allows; otherwise the shipped record is saved by the plain upsert, so the admins are not notified |
| SellerOrderActions.SellerOrderActions.SubmitDropoff | src/components/seller/SellerOrderActions.tsx:75-80 | Submitting the open dialog: a validation message and nothing written, or the shipped record with the entered logistics saved and the dialog closed |
| SellerDropoffModal.DropoffError | src/components/delivery/SellerDropoffModal.tsx:59-67 | The form is accepted exactly when both a company and a city are chosen; a missing company is reported before a missing city, each with its own message |
| SellerDropoffModal.NoteIsNeverValidated | src/components/delivery/SellerDropoffModal.tsx:56-76 | Changing the free note never changes the validation outcome |
| SellerDropoffModal.PickedEntryPasses | src/components/delivery/SellerDropoffModal.tsx:19-41 | Any company from the courier list with any city from the Cameroon city list passes validation, whatever the note |
| SellerDropoffModal.SellerDropoffModal.constructor | src/components/delivery/SellerDropoffModal.tsx:50-54 | The dialog opens with company, city and note all empty |
| SellerDropoffModal.SellerDropoffModal.PickCompany | src/components/delivery/SellerDropoffModal.tsx:100 | Choosing a courier from the list replaces only the company |
| SellerDropoffModal.SellerDropoffModal.PickCity | src/components/delivery/SellerDropoffModal.tsx:123 | Choosing a city from the list replaces only the city |
| SellerDropoffModal.SellerDropoffModal.TypeNote | src/components/delivery/SellerDropoffModal.tsx:146 | Typing replaces only the note |
| SellerDropoffModal.SellerDropoffModal.HandleSubmit | src/components/delivery/SellerDropoffModal.tsx:56-76 | An invalid form shows only its first error and submits nothing; a valid one hands on the entered details unchanged (company and city never empty), closes the dialog and shows the in-transit message |
| AgentOrderActions.PanelFor | src/components/agent/AgentOrderActions.tsx:39-125 | Nothing for anyone but the assigned agent; the workflow exactly while it is open; the ready panel exactly for an agent-role user on an out-for-delivery order; the delivered card on a delivered order unless the viewer is also its dual-role buyer; the completion card exactly on a completed order |
| AgentOrderActions.AgentOrderActions.constructor | src/components/agent/AgentOrderActions.tsx:22 | The workflow starts closed |
| AgentOrderActions.AgentOrderActions.StartDeliveryConfirmation | src/components/agent/AgentOrderActions.tsx:81-88 | The ready panel's button opens the workflow, which keeps the invariant that the workflow is open only while the delivery is offered |
| AgentOrderActions.AgentOrderActions.CloseWorkflow | src/components/agent/AgentOrderActions.tsx:50 | The back button closes the workflow |
| AgentOrderActions.AgentOrderActions.HandleDeliveryConfirm | src/components/agent/AgentOrderActions.tsx:27-37 | Unless the resolver offers the delivery, the permission message is shown and nothing changes; otherwise the stored order becomes delivered through the notifying update, that step is one the transition guard allows, the stored record is handed back and the workflow closes |
| AgentOrderActions.AgentOrderActions.SubmitOtp | src/components/agent/AgentOrderActions.tsx:27-52 | An accepted code always ends with the order recorded as delivered and the workflow closed (the permission refusal cannot occur there); a rejected code changes nothing in the store and leaves the workflow on the code step |
| AgentDeliveryWorkflow.OwnQrAccepted | src/components/delivery/AgentDeliveryWorkflow.tsx:57-73 | The confirmation link the agent shows always passes the agent's own scan check |
| AgentDeliveryWorkflow.OtpAccepted | src/components/delivery/AgentDeliveryWorkflow.tsx:41 | The demo code always passes; any other accepted code has the order code's length, and that code holds no lower-case letter |
| AgentDeliveryWorkflow.QrAccepted | src/components/delivery/AgentDeliveryWorkflow.tsx:57 | An accepted scan is at least as long as the order's code, and an empty code accepts any scan |
| AgentDeliveryWorkflow.QrValue | src/components/delivery/AgentDeliveryWorkflow.tsx:73 | The link starts with the site's address and ends with the order's confirmation code |
| AgentDeliveryWorkflow.OnlyDemoOtpOtherwise | src/components/delivery/AgentDeliveryWorkflow.tsx:27-41 | When the order's code holds a lower-case letter, or the typed code has a different length, only the demo code is accepted |
| AgentDeliveryWorkflow.AgentDeliveryWorkflow.constructor | src/components/delivery/AgentDeliveryWorkflow.tsx:34-36 | The screen opens on the method selection with an empty code and no confirmation running |
| AgentDeliveryWorkflow.AgentDeliveryWorkflow.Choose | src/components/delivery/AgentDeliveryWorkflow.tsx:114-150 | Each method card moves from the selection to its own step |
| AgentDeliveryWorkflow.AgentDeliveryWorkflow.Back | src/components/delivery/AgentDeliveryWorkflow.tsx:96-97 | The back button leaves the screen exactly from the selection step and otherwise returns to it |
| AgentDeliveryWorkflow.AgentDeliveryWorkflow.TypeOtp | src/components/delivery/AgentDeliveryWorkflow.tsx:226-229 | The code field keeps at most the first six characters typed |
| AgentDeliveryWorkflow.AgentDeliveryWorkflow.SubmitEnabled | src/components/delivery/AgentDeliveryWorkflow.tsx:238 | Submission is possible only with exactly six characters |
| AgentDeliveryWorkflow.AgentDeliveryWorkflow.HandleOtpSubmit | src/components/delivery/AgentDeliveryWorkflow.tsx:38-52 | An accepted code (the demo code, or the upper-cased input equal to the order's code) reaches the confirmed step and asks for the delivery to be recorded; any other code shows the error and stays on the code step |
| AgentDeliveryWorkflow.AgentDeliveryWorkflow.HandleQrScan | src/components/delivery/AgentDeliveryWorkflow.tsx:54-67 | A scanned text containing the order's code reaches the confirmed step and asks for the delivery to be recorded; any other shows the error and stays on the scan step |
| ConfirmDelivery.ConfirmDeliveryPage.constructor | src/pages/ConfirmDelivery.tsx:18-22 | The page starts with no order, on the method selection, with an empty code and nothing confirmed or loading |
| ConfirmDelivery.ConfirmDeliveryPage.ConfirmDeliveryWith | src/pages/ConfirmDelivery.tsx:46-55 | With no captured order nothing happens; otherwise the stored order is completed through the notifying update whatever its status and whoever is signed in, and the release message is shown |
| ConfirmDelivery.ConfirmDeliveryPage.MountAsWritten | src/pages/ConfirmDelivery.tsx:24-44 | Without an id the page leaves; an unknown id shows the not-found message and leaves; a known one is loaded, and a matching code in the link never completes the order nor adds a notification |
| ConfirmDelivery.ConfirmDeliveryPage.Mount | src/pages/ConfirmDelivery.tsx:24-44 | As the page evidently intends: a known order is loaded, and it is completed exactly when the link carries its code |
| ConfirmDelivery.ConfirmDeliveryPage.ChooseMethod | src/pages/ConfirmDelivery.tsx:156-173 | The two method cards move from the selection to the scan or the code step |
| ConfirmDelivery.ConfirmDeliveryPage.Back | src/pages/ConfirmDelivery.tsx:208-232 | The back buttons return to the selection |
| ConfirmDelivery.ConfirmDeliveryPage.TypeOtp | src/pages/ConfirmDelivery.tsx:223-226 | The code field holds the first six characters typed, upper-cased, so it is always upper case and at most six long |
| ConfirmDelivery.ConfirmDeliveryPage.SubmitEnabled | src/pages/ConfirmDelivery.tsx:228 | Submission is possible only with exactly six characters |
| ConfirmDelivery.ConfirmDeliveryPage.HandleOtpSubmit | src/pages/ConfirmDelivery.tsx:57-67 | With the order loaded, it completes exactly when the typed code equals the order's code; any other code shows the error and changes nothing |
| ConfirmDelivery.ConfirmDeliveryPage.HandleQrScan | src/pages/ConfirmDelivery.tsx:69-81 | Text that is no URL stops the handler without any message; a URL completes the order exactly when its code parameter equals the order's code, otherwise the error shows and nothing changes |
| ProductPage.RequestError | src/pages/ProductPage.tsx:77-95 | A request is accepted exactly when the trimmed name and phone are non-empty, a city is chosen and a known delivery area is selected; otherwise the first missing item is reported, in the order name, phone, city, area |
| ProductPage.InitialForm | src/pages/ProductPage.tsx:32-37 | The form starts with empty notes, and with the signed-in user's name, phone and e-mail, or empty fields when nobody is signed in |
| ProductPage.WithField | src/pages/ProductPage.tsx:68-70 | The edited field reads back the new value, and every other field is kept |
| ProductPage.NewTransaction | src/pages/ProductPage.tsx:104-142 | The new record has the given id, the listing and its seller, awaits payment at the listing's price with no fee, has no agent, no invoice and one creation time, and is delivered to the chosen city and area under the given code |
| ProductPage.NewTransactionAwaitsPayment | src/pages/ProductPage.tsx:104-142 | A new request is created awaiting payment at the second step of the order, carries the listing's price with no delivery fee and the listing's seller, offers everyone only a wait for the buyer, and can be moved by nobody through the transition guard |
| ProductPage.NewTransactionBuyerDetails | src/pages/ProductPage.tsx:114-117 | The buyer's name and phone are stored trimmed and present, each equal to the trimmed form field, a kept e-mail is the trimmed field, the buyer id is recorded exactly when someone is signed in, and the e-mail is left out exactly when it is all white space |
| ProductPage.MoreFromSeller | src/pages/ProductPage.tsx:64 | The other listings shown are exactly the seller's listings other than the one on the page |
| ProductPage.ProductPage.constructor | src/pages/ProductPage.tsx:21-37 | The page starts without a listing, with no selection and with the form filled from the signed-in user's name, phone and e-mail |
| ProductPage.ProductPage.Load | src/pages/ProductPage.tsx:49-66 | Without an id the page leaves; an unknown listing shows the not-found message and leaves; otherwise the listing is loaded and the other listings shown belong to the same seller, are stored, and exclude the listing itself |
| ProductPage.ProductPage.HandleChange | src/pages/ProductPage.tsx:68-70 | Editing a field replaces only that field |
| ProductPage.ProductPage.SelectCity | src/pages/ProductPage.tsx:339-342 | Picking a city clears the area picked before and its looked-up details |
| ProductPage.ProductPage.SelectLocation | src/pages/ProductPage.tsx:40-47 | Picking an area looks it up among all configured areas; clearing it clears the details |
| ProductPage.ProductPage.HandleRequestPayment | src/pages/ProductPage.tsx:72-147 | Nothing without a listing; a missing detail shows its message and stores nothing; otherwise the new request is saved first in the list, its id is remembered for the buyer, nobody is notified, and the buyer is sent to its payment page |
| DeliveryLocations.ActiveLocations | src/config/deliveryLocations.ts:49-50 | Exactly the active configured areas |
| DeliveryLocations.LocationsByCity | src/config/deliveryLocations.ts:52-53 | Exactly the active areas of the given city |
| DeliveryLocations.LocationById | src/config/deliveryLocations.ts:55-56 | The first area with the given id, active or not, and none exactly when no area has that id |
| DeliveryLocations.Cities | src/config/deliveryLocations.ts:59 | One city per area, and a city is listed exactly when some area lies in it |
| DeliveryLocations.UniqueCities | src/config/deliveryLocations.ts:58-59 | Each city that has an active area, listed once |
| DeliveryLocations.EachCityHasAreas | src/config/deliveryLocations.ts:52-59 | Every city offered has at least one area to choose from |
| DeliveryLocations.ConfiguredCities | src/config/deliveryLocations.ts:13-44 | With the configured areas, Bamenda is the only city and it has two areas |
| DeliveryLocations.GetActiveLocations | src/config/deliveryLocations.ts:49-50 | Exactly the active configured areas |
| DeliveryLocations.GetLocationsByCity | src/config/deliveryLocations.ts:52-53 | Exactly the active configured areas of the city |
| DeliveryLocations.GetLocationById | src/config/deliveryLocations.ts:55-56 | A configured area with that id, active or not, and none exactly when no configured area has it |
| DeliveryLocations.GetUniqueCities | src/config/deliveryLocations.ts:58-59 | Each city with an active configured area, listed once |
| UseAuth.UserRoles | src/hooks/useAuth.tsx:44-49 | The queried roles as they are, or the single buyer role when no rows came back |
| UseAuth.PrimaryRole | src/hooks/useAuth.tsx:50-53 | The primary role is held (or is buyer), no held role outranks it, and an administrator is always primary administrator |
| UseAuth.PrimaryRoleBySeniority | src/hooks/useAuth.tsx:50-53 | Any held role that nothing held outranks is the primary role, so the choice depends only on the set of roles |
| UseAuth.NoRolesMeansBuyer | src/hooks/useAuth.tsx:49-53 | Both an empty role list and a failed role query make the user a buyer |
| UseAuth.IsVerified | src/hooks/useAuth.tsx:61 | Verified exactly when a profile was found with the verified status |
| UseAuth.BuildAuthUser | src/hooks/useAuth.tsx:49-62 | The published user carries the role list, the primary role of that list, and the verified flag of the profile |
| BuyerOrders.StatusTypeOf | src/pages/BuyerOrders.tsx:24-30 | Each indicator kind holds exactly its statuses: success for completed; warning for refunded or cancelled; transit for the two transport steps; active for paid, at the hub or delivered; pending only for awaiting payment |
| BuyerOrders.ActiveOrders | src/pages/BuyerOrders.tsx:60 | Exactly the orders not completed, refunded or cancelled |
| BuyerOrders.CompletedOrders | src/pages/BuyerOrders.tsx:61 | Exactly the completed, refunded or cancelled orders |
| BuyerOrders.FinishedByIndicator | src/pages/BuyerOrders.tsx:24-61 | An order is in the finished section exactly when it shows the success or the warning indicator |
| BuyerOrders.SectionsPartition | src/pages/BuyerOrders.tsx:60-61 | Every order is in exactly one of the two sections and together they hold as many orders as the list |
| BuyerOrders.SectionsKeepOrder | src/pages/BuyerOrders.tsx:60-61 | Each section keeps the order of the list it is taken from |
| BuyerTrackOrder.StatusIndex | src/pages/BuyerTrackOrder.tsx:71-76 | The timeline position is -1 exactly for awaiting payment, refunded and cancelled, the hub shares the "Shipped" step, and every other status sits at its own step of the buyer timeline |
| BuyerTrackOrder.StatusIndexAlongForwardOrder | src/pages/BuyerTrackOrder.tsx:27-76 | Along the forward order of statuses, the hub step shares the shipped position and every other step advances by one |
| BuyerTrackOrder.StatusIndexValues | src/pages/BuyerTrackOrder.tsx:27-76 | The timeline positions -1, 0, 1, 1, 2, 3, 4 of the statuses in their forward order |
| BuyerTrackOrder.StatusIndexMonotone | src/pages/BuyerTrackOrder.tsx:71-76 | The buyer's timeline never moves backwards as the order moves forwards |
| BuyerTrackOrder.BuyerTrackOrderPage.constructor | src/pages/BuyerTrackOrder.tsx:39-58 | The page holds the fetched order with no confirmation running |
| BuyerTrackOrder.BuyerTrackOrderPage.HandleBuyerConfirm | src/pages/BuyerTrackOrder.tsx:78-125 | Nothing without an order or a signed-in user; anyone but the buyer is refused, then an order not yet delivered; the completion request is sent exactly when the confirm button is offered, and an updated row replaces the page's order, an error shows the failure message, and a missing client leaves everything as it was |
| TransactionStatus.StatusIndex | src/pages/TransactionStatus.tsx:28-78 | The timeline position is -1 exactly for pending payment, refunded and cancelled, and otherwise the status sits at its own step of the six-step timeline |
| TransactionStatus.StatusIndexAlongForwardOrder | src/pages/TransactionStatus.tsx:28-78 | Along the forward order of statuses each status sits one step further than the one before |
| TransactionStatus.StatusIndexStrictlyMonotone | src/pages/TransactionStatus.tsx:28-78 | Every forward move of the order shows as a strictly later timeline position |
| TransactionStatus.PanelsFor | src/pages/TransactionStatus.tsx:93-237 | While a signed-in user views an order between payment and completion: the seller panel for the order's seller unless administrator or agent, the administrator panel for administrators, the agent panel for the assigned agent; nothing otherwise |
| TransactionStatus.AtMostOnePanel | src/pages/TransactionStatus.tsx:210-237 | No two action panels ever show together |
| TransactionStatus.SessionForActions | src/pages/TransactionStatus.tsx:99-105 | A session is handed over exactly when someone is signed in, with the user's id and the database spelling of the primary role |
| TransactionStatus.TransactionForActions | src/pages/TransactionStatus.tsx:107-119 | The record handed over keeps the database spelling of the status, the seller and buyer ids and the amount as price, has no delivery fee, and has no buyer phone under the local name |
| TransactionStatus.ResolveTextOnLocalRecords | src/lib/permissions.ts:122-185 | On records in the local vocabulary, the resolver read on spellings gives exactly the typed resolver's action |
| TransactionStatus.ResolveText | src/lib/permissions.ts:122-185 | Read on spellings, the resolver offers something exactly for the seven local spellings of a status before completion, and offers anything but a wait only to the local role spellings |
| TransactionStatus.NoDbStatusIsLocal | src/types/database.ts:5-14 | No database status spelling is a local status spelling |
| TransactionStatus.AdapterOffersNothing | src/pages/TransactionStatus.tsx:99-119 | As written, every panel is offered no action whoever is signed in and whatever the status, so no order can move from this page |
| TransactionStatus.LocalRole | src/types/database.ts:3 | Buyers and sellers map to the one buyer-seller local role, agents and administrators to their own |
| TransactionStatus.LocalStatus | src/types/database.ts:5-14 | Every database status but cancelled has a local counterpart |
| TransactionStatus.LocalStatusKeepsOrder | src/lib/permissions.ts:54-63 | Translation keeps the forward order of the statuses |
| TransactionStatus.IntendedSession | src/pages/TransactionStatus.tsx:99-105 | The translated session exists exactly when someone is signed in, with the user's id and the local role of the primary role |
| TransactionStatus.IntendedTransaction | src/pages/TransactionStatus.tsx:107-119 | A translated record exists exactly for a non-cancelled order, with the local status and the order's seller, buyer, buyer phone, agent and amount |
| TransactionStatus.IntendedAdapterOffersTheStep | src/pages/TransactionStatus.tsx:210-237 | With translated records each shown panel offers its step: shipping to the seller of a paid order, receipt and assignment to the administrator, delivery to the assigned agent |
| TransactionStatus.IntendedAdapterAgreesWithGuard | src/pages/TransactionStatus.tsx:210-237 | With translated records, a step is offered exactly when the transition guard allows it |
| Payments.BucketOf | src/pages/Payments.tsx:125-146 | Every transaction is in exactly one section: pending before payment, completed once completed or refunded, active otherwise |
| Payments.PendingOf | src/pages/Payments.tsx:125-127 | Exactly the transactions of the pending section |
| Payments.ActiveOf | src/pages/Payments.tsx:128-131 | Exactly the transactions of the active section |
| Payments.CompletedOf | src/pages/Payments.tsx:132-134 | Exactly the transactions of the completed section |
| Payments.BucketCounts | src/pages/Payments.tsx:124-146 | The pending, active and completed counts add up to the number of transactions |
| Payments.ShownCompleted | src/pages/Payments.tsx:292 | Exactly the first min(5, n) of the n completed transactions are shown, in order |
| Payments.CountWith | src/pages/Payments.tsx:148-162 | A status count is zero exactly when no transaction has the status and equals the number of transactions exactly when all have it |
| Payments.AgentList | src/pages/Payments.tsx:102-105 | The agent's list holds exactly the transactions assigned to the signed-in agent |
| Payments.ReplaceById | src/pages/Payments.tsx:200 | The refreshed list has the same length; it holds nothing but the new record and the old records with other ids, keeps all of those, and holds the new record whenever the id was listed |
| Payments.SaveOfStoredIsStatusUpdate | src/pages/Payments.tsx:168-177 | Saving the stored record with a new status and update time changes the list exactly as the status update does, only without notifications |
| Payments.ShortcutsIgnoreTheGuard | src/pages/Payments.tsx:168-203 | The transition guard would refuse the hub mark unless the parcel is in transit, the assignment unless it is at the hub, and the delivery unless it is out for delivery and the user its assigned agent; the shortcuts make these moves regardless |
| Payments.PaymentsPage.constructor | src/pages/Payments.tsx:73-77 | All lists start empty |
| Payments.PaymentsPage.Load | src/pages/Payments.tsx:87-106 | Without a session the page leaves; otherwise the user's purchases and sales are loaded, an administrator also gets every transaction and the agents, an agent exactly their assigned transactions, and nothing else changes |
| Payments.PaymentsPage.MarkSeen | src/pages/Payments.tsx:108-120 | The user's notifications of the role's dashboard types are marked read, and for an administrator also those addressed to all administrators; nothing without a session |
| Payments.PaymentsPage.HandleMarkAtHub | src/pages/Payments.tsx:168-177 | Any stored transaction, whatever its status, is set to at-hub and saved, the list is refreshed and nobody is notified; an unknown id changes nothing |
| Payments.PaymentsPage.HandleAssignAgent | src/pages/Payments.tsx:179-191 | When the transaction and a loaded agent are both found, the agent is recorded, the order goes out for delivery whatever its status and is saved, with no notification; otherwise nothing changes |
| Payments.PaymentsPage.HandleAgentDelivered | src/pages/Payments.tsx:194-203 | Any stored transaction, whoever it is assigned to and whatever its status, is set to delivered and saved, the agent's list shows the new record, and nobody is notified |
| Text.TrimStart | src/pages/ProductPage.tsx:77-117 | The result is a suffix of the input that does not start with white space, and everything removed is white space |
| Text.TrimEnd | src/pages/ProductPage.tsx:77-117 | The result is a prefix of the input that does not end with white space, and everything removed is white space |
| Text.Trim | src/pages/ProductPage.tsx:77-117 | The result is the piece of the input left after removing a run of white space at each end; it neither starts nor ends with white space, and is empty exactly when the input is all white space |
| Text.ToUpper | src/components/delivery/AgentDeliveryWorkflow.tsx:41 | Same length; no lower-case letter is left, every lower-case letter becomes its capital and every other character stays as it was |
| Text.ToUpperIdempotent | src/pages/ConfirmDelivery.tsx:62 | Upper-casing an already upper-cased code changes nothing |
| Text.Contains | src/components/delivery/AgentDeliveryWorkflow.tsx:57 | A contained piece is no longer than the string, and the empty string is contained everywhere |
| Text.ContainsAt | src/components/delivery/AgentDeliveryWorkflow.tsx:57 | A string contains any piece found at any offset of it |
| Text.ContainsHasOffset | src/components/delivery/AgentDeliveryWorkflow.tsx:57 | A contained piece sits in the string at some offset, the converse of ContainsAt |
| Text.NatToString | src/lib/invoice.ts:9-11 | The decimal form is non-empty, all digits, and has no leading zero unless the number is zero |
| Text.ParseNatToString | src/lib/invoice.ts:5-9 | The stored counter reads back as the counter that was written |
| Text.ParseLeadingZeros | src/lib/invoice.ts:11 | Zeros padded in front do not change the value read |
| Text.AllZerosParseToZero | src/lib/invoice.ts:11 | A run of zeros reads as zero |
| Text.PadStart | src/lib/invoice.ts:11 | The padded string has the requested width (or the original length if longer), ends with the original and is filled in front with the fill character |

## Left out

- JSON encoding and decoding of the stored keys is abstracted away: each key is a typed sequence field. A stored invoice counter that does not parse as a number is not modelled; the counter is a natural number.
- The `setTimeout` delays, the `async`/`await` sequencing and the loading flags' timing are not modelled. A handler runs from its guard to its last write in one step. The dynamic import behind the status notifications is modelled as a direct call.
- The toasts appear only as the message a handler returns. Their rendering, dialogs, navigation and every component body beyond the state its handlers change are left out.
- The hosted database client, the auth listener and the profile and role queries are network calls. They are represented by their results: a `Reply`, the fetched rows, or the optional role rows given to `UseAuth.UserRoles`. The fetches done when the tracking pages load are inputs to the page constructors.
- `getUserByEmail` is left out because it depends on Unicode `toLowerCase`. `updateSession` and the remaining session plumbing are left out because no transition depends on them.
- Locale formatting (`formatPriceXAF`, `formatInvoiceDate`, `Intl.NumberFormat`) and date-fns output are left out: they depend on library behaviour.
- The invoice year is a parameter, not read from a clock.
- The QR scanner and QR display libraries are left out, along with `new URL` parsing. A scan is modelled as its decoded text on the agent's screen, and as `ConfirmDelivery.ScanResult` (no URL, or a URL with an optional `code`) on the buyer's page.
- The colours and icons of the statuses are not modelled; their spellings and the role-independent label table are.
- `Text.ToUpper` upper-cases only the ASCII letters; every other character is kept unchanged. Every confirmation code and demo code the source produces is ASCII.
- Invoice.InvoiceFor: prices and delivery fees are whole numbers here. In the source they are JavaScript numbers, and a listing's price is read with `parseFloat`, so it can be fractional. The floating-point addition in `price + deliveryFee` is modelled as exact addition.
- DeliveryLocations.UniqueCities: the contract says that each city with an active area is listed exactly once. It does not state that the cities come in order of first appearance, as `new Set` keeps them.
- Timestamps are integers. The source's ISO-8601 strings of the same era compare and subtract in the same order.
- `ProductPage.NewTransaction` puts no dropoff company in the logistics when a delivery area has no agencies. The source would store `undefined`.
- A database row whose buyer id is null is modelled as having no buyer id.
- `TransactionStatus.IntendedTransaction` leaves the timestamps, links and seller contact fields empty, because no panel reads them.
- The agent's delivered tile (`agentDelivered`), which counts two statuses, is a plain filter count and is not modelled; the single-status tiles are `Payments.CountWith`.
- The polling of the notifications hook (a two-second interval) and its merging of the all-administrators records are timer-driven UI refresh. They are left out. The dashboard's one-off marking of its types is modelled in `Payments.PaymentsPage.MarkSeen`.
- No code path produces the refunded or cancelled statuses; they appear only as terminal values.
- Share images, AI captions, webhooks, the one-time-code input widgets and routing are outside the modelled core.

## Findings

| source | as written | input that shows it | evidently intended | confidence | as-written member | corrected member |
|---|---|---|---|---|---|---|
| src/pages/TransactionStatus.tsx:99-119 | The records handed to the action panels keep the database's upper-case status and role. The action resolver compares against the lower-case local spellings, so it returns no action for every record. | A seller signed in on their own order in status `ESCROW_HELD`: the page chooses the seller panel, but the resolver offers no action, so the ship button never appears and the order cannot move from this page. | Translate the status and the role into the local vocabulary, so that each panel offers its step and the guard agrees. | not executed | TransactionStatus.AdapterOffersNothing | TransactionStatus.IntendedAdapterOffersTheStep |
| src/pages/ConfirmDelivery.tsx:24-55 | The effect that runs on opening the page calls `confirmDelivery` through the render in which the transaction is still `null`. The `?code=` auto-confirmation therefore returns at once. | Opening `/confirm/<id>?code=<the order's code>` for a delivered order: the order stays delivered, nothing is written and nobody is notified. | Confirm with the transaction just loaded, so that a matching code in the link completes the order. | not executed | ConfirmDelivery.ConfirmDeliveryPage.MountAsWritten | ConfirmDelivery.ConfirmDeliveryPage.Mount |
