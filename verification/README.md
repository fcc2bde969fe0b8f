# Messaging, billing and campaign protocols of the WhatsApp CRM, in Dafny

The backend sends and receives WhatsApp messages for its tenants, bills them through Stripe, runs
campaigns over imported leads and answers customers with an AI. This project models the parts of
it that keep state across requests and proves what they keep, over every input, every run and,
where several workers share a store, every interleaving of their database commands.

| file | part of the system |
|---|---|
| `WebhookLease.dfy` | the lease on a Stripe event, taken by concurrent API workers |
| `Billing.dfy` | the Stripe event handlers and the plan a tenant may use |
| `Campaigns.dfy` | campaigns, their recipients, and the counters stored beside them |
| `RecipientRows.dfy` | building a campaign's recipients from lead ids and phones |
| `LeadImport.dfy` | the batched CSV import of leads |
| `InboundDelivery.dfy` | redelivered inbound webhooks, with the 30-day purge |
| `InboundConsent.dfy` | the inbound pipeline, STOP and START, and the jobs it asks for |
| `RateLimit.dfy` | the fixed-window request limiter |
| `AiMeter.dfy` | the monthly AI-conversation meter |
| `AiContext.dfy` | choosing the conversation the AI is shown |
| `AiProvider.dfy` | the retrying, falling-back provider loop |
| `DeliveryStatus.dfy` | folding delivery callbacks into a message |
| `MetaBinding.dfy` | binding a tenant to a Meta phone number across two stores |
| `Common.dfy` | shared vocabulary |

Objects the source updates in place are classes whose methods are proved against functions of the
old state; the laws are lemmas about those functions. Protocols shared by several workers are
state machines with one step per database or Redis command, and a run is a sequence of states.
Clocks, webhook contents, provider replies and the answers of code outside the model are inputs,
so every law holds whatever they are. Documents of other tenants are only modelled where an index
or a number spans tenants.

Where a wished-for property is false of the code, the project has a run or an input that shows it
and says exactly when the property holds:

- A worker that outlives its lease can turn a processed Stripe event back into a failed one; it
  cannot exactly when handlers take no longer than the TTL (`WebhookLease.ProcessedStaysExactly`).
- A Twilio message without an id is stored and enqueued once per delivery
  (`InboundDelivery.AtMostOnceExactly`), and a message whose delivery stops after the claim is lost
  for 30 days unless another one is past its claim too (`InboundDelivery.StoredLaterExactly`).
- After STOP and START a contact is opted in again but the AI stays paused
  (`InboundConsent.StartTakesEffect`, `InboundConsent.StopSilencesAi`).
- Retrying a campaign's failed recipients reopens recipients of opted-out phones
  (`InboundConsent.RetryReopensOptedOut`), and neither that, a resume nor an opt-out recounts the
  campaign, so its counters can be stale; they are current exactly when recounted since
  (`Campaigns.CountersAreUpToDateExactly`).
- An import can opt a lead out without blacklisting its phone
  (`InboundConsent.ImportKeepsConsistentWhen`).
- A failed payment gives an account that had lost its plan the plan back, as past due still
  entitles (`Billing.InvoiceMovesStatusOnly`, `Billing.OnlyRestoringEventsRestore`).
- A client is let in again one window later except exactly when EXPIRE failed for the request that
  opened the last window and the limit is used up (`RateLimit.ReopensExactly`).
- Delivery callbacks in different orders can end differently, exactly when two different failures
  are among them (`DeliveryStatus.OrderDoesNotMatterExactly`).
- The comment in app/services/ai_context.py:108 says newest messages are preferred; the character
  budget is in fact filled from the oldest (`AiContext.DroppedMessagesDoNotFit`,
  `AiContext.OlderMessageIsPreferred`), and the branch meant to rebuild from the newest end is
  never taken.
- With no sender configured, a campaign lists leads who opted out as pending
  (`RecipientRows.PendingMeansOptedIn`).
- Overlapping onboardings and disconnects of one user can leave a connected user whose credential
  is refused or missing, exactly when they are neither all disconnects nor all for one number
  (`MetaBinding.OverlapsAgreeExactly`); so can a call that raises between the two writes
  (`MetaBinding.TornRequestAgreesWhen`).

`dafny verify dfyconfig.toml` checks the whole project.

## Model

| member | source | states |
|---|---|---|
| WebhookLease.EventRow.Claim | app/routes/billing.py:273-333 | a delivery claims the event exactly when nobody has, or it failed, or its lease is a whole TTL old; only a claim writes, and it counts one attempt |
| WebhookLease.UndisturbedDeliveryIsClaim | app/routes/billing.py:273-333 | the find, insert, conditional-update and re-read commands of one worker decide and write what `Claim` does when nobody moves in between |
| WebhookLease.EveryRunSeparatesClaims | app/routes/billing.py:273-353 | in every interleaving of any number of workers, `attempt_count` is the number of successful claims, and two consecutive claims are separated by a failed mark or by a whole TTL |
| WebhookLease.OnTimeRunIsExclusive | app/routes/billing.py:273-353 | if every worker marks within the TTL of the time it read, at most one worker is ever between claim and mark, and the event is marked processed at most once |
| WebhookLease.ProcessedIsAbsorbing | app/routes/billing.py:273-353 | under the same assumption a processed event never changes again |
| WebhookLease.EventRow.Deliver | app/routes/billing.py:684-756 | the route's claim, handle and mark in one: an event is handled exactly when it can be claimed, ends processed or failed as the handler returns or raises, and is otherwise left alone |
| WebhookLease.LateWorkerUndoesProcessed | app/routes/billing.py:277-289 | for every TTL and every longer handler time, a run in which two workers hold the event and the late one turns it from processed into failed, ready to be claimed again |
| WebhookLease.ProcessedStaysExactly | app/routes/billing.py:273-353 | with handlers that take less than d, a processed event stays processed in every run exactly when d is at most the TTL |
| WebhookLease.OneHolderExactly | app/routes/billing.py:273-353 | and two workers never hold the event at once in any run exactly under the same condition |
| Billing.UserStore.ApplySubscription | app/routes/billing.py:474-503 | the handler of subscription events refines the event specification `Handle`: which user, which fields, what a raise leaves |
| Billing.UserStore.HandleCheckoutCompleted | app/routes/billing.py:506-565 | the checkout handler refines `Handle`, resolving the user twice as the source does |
| Billing.UserStore.HandleInvoice | app/routes/billing.py:568-606 | the invoice handler refines `Handle` |
| Billing.UserStore.HandleTrialWillEnd | app/routes/billing.py:609-632 | the trial handler refines `Handle` |
| Billing.UserStore.Dispatch | app/routes/billing.py:698-739 | the webhook dispatch refines `Handle` for every event type; `ok` decides whether the event is marked processed |
| Billing.ReferenceReaches | app/routes/billing.py:360-393 | a reference reaches the user it names unless that is unknown or has another customer id, else the holder of its customer id, else the holder of its subscription id, else nobody |
| Billing.EventReaches | app/routes/billing.py:474-632 | which reference each event type is resolved by, and when a checkout conflicts |
| Billing.EventLeaves | app/routes/billing.py:403-632 | exactly when an event is refused, and field by field what a handled one leaves in the document of the user it reaches; nobody else's changes |
| Billing.ManualPlanSurvives | app/routes/billing.py:396-409 | no sequence of Stripe events changes the plan, status or effective plan of a user whose plan was assigned by hand |
| Billing.OnlyOverrideStatusMakesManual | app/routes/billing.py:396-471 | an event makes a user hand-assigned exactly when it is a live subscription of that user whose own status reads as the override, whose price maps to a plan and whose ids nobody else holds |
| Billing.StripeNeverMakesManual | app/routes/billing.py:396-503 | so with Stripe's own status values no sequence of events makes anyone hand-assigned |
| Billing.OnlyRestoringEventsRestore | app/services/entitlements.py:50-65 | a user whose effective plan is free, whatever the stored plan and status, gets a paid one exactly from a checkout, an entitling subscription or a payment that moves the status, for that user and with free ids; and then exactly that plan |
| Billing.DeletionIsNotUndone | app/routes/billing.py:414-424 | a handled deletion ends the effective plan of every user not assigned by hand, and no sequence of invoice, trial, expiry or further deletion events brings it back |
| Billing.InvoiceMovesStatusOnly | app/routes/billing.py:568-606 | a paid invoice makes active exactly the unset, incomplete and past-due accounts, a failed one makes every account past due; the plan stays, so a failed payment entitles the stored plan |
| Billing.SubscriptionCreatedAtIsWriteOnce | app/routes/billing.py:492-500 | no sequence of events changes a stored `subscription_created_at` |
| Billing.RunsKeepIdsUnique | app/routes/billing.py:360-393 | over every run a Stripe customer id and a subscription id belong to at most one user |
| Campaigns.CountersAgree | app/services/campaign_service.py:311-338 | for every recipient collection the recounted statuses partition the total, replied ≤ read ≤ delivered ≤ sent, and unrounded progress is the share no longer open |
| Campaigns.CountersCount | app/services/campaign_service.py:311-338 | which recipients each stored counter counts |
| Campaigns.FinalStatusOfSettledCampaign | app/services/campaign_service.py:144-163 | when a non-empty, not cancelled campaign has nothing open, it is completed exactly when all went out and partially completed exactly when some but not all did |
| Campaigns.FinalStatusIsCompletedWhen | app/services/campaign_service.py:144-163 | exactly when the same function says completed of a campaign that still has open recipients |
| Campaigns.FinalStatusOtherwise | app/services/campaign_service.py:144-163 | what it says of cancelled and empty campaigns, and of those with someone still open |
| Campaigns.AppliesExactly | app/services/campaign_service.py:110-133 | for every pair of statuses when an update applies: only forward on the way to read, a reply unless counted, cancelled or skipped, and every loss once; nothing brings a lost recipient back |
| Campaigns.StartIsAcceptedExactly | app/routes/campaigns.py:632-850 | when a start is accepted, with a recipient that is pending or queued as witness |
| Campaigns.RouteDoes | app/routes/campaigns.py:1469-1565 | the status each accepted route leaves its campaign in, and what becomes of every recipient and every other campaign |
| Campaigns.CallbackDoes | app/services/status_callback.py:374-442 | when a provider callback counts for a recipient, from the two statuses, what the recipient becomes, and that only its campaign is recounted |
| Campaigns.CampaignStore.StartCampaign | app/routes/campaigns.py:632-850 | the start gate refines the specification: accepted exactly for a confirmed, admitted, startable campaign with someone pending or queued and no later schedule |
| Campaigns.CampaignStore.PauseCampaign | app/routes/campaigns.py:1469-1486 | pausing refines the specification; refused unless running, and then nothing changes |
| Campaigns.CampaignStore.ResumeCampaign | app/routes/campaigns.py:1488-1507 | resuming refines the specification and puts claimed recipients back in the queue |
| Campaigns.CampaignStore.CancelCampaign | app/routes/campaigns.py:1509-1534 | cancelling refines the specification: status, open recipients and recounted counters |
| Campaigns.CampaignStore.RetryFailedRecipients | app/routes/campaigns.py:1537-1565 | the retry refines the specification; it is refused exactly when cancelled or nothing failed |
| Campaigns.CampaignStore.ApplyStatusCallback | app/services/status_callback.py:374-442 | a delivery callback on a recipient refines the specification, gated by the recipient rules, with the recount |
| Campaigns.CampaignStore.CancelPendingForPhone | app/services/consent_ops.py:77-93 | the opt-out cancellation refines the specification across all campaigns |
| Campaigns.CampaignStore.AttributeCampaignReply | app/services/inbound_whatsapp.py:181-211 | reply attribution refines the specification, with its single increment |
| Campaigns.RecipientsProgress | app/services/campaign_service.py:110-133 | every action keeps each recipient's campaign and phone and a recorded reply; a recipient goes back in the delivery order only when a failed one is retried in a campaign that is not cancelled |
| Campaigns.EveryRunIsSafe | app/routes/campaigns.py:1469-1565 | over every run the campaigns and the recipient population are conserved, cancelled is absorbing, and a cancelled campaign has no open recipient |
| Campaigns.OnlyRetryReopens | app/routes/campaigns.py:1537-1565 | in every run without a retry no settled recipient reopens, no delivery stage regresses and no recorded reply changes |
| Campaigns.StatusFollowsLifecycle | app/routes/campaigns.py:1469-1565 | an action moves only its own campaign and only along the lifecycle; a terminal status is left only by a retry that has a failed recipient |
| Campaigns.ReplyKeepsCounters | app/services/inbound_whatsapp.py:198-206 | the increment for a reply keeps every stored counter exact except delivered and read, which stay lower bounds |
| Campaigns.CountersAreUpToDateExactly | app/routes/campaigns.py:1469-1565 | over every run, counters that were exact but for delivered and read are so at the end exactly when they were recounted after the last retry, resume of someone in processing, or opt-out of someone open |
| Campaigns.OptOutMakesCountersStale | app/services/consent_ops.py:77-93 | exact counters stay exact after an opt-out exactly when the phone had nothing open in the campaign |
| Campaigns.RetryMakesCountersStale | app/routes/campaigns.py:1543-1561 | an accepted retry always leaves exact counters stale |
| Campaigns.ResumeMakesCountersStale | app/routes/campaigns.py:1488-1507 | exact counters stay exact after an accepted resume exactly when nobody in the campaign was in processing |
| Campaigns.ReplySettlesNewest | app/services/inbound_whatsapp.py:185-201 | a reply marks one recipient of that phone if any awaits one, the most recently updated, and touches nobody else |
| RecipientRows.Builder.BuildRecipientRows | app/services/campaign_service.py:188-308 | the two loops split the inputs in order: the first to name a phone gets a row, every other one a report of why not |
| RecipientRows.Builder.AddPhone | app/services/campaign_service.py:206-283 | one phone extends the split: a report if invalid or seen, else a row with the status its eligibility and the blacklist give |
| RecipientRows.NothingIsLost | app/services/campaign_service.py:188-308 | rows and reports together are exactly as many as the inputs |
| RecipientRows.RowPhonesAreDistinct | app/db/mongo.py:147 | row phones are pairwise distinct, as the unique index on campaign and phone demands |
| RecipientRows.RowComesFromFirst | app/services/campaign_service.py:206-283 | every row is that of the first input naming its phone |
| RecipientRows.PhoneGetsRow | app/services/campaign_service.py:206-283 | every input with a valid phone finds that phone in a row |
| RecipientRows.ReportIsTrue | app/services/campaign_service.py:206-297 | a report of a duplicate has its phone in a row, and a phone reported invalid cannot be normalised |
| RecipientRows.NoBlacklistedPhoneIsPending | app/services/campaign_service.py:218-283 | whatever eligibility answers, every row is pending or skipped and no blacklisted phone is pending |
| RecipientRows.InputsStandFor | app/services/campaign_service.py:285-306 | which lead or report every lead id stands for, and that a typed phone comes with the tenant's lead of that phone exactly if there is one |
| RecipientRows.RefusalIsConsent | app/services/whatsapp_eligibility.py:84-162 | with this repository's eligibility, the error of every refused row and when there is none |
| RecipientRows.PendingMeansOptedIn | app/services/whatsapp_eligibility.py:61-162 | with a configured sender a row is pending exactly for an opted-in lead that is blacklisted nowhere; without a sender, for every phone off the blacklist |
| LeadImport.Importer.ImportLeads | app/services/lead_import.py:164-322 | for every file, store, policy and batch size the batched import with its per-batch cache gives the store, counts and error list of the row-at-a-time import; a file with an operator header is refused at its first row and writes nothing |
| LeadImport.RowKeepsCacheFresh | app/services/lead_import.py:190-312 | the phones seen so far keep the batch lookup in agreement with the live store wherever it is still used |
| LeadImport.EveryRowIsCounted | app/services/lead_import.py:183-187 | created + updated + skipped + failed is the number of rows of every file, and the error list keeps its cap |
| LeadImport.FirstRowDecides | app/services/lead_import.py:206-312 | each lead ends as the first row with its phone decides against the lead before the import; other leads are untouched |
| LeadImport.ImportLeaves | app/services/lead_import.py:206-312 | every field of every lead after an import: the first row with its phone, if it passes the checks and the policy lets it, sets the descriptive fields, and the consent fields exactly if it may speak for the lead; every other lead is as before |
| LeadImport.RowIsCountedAs | app/services/lead_import.py:183-312 | which count each row adds to and what it reports, from the file and the store before the import |
| LeadImport.JudgeRespectsConsent | app/services/lead_import.py:66-105 | a written row keeps an opt-out and a blacklisting, and opts in only on a status, a source and a time |
| LeadImport.ImportsKeepConsent | app/services/lead_import.py:206-312 | no sequence of imports lifts an opt-out or a blacklisting |
| LeadImport.OptInNeedsEvidence | app/services/lead_import.py:66-105 | a lead opted in after an import was so before, or the first row with its phone carried the evidence and it is not blacklisted |
| LeadImport.OptOutNeedsRow | app/services/lead_import.py:91-100 | a lead is opted out after an import exactly if it was before or the first row with its phone opts it out, and its blacklisted flag stays in step |
| LeadImport.ReimportWritesNothing | app/services/lead_import.py:206-312 | importing a file again under the skip policy writes nothing, whichever policy came first; after skip and update what was created or updated is now skipped, with the same failures and errors |
| InboundDelivery.EveryRunIsAtMostOnce | app/services/inbound_whatsapp.py:99-140 | over every interleaving of redeliveries, purges included, a message with an id is stored at most once and at most one delivery returns an enqueue flag |
| InboundDelivery.AtMostOnceExactly | app/services/inbound_whatsapp.py:103-105 | a key has that guarantee in every run exactly when it is not a Twilio message without an id |
| InboundDelivery.EveryRunClaimsApart | app/db/mongo.py:167-177 | two deliveries of one message pass the claim only a whole 30-day retention apart |
| InboundDelivery.MessageCanBeLost | app/services/inbound_whatsapp.py:227-365 | every message with an id can be lost: its first delivery only has to stop after the claim |
| InboundDelivery.LostMessageStaysLost | app/services/inbound_whatsapp.py:227-365 | a lost message is refused and stays without a row in every continuation within the retention |
| InboundDelivery.StoredLaterExactly | app/services/inbound_whatsapp.py:99-140 | after such a stop, some continuation within the retention stores the message exactly when another delivery of it is already past its claim |
| InboundConsent.Pipeline.ClaimWebhookEvent | app/services/inbound_whatsapp.py:99-140 | the claim of one delivery, by provider and id |
| InboundConsent.UndisturbedClaimIsClaim | app/services/inbound_whatsapp.py:99-140 | the find and insert of one delivery in the interleaved model decide and write what that claim does |
| InboundConsent.Pipeline.ApplyConsentChange | app/services/consent_ops.py:13-53 | a consent change moves lead, blacklist and open recipients together |
| InboundConsent.Pipeline.ProcessInboundMessage | app/services/inbound_whatsapp.py:214-512 | the pipeline's answer and new state are those of the specification, branch by branch and in its order |
| InboundConsent.DeliveryAnswers | app/services/inbound_whatsapp.py:214-365 | the outcome of every delivery from its input, and that exactly an admitted message is stored and exactly a new claim with an id recorded |
| InboundConsent.DeliveryLeavesLead | app/services/inbound_whatsapp.py:330-475 | the sender's lead after every delivery: created blank when first reached, then as STOP, an allowed START or neither leaves it |
| InboundConsent.ReplyIsAttributed | app/services/inbound_whatsapp.py:181-211 | an admitted message marks replied exactly one recipient of its sender that awaits a reply in the window, the last updated, and its campaign counts one reply more; without one, or refused, nobody is marked and no counter moves |
| InboundConsent.BlacklistFollowsKeywords | app/services/inbound_whatsapp.py:322-328 | after any delivery a phone is blacklisted exactly if it sent a stored STOP, or was blacklisted and did not send a stored, allowed START |
| InboundConsent.StopTakesEffect | app/services/inbound_whatsapp.py:380-458 | a stored STOP opts the lead out, pauses its AI, blacklists the phone, leaves no recipient open for it in any campaign and asks for no job |
| InboundConsent.RunsKeepConsistent | app/services/consent_ops.py:36-53 | over every run of deliveries, purges and campaign actions a phone is on the blacklist exactly when its lead is opted out |
| InboundConsent.ImportKeepsConsistentWhen | app/services/lead_import.py:91-100 | an import keeps that agreement exactly when no row of the file opts out a phone that is off the blacklist, as imports never write the blacklist |
| InboundConsent.StopHoldsUntilOptin | app/services/inbound_whatsapp.py:322-328 | after STOP, over every run without an allowed opt-in from that phone, none of its messages is stored and its next one is dropped whole: no row, lead, reply or job |
| InboundConsent.StartTakesEffect | app/services/inbound_whatsapp.py:460-474 | a stored, allowed START takes the phone off the blacklist and opts its lead in, and leaves the AI paused if it was |
| InboundConsent.StopSilencesAi | app/services/whatsapp_consent.py:80-90 | after STOP no later message of that phone, START included, ever asks for an AI reply |
| InboundConsent.JobsAreAskedWhen | app/services/inbound_whatsapp.py:475-512 | exactly when each job is asked for: always with a newly stored row, a welcome for a new lead, an AI reply only for a lead that as now stored is not opted out, blacklisted, paused or taken over |
| InboundConsent.OthersAreUntouched | app/services/inbound_whatsapp.py:214-512 | a delivery leaves every other phone's lead, blacklisting, rows and recipients alone |
| InboundConsent.RunsLeaveNothingOpen | app/services/consent_ops.py:45-51 | over every run without a retry a blacklisted phone has no open recipient in any campaign |
| InboundConsent.RetryReopensOptedOut | app/routes/campaigns.py:1543-1555 | a retry keeps that exactly when none of the failed recipients it requeues belongs to a blacklisted phone |
| RateLimit.Limiter.CheckRateLimit | app/security/rate_limit.py:40-65 | a request is counted in its window and admitted exactly while the count is within the limit; a non-positive limit or window, or Redis being down, admits without counting |
| RateLimit.EveryHistoryIsSound | app/security/rate_limit.py:40-65 | for every request history windows are disjoint, and a request is admitted exactly when at most `limit` have arrived in its window so far |
| RateLimit.WindowAdmitsFewest | app/security/rate_limit.py:40-65 | each window admits the smaller of the limit and its arrivals |
| RateLimit.IntervalAdmitsTwiceTheLimit | app/security/rate_limit.py:40-65 | any interval as long as the window admits at most twice the limit, even when EXPIRE fails |
| RateLimit.BoundIsReached | app/security/rate_limit.py:40-65 | for every limit and window a history that admits twice the limit within one interval |
| RateLimit.WindowReopens | app/security/rate_limit.py:40-65 | one window after a key with an expiry was opened, the client is admitted again |
| RateLimit.OpenerDecides | app/security/rate_limit.py:40-65 | after any history one request opened the last window, and the key has an expiry exactly when that request's EXPIRE worked |
| RateLimit.ReopensExactly | app/security/rate_limit.py:40-65 | after any history a request a whole window after the last one was opened is admitted exactly when the opener's EXPIRE worked or fewer than `limit` have arrived since |
| RateLimit.FailedExpireNeverReopens | app/security/rate_limit.py:40-65 | when the EXPIRE of a new key fails, the client is admitted for `limit` requests and then never again |
| AiMeter.Meter.AiConversationAllowed | app/services/entitlements.py:166-186 | a lead is allowed on an unlimited plan, or on a limited one if it is counted already, there is room or Redis is down; never on a limit of zero |
| AiMeter.Meter.RecordAiConversation | app/services/entitlements.py:189-198 | recording adds the lead and nothing else, and nothing at all when Redis is down |
| AiMeter.UndisturbedCheckIsAllowed | app/services/entitlements.py:166-198 | the reads and the write of one worker, taken together, decide and write what the two methods do |
| AiMeter.CountedLeadStaysAllowed | app/services/entitlements.py:166-198 | once counted, a lead is allowed at every later state of every run, unless the limit is zero, and counting it again changes nothing |
| AiMeter.MeterIsBounded | app/services/entitlements.py:166-198 | with a limit of at least one and at most k workers between check and record, no interleaving counts more than limit + k − 1 leads in the month |
| AiMeter.WorkersOvershoot | app/services/entitlements.py:166-198 | for every limit and every k, a run of k workers that reaches that bound |
| AiContext.CurrentSession | app/services/ai_context.py:27-42 | the backward search returns the session of the specification |
| AiContext.SessionIsLongestConversation | app/services/ai_context.py:15-42 | a suffix is one conversation, with no pause over the gap but a late reply to a business opening, exactly when it lies within the session; so the session is the longest and keeps the newest message |
| AiContext.SessionOfTwo | app/services/ai_context.py:15-42 | which two messages are one session, in terms of their times, directions and purposes |
| AiContext.SessionIsIdempotent | app/services/ai_context.py:27-42 | taking the session of a session changes nothing |
| AiContext.OlderMessagesOnlyExtend | app/services/ai_context.py:27-42 | prepending any older messages never drops one from the session, and changes nothing once the input holds a pause over the gap |
| AiContext.FillBudget | app/services/ai_context.py:90-110 | the loop keeps the greedy oldest-first selection and reports truncation exactly when a message with text was dropped |
| AiContext.FilledIsWithinBudget | app/services/ai_context.py:90-110 | the selection is a subsequence whose charges stay within the larger of the budget and 2016 |
| AiContext.DroppedMessagesDoNotFit | app/services/ai_context.py:104-110 | a message dropped for size does not fit even what is left of the budget at the end |
| AiContext.OlderMessageIsPreferred | app/services/ai_context.py:104-110 | of two messages that do not fit together the older one is kept |
| AiContext.AllFitExactly | app/services/ai_context.py:90-110 | nothing is dropped for its size exactly when there is at most one text or all of them fit together |
| AiContext.ShownAreLast | app/services/ai_context.py:112-115 | the shown messages are the last of the selection, as many as there are up to the limit |
| AiContext.ShownIsWithinLimits | app/services/ai_context.py:90-115 | they are a subsequence of the session, within the budget, and empty only if the session has no text |
| AiContext.LoadConversationContext | app/services/ai_context.py:61-172 | loading shows the newest of the selection; `truncated` holds exactly when there are more texts than `limit`, or at least two that together exceed the budget; the opening customer message is given exactly when it is due and not already shown |
| AiContext.WideSessionEndsWithShown | app/services/ai_context.py:138-153 | the wide second read ends with the very session whose messages are shown |
| AiContext.EstimateIsCharged | app/services/ai_context.py:45-50 | the token estimate covers the text and is at most a quarter of the charge |
| AiProvider.TruncationKeepsSystemAndNewest | app/services/ai_provider.py:82-89 | trimming keeps every system message and the newest others: up to two all, else the newer half |
| AiProvider.TryModel | app/services/ai_provider.py:154-365 | for every oracle of replies the attempts at one model follow the retry rules, sleep the backoff, record the usage and conclude from the first response |
| AiProvider.ChatCompletion | app/services/ai_provider.py:92-365 | the second model is asked exactly when there is one and the first was given up at an error that allows the fallback; result, sleeps and records are those of the calls made |
| AiProvider.CompletionIsBounded | app/services/ai_provider.py:154-365 | calls are at most models·(retries + 1) + 1, and sleep at most models·base·(2^retries − 1) |
| AiProvider.BackoffIsGeometric | app/services/ai_provider.py:154-365 | k retries sleep base·(2^k − 1) in all |
| AiProvider.CompletionAnswersWith | app/services/ai_provider.py:190-365 | a completion succeeds exactly when its last reply is a complete, non-empty response, with that text, that model and `used_fallback` exactly for the second model; a failure after a cut-off response keeps the text there is, and otherwise says empty response or the last error |
| AiProvider.MoreRoomExactly | app/services/ai_provider.py:197-212 | the call with more room is made exactly when a response was cut off |
| AiProvider.GoesOnExactly | app/services/ai_provider.py:353-357 | in terms of the replies: a model is asked again exactly after a timeout, a rate limit or an unavailable provider, up to its retries; the second model exactly when the first failed that way or for an unknown reason |
| AiProvider.BudgetIsDoubled | app/services/ai_provider.py:206-207 | the budget of that call is doubled up to twice the configured maximum, and never shrinks |
| AiProvider.RecordsAreLedger | app/services/ai_provider.py:127-350 | the usage records, in order: a good one for a cut-off response, one for the last response, or one for the error that ended the last model at its last retry |
| AiProvider.LastRecordIsResult | app/services/ai_provider.py:197-321 | when there was a response the last record has the model, success and category of the completion |
| AiProvider.RecordsMatchResponses | app/services/ai_provider.py:127-365 | there is one usage record per response, and one more only for giving up on the last model after its last retry |
| DeliveryStatus.FoldEndsAt | app/services/delivery_status.py:45-80 | from any status, or none, every sequence of callbacks ends at its last failure; without one a failed message stays as it was and any other ends at the furthest success |
| DeliveryStatus.CallbackCounts | app/services/delivery_status.py:62-80 | one callback, without ranks: a failure always counts, a success for a message without a status or with that success still ahead |
| DeliveryStatus.OtherTexts | app/services/delivery_status.py:45-55 | two more texts are read as statuses, and any other changes none |
| DeliveryStatus.FurthestIsMaximum | app/services/delivery_status.py:62-80 | that furthest success is the one of highest rank among those seen |
| DeliveryStatus.OrderDoesNotMatterExactly | app/services/delivery_status.py:62-80 | for every message and every set of statuses, all sequences that mention just these, in any order and with any repetition, end alike exactly when no two different failures are among them |
| DeliveryStatus.TimesStayInOrder | app/services/delivery_status.py:83-144 | under a clock that does not run back every sequence keeps sent ≤ delivered ≤ read, present once their rank was reached and never rewritten; a failed message stays failed |
| MetaBinding.RestoreUndoesUpsert | app/services/meta_credentials.py:212-296 | restoring a snapshot after an upsert gives the row back exactly when the row was complete |
| MetaBinding.ResolverSucceeds | app/services/meta_credentials.py:299-355 | for a connected user that agrees with its credential the resolver answers, with the user's own number, exactly until expiry |
| MetaBinding.ResolverIsBound | app/services/meta_credentials.py:299-355 | whatever is stored, the resolver never hands out a stored token that is expired or bound to another number |
| MetaBinding.ResolverAnswersExactly | app/services/meta_credentials.py:299-355 | for every user, row and policy when the resolver answers and with which token |
| MetaBinding.Stores.UpsertEncryptedAccessToken | app/services/meta_credentials.py:212-244 | the upsert writes the new binding and keeps only the creation time |
| MetaBinding.Stores.RestoreCredentialsSnapshot | app/services/meta_credentials.py:272-296 | the restore writes the snapshot back, or deletes the row if there was none |
| MetaBinding.Stores.GetMetaCredentials | app/services/meta_credentials.py:299-355 | the resolver's answer or refusal for every state of user, row and policy |
| MetaBinding.Stores.CompleteOnboarding | app/services/meta_onboarding.py:310-419 | an undisturbed onboarding ends connected exactly with a grant, a number nobody else holds, both calls answering true and the user write made, and in error exactly with another answer; it then links both stores and remembers a former number; otherwise the user is as before, a failed user write gives a complete credential back and a raising call leaves the new one |
| MetaBinding.Stores.DisconnectMeta | app/services/meta_onboarding.py:422-447 | disconnecting releases the number, remembers it as the last one, and removes the credential |
| MetaBinding.EveryRunKeepsNumbersDistinct | app/db/mongo.py:111-115 | in every interleaving of requests no number is linked to two users |
| MetaBinding.CalmRunsAgree | app/services/meta_onboarding.py:336-395 | with one open request per user and none torn, in every interleaving across tenants and with any failing user writes, each user outside its own writes agrees with its credential and resolves until expiry |
| MetaBinding.CallsDecideStatus | app/services/meta_onboarding.py:348-362 | in every run a request goes on as connected exactly when both its calls answered true |
| MetaBinding.OnlyAnsweredCallsConnect | app/services/meta_onboarding.py:348-382 | in every run a user becomes connected only by the user write of an onboarding of its own whose calls both answered true |
| MetaBinding.FailedWriteRollsBack | app/services/meta_onboarding.py:383-395 | in such a run the rollback gives back ciphertext, algorithm, key id, expiry, scopes and creation time as snapshotted, exactly if that row was complete |
| MetaBinding.TornRequestAgreesWhen | app/services/meta_onboarding.py:341-382 | a request cut off between its writes leaves the binding intact exactly when it was for the number already linked, or disconnected a user not connected |
| MetaBinding.UndisturbedOnboardingIsComplete | app/services/meta_onboarding.py:310-419 | the commands of one onboarding in the interleaved model do to both stores what `CompleteOnboarding` does |
| MetaBinding.UndisturbedDisconnectIsComplete | app/services/meta_onboarding.py:422-447 | and those of one disconnect what `DisconnectMeta` does |
| MetaBinding.OverlappingOnboardingsDisagree | app/services/meta_onboarding.py:132-144 | for any two numbers, two overlapping onboardings of one user that both succeed and leave a credential the resolver refuses |
| MetaBinding.OverlapsAgreeExactly | app/services/meta_onboarding.py:336-447 | any number of overlapping onboardings and disconnects of one user, none torn or failing its user write, end in agreement in every run exactly when they are all disconnects or all onboardings for one number, whatever other users do |
| MetaBinding.DisconnectDuringOnboardingDisagrees | app/services/meta_onboarding.py:422-447 | for every number, a disconnect between the two writes of an onboarding, both succeeding, leaves a connected user without a credential |
| MetaBinding.LastWriteAgreesWhen | app/services/meta_onboarding.py:381-395 | after any overlap, exactly when the last write of an onboarding, a rollback or a disconnect leaves user and credential in agreement |

## Left out

- The databases, Redis, HTTP and the SDKs themselves: stores are maps and sequences with the unique indexes and expiries the code relies on; replies and failures are inputs.
- Text handling: strip, lower-case folding, phone normalisation, keyword tables and date parsing are taken as already applied, or are function parameters.
- Each route handler and each inbound delivery of `Campaigns` and `InboundConsent` is one atomic step; only the lease, the webhook claim, the meter and the Meta binding are modelled command by command.
- The worker that sends campaign messages, the scheduler and its lock, blasts, templates, AI previews and the AI generation counters.
- WebSocket pushes, notifications, audit and activity logs, metrics, lead scoring, media download, names taken from profiles, and the opt-out confirmation message.
- Plan catalogue contents, permissions and usage limits; the start route's checks that depend on them are the input `admitted`.
- Campaigns.CountersAgree: states progress before it is rounded to one decimal; after rounding 100 can be shown with recipients still open.
- Campaigns.CampaignStore.ApplyStatusCallback: leaves out the error texts and the per-recipient delivery times, which nothing in the model reads.
- Billing.UserStore.ApplySubscription: leaves out price, product, period and cancel-at-period-end fields, which no modelled decision reads.
- Billing.UserStore.HandleInvoice: leaves out the stored last payment status, which no modelled decision reads.
- Campaigns.CampaignStore.StartCampaign: takes the permission, plan, provider, live eligibility and AI review checks as the one input `admitted`.
- LeadImport.EveryRowIsCounted: does not model the flag for a shortened error list, nor the file checks before the first row (size, type, encoding, required header, row limit).
- RateLimit.Limiter.CheckRateLimit: takes INCR and the EXPIRE after it as one step.
- RateLimit.EveryHistoryIsSound: histories are those of the requests served while Redis is up; the others are admitted and leave no trace.
- AiMeter.Meter.RecordAiConversation: leaves out the refreshed expiry of the month's set.
- AiMeter.MeterIsBounded: is about one month and one limit with Redis up; the source lets everybody through when it is down.
- AiProvider.ChatCompletion: leaves out latency, token counts and the raw response, and writes out the source's loop over its at most two models.
- InboundConsent.Pipeline.ProcessInboundMessage: is for one tenant, with tenant routing and the self-sender check as inputs, and without the profile name, the reply window fields, media, the score and the confirmation message.
- MetaBinding.Stores.CompleteOnboarding: leaves out the session and its lock, the WABA, business and display fields and the connection times.
- MetaBinding.Stores.DisconnectMeta: leaves out the last WABA id and the timestamps.
- MetaBinding.CalmRunsAgree: assumes one open request per user, which the source's lock does not enforce as it is held per onboarding session; the legacy migration is left out too.
- Encryption: a ciphertext is the pair it opens to, under one key.
