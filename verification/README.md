# Verified model of the CRM backend

A Dafny model of the parts of the CRM whose correctness spans several calls: the Redis sliding-window
rate limiter, Redis Streams with dead-lettering, billing profiles and the Spanish tax-id validators,
the service layer as one transition system with its activity log, chat polling, token revocation, and
role-scoped listings with pagination. `dafny verify dfyconfig.toml` checks all of it.

## Reading guide

| file | contents |
|---|---|
| `Common.dfy`, `Orm.dfy` | Option and Result; the setattr loop and ORDER BY |
| `RateLimiter.dfy`, `RateLimiterRuns.dfy`, `RateLimiterExact.dfy` | the sorted set, the pipeline and the check; theorems over runs of many API instances; how far the bounds reach |
| `Streams.dfy`, `StreamClient.dfy` | stream, group and dead-letter state with its theorems; the client functions and their fault points |
| `TaxIds.dfy` | NIF, NIE, CIF and VAT validators and what their check characters detect |
| `Billing.dfy`, `BillingRuns.dfy` | the billing-profile service; invariants over any interleaving; listing order |
| `StateMachines.dfy`, `Crm.dfy`, `CrmService.dfy` | transition tables; every service operation as a function of the database; the same operations changing a session in place, with commit and rollback |
| `CrmRuns.dfy`, `CrmEffects.dfy`, `CrmRules.dfy` | runs of operations; what each step writes in which row; scope, ladders, refusals and the trail in the log |
| `CrmTheorems.dfy`, `CrmStageLog.dfy`, `CrmCounts.dfy` | audit-log replay, finality and move bounds; what the log tells of a stage; conversion and log accounting; billing inside the CRM |
| `Listing.dfy`, `ListingScope.dfy` | list and lookup queries of leads, clients and services; the pagination control; what they show to whom, told from the cells |
| `Chat.dfy` | list_messages, the page's list and cursor, grouping by day |
| `Tokens.dfy` | token issue, authentication guards, logout's blacklist |

## How the source is represented

- A service method together with its route's commit is one serial transaction: a function from the
  database to a new database or an error. The session class changes its tables step by step, may leave
  them dirty when it raises, and `Execute` restores them, as the session context manager does.
- Clocks, fresh ids and the database's ILIKE are parameters. An id that is already in use fails as a
  primary-key violation. Milestones are keyed by their UNIQUE constraint (service, n).
- PATCH bodies are maps from columns to null or a value; an unset column is absent. A null in a NOT NULL
  column, a value outside a CHECK constraint, or a dangling user reference aborts the transaction.
- Three pieces of history are kept that the source does not store, and no operation reads them: the stage
  a client was converted at (`Origin`), the service a state-change entry was written for (its text has
  only the title), and in `Streams.World` the fates, deliveries and dead-letter log.
- The limiter's pipeline is one atomic step; its ZRANGE is a later step, and other pipelines may run in
  between. Every attempt carries the caller's clock and the Redis clock.
- The JWT library is not part of this model. Whether it refuses a token on its exp (RFC 7519, section 4.1.4)
  or a second later is a parameter of `Tokens`, and the theorems are for both.
- Redis drops a key strictly after its expiry (so the five seconds of slack in its TTL tolerate a clock
  spread of 5001 ms, and no more), and XADD with an approximate MAXLEN drops entries from the
  front but never goes below the limit.

## What turned out not to hold

Each comes with an input that shows it and the exact condition under which the promise is kept.

- Where timestamps lag by d ms, a full window can admit more than limit requests, for every limit of two
  or more; a limit of one or none always holds. The longest safe interval is the window less the lag
  (`RateBoundExact`, `FullWindowIff`).
- retry_after can exceed the window when other calls run before the ZRANGE: exactly when the key is live
  and every attempt stamped less than a second after the denied one has been overtaken by a window
  (`RetryExceedsWindowIff`, `RetryBeyondWindow`). With ordered clocks it is never lowered (`InterleavingNeverLowers`).
- Nor is retry_after then a promise: an attempt that comes sooner is admitted exactly when the entries found
  at the ZRANGE that are still in its window and the attempts since are fewer than limit
  (`RetryPromiseIff`, `RetryOverpromises`); with no call before the ZRANGE it is kept (`RetryIsHonest`).
- A message still in the stream at or before the point where its group began is in no place at all; all
  others are in exactly one (`EveryMessageInOnePlace`, `NoMessageSkippedIff`, `LatestSkips`).
- The log tells a client's stage exactly when it holds a stage_change entry for it; a converted client
  that has not moved has none (`LogTellsStageIff`, `StageUntold`).
- A lead is converted without a client exactly when the status route marked it so, and can then never
  be converted (`StrandedIff`, `MarksConvertedIff`, `StrandedReachable`).
- A CIF does not detect an exchange of digits an even number of places apart, or of 0 and 9
  (`CifTransposition`, `UnseenExchange`, `UnseenNeighbours`).
- A client can hold one tax id in two spellings, because the service compares raw text; it cannot exactly
  when callers submit a single spelling of each valid one (`NormalFormsDistinctIff`, `RawTextRepeats`).
- A chat send made while behind leaves a gap that polling never fills: without a reload, the list ends
  gap-free exactly when every answered send was made while caught up (`PrefixIffSendsCaughtUp`, `SendLeavesGap`, `MissedForever`).
- Logout reads the Authorization header again, and only in the spelling "Bearer", while authentication takes
  any. A logout under another spelling succeeds and revokes nothing, or the cookie's token
  (`LowerCaseLogoutListsNothing`, `LowerCaseLogoutListsCookie`, `LogoutRevokesIff`).
- Where the JWT library still accepts a token for the second of its exp, a logout within the second of issue
  revokes it only for a while: exp is cut to the second and the blacklist entry is not
  (`RevivesAfterQuickLogout`, `LogoutRevokesIff`). Under RFC 7519's reading no logout comes too soon.

The delete guard of billing profiles is right only because of the one-default invariant
(`DeleteGuardNeedsDefault`). The comment in `api/services/milestone_service.py:128` speaks of defaulting
completed_at to now; the code does not, and the model follows the code.

## Model

| member | source | states |
|---|---|---|
| RateLimiter.PipelineComposes | shared/rate_limiter.py:71-77 | prune, count, add and expire, with Redis deleting expired and emptied keys along the way, amount to one step: keep the live entries newer than the window start, add this one, renew the expiry; ZCARD answers the number kept |
| RateLimiter.RedisServer.ZRangeFirst | shared/rate_limiter.py:83 | answers the lowest score of the live set, or nothing for an empty one |
| RateLimiter.RedisSlidingWindowLimiter.Pipeline | shared/rate_limiter.py:71-79 | running the four commands changes the store by exactly that step and yields the count before this attempt |
| RateLimiter.RedisSlidingWindowLimiter.Begin | shared/rate_limiter.py:67-105 | up to the pipeline's reply: store and decision for every count and every point at which Redis can fail, failing open without the reply |
| RateLimiter.RedisSlidingWindowLimiter.Complete | shared/rate_limiter.py:81-91 | the rest of a denied check: retry_after from the oldest entry found, clamped to at least 1, or failing open at the ZRANGE |
| RateLimiterRuns.ExpiryIsInvisible | shared/rate_limiter.py:73-76 | while the Redis clock does not go back and the API clocks' offsets from it spread over at most 5001 ms, key expiry never changes a count: it is decided by pruning alone, for timestamps in any order |
| RateLimiterRuns.FailsOpen | shared/rate_limiter.py:79-105 | before any ZRANGE a check is answered iff its call failed or its count is below limit, and then it is allowed; a failed call is marked and carries no figures |
| RateLimiterExact.ExpirySpreadExact | shared/rate_limiter.py:73-77 | that spread is the widest: key expiry never changes a count for spreads of ms milliseconds iff ms is at most 5001, whatever the window |
| RateLimiterRuns.RateBound | shared/rate_limiter.py:67-94 | under those clocks, if timestamps of an identifier lag by at most d ms, every interval of length window - d has at most limit admitted requests, in every run |
| RateLimiterExact.RateBoundExact | shared/rate_limiter.py:67-94 | for every limit, lag d and length: intervals of that length are bounded by limit in all runs iff limit is 0, or the length is at most the window (limit 1) or the window less min(d, 5001) (limit 2 and more) |
| RateLimiterExact.FullWindowIff | shared/rate_limiter.py:67-94 | under disorder the full window is bounded in all runs iff limit is at most one |
| RateLimiterRuns.RefinesWindowCount | shared/rate_limiter.py:73-94 | with a non-decreasing clock a check is admitted iff fewer than limit earlier attempts, allowed or denied, lie in the last window of the full history; remaining is what is left |
| RateLimiterRuns.RetryWithinWindow | shared/rate_limiter.py:83-91 | with no call before the ZRANGE, retry_after is between 1 and the window |
| RateLimiterRuns.RetryExceedsWindowIff | shared/rate_limiter.py:81-91 | whatever runs between a denied check's pipeline and its ZRANGE, retry_after is at least 1, and exceeds the window iff the key is live and every attempt stamped less than a second after the denied one has been followed by one a window or more ahead |
| RateLimiterRuns.OrderedRetryExceedsWindowIff | shared/rate_limiter.py:81-91 | with a non-decreasing clock: iff the key is live and one attempt before the ZRANGE is a window or more ahead of all of those |
| RateLimiterRuns.InterleavingNeverLowers | shared/rate_limiter.py:81-91 | with a non-decreasing clock, calls before the ZRANGE never lower retry_after, not even past the key's expiry |
| RateLimiterRuns.RetryBeyondWindow | shared/rate_limiter.py:81-91 | a run of three calls in which a denied one is told to wait two seconds under a window of one |
| RateLimiterRuns.RetryPromiseIff | shared/rate_limiter.py:81-91 | for a ZRANGE after any number of further pipelines, an attempt that comes sooner than retry_after is admitted iff its reply comes back and the entries found that are still in its window, plus the attempts since, are fewer than limit; all found entries still are when the value was at least 1 before clamping |
| RateLimiterRuns.RetryIsHonest | shared/rate_limiter.py:81-91 | so with no call before the ZRANGE, and a value of at least 1 before clamping, no later attempt made sooner than retry_after seconds is admitted |
| RateLimiterRuns.RetryOverpromises | shared/rate_limiter.py:81-91 | a run of six calls in which one told to wait ten seconds is followed, nine seconds later, by an admitted one |
| RateLimiterRuns.RemainingIsHonest | shared/rate_limiter.py:93-94 | after remaining r, another check of the identifier at the same instant is admitted iff its reply comes back and the identifier's attempts from the admitted one on are at most r, whatever other callers and failures come in between |
| RateLimiterRuns.QuietWindowAllows | shared/rate_limiter.py:59-64 | after a full quiet window a check is admitted with limit - 1 remaining |
| Streams.EveryMessageInOnePlace | shared/redis_client.py:152-187 | in every reachable state each message ever added is trimmed, undelivered, pending, acked or dead-lettered, exactly one of them, and none iff it is still in the stream at or before the point where its group began |
| Streams.NoMessageSkippedIff | shared/redis_client.py:204-230 | the five places are exhaustive iff there is no group, nothing is in the stream, or the group began before everything in it |
| Streams.NoMessageSkipped | shared/redis_client.py:204-230 | so they are when groups are created at the default start |
| Streams.LatestSkips | shared/redis_client.py:204-228 | a group created at "$" leaves an earlier message in no place |
| Streams.MessagesConserved | shared/redis_client.py:173-187 | in every reachable state the five places together hold as many messages as were ever added, less those in the stream that the group began after |
| Streams.PendingUntilSettled | shared/redis_client.py:348-358 | a pending message stays pending until its own acknowledgement, its completed dead-letter move, or the loss of the group |
| Streams.CrashLeavesPendingAndCopy | shared/redis_client.py:407-414 | a crash between the dead-letter XADD and the XACK leaves the message pending with its copy at the end of the dead-letter stream |
| Streams.DeadLetterHasCopy | shared/redis_client.py:397-414 | a dead-lettered message's copy was added and is still present unless 10000 or more letters followed |
| Streams.ReadsAreInOrder | shared/redis_client.py:272-306 | reads return ids in strictly increasing order, so each at most once per life of the group |
| Streams.ReadTakesOldest | shared/redis_client.py:272-281 | a read takes the oldest undelivered messages, count of them or all there are, and leaves them pending with its consumer |
| Streams.DeliveriesOnlyGrow | shared/redis_client.py:272-306 | while the group lives, what was delivered stays delivered and later reads only add to it |
| Streams.GroupLossRedelivers | shared/redis_client.py:315-320 | after the group is lost and re-created, every message still in the stream is undelivered again |
| Streams.RecentNeverTrimmed | shared/redis_client.py:173-181 | a message followed by fewer than max_len others is not trimmed |
| StreamClient.Redis.AddToStream | shared/redis_client.py:152-201 | appends under the data key with trimming; an error says nothing about whether the message went in |
| StreamClient.Redis.CreateConsumerGroup | shared/redis_client.py:204-247 | creates the group, or leaves an existing one and answers False |
| StreamClient.Redis.ReadFromStream | shared/redis_client.py:250-327 | one tuple per delivered message, in order, with unparsable data wrapped; a missing group is created and nothing returned |
| StreamClient.ReadsWhatWasAdded | shared/redis_client.py:286-303 | in every run whose messages go in through add_to_stream, under either decoding, a read answers for each id the parse of the JSON text added under it, or the wrapper holding exactly that text |
| StreamClient.Redis.AcknowledgeMessage | shared/redis_client.py:330-372 | takes a pending message off the list and answers 1, or changes nothing and answers 0 |
| StreamClient.Redis.MoveToDeadLetter | shared/redis_client.py:375-435 | copies the message, then acknowledges it, for a break before, between or after the two commands |
| TaxIds.CifCheckDigit | api/schemas/_tax_id_validators.py:48-62 | the accumulating loop computes the check digit of the weighted total and its letter |
| TaxIds.NifDetectsSubstitution | api/schemas/_tax_id_validators.py:37-45 | mistyping any one visible character of an accepted raw value, digit or letter, always invalidates it |
| TaxIds.NifDetectsTransposition | api/schemas/_tax_id_validators.py:37-45 | exchanging two distinct digits at any positions of an accepted raw value always invalidates it |
| TaxIds.NieIffNif | api/schemas/_tax_id_validators.py:96-112 | a raw value is an accepted NIE iff its normal form has the NIE format and its substituted string is an accepted NIF |
| TaxIds.NifLetter | api/schemas/_tax_id_validators.py:37-45 | the letter of an accepted NIF is picked from the table by the weighted sum of its digits |
| TaxIds.NieDetectsSubstitution | api/schemas/_tax_id_validators.py:96-112 | mistyping any one visible character of an accepted NIE, prefix letter included, always invalidates it |
| TaxIds.NieDetectsTransposition | api/schemas/_tax_id_validators.py:96-112 | exchanging two distinct digits of an accepted NIE always invalidates it |
| TaxIds.CifDetectsSubstitution | api/schemas/_tax_id_validators.py:65-93 | changing any one digit of an accepted CIF, one of the seven or a control digit, always invalidates it |
| TaxIds.CifControlMeans | api/schemas/_tax_id_validators.py:48-93 | the control character of an accepted CIF is the check digit of its seven digits, or its letter in the table, or either, by the leading letter |
| TaxIds.CifTransposition | api/schemas/_tax_id_validators.py:48-93 | exchanging two distinct digits among the seven keeps a CIF accepted iff an even number of places separates them or they are 0 and 9 |
| TaxIds.UnseenExchange | api/schemas/_tax_id_validators.py:48-93 | two accepted CIFs that differ by exchanging 1 and 2, two places apart |
| TaxIds.UnseenNeighbours | api/schemas/_tax_id_validators.py:48-93 | and two that differ by exchanging a neighbouring 0 and 9 |
| TaxIds.CifControls | api/schemas/_tax_id_validators.py:84-93 | two control characters complete a body whose letter is F, N, P, Q, R or S, one completes any other |
| Orm.SetAttrs | api/services/billing_profile_service.py:181-182 | the setattr loop overrides exactly the given fields, in whatever order they come |
| Billing.BillingProfileService.CreateForClient | api/services/billing_profile_service.py:80-143 | creation agrees with its specification, the first profile forced default and siblings demoted on request |
| Billing.BillingProfileService.UpdateProfile | api/services/billing_profile_service.py:163-192 | partial update with uniqueness re-checked only on a changed tax id, aborting on a null in a NOT NULL column |
| Billing.BillingProfileService.DeleteProfile | api/services/billing_profile_service.py:194-222 | refuses a lone default, promotes the oldest sibling of a deleted default, deletes others at once |
| Billing.BillingProfileService.MakeDefault | api/services/billing_profile_service.py:224-243 | demotes the client's other profiles and promotes this one |
| Billing.Oldest | api/services/billing_profile_service.py:207-218 | the promoted sibling precedes every other in (created_at, id) |
| BillingRuns.CreationStores | api/services/billing_profile_service.py:95-127 | a successful creation stores what was submitted; wished or first, it becomes the client's one default, and otherwise no row's mark changes; no other row changes in anything but its mark |
| BillingRuns.ConversionStores | api/services/client_service.py:345-363 | a conversion's profile stores what was submitted, as the new client's default |
| BillingRuns.UpdateStores | api/services/billing_profile_service.py:181-182 | a successful update gives the given fields their new values and changes no other field, mark or row |
| BillingRuns.MarksOnly | api/services/billing_profile_service.py:204-243 | deleting and choosing a default change no remaining row but in its mark |
| BillingRuns.CreationRefusals | api/services/billing_profile_service.py:52-93 | why a creation that parses is refused, and that nothing else refuses it |
| BillingRuns.UpdateRefusals | api/services/billing_profile_service.py:171-182 | an update answers a missing profile, or a newly given tax id that another profile of the client has |
| BillingRuns.DeletionRefusals | api/services/billing_profile_service.py:194-243 | a delete is refused for a missing profile and a client's one default only, set_default for a missing profile only |
| BillingRuns.UpdatedRowOk | api/schemas/billing_profile.py:106-114 | an update that passes the pairing rule leaves the stored tax id valid for the stored type |
| BillingRuns.ExactlyOneDefault | api/services/billing_profile_service.py:92-143 | over any interleaving of create, update, delete, set-default and conversion, a client with profiles has exactly one default and distinct tax ids |
| BillingRuns.StoredTaxIdsValid | api/schemas/billing_profile.py:76-79 | in every reachable state each tax id passes the validator of its stored type |
| BillingRuns.StoredFieldsComplete | database/models/billing_profile.py:64-75 | in every reachable state only the second address line and the email of a profile may be null, and its regime is one of five |
| BillingRuns.NullableFields | api/schemas/billing_profile.py:52-62 | a creation may leave out exactly those two |
| BillingRuns.NormalFormsDistinctIff | api/services/billing_profile_service.py:52-63 | no run leaves a client with one tax id in two spellings iff callers submit a single spelling of each valid tax id |
| BillingRuns.RawTextRepeats | api/services/billing_profile_service.py:52-63 | callers free to write it as they like can enter 12345678Z twice for one client |
| BillingRuns.NeverBackToNone | api/services/billing_profile_service.py:206-221 | a client that has a profile never returns to none |
| BillingRuns.DeleteGuardNeedsDefault | api/services/billing_profile_service.py:204-221 | without the invariant, a delete would leave a client with none iff its only profile is not default |
| BillingRuns.OtherClientsUntouched | api/services/billing_profile_service.py:102-106 | rows of every client but the operation's own are unchanged |
| BillingRuns.HeadIsDefault | api/services/billing_profile_service.py:147-155 | the listing holds all the client's profiles and its head is the unique default |
| BillingRuns.ListingAfterDelete | api/services/billing_profile_service.py:206-221 | a successful delete of any profile makes the listing the old one without it |
| BillingRuns.ListingAfterSetDefault | api/services/billing_profile_service.py:230-243 | set_default lists the profile first and all others by age |
| StateMachines.StageMoveDescends | api/domain/client_stage_machine.py:29-36 | every unforced stage move spends rank |
| StateMachines.StatusMoveDescends | api/domain/status_machine.py:31-37 | every lead status move spends rank |
| CrmService.Session.AppendActivity | api/services/activity_log_service.py:26-78 | the single way into the log appends one entry |
| CrmService.Session.CreateClient | api/services/client_service.py:165-201 | inserts the client at its stage and logs the creation |
| CrmService.Session.UpdateClient | api/services/client_service.py:203-225 | sets the given fields of a client in scope, never its stage |
| CrmService.Session.ChangeStage | api/services/client_service.py:227-282 | moves the stage along the table (or out of lost by force) and logs the move |
| CrmService.Session.ConvertFromLead | api/services/client_service.py:284-397 | checks, then inserts client, contact and optional default profile, logs, and links the lead |
| CrmService.Session.CreateLead | api/services/lead_service.py:53-90 | inserts a new lead, unowned and unlinked |
| CrmService.Session.UpdateLeadStatus | api/services/lead_service.py:154-196 | moves the status along the table for a lead in scope |
| CrmService.Session.UpdateLead | api/services/lead_service.py:198-215 | sets the editable fields of a lead in scope |
| CrmService.Session.AssignOwner | api/services/lead_service.py:217-235 | gives an existing lead to an existing user |
| CrmService.Session.CreateService | api/services/service_service.py:212-264 | refuses a missing or lost client, else inserts at scoping and logs the start |
| CrmService.Session.UpdateService | api/services/service_service.py:266-288 | sets the general fields of a service in scope |
| CrmService.Session.ChangeState | api/services/service_service.py:290-344 | moves the state along the table and logs the move |
| CrmService.Session.CreateMilestone | api/services/milestone_service.py:63-97 | inserts an open milestone under an existing service, n unique |
| CrmService.Session.UpdateMilestone | api/services/milestone_service.py:99-155 | sets the given fields and logs a completion only on the null to non-null flip |
| CrmService.Session.DeleteMilestone | api/services/milestone_service.py:157-183 | removes the milestone and logs nothing |
| CrmService.Session.CreateTicket | api/services/ticket_service.py:111-157 | inserts a pending ticket and logs its opening |
| CrmService.Session.UpdateTicket | api/services/ticket_service.py:159-202 | sets title, priority or body of the client's own ticket and logs an update |
| CrmService.Session.UpdateTicketInternal | api/services/ticket_service.py:204-261 | sets any field and logs closed on the transition to closed, updated otherwise |
| CrmService.Session.CreateMessage | api/services/message_service.py:84-128 | appends the message and logs it |
| CrmService.Session.Execute | database/connection.py:58-65 | a route commits on success and leaves the database as it was on an error |
| CrmEffects.CellsReadBack | api/services/service_service.py:266-288 | after a successful operation every row of every table holds what it held, overridden by exactly the cells the operation gave it; a row it makes is new and holds what was submitted |
| CrmEffects.ConversionFills | api/services/client_service.py:318-330 | the new client is named by the submitted name, else the lead's company, else the lead's name, the first that is not empty; its other cells are the submitted ones |
| CrmEffects.ConversionContact | api/services/client_service.py:332-343 | it gets one contact, primary, with the lead's name, email, phone and role |
| CrmEffects.ClientColumns | api/services/client_service.py:243-270 | a client's stage is set where it is made and where it is moved, its creation time once |
| CrmEffects.LeadColumns | api/services/lead_service.py:164-184 | a lead's status is new, then what it is moved to, and converted with its client at the conversion |
| CrmEffects.ServiceColumns | api/services/service_service.py:235-253 | a service keeps its client and begins at scoping |
| CrmEffects.TicketColumns | api/services/ticket_service.py:128-146 | a ticket keeps the client and the service it was opened for |
| CrmEffects.MessagesKept | api/services/message_service.py:84-128 | the thread grows by exactly what is sent |
| CrmRules.OutOfScopeIsMissing | api/services/client_service.py:148-161 | a row out of the caller's scope answers exactly as a row that is not there; a column the operation does not take is refused before any lookup, and a comercial's ticket status is forbidden |
| CrmRules.PatchSucceedsIff | api/services/lead_service.py:198-215 | a PATCH that parses, of a row in sight, succeeds iff the patched row fits its table |
| CrmRules.ParsesIff | api/schemas/lead.py:22-41 | which bodies parse: known columns, values of their kind, listed texts in the literal columns |
| CrmRules.RowsAlwaysSound | database/models/service.py:32-41 | in every reachable state required cells are filled, user references are real and literal columns hold listed texts |
| CrmRules.StageMovesIff | api/domain/client_stage_machine.py:29-36 | a client in sight moves one stage up the ladder or to lost, and not otherwise |
| CrmRules.StatusMovesIff | api/domain/status_machine.py:31-37 | a lead in sight moves one status up or, while open, to disqualified, and not otherwise |
| CrmRules.StateMovesIff | api/domain/service_state_machine.py:25-32 | a service in sight moves one state up, pauses from work or resumes to it, and not otherwise |
| CrmRules.ClimbedInOrder | api/domain/client_stage_machine.py:29-36 | in every run through the routes a client that stands on the ladder climbed it rung by rung from the stage it was created at, and its log says just that |
| CrmRules.WholeClimb | api/domain/client_stage_machine.py:29-36 | from lead to active that is the four moves in order |
| CrmRules.CreationsIff | api/services/client_service.py:165-201 | what a new client, lead, service or ticket takes beside a body that parses |
| CrmRules.ConversionRefusals | api/services/client_service.py:305-316 | a missing lead, a linked one and one not qualified, each with its own answer and in this order |
| CrmRules.ServiceRefusals | api/services/service_service.py:226-233 | a missing client and a lost one |
| CrmRules.AssignmentRefusals | api/services/lead_service.py:217-235 | a lead is assigned iff it and its new owner exist |
| CrmRules.MilestoneAndMessageRefusals | api/services/milestone_service.py:63-97 | what a milestone and a message take |
| CrmRules.LogIsTrail | api/services/activity_log_service.py:26-78 | the log of any run is, entry by entry, the trail of its successful operations: client, kind, detail and actor |
| CrmTheorems.StageLogReplays | api/services/client_service.py:187-194 | in every state reached through the routes, a client's stage_change entries form a connected path of valid transitions from its first stage to its stage |
| CrmStageLog.ConvertRestaged | api/services/client_service.py:365-371 | a conversion at another known stage succeeds alike and leaves the same database but for that stage |
| CrmStageLog.StepRestaged | api/services/service_service.py:226-233 | every operation but the client's own stage change goes through the same from any stage that is not lost |
| CrmStageLog.LogTellsStageIff | api/services/client_service.py:365-371 | all histories through the routes that leave this log agree on a client's stage iff the log holds a stage_change entry for it; a client without one came from a lead and stands where its conversion put it |
| CrmStageLog.StageUntold | api/services/client_service.py:365-371 | a lead created, qualified and converted: its client's stage cannot be told from the log |
| CrmTheorems.StateLogReplays | api/services/service_service.py:305-332 | a service's state-change entries lead from scoping to its state |
| CrmTheorems.OnlyForceLeavesLost | api/domain/client_stage_machine.py:59-69 | a lost client in scope moves iff force is given and the stage is a known one |
| CrmTheorems.LostIsFinal | api/services/service_service.py:226-233 | in every run through the routes a lost client stays lost and its set of services does not change |
| CrmTheorems.AtMostFiveStageChanges | api/domain/client_stage_machine.py:29-36 | a client's successful stage changes over any run through the routes are at most five |
| CrmTheorems.AtMostThreeStatusChanges | api/domain/status_machine.py:31-37 | a lead's successful status changes, conversion included, are at most three |
| CrmTheorems.AtMostOneChangeAfterCompletion | api/domain/service_state_machine.py:25-32 | after completed a service changes state at most once |
| CrmCounts.ConversionsAccounted | api/services/client_service.py:305-376 | in every reachable state linked leads are converted and linked to distinct clients, lead_converted entries equal linked leads, and clients equal creations plus conversions |
| CrmCounts.ConvertedAtMostOnce | api/services/client_service.py:310-316 | over any run a lead's successful conversions number one if it became linked and none otherwise |
| CrmCounts.ConversionIsForever | api/services/client_service.py:373-376 | a linked lead keeps its client and its converted status forever |
| CrmCounts.StrandedIff | api/services/lead_service.py:164-184 | under the conversion account a lead ends a run converted without a client iff it began so or the status route marked it converted |
| CrmCounts.StrandedByStatusRoute | api/services/lead_service.py:164-184 | from an empty database, a lead of status converted has a client iff the status route never marked it |
| CrmCounts.MarksConvertedIff | api/services/lead_service.py:164-184 | the route marks exactly the qualified leads in scope; a stranded lead stays so and no run converts it |
| CrmCounts.StrandedReachable | api/services/lead_service.py:164-184 | four requests that strand a lead |
| CrmCounts.TicketLogConserved | api/services/ticket_service.py:225-248 | ticket entries equal creates plus updates; ticket_closed entries equal closed tickets plus reopenings |
| CrmCounts.MilestoneLogConserved | api/services/milestone_service.py:125-152 | milestone_completed entries equal completed milestones plus clearings plus deletions of completed ones |
| CrmCounts.BillingSimulation | api/services/client_service.py:345-363 | every CRM operation acts on the billing table as one billing operation or none |
| CrmCounts.BillingHoldsInCrm | api/services/client_service.py:345-363 | so the billing invariant holds in every reachable state of the whole CRM |
| Listing.ListLeads | api/services/lead_service.py:92-135 | the page and the total of the same scoped, filtered selection, newest first |
| Listing.ListClients | api/services/client_service.py:63-104 | likewise for clients |
| Listing.ListServices | api/services/service_service.py:121-161 | likewise for services, scoped for consultors only |
| Listing.WalkCollects | admin-panel/src/components/shared/pagination.tsx:37-71 | pressing Next until it is disabled collects the rest of the list, in order, from any offset |
| Listing.WalkShowsSelection | admin-panel/src/components/shared/pagination.tsx:37-71 | from offset 0 the pages join to exactly the wanted rows, newest first, whatever the page size |
| Listing.ShownRange | admin-panel/src/components/shared/pagination.tsx:37-38 | the range shown counts the rows of the page iff there are rows and the offset is not past them |
| Listing.NextIffMore | admin-panel/src/components/shared/pagination.tsx:60-71 | Next is enabled iff the page after this one has rows |
| Listing.PrevUndoesNext | admin-panel/src/components/shared/pagination.tsx:60-71 | Prev returns from Next to the same page |
| Listing.LeadListedIffFound | api/services/lead_service.py:137-152 | with no filters a lead appears on some page iff the same user's lookup finds it |
| Listing.ClientListedIffFound | api/services/client_service.py:148-161 | likewise for clients |
| Listing.ServiceListedIffFound | api/services/service_service.py:176-187 | likewise for services |
| ListingScope.AssignedLeadSeen | api/services/lead_service.py:217-235 | after an assignment a consultor or comercial comes by the lead in the list and finds it iff it was assigned to them; everyone else always does |
| ListingScope.OwnedClientSeen | api/services/client_service.py:77-104 | a client whose owner cell names a user likewise |
| ListingScope.OwnedServiceSeen | api/services/service_service.py:163-187 | and a service, with only consultors kept to their own |
| ListingScope.LeadsSelected | api/services/lead_service.py:115-129 | a request selects the leads its user sees, with the cells its filters name |
| ListingScope.ClientsSelected | api/services/client_service.py:77-100 | likewise for clients |
| ListingScope.ServicesSelected | api/services/service_service.py:121-161 | likewise for services |
| ListingScope.NewestFirst | api/services/lead_service.py:111 | on the pages an earlier row is a newer one |
| Chat.ListMessages | api/services/message_service.py:44-80 | the newer messages in order, cut to the page, and how many there are |
| Chat.ChatPage.LoadMessages | admin-panel/src/app/(client-portal)/client/chat/page.tsx:35-57 | a visible poll or the initial load takes in the next page and moves the cursor to its last message |
| Chat.ChatPage.HandleSent | admin-panel/src/app/(client-portal)/client/chat/page.tsx:81-83 | a sent message is appended and becomes the cursor |
| Chat.PollAdvances | admin-panel/src/app/(client-portal)/client/chat/page.tsx:39-50 | a poll on a gap-free prefix extends it by min(50, backlog) messages |
| Chat.AlwaysPrefix | admin-panel/src/app/(client-portal)/client/chat/page.tsx:35-57 | with sends made only while caught up the list is always a gap-free prefix of the thread |
| Chat.SendKeepsPrefixIffCaughtUp | admin-panel/src/app/(client-portal)/client/chat/page.tsx:76-90 | a send keeps the prefix iff the list was caught up |
| Chat.SendBehindMisses | admin-panel/src/app/(client-portal)/client/chat/page.tsx:81-83 | a send made while behind passes the next unseen message by |
| Chat.PrefixIffSendsCaughtUp | admin-panel/src/app/(client-portal)/client/chat/page.tsx:76-90 | over any run without a reload the list ends a gap-free prefix iff every answered send was made while caught up |
| Chat.SendLeavesGap | admin-panel/src/app/(client-portal)/client/chat/page.tsx:81-83 | a message arrives, an answer is sent before the next poll, and the list shows the answer alone |
| Chat.AlwaysIncreasing | admin-panel/src/app/(client-portal)/client/chat/page.tsx:76-90 | in every run the list strictly increases and holds thread messages only |
| Chat.MissedForever | admin-panel/src/app/(client-portal)/client/chat/page.tsx:82-83 | a message the cursor has passed by never shows until the page loads anew |
| Chat.GroupByDay | admin-panel/src/app/(client-portal)/client/chat/page.tsx:15-23 | each day's group is that day's messages in order, and for an increasing list the groups joined are the list |
| Tokens.AuthServer.CreateAccessToken | api/auth.py:32-57 | the issue event of a run: a fresh jti and an exp one lifetime on, cut to the second |
| Tokens.JtiUnique | api/auth.py:44-52 | no two tokens issued in a run share a jti |
| Tokens.IssuedFor | api/auth.py:44-56 | the k-th token of a run carries the email it was issued for and expires one lifetime later, cut to the second |
| Tokens.AuthServer.GetCurrentUser | api/auth.py:92-135 | the guards in order: token, expiry, type, blacklist, subject, user |
| Tokens.AuthenticatesOwner | api/auth.py:122-135 | in every run whoever authenticates with an issued token is the user it was issued for, and active |
| Tokens.Rejections | api/auth.py:105-135 | each way of being turned away has its own reason |
| Tokens.AuthServer.Logout | api/routes/admin.py:97-121 | the logout event of a run: when authenticated, it lists for one lifetime the jti of the token its own case-sensitive reading of the header finds, or else the cookie's |
| Tokens.LogoutListsPresentedIff | api/routes/admin.py:105-118 | a successful logout lists the authenticated token's jti iff there is no bearer header, or it is spelled "Bearer", or the cookie carries a live token of the same jti |
| Tokens.LogoutRevokesIff | api/routes/admin.py:105-118 | after any run, the token an authenticated logout presented is refused from then on iff the logout meets that condition and, where the library accepts a token on its exp, does not come within the second of issue |
| Tokens.RevivesAfterQuickLogout | api/routes/admin.py:111-115 | under such a library, a token logged out 100 ms after issue authenticates again when its listing has run out |
| Tokens.LowerCaseLogoutListsNothing | api/routes/admin.py:105-110 | a logout under "bearer" succeeds, lists nothing, and the token goes on working |
| Tokens.LowerCaseLogoutListsCookie | api/routes/admin.py:105-110 | with someone else's cookie beside it, that other token is revoked |
| Tokens.RevocationIsPermanent | api/routes/admin.py:104-115 | once a logout that meets these conditions presented a token, it fails at all later requests, whatever is issued, logged out and changed in between |
| Tokens.RevokedForGoodIff | api/routes/admin.py:111-115 | a time to live revokes for good iff the entry lasts to the last millisecond at which the library accepts the token, under either reading of exp |
| Tokens.OnlyRereadRevoked | api/auth.py:115-135 | in every run an unexpired token that no logout reads authenticates as the user it was issued for while that user is active |
| Tokens.OnlyPresentedRevoked | api/auth.py:115-133 | so where logouts are plainly spelled, only a presented token is revoked |

## Left out

- FastAPI routing, field lengths, email validation, JSON encoding and HTTP error shapes: bodies arrive parsed.
- require_role checks at the routes: they only reject more requests, and every theorem holds for all of them.
- Concurrent transactions: operations run serially, so a double conversion under READ COMMITTED is not modelled.
- Contact operations other than the one a conversion makes, notes, and ticket and activity listings: they add only like cases.
- JWT signing, password hashing and UUID generation: tokens cannot be forged and ids are fresh.
- Invalid UTF-8 in stream data: bytes decode to their text.
- Upper-casing of characters whose upper-case form keeps a non-ASCII character: they are kept as they are, since no format accepts either.
- The VAT validator beyond its format, and the payload sanitizer.
- React rendering, drag-and-drop, seeds, migrations, logging and the agent package.
- Listing.ListLeads: takes distinct creation times, since the source leaves the order of equal ones to the database; the same holds for the other listings and for billing.
- RateLimiterRuns.RateBound: excludes fail-open answers, which the limiter gives without counting.
