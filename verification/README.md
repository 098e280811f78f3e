# A verified model of the acme2certifier order lifecycle

acme2certifier is an ACME server (RFC 8555) in front of other certificate authorities.
An order collects one authorization per identifier, becomes *ready* when they are all
valid, is *claimed* by a finalize request, passes an authorization gate and a CSR check,
and is enrolled in a background thread that may be late, fail or hand out an identifier to
poll with. Requests, threads, callbacks and expiry sweeps share five tables. That a
certificate is only issued to the right account, for the right names, after proof of
control over each of them does not follow from any one status; it follows from claim, gate
and binding together, and has to survive every interleaving.

The project has two layers.

**The step machine.** `OrderMachine` runs order creation, promotion, finalize requests,
enrollment threads, polling, trigger callbacks, challenge validation, authorization reads
(with prevalidation and just-in-time validation) and both sweeps as interleaved processes.
One turn is one statement against the tables or one answer from outside. Everything that
comes from outside - random names, answers of the CA, of hooks and validators, database
calls that fail, timeouts, killed threads - is an argument of the turn, so that a list of
actions of any kind is a run. The results about it quantify over all lists of actions:
`IssuanceSafety`, `ClaimBound`, `ValidOrders`, `Provenance`, `EndToEnd`,
`CertificateOrigin`, `ChallengeOwners`, `IssueNotes`, `ReuseOrigin`, `TriggerKeys`. `Growth` holds what no
step ever takes back. `Reaching` is for the other
direction, runs that exist: `StatusFalls` and `LostCertificates` use it to show that the
conditions of those results are needed.

**The server as the code runs it.** Classes with the fields the code updates, and methods
with its loops and branches, one for each area: `OrderCreation`, `FinalizeServer`,
`LateCertificates`, `ValidationRetry`, `ChallengeSets`, `Sweeps`, `Nonces`,
`CertificateCleanup`, `CertificateReuse`, `Binding`, `ReportNesting`, `TestNaming`.
`StrictBinding` compares the two ways in which `Binding` checks a CSR. `FinalizeTable` says in
the texts of the answers and the columns of the rows what a finalize request comes to.

**Between the two.** What the sequential server does to the tables and answers is a run of the
machine: for every finalize request, from the sweep and the read of the order it begins with to
message and detail of its answer, whatever the CA, the store, the hooks and the clock do
(`SoloRun`), for every creation of an order (`CreationRuns`), every read of an authorization
(`ReadRuns`), every validation, whichever of its
writes fail (`ValidationRuns`), for both sweeps (`SweepRuns`), for polls and triggers
(`LostCertificates`), and for the whole life of an order with any number of identifiers, up to
its certificate, without any shortcut (`OrderLife`).

Conventions: an absent Python string is the empty string (the code only asks for truth);
expiry is `Option<int>`, `None` for a NULL column; `Outside` and `World` hold what the code
does not decide itself. Configuration is a constant.

## What turned out not to hold

* **A valid order does not always have its certificate.** When storing the issued
  certificate fails, the enrollment thread reports no error and the waiting request writes
  `valid` all the same (certificate.py:922-934, order.py:1275-1279); polling and the trigger
  do likewise. Runs that end so are given for all three:
  `LostCertificates.StoreFailureLeavesNoCertificate`, `PollLosesCertificate` and
  `TriggerLosesCertificate`. `ValidOrders.ValidHasCertificate` holds in every run up to exactly
  this event, and `FinalizeServer.OutcomeAgrees` and `LateCertificates.PollDecides` say for one
  request, and for one poll, that the certificate is there if and only if the store succeeded.
* **Status can fall back.** Promotion reads and then writes without looking again
  (order.py:1595-1597), so two promotions that both read early let an order be claimed
  twice (`StatusFalls.StalePromotionReopens`). With promotion in one step, no order falls back
  in any run if and only if neither just-in-time validation nor prevalidation is configured
  (`StatusFalls.NoFallExactlyWithoutShortcuts`): either one takes an order back to `ready` from
  any status (`StatusFalls.JitReopensAnyOrder`, `StatusFalls.PrevalidationReopens`). Where
  status only moves forward, `ClaimBound.ClaimedOnce` holds, too; elsewhere the counted bound
  `ClaimBound.ClaimsAreBounded` is what is left, and issuance stays safe.
* **A certificate that arrives late need not fit its order.** The CSR row is stored before the
  CSR is checked, a CSR that does not fit leaves the order in processing, and the trigger
  looks at the public key alone (trigger.py:99-125):
  `CertificateOrigin.TriggerIgnoresBinding` makes such an order valid. Owner, claim and gate are
  behind every stored certificate all the same (`CertificateOrigin.CertificateHasOwnerAndGate`),
  and binding is behind every one the CA was asked for or that was reused
  (`CertificateOrigin.AskedCertificatesAreBound`).
* **`sectigo-email-01` is not stable.** The read that creates it hides its token, every later
  read shows it. `ChallengeSets.LaterReadsAgree` says the same fields come back exactly for
  the other types. A database failure in the middle of the creation leaves a partial set
  for good (`ChallengeSets.PartialSetStays`).
* **Strict binding is not always tighter than legacy.** Plainest of all, it counts the common
  name, so it accepts a CSR without SANs that legacy rejects (`StrictBinding.CnAloneParts`,
  `StrictBinding.CnAloneExample`); it compares addresses by their canonical text
  (`StrictBinding.CanonicalAddressParts`), and with the email rewrite every name with an `@` as
  email (`StrictBinding.RewriteParts`). A CSR that strict accepts is accepted by legacy if and
  only if it has SANs, none of them empty, each address in it is the text of an identifier, and,
  with the rewrite, so is each SAN with an `@` (`StrictBinding.StrictImpliesLegacyExactly`). Seen
  from the order: strict is at least as tight for all CSRs with SANs if and only if no CSR fits
  the order at all, or it gives each address by its canonical text and, with the rewrite, each
  mail address as dns and as email (`StrictBinding.StrictIsTighterExactly`). Where normalisation
  is lower-casing, strict is legacy plus coverage (`StrictBinding.StrictIsLegacyAndCovered`).
* **Anybody's request promotes an order.** A finalize request reads the order, and so makes a
  pending one ready, before it looks at the account (order.py:1754):
  `FinalizeServer.StrangerPromotes`. What the stranger is answered, and that nothing else changes,
  is in `FinalizeServer.OrderServer.ProcessFinalizeRequest`. The status shown by a read that
  promotes is still pending.
* **A class called `__module__` is mixed up with module level** by the test-name checker
  (`TestNaming.ModuleClassCollides`). The checker is right about a file if and only if the file
  is badly numbered in its scopes or its numbers also increase between module-level tests and
  those of that class (`TestNaming.WhenTheCheckerIsExact`).
* **Nesting keeps the last row's field.** Flattening gives every row back exactly when the
  fields of each level are determined by the key path (`ReportNesting.FlattenGivesBack`).
* The write of `valid` by the waiting request is not guarded (order.py:1279): when the database
  fails there, the request ends without an answer of its own.
* An exception in the CA handler is answered like a timeout, with 200 and an order in
  processing. A failing success hook answers 400 although the order is valid. With a bad
  profile the order is stored as pending, without authorizations. The sweep of nonces takes
  its default time when the module is loaded (nonce.py:147), not when it is called.

## Model

| member | source | states |
|---|---|---|
| IssuanceSafety.IssuanceIsSafe | acme2certifier/acme_srv/order.py:1321-1382 | In every run with strict binding and no TNAuthList: each certificate issued or reused was asked for by the account that owns the order, its CSR names equal the normalised identifiers and are not empty, it is no dry run, and that same request won the claim and then passed the gate on a table in which every identifier has its own valid, unexpired authorization |
| IssueNotes.NothingIsIssuedUnnoticed | acme2certifier/acme_srv/certificate.py:1058-1129 | In every run, a thread that waits for the CA, or holds a certificate that it got there or took over, has an Issued event behind it for its order and CSR: what is shown of these events is shown of all issuance |
| IssuanceSafety.RunKeeps | acme2certifier/acme_srv/order.py:236-266 | The invariant behind it, in every run: disclosed orders have distinct own authorizations in identifier order, and each request and thread has behind it the owner check, claim, gate and binding that its program counter implies |
| IssuanceSafety.GateReadTheTable | acme2certifier/acme_srv/order.py:1360-1382 | The table a passed gate is remembered with, and the time, are those the server had at one point of that run |
| IssuanceSafety.OpenGateAuthorises | acme2certifier/acme_srv/order.py:1360-1382 | A gate that opens means that each identifier of the order has its own valid and unexpired authorization |
| EndToEnd.IssuedOnlyAfterProof | acme2certifier/acme_srv/order.py:1321-1358 | For each issuance in a run and each identifier of its order, control over that identifier's own authorization was shown before the gate of the same request |
| EndToEnd.NoShortcutNoOtherProof | acme2certifier/acme_srv/challenge_business_logic.py:124-153 | With no simulation, just-in-time or prevalidation configured, an authorization is valid only if one of its own challenges was accepted or validation was disabled for it |
| ChallengeOwners.ProofIsGivenByOwner | acme2certifier/acme_srv/challenge.py:459-469 | In every run, each proof of control by a challenge was given in a validation asked for by the account that owns the order |
| Provenance.ValidHasEvidence | acme2certifier/acme_srv/challenge.py:1290-1337 | In every run a valid authorization has earlier evidence for that very authorization: an accepted challenge of its own, disabled validation, or a shortcut that is configured |
| Provenance.RunGrows | acme2certifier/dbhandlers/wsgi_handler.py:1087-1119 | Between two points of a run no row, no answer, no history and no task of a process is lost or rewritten |
| ClaimBound.ClaimsAreBounded | acme2certifier/acme_srv/order.py:1332-1358 | In every run, stale promotions and shortcuts included: issuances of an order are at most its won claims, and these plus one when it is ready are at most the writes of ready |
| ClaimBound.StatusNeverFalls | acme2certifier/acme_srv/order.py:1595-1597 | Without shortcuts and with promotion in one step, an order only moves forward through pending, ready, processing and the final statuses, along every run |
| ClaimBound.ClaimedOnce | acme2certifier/acme_srv/order.py:1333-1340 | In such runs an order is claimed at most once and at most one certificate is issued or reused for it |
| ValidOrders.ValidHasCertificate | acme2certifier/acme_srv/certificate.py:910-965 | In every run - late threads, polling, trigger included - a valid order has a row with a stored certificate unless a store of a certificate of that order failed |
| Growth.StepGrows | acme2certifier/dbhandlers/wsgi_handler.py:275-304 | No action drops a row, rewrites an owner, identifier or CSR, empties a stored certificate, takes back an answer or gives a process another task |
| FinalizeServer.AnswerAgrees | acme2certifier/acme_srv/order.py:1471-1508 | For every CA, hook, store and clock behaviour: 200 with no message and detail exactly when the enrollment went through; and at least 400 exactly when it did not, the thread was awaited and did not die, and the CA gave no identifier to poll with, or one with an error other than a timeout or the dry-run text, or the post hook failed |
| FinalizeServer.OutcomeAgrees | acme2certifier/acme_srv/order.py:1261-1294 | The order ends valid exactly when a certificate was stored or all seemed to go through, invalid exactly when the CA gave neither certificate nor poll identifier (then the answer is at least 400), else in processing; a valid order has its certificate exactly when the store succeeded |
| FinalizeServer.OrderServer.OrderUpdateIfStatus | acme2certifier/dbhandlers/wsgi_handler.py:1915-1939 | The conditional update touches one row exactly when the order has the expected status, and changes nothing otherwise |
| FinalizeServer.OrderServer.AuthorizationsValidForIssuance | acme2certifier/acme_srv/order.py:1360-1382 | The gate's loop answers yes exactly when the order has authorizations and each one is valid and has no expiry, expiry 0, or one still to come |
| FinalizeServer.OrderServer.UpdateValidityList | acme2certifier/acme_srv/order.py:1577-1599 | Writes ready exactly for a non-empty list of authorizations that are all valid and an order read as pending |
| FinalizeServer.OrderServer.GetOrderDetails | acme2certifier/acme_srv/order.py:1601-1616 | Reading an order makes it ready exactly when it is pending and has authorizations that are all valid, changes no other row or table, and shows the status it had before |
| FinalizeServer.MetIsPromoted | acme2certifier/acme_srv/order.py:1754-1758 | A pending order with valid authorizations is ready by the time its finalize request is looked at, unless the sweep of the same request found it expired |
| FinalizeServer.StrangerPromotes | acme2certifier/acme_srv/order.py:1752-1760 | A finalize request of another account is refused and leaves a pending order with valid authorizations ready |
| FinalizeServer.MetMovesForward | acme2certifier/acme_srv/order.py:1618-1674 | What a request does before its checks changes a status only to invalid, by expiry, or from pending to ready, on its own order |
| FinalizeServer.SuccessIsValid | acme2certifier/acme_srv/order.py:1796-1825 | After a 200 the order is not pending, so that the closing read changes nothing, and it is valid when message and detail are empty |
| FinalizeServer.OrderServer.StoreCertificateAndUpdateOrder | acme2certifier/acme_srv/certificate.py:910-965 | With a successful store the row holds the certificate, its raw form and its own issue and expiry dates, keeps order, CSR and creation date, and the order is valid; otherwise nothing changes; it ends early exactly for an exception or a failing success hook |
| FinalizeServer.OrderServer.HandleEnrollmentError | acme2certifier/acme_srv/certificate.py:982-1008 | The order becomes invalid exactly when there is no poll identifier; the client gets that identifier, the fixed text about names that are not allowed, the CA's own text where details are forwarded, and `enrollment failed` otherwise |
| FinalizeServer.OrderServer.ProcessEnrollmentAndStore | acme2certifier/acme_srv/certificate.py:1058-1129 | The whole thread: which rows change to what, column by column, and how it ends, by CA answer, store and hooks, whatever the status of the order has become |
| FinalizeServer.OrderServer.HandleEnrollmentThread | acme2certifier/acme_srv/certificate.py:1587-1615 | What the request learns, that a thread which is not awaited has not yet changed anything, and that a stored certificate is in its row with its own dates |
| FinalizeServer.OrderServer.FinalizeCsr | acme2certifier/acme_srv/order.py:1261-1294 | A CSR that is refused, does not match or meets a dry run answers at least 400 and leaves the order; otherwise the enrollment's tables and answer |
| FinalizeServer.OrderServer.FinalizeReadyOrder | acme2certifier/acme_srv/order.py:1321-1358 | No CSR or a lost claim changes nothing; a closed gate makes the order invalid with 403; behind the gate the outcome is the one of FinalizeCsr and agrees with the answer |
| FinalizeServer.OrderServer.FinalizeOrder | acme2certifier/acme_srv/order.py:1296-1319 | Only a ready order changes; it becomes valid only through claim, gate, matching CSR and an awaited certificate |
| FinalizeServer.OrderServer.ProcessFinalizeRequest | acme2certifier/acme_srv/order.py:1738-1850 | For a finalize request of any account whose message was accepted: sweep, read with promotion, missing order, owner, and the rest on the tables so met - the whole effect and the whole answer, with the status shown after a 200; the certificate table gains at most one row, with the stored certificate and its dates, or the CSR alone |
| FinalizeServer.OrderServer.ParseOrderMessage | acme2certifier/acme_srv/order.py:1738-1790 | Behind the sweep: the order is read, whoever asks, and finalized for its owner alone; after a 200 it is where no read promotes it, and valid when message and detail are empty |
| FinalizeServer.RowOfRequest | acme2certifier/acme_srv/order.py:1261-1294 | A request adds one certificate row or none; a row with a certificate holds exactly what the CA said and the dates read from it, one without holds the CSR alone; and after an empty 200 with a successful store the certificate is there |
| FinalizeTable.CaTextIsWithheld | acme2certifier/acme_srv/certificate.py:967-980 | Unless details are forwarded or the CA asks to be polled: two finalize requests of any account that differ in the error text of the CA alone, neither text being the one about names, get equal answers and leave equal tables |
| FinalizeTable.CaRefusal | acme2certifier/acme_srv/certificate.py:967-980 | A CA with neither certificate nor poll identifier: 401 rejectedIdentifier for names that are not allowed, 500 with `enrollment failed` where details are not forwarded, and else the CA's own text as the detail |
| FinalizeTable.CaAsksToPoll | acme2certifier/acme_srv/order.py:1281-1294 | With a poll identifier it is the detail, and the CA's error the message: 200 for none and for `timeout`, 401, 500 and 400 for the others |
| FinalizeTable.HookFailures | acme2certifier/acme_srv/certificate.py:1058-1129 | Code, type and detail for a failing hook before, at and after the enrollment and for a store that raises, and 200 with nothing for an enrollment without failure |
| FinalizeTable.UnknownResult | acme2certifier/acme_srv/certificate.py:1587-1615 | Code, type and detail of an asynchronous enrollment, a late one and one whose thread died |
| FinalizeTable.RefusalsInTexts | acme2certifier/acme_srv/order.py:1296-1358 | Code, type and detail of every refusal before the enrollment, in the order of the checks |
| FinalizeTable.FittingCsr | acme2certifier/acme_srv/certificate.py:1206-1226 | A CSR fits: by its own comparison for TNAuthList orders; otherwise it can be read, and strict finds equal non-empty sets of names, and legacy at least one SAN and for each one an identifier of its type and text |
| FinalizeTable.MetInColumns | acme2certifier/acme_srv/order.py:1618-1674 | The status in which a request finds its order: invalid if swept, ready if it was pending with valid authorizations, and otherwise as it was |
| FinalizeTable.OtherOrdersAreSwept | acme2certifier/acme_srv/order.py:1618-1674 | A request changes nothing in an order row but its status, and of any other order only what its sweep does |
| FinalizeTable.EnrolledStatus | acme2certifier/acme_srv/certificate.py:910-1008 | The status behind an enrollment for every behaviour of CA, hooks, store and clock: lost, valid, or stuck in processing |
| FinalizeTable.OwnOrderStatus | acme2certifier/acme_srv/order.py:1321-1358 | Nothing changes for a stranger, an order that is not ready or a missing CSR; a closed gate loses the order; behind it, which row is added and where the order is left |
| SoloRun.FinalizeIsARun | acme2certifier/acme_srv/order.py:1738-1850 | For every finalize request for a disclosed order, of any account, and every behaviour of CA, hooks, store and clock: the machine, with a sweep, a promotion, the request and its thread alone, reaches the very tables of the sequential server and gives its answer with code, message and detail |
| SoloRun.ThreadRuns | acme2certifier/acme_srv/certificate.py:1058-1129 | The machine's thread, run on its own, changes the tables and ends as the sequential thread does |
| CreationRuns.CreationIsARun | acme2certifier/acme_srv/order.py:514-557 | For every verdict of the policy and every pattern of failing inserts, the creating process alone leaves the tables of the sequential creation, and where nothing fails it answers with the authorization names |
| StatusFalls.StalePromotionReopens | acme2certifier/acme_srv/order.py:1577-1599 | From any state with a pending order whose authorizations are valid, two stale promotions lead to a fall from processing to ready and to two claims |
| StatusFalls.JitReopensAnyOrder | acme2certifier/acme_srv/authorization.py:748-760 | With just-in-time validation a read of a dns authorization takes its order to ready from any status |
| StatusFalls.PrevalidationReopens | acme2certifier/acme_srv/authorization.py:910-959 | With prevalidation alone, a read of an authorization that is not valid takes its order to ready from any status, when a list is configured for the type of its identifier |
| StatusFalls.NoFallExactlyWithoutShortcuts | acme2certifier/acme_srv/order.py:1595-1597 | With promotion in one step: no order falls back along any run exactly when neither just-in-time validation nor prevalidation is configured |
| LostCertificates.StoreFailureLeavesNoCertificate | acme2certifier/acme_srv/certificate.py:910-965 | For every order with fitting CSR, a failed store at the end of an awaited enrollment is reached, and leaves the order valid without a stored certificate |
| LostCertificates.PollLosesCertificate | acme2certifier/acme_srv/certificate.py:2059-2089 | The same for a certificate that arrives by polling |
| LostCertificates.TriggerLosesCertificate | acme2certifier/acme_srv/trigger.py:153-199 | The same for a certificate that arrives by the trigger callback |
| LostCertificates.PollIsARun | acme2certifier/acme_srv/certificate.py:2125-2181 | What a sequential poll does to the tables, lost writes included, is done by a run of the machine |
| LostCertificates.TriggerIsARun | acme2certifier/acme_srv/trigger.py:153-199 | So is what the trigger does, for all its hits and whichever of its writes fail |
| CertificateOrigin.CertificateHasOwnerAndGate | acme2certifier/acme_srv/order.py:1321-1382 | In every run, polls and triggers included, an order with a stored certificate has behind it a request of its owner that sent the CSR of that row, won the claim and then passed the gate with every identifier authorised |
| CertificateOrigin.CertificateOnlyAfterProof | acme2certifier/acme_srv/order.py:1321-1382 | And control over each identifier's own authorization was shown before that gate, for certificates that arrive late, too |
| CertificateOrigin.AskedCertificatesAreBound | acme2certifier/acme_srv/order.py:1261-1294 | A CSR that does not fit its order is never sent to the CA nor met by reuse in any run |
| CertificateOrigin.AskedNamesAreIdentifiers | acme2certifier/acme_srv/certificate.py:1206-1226 | In every run, legacy binding included: what the CA is asked for is a readable CSR with a SAN, each of whose SANs is the text of an identifier of its type; TNAuthList orders pass their own comparison |
| CertificateOrigin.TriggerIgnoresBinding | acme2certifier/acme_srv/trigger.py:99-125 | For every CSR that does not fit, some run ends with the order valid and a certificate in that CSR's row, by a trigger whose certificate has the CSR's key |
| TriggerKeys.TriggerServesItsKey | acme2certifier/acme_srv/trigger.py:99-125 | At every point of every run, a turn of a callback changes only a row whose CSR has the key of its certificate - to that certificate, without dates - and only an order with such a row, to valid |
| ReuseOrigin.ReusedIsOwn | acme2certifier/acme_srv/certificate.py:513-595 | In every run, behind each reused certificate there is a stored one for the very same CSR in an order of the same account |
| ReuseOrigin.ReusedIsFresh | acme2certifier/acme_srv/certificate.py:569-584 | At the moment of reuse that certificate is stored, of the same account, inside the configured window and not expired, and the thread goes on with it |
| ReadRuns.ReadIsARun | acme2certifier/acme_srv/authorization.py:762-866 | Every sequential read of an authorization - token, shortcut, challenge set, a failing insert included - is a run of the machine |
| SweepRuns.OrderSweepIsARun | acme2certifier/acme_srv/order.py:1618-1674 | What the sequential sweep of the orders does is done by a run of the machine |
| SweepRuns.AuthzSweepIsARun | acme2certifier/acme_srv/authorization.py:1091-1145 | The same for the sweep of the authorizations |
| OrderLife.OrderCanBeIssued | acme2certifier/acme_srv/order.py:514-557 | Without any shortcut, for any number of identifiers and every fitting CSR, some run creates, proves, promotes, finalizes and issues an order, and ends with it valid and its certificate stored |
| ValidationRuns.ValidationIsARun | acme2certifier/acme_srv/challenge.py:1060-1102 | From every state in which a validation may start: the tables of the sequential validation, for every validator and source check and whichever of its writes fail, are reached by the validation thread of the machine alone |
| OrderCreation.OrderCreator.CreateOrder | acme2certifier/acme_srv/order.py:514-557 | A created order is pending with exactly one own authorization per identifier - each with its expiry, no token yet, and valid exactly in simulation mode - and no other; refused requests leave an order without authorizations, and a failed insert leaves nothing; what is left when an authorization fails is given, too |
| OrderCreation.OrderCreator.AddAuthorizations | acme2certifier/acme_srv/order.py:236-266 | Without a database failure one own authorization per identifier in order, with its expiry and no token yet; with one, an error and only rows of this order added |
| LateCertificates.CertificateWriter.CertnameLookup | acme2certifier/acme_srv/trigger.py:99-125 | Finds exactly the certificate rows of orders in processing that have a CSR, one with the public key of the certificate |
| LateCertificates.CertificateWriter.CertStore | acme2certifier/acme_srv/trigger.py:153-199 | A row that changes had a CSR with the key of the certificate and an order in processing, and holds the certificate, without dates (wsgi_handler.py:275-304); an order that changes had such a row, and becomes valid; unless writes fail, every such row and order changes so |
| LateCertificates.CertificateWriter.PollCertificateStatus | acme2certifier/acme_srv/certificate.py:2125-2181 | The row holds exactly the certificate handed out, its raw form and its dates, and keeps order, CSR and creation date; the order becomes valid for a certificate and invalid for a rejection; nothing else changes, but for a write that fails |
| LateCertificates.PollDecides | acme2certifier/acme_srv/certificate.py:2059-2123 | An order in processing becomes valid exactly for a certificate, invalid exactly for a rejection and stays otherwise; the row holds a certificate exactly when it was handed out and stored; nothing else changes |
| ValidationRetry.ValidationDecides | acme2certifier/acme_srv/challenge.py:1174-1199 | The retry loop's verdict is always decisive, and passes exactly when some answer within the attempts passes and all before it were undecided |
| ValidationRetry.PassesExactly | acme2certifier/acme_srv/challenge.py:1060-1199 | A validation passes exactly when no source check objects while it is disabled, and else when the challenge can be prepared and one of at most five attempts (one for types that are not retried) passes with only undecided ones before |
| ValidationRetry.CallsStopAtTheFirst | acme2certifier/acme_srv/challenge.py:1174-1199 | The number of calls is the least one with a decisive answer, or all attempts |
| ValidationRetry.ChallengeServer.PerformValidationWithRetry | acme2certifier/acme_srv/challenge.py:1174-1199 | Five calls at most for dns-01, dns-persist-01 and email-reply-00 and one for all others, none after a decisive answer; the last answer counts, as invalid if it does not decide |
| ValidationRetry.ChallengeServer.TransitionTo | acme2certifier/acme_srv/challenge_business_logic.py:124-185 | The challenge is written unless the first write fails, and its authorization unless either does; no other row changes |
| ValidationRetry.ChallengeServer.HandleValidationDisabled | acme2certifier/acme_srv/challenge.py:706-736 | With validation disabled the source checks decide, and a failed check that is not final leaves both rows alone |
| ValidationRetry.ChallengeServer.PerformChallengeValidation | acme2certifier/acme_srv/challenge.py:1060-1102 | The tables after a validation for every pattern of failing writes, with the second try of the exception handler; one that ends leaves challenge and authorization both valid or both invalid; without failures valid exactly when the validator passed; no other row changes; a single failing write is made up for, unless the validation fails in itself |
| ValidationRetry.ChallengeServer.HandleChallengeRequest | acme2certifier/acme_srv/challenge.py:600-632 | A valid or running challenge is not started again; any other, an invalid one too, ends as its validation decides |
| ChallengeSets.TokenIsPersistedOnce | acme2certifier/acme_srv/authorization.py:301-326 | Over any reads and validations a persisted token is never replaced, every challenge carries its authorization's token, and an existing set keeps its rows up to their status |
| ChallengeSets.LaterReadsAgree | acme2certifier/acme_srv/challenge_business_logic.py:404-498 | A later read adds no row and lists the same types and URLs in the same order as the creating read, and the same tokens exactly for the types other than sectigo-email-01 |
| ChallengeSets.PartialSetStays | acme2certifier/acme_srv/challenge.py:219-256 | After a database failure in the middle of a creation the set stays as it is for good |
| ChallengeSets.Authorizations.ChallengeTypes | acme2certifier/acme_srv/challenge_business_logic.py:500-555 | The types that the code puts together are those of KindsFacts: never none, and none twice |
| ChallengeSets.KindsFacts | acme2certifier/acme_srv/challenge_business_logic.py:228-274 | An email address or TNAuthList identifier gets exactly its one type; a wildcard neither http-01 nor tls-alpn-01; an address no dns-01; all others all three; dns-persist-01 exactly dns names where supported; sectigo-email-01 exactly in simulation, and first |
| ChallengeSets.WildcardIsProvedByDns | acme2certifier/acme_srv/authorization.py:358-364 | In every run from a store without challenges of it, the authorization of a wildcard name has and lists no http-01 and no tls-alpn-01, and its creating read lists dns-01 |
| ChallengeSets.PlainNameIsOfferedAllThree | acme2certifier/acme_srv/challenge_business_logic.py:228-274 | A creating read for any other dns name lists http-01, dns-01 and tls-alpn-01 |
| ChallengeSets.ChallengesFit | acme2certifier/acme_srv/challenge_business_logic.py:500-555 | In every run of reads and validations, all challenges of an authorization that started without any are of types that its identifier and the configuration allow |
| ChallengeSets.FirstReadListsAllThatFit | acme2certifier/acme_srv/challenge_business_logic.py:500-555 | The creating read lists exactly the types that fit, and nothing at all only for just-in-time validation or a database failure |
| ChallengeSets.ReadInColumns | acme2certifier/acme_srv/authorization.py:762-866 | What a read writes, column by column: token and expiry where the token is missing, valid and ready for a shortcut, and new challenges with the token in use |
| ChallengeSets.ListedInTexts | acme2certifier/acme_srv/authorization.py:762-866 | Which prevalidation list an identifier is looked up in, by its type and text |
| ChallengeSets.Authorizations.CreateChallenges | acme2certifier/acme_srv/challenge_business_logic.py:312-386 | Appends exactly the planned rows, or those before a failure, and lists them with the tokens the creating read shows |
| ChallengeSets.Authorizations.FormatExisting | acme2certifier/acme_srv/challenge_business_logic.py:448-498 | Lists each row with its type, URL, status and token, hiding the token of dns-persist-01 alone |
| ChallengeSets.Authorizations.ResolveTokenAndExpiry | acme2certifier/acme_srv/authorization.py:301-326 | A token other than spaces stays, with its expiry; otherwise a new one is persisted with an expiry from now on, and handed out |
| ChallengeSets.Authorizations.GetAuthorizationDetails | acme2certifier/acme_srv/authorization.py:762-866 | The whole effect and answer of a read: token, shortcut writes to authorization and order, and the challenge set; a set created here lists exactly the types that fit the identifier, a wildcard included |
| Sweeps.SweepIsInvisibleToTheGate | acme2certifier/acme_srv/authorization.py:385-403 | Sweeping authorizations at any earlier time never changes the gate's answer |
| Sweeps.NeverMeansNever | acme2certifier/acme_srv/authorization.py:1125-1139 | An expiry of 0 or NULL is neither swept nor refused by the gate |
| Sweeps.AuthzSweepsCompose | acme2certifier/acme_srv/authorization.py:1091-1145 | Sweeping at t1 and then at a later t2 equals sweeping at t2, and the two reports partition the single one |
| Sweeps.OrderSweepsCompose | acme2certifier/acme_srv/order.py:1618-1674 | The same for orders |
| Sweeps.Sweeper.ExpireInvalidAuthorizations | acme2certifier/acme_srv/authorization.py:1091-1145 | Expires exactly the rows whose expiry is neither NULL nor 0 and not in the future, changes no other column, and reports each row that was not expired before, once |
| Sweeps.Sweeper.InvalidateExpiredOrders | acme2certifier/acme_srv/order.py:1618-1674 | Makes exactly the orders invalid whose expiry is not in the future, changes no other column, and reports each that was not invalid before, once |
| Nonces.NoncesAreConserved | acme2certifier/acme_srv/nonce.py:94-178 | Over every interleaving of issues, messages and sweeps with stale lists: a nonce is issued at most once, and issued equals outstanding plus burned plus swept plus never stored; burned equals accepted plus refused plus still being checked |
| Nonces.NoNonceIsAcceptedTwice | acme2certifier/acme_srv/message.py:349-418 | Every accepted outer message burned its own nonce before, which was issued and stored before that, and no other message is ever accepted with it |
| Nonces.CheckIsARun | acme2certifier/acme_srv/message.py:372-418 | The sequential check of a message is presenting its nonce and judging it: same table, the nonce burned exactly when it is there, the message accepted exactly on a 200 |
| Nonces.IssueIsARun | acme2certifier/acme_srv/nonce.py:135-145 | Handing out a nonce is the issuing step |
| Nonces.ExpiryIsARun | acme2certifier/acme_srv/nonce.py:147-178 | The sequential expiry is a search and a delete with nothing in between |
| Nonces.MessageServer.CheckNonce | acme2certifier/acme_srv/nonce.py:94-133 | 200 exactly for a nonce in the table, which is then gone; otherwise badNonce and an unchanged table |
| Nonces.MessageServer.ValidateMessageAndCheckSignature | acme2certifier/acme_srv/message.py:372-418 | In this order: 400 with the nonce for one that is not outstanding, 403 for credentials that are not good, 403 with the error and detail of a bad signature, and else 200 - each check unless it is switched off; the nonce is burned even if the message is refused later |
| Nonces.MessageServer.Check | acme2certifier/acme_srv/message.py:421-456 | A message is accepted exactly when it decodes and its nonce, its credentials and its signature are good or not asked for; a bad signature is answered 403 with its own error and detail; an accepted outer message had its nonce in the table before and not after |
| Nonces.MessageServer.DeleteBulk | acme2certifier/dbhandlers/wsgi_handler.py:1798-1819 | Chunks of 900 delete exactly the listed nonces and count those that were there |
| Nonces.MessageServer.ExpireNonces | acme2certifier/acme_srv/nonce.py:147-178 | Reports and deletes exactly the nonces older than the validity, and keeps the others with their times; none is deleted when it is zero or less |
| Nonces.MessageServer.GenerateAndAdd | acme2certifier/acme_srv/nonce.py:135-145 | The nonce handed out is in the table with its time unless it could not be stored or was there before |
| CertificateCleanup.MarkThenPurge | acme2certifier/acme_srv/certificate_manager.py:301-373 | Marking at t1 and purging at a later t2 leaves the rows of purging at t2 alone |
| CertificateCleanup.MarkingTwice | acme2certifier/acme_srv/certificate_manager.py:375-413 | A second marking run at the same time reports and changes nothing |
| CertificateCleanup.LiveRowsStay | acme2certifier/acme_srv/certificate_manager.py:415-463 | Neither run touches an unmarked row with a known later expiry or a CSR row younger than two weeks, and marking drops no row |
| CertificateCleanup.ExpiredRowsGo | acme2certifier/acme_srv/certificate_manager.py:375-463 | For every row and both kinds of run: whether it goes, by its expiry, its certificate, its CSR and its age, and what a marking run leaves in each column |
| CertificateCleanup.CertificateManager.CheckInvalidation | acme2certifier/acme_srv/certificate_manager.py:375-463 | The decision for one row, and the dates read from the certificate going into it |
| CertificateCleanup.CertificateManager.CleanupCertificates | acme2certifier/acme_srv/certificate_manager.py:301-373 | The whole table after a run, marking or purging, and a report of exactly the cleared rows |
| CertificateReuse.CheckReusability | acme2certifier/acme_srv/certificate.py:513-595 | What is picked is a stored certificate of the same account, inside the window and unexpired; nothing is picked exactly when no hit is eligible; otherwise one with the latest issue time among the eligible, the earliest such in search order |
| CertificateReuse.SortByIssueTime | acme2certifier/acme_srv/certificate.py:552-555 | A stable sort by issue time, newest first: a permutation in scan order |
| Binding.MatchSansToIdentifiers | acme2certifier/acme_srv/certificate.py:1206-1226 | The legacy loop accepts exactly a non-empty SAN list in which each entry splits and equals some identifier after lower-casing |
| Binding.CheckIdentifierMatch | acme2certifier/acme_srv/certificate.py:1131-1150 | Finds exactly a match with some identifier, and none for an empty part |
| Binding.CsrBoundNamesGet | acme2certifier/acme_srv/helpers/csr.py:174-219 | The names of a CSR are its normalised SANs and its normalised common name, and no others |
| Binding.OrderIdentifierSet | acme2certifier/acme_srv/certificate.py:1152-1168 | The names of an order are its normalised identifiers, and no others |
| Binding.StripCutsSpace | acme2certifier/acme_srv/helpers/csr.py:117-139 | Stripping cuts off white space at both ends, and all of it |
| Binding.LettersAreLowered | acme2certifier/acme_srv/helpers/csr.py:117-139 | Lower-casing maps the capital letters to the small ones and changes no other character |
| StrictBinding.CommonNameIsTyped | acme2certifier/acme_srv/helpers/csr.py:142-150 | A common name counts as email with an @, as an address where it reads like one, and as a host otherwise |
| StrictBinding.StrictIsLegacyAndCovered | acme2certifier/acme_srv/certificate.py:1152-1226 | Where normalisation is lower-casing for order and SANs: a CSR with SANs is accepted by strict exactly when legacy accepts it, it names every identifier, and its common name is one |
| StrictBinding.RewriteParts | acme2certifier/acme_srv/helpers/csr.py:117-139 | With the email rewrite, an order and a CSR that strict accepts and legacy rejects |
| StrictBinding.CanonicalAddressParts | acme2certifier/acme_srv/helpers/csr.py:117-139 | Without the rewrite, an order for an address in long form and a CSR for it, which strict accepts and legacy rejects |
| StrictBinding.CnAloneParts | acme2certifier/acme_srv/helpers/csr.py:174-219 | For every order and common name: a CSR without SANs is rejected by legacy, and accepted by strict exactly when its common name is all the order asks for |
| StrictBinding.CnAloneExample | acme2certifier/acme_srv/helpers/csr.py:142-150 | An order for one host and a CSR with that host as common name and no SAN |
| StrictBinding.StrictImpliesLegacyExactly | acme2certifier/acme_srv/certificate.py:1152-1226 | A CSR that strict accepts is accepted by legacy exactly when it has SANs, none empty, its addresses are texts of address identifiers, and - with the rewrite - its SANs with an @ are texts of identifiers of their type |
| StrictBinding.StrictIsTighterExactly | acme2certifier/acme_srv/certificate.py:1152-1226 | For an order: all CSRs with SANs that strict accepts are accepted by legacy exactly when no CSR can name all its identifiers, or its addresses are canonical and - with the rewrite - each mail address stands both as dns and as email |
| StrictBinding.StrictIsMetExactly | acme2certifier/acme_srv/certificate.py:1169-1197 | Some CSR is accepted by strict exactly when the order has a name and each identifier is dns, email, a readable address or rewritten |
| ReportNesting.NestingLosesAndInventsNothing | acme2certifier/acme_srv/housekeeping.py:397-557 | The nested report holds each key path of a complete row exactly once and no other |
| ReportNesting.FlattenGivesBack | acme2certifier/acme_srv/housekeeping.py:492-541 | Flattening gives back the prefixed fields of every complete row exactly when the fields of each level are determined by the key path, and then nothing else |
| ReportNesting.ReportLayoutIsSound | acme2certifier/acme_srv/housekeeping.py:498-501 | The key field of each level has the prefix of that level, so that both results above apply to the report |
| ReportNesting.FieldsGoByPrefix | acme2certifier/acme_srv/housekeeping.py:515-537 | A field goes to the account, order, authorization or challenge whose prefix it has, and nowhere without one |
| ReportNesting.ErrorsAreIncomplete | acme2certifier/acme_srv/housekeeping.py:504-541 | The error list holds exactly the rows that lack one of the four names, each as often as it was found |
| ReportNesting.ErrorsInOrder | acme2certifier/acme_srv/housekeeping.py:504-541 | And it holds them in the order in which they were found |
| ReportNesting.InsertIsNext | acme2certifier/acme_srv/housekeeping.py:442-541 | Adding one complete row to the nested dictionaries gives those of all rows, with keys in order of first appearance and the last writer's fields |
| ReportNesting.Housekeeping.DicstructureCreate | acme2certifier/acme_srv/housekeeping.py:442-490 | Creates exactly the missing levels of a path |
| ReportNesting.Housekeeping.AccountDicCreate | acme2certifier/acme_srv/housekeeping.py:492-541 | The dictionaries of all complete rows, and the incomplete rows in order |
| ReportNesting.Housekeeping.ListConvert | acme2certifier/acme_srv/housekeeping.py:397-440 | The lists that replace the dictionaries below a node, in insertion order |
| ReportNesting.Housekeeping.ToAccJson | acme2certifier/acme_srv/housekeeping.py:543-557 | The report of the rows, with an error list at its end exactly when there are incomplete rows |
| TestNaming.StackIsWhatIsOpen | tools/check_test_naming.py:55-70 | The class stack holds exactly the classes not closed by a later seen line, in file order, with strictly increasing indents |
| TestNaming.ScopeIsInnermost | tools/check_test_naming.py:73-79 | A test's scope is the innermost open class above it that is less indented, or the module when there is none |
| TestNaming.KeysTellScopes | tools/check_test_naming.py:60-79 | Two tests share a key exactly when they share their scope, or one is at module level and the other in the first class named `__module__` |
| TestNaming.NoErrorsExactlyWhenWellNumbered | tools/check_test_naming.py:82-121 | No error is reported exactly when every name has the required form and numbers strictly increase within each key |
| TestNaming.ErrorsInScopes | tools/check_test_naming.py:73-121 | In every file: no error exactly when names have the required form, numbers increase in the scopes a reader sees, and also across the scopes that are mixed up |
| TestNaming.WhenTheCheckerIsExact | tools/check_test_naming.py:73-167 | The checker is right about a file exactly when being well numbered in its scopes implies that numbers also increase across the scopes that are mixed up |
| TestNaming.CheckerIsExact | tools/check_test_naming.py:124-167 | In particular it is right about every file without a class named `__module__` |
| TestNaming.ModuleClassCollides | tools/check_test_naming.py:73-79 | Files with such a class that are well numbered in their scopes and are reported all the same |
| TestNaming.CollisionExample | tools/check_test_naming.py:73-79 | There is such a file with names of the required form |
| TestNaming.NumbersAreDecimal | tools/check_test_naming.py:82-121 | A name has number n exactly when it is `test_`, n in decimal with any leading zeros, an underscore and something more |
| TestNaming.DuplicatesAreReported | tools/check_test_naming.py:82-121 | A line is reported as a duplicate exactly when it is a test whose name stands on an earlier test of its scope |
| TestNaming.Checker.PopClassStack | tools/check_test_naming.py:55-57 | Pops exactly the classes that are not less indented |
| TestNaming.Checker.CheckFile | tools/check_test_naming.py:124-167 | The list of errors of a file, in order: duplicates, invalid names, numbers that do not increase |

## Left out

- Provenance.ValidHasEvidence: evidence is the answer of the validator, or of the shortcut's list; what validators check over the network is not modelled.
- ClaimBound.StatusNeverFalls: valid and invalid share one rank, because the code moves orders between them (a late thread writes valid unconditionally).
- Nonces.NoNonceIsAcceptedTwice: covers outer messages with checks enabled; the inner message of a key rollover skips the check by design.
- ChallengeSets.Authorizations.GetAuthorizationDetails: one read is one step of its runs; the machine of OrderMachine interleaves inside a read. What the prevalidation lists hold, EAB profiles included, is part of the outside answer.
- FinalizeServer.OrderServer.HandleEnrollmentThread: a thread that is late or asynchronous goes on only in OrderMachine, not in this class.
- ChallengeSets.Authorizations.CreateChallenges: the account address, issuer names and mail sender that some types list are not modelled; type, URL, token and status are.
- ChallengeSets.Authorizations.FormatExisting: the same fields, and the error text of a failed challenge, are not modelled.
- FinalizeServer.OrderServer.ProcessFinalizeRequest: no write of the sweep fails, and of the order shown with a 200 only the status is modelled.
- IssuanceSafety.RunKeeps: statements on one row are atomic; the store updates an authorization by reading its row and writing status, token and expiry together (wsgi_handler.py:1087-1119), so that two such updates at once could restore an older column.
- TestNaming.NumberOf: digits are the ASCII ones; the pattern of the checker also takes other decimal digits.
- ReportNesting.Housekeeping.ListConvert: dictionaries are values in the fields of the class, so aliasing between nested dictionaries is not captured; the loop that the code writes once per level is written once.
- ValidationRetry.ChallengeServer.HandleChallengeRequest: the request waits for its thread; TNAuthList payload checks and pauses between attempts are left out.
- LateCertificates.CertificateWriter.PollCertificateStatus: the error text and the poll identifier stored for later are not modelled.
- OrderMachine requests name only orders whose creation was answered; a request for any other name is answered without a write.
- Clean-up and purge of certificates are not steps of OrderMachine, so the results on valid orders speak of runs without a purge.
- Liveness: a bad CSR, a dry run, a failing pre-hook and some database failures leave an order in processing, and no claim is made that it ends.
- TNAuthList orders are bound by an abstract comparison; issuance safety is stated without them.
- Lower-casing and white space cover ASCII only; the parser of IP addresses is an abstract function, of which StrictBinding.AddressParser states what the results for whole orders need.
- Signatures, thumbprints, CSR and certificate parsing, and dates of certificates are parameters.
- CA handlers, validators, hooks, DNS and mail are nondeterministic answers.
- EAB profile merging, identifier policy, account contacts, the renewal window, configuration loading and response formatting are not part of this model.
