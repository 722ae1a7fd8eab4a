# Exam-committee proposal approval: a Dafny model

This project models the server side of a university exam-committee proposal
workflow. A chairman creates a draft proposal and fills it in. Signing then
routes it through three approvers in turn: the dean, the vice-chancellor (vc)
and the controller. Each approver may instead cancel (reject) it at their own
stage. The model covers the proposal routes, the proposal record and its
defaults, and the authentication middleware with its role gate.

Files and modules:

- `wrappers.dfy` (`Wrappers`): `Option` and `Result`.
- `auth.dfy` (`Auth`): designations and roles, the callers, `requireRole`,
  the bearer-header check and the middleware's decision (`Authenticate`).
- `proposal_model.dfy` (`ProposalModel`): the status enum with its strings,
  the stage order (`Rank`, `Next`), the signature slots, the content blocks,
  the `Proposal` record, its defaults (`NewProposal`) and the record
  invariant `Consistent`.
- `proposals.dfy` (`Proposals`): what each route does to one existing record,
  as functions (`CanView`, `SignStep`, `CancelStep`, `UpdateStep`, and `Apply`,
  which dispatches a request to one of them). It also holds the role-queue
  selection (`QueueQuery`) and the class `ProposalStore`, whose methods are
  the route handlers over a `map` from ids to records.
- `lifecycle.dfy` (`Lifecycle`): the history of one record under any sequence
  of requests (`Run`), and the state-machine facts proved over it.
- `scenarios.dfy` (`Scenarios`): client methods that drive the store through a
  draft that is filled in, signed, approved unsigned and rejected, and through a
  refused view and refused deletes. They use only the route contracts.

Modelling decisions:

- The database is the store's `proposals` map. Record ids come from a
  counter, `nextId`.
- Time is a logical clock, the store's `clock` field. Every save stamps
  `updatedAt` (and `cancelledAt` on a cancel) with the clock and then advances
  it. So the record saved last is the most recent one in every listing.
- A caller is an authenticated `User(id, designation)`. Designations are the
  four roles plus `Other(name)` for any other stored string. The `Role` subset
  type excludes an `Other` whose name spells a known role. Comparing two roles
  is therefore comparing the strings the source compares.
- Error kinds: `NotFound` is 404. `Forbidden` is 403, with the message
  "Forbidden" or "Cannot cancel this proposal". `WrongStatus` is 403 "Wrong
  status". The gate's `NoUser` is 401 and its `WrongRole` is 403 "Forbidden".
  All three `AuthError`s are 401.
- The optional `signature` is supplied when it is a non-empty string, which is
  JavaScript truthiness. A falsy PUT block is `None`. `examRelated` is either
  absent, a non-array value (ignored) or an array.

In these respects the routes behave as follows, and the model follows them:

- A non-chairman gets Forbidden on PUT and DELETE from the role gate, even for
  a missing id. A chairman who does not own the draft gets NotFound.
- Signing has no role gate. The lookup comes first, so every role gets
  NotFound for a missing id. After the lookup, approvers at the wrong status
  get WrongStatus and all other callers get Forbidden. This includes approved
  and cancelled records.
- The view rule's owner check compares user ids only. It does not check the
  caller's designation.

## Model

| member | source | states |
|---|---|---|
| Auth.ParseRole | backend/routes/proposals.js:141-161 | a stored designation string reads as one role whose string it is; it is `Other` exactly when the string is none of chairman, dean, vc, controller |
| Auth.LabelInjective | backend/routes/proposals.js:141-161 | two roles are equal exactly when their strings are equal, so the datatype comparisons are the source's string comparisons |
| Auth.RequireRole | backend/middleware/auth.js:26-32 | no user gives Unauthorized; a user passes iff their designation is in the list; otherwise Forbidden |
| Auth.BearerToken | backend/middleware/auth.js:7-11 | a token exists iff the header is present and starts with "Bearer "; the header is the prefix followed by the token; the token is 7 characters shorter |
| Auth.BearerRoundTrip | backend/middleware/auth.js:8-11 | reading the token back from "Bearer " + t gives t |
| Auth.Authenticate | backend/middleware/auth.js:6-24 | with the user store keyed by user id: a missing or malformed header, a token that does not verify, and a verified token naming no user are each rejected (all 401); otherwise the caller is the stored user whose id the token names |
| ProposalModel.StatusLabel | backend/models/Proposal.js:3 | every status is stored as one of the six enum strings, at its position in the enum |
| ProposalModel.ParseStatus | backend/models/Proposal.js:3-7 | the enum validator accepts a string iff it is one of the six, and the accepted status is stored as that string |
| ProposalModel.StatusRoundTrip | backend/models/Proposal.js:3 | every status survives being stored as its string and read back |
| ProposalModel.Next | backend/routes/proposals.js:147-159 | a sign moves draft, pending_dean, pending_vc, pending_controller each exactly one rank forward, never to cancelled |
| ProposalModel.PendingStage | backend/routes/proposals.js:176-178 | exactly dean, vc and controller own a pending stage, and it is pending |
| ProposalModel.SignStage | backend/routes/proposals.js:142-161 | every one of the four roles signs from a non-terminal status, an approver from its own pending stage; any other designation has none |
| ProposalModel.StageNamedAfterRole | backend/routes/proposals.js:142-161 | the chairman signs from "draft"; an approver signs and cancels at "pending_" followed by its own designation string |
| ProposalModel.SignStageInjective | backend/routes/proposals.js:142-159 | each non-terminal status is signed from by exactly one role |
| ProposalModel.NewProposal | backend/models/Proposal.js:5-44 | a new record has its owner, status draft, empty content and four empty signature slots, no cancellation fields, both timestamps equal to now, and is consistent |
| Proposals.CanView | backend/routes/proposals.js:79-85 | on a draft or cancelled record only the owner may view; on a pending one the owner or that stage's approver; an approved one anyone |
| Proposals.SignStep | backend/routes/proposals.js:140-162 | success iff the caller's role signs from the current status and a chairman owns it; approvers are otherwise refused WrongStatus, everyone else Forbidden; success advances one step, writes only the caller's slot and only with a supplied signature, changes no other field but updatedAt, and keeps the record consistent |
| Proposals.CancelAllowed | backend/routes/proposals.js:176-178 | cancelling is allowed iff the status is the caller's own pending stage |
| Proposals.CancelStep | backend/routes/proposals.js:175-182 | success iff the caller is the current stage's approver, else Forbidden; success sets cancelled, records who and when, keeps content, owner and signatures, and keeps the record consistent |
| Proposals.Patched | backend/routes/proposals.js:122-127 | each supplied block replaces its field, `examRelated` only when an array; every omitted field keeps its value |
| Proposals.PatchedIdempotent | backend/routes/proposals.js:122-127 | sending the same body twice has the effect of sending it once |
| Proposals.EmptyPatchIsIdentity | backend/routes/proposals.js:122-127 | a body supplying nothing leaves the content unchanged |
| Proposals.UpdateStep | backend/routes/proposals.js:118-127 | success iff a chairman updates their own draft; non-chairmen get Forbidden, other chairmen NotFound; success merges the content and changes no status, signature, owner or cancellation field |
| Proposals.Apply | backend/routes/proposals.js:136-188 | for any request on a record: terminal records refuse; owner and creation time never change; status changes only legally and only by the holder of the current stage; content changes only by the owner on a draft; a slot changes only by its role signing at its stage, to a non-empty value; consistency is kept |
| Proposals.QueueQuery | backend/routes/proposals.js:30-43 | only the four roles get a queue; a chairman's queue is exactly their own drafts and cancelled records; an approver's is exactly what they may cancel; everything listed is viewable by the caller |
| Proposals.InsertByRecency | backend/routes/proposals.js:44 | the result is the old entries plus the new one as a multiset, one element longer |
| Proposals.InsertKeepsOrder | backend/routes/proposals.js:44 | inserting into a most-recent-first listing keeps it most recent first |
| Proposals.InsertKeepsDistinct | backend/routes/proposals.js:44 | inserting an entry whose id is not listed keeps the ids distinct |
| Proposals.ProposalStore.Create | backend/routes/proposals.js:14-20 | only a chairman creates; the new id was unused and maps to a new draft owned by the caller and stamped with the clock, which then advances; nothing else changes; on refusal the store, clock and id counter are unchanged |
| Proposals.ProposalStore.Find | backend/routes/proposals.js:44 | the result lists each matching record exactly once, with its stored value, most recently updated first |
| Proposals.ProposalStore.List | backend/routes/proposals.js:28-45 | other roles get Forbidden; the four roles get exactly their queue, most recent first |
| Proposals.ProposalStore.ListNew | backend/routes/proposals.js:53-57 | non-chairmen get Forbidden; a chairman gets exactly their own drafts, most recent first |
| Proposals.ProposalStore.ListCancelled | backend/routes/proposals.js:64-68 | non-chairmen get Forbidden; a chairman gets exactly their own cancelled records, most recent first |
| Proposals.ProposalStore.Get | backend/routes/proposals.js:75-86 | a missing id gives NotFound; otherwise the record iff the caller may view it, else Forbidden |
| Proposals.ProposalStore.Delete | backend/routes/proposals.js:92-107 | non-chairmen get Forbidden; a chairman succeeds iff the id is their own draft, else NotFound; success removes exactly that id; refusal changes nothing |
| Proposals.ProposalStore.Update | backend/routes/proposals.js:118-129 | role gate before lookup, then NotFound, then the record-level update; success replaces only that record and makes it the most recent |
| Proposals.ProposalStore.Sign | backend/routes/proposals.js:136-164 | lookup first (NotFound for any role), then the record-level sign; success replaces only that record, answers its new status and makes it the most recent; refusal changes nothing |
| Proposals.ProposalStore.Cancel | backend/routes/proposals.js:171-184 | the dean/vc/controller gate runs before lookup, so other roles get Forbidden even for a missing id; then NotFound; then the record-level cancel; refusal changes nothing |
| Lifecycle.OwnerFixed | backend/routes/proposals.js:136-188 | no request ever changes a record's owner or creation time |
| Lifecycle.StepIsLegal | backend/routes/proposals.js:142-182 | every status change in a history is one step along the chain or a rejection at a pending stage |
| Lifecycle.StatusForward | backend/routes/proposals.js:142-182 | along a history a proposal's status only moves forward |
| Lifecycle.TerminalAbsorbing | backend/routes/proposals.js:118-182 | once approved or cancelled, every later value of the record is that same value |
| Lifecycle.CancelledOnlyFromPending | backend/routes/proposals.js:176-182 | a record that becomes cancelled was cancelled at a pending stage by that stage's approver |
| Lifecycle.StatusMovedByStageHolder | backend/routes/proposals.js:142-159 | whoever moves the status holds the current stage; out of draft, that is the owning chairman |
| Lifecycle.ContentOnlyByOwner | backend/routes/proposals.js:118-127 | content changes only by a PUT from the owning chairman while the record is a draft |
| Lifecycle.SlotChangedBySigner | backend/routes/proposals.js:146-158 | a signature slot changes only when its own role signs at its stage, and the new value is non-empty |
| Lifecycle.SlotWrittenOnce | backend/routes/proposals.js:142-159 | in one history a given signature slot changes at most once |
| Lifecycle.SignatureKept | backend/routes/proposals.js:146-158 | a written signature is never cleared |
| Lifecycle.EveryStageSigned | backend/routes/proposals.js:142-159 | no stage is skipped: every chain status the record has passed was left by a sign from that stage's role |
| Lifecycle.ApprovalSignedByAll | backend/routes/proposals.js:142-159 | an approved draft was signed out of draft by the chairman and out of each pending stage by its approver |
| Lifecycle.ConsistentThroughout | backend/routes/proposals.js:136-188 | with requests in clock order, the record invariant holds at every point of a history: cancellation fields set exactly when cancelled, by an approver, at the last save; signatures only for stages passed |

## Left out

- Token verification (`jwt.verify`) and token issuing are not modelled. They are a foreign cryptographic library. The tokens that verify are a parameter of `Authenticate`.
- The user store and the `.catch` after its lookup are not modelled. The user store is a parameter; a failed lookup is a database failure.
- Login, signup, server wiring and the database connection (`backend/routes/auth.js`, `backend/server.js`, `backend/db.js`) are plumbing and are not modelled.
- The reference-data routes and models (course, committee, exam, exam-related, summary, seed, and the Teacher, Course and External schemas) are not modelled. They have no tie to the lifecycle.
- The React front end is not modelled. Its approve and cancel buttons only mirror the server's rules.
- Persistence is an in-memory map. Id strings that are not valid object ids, which the database rejects with a 500, are not modelled. Neither is any other 500 catch-all path.
- Concurrency is not modelled. Each handler runs atomically here. The source does not defend against two requests racing on one record.
- Signature images are opaque strings. Dates are logical clock values, not `new Date()`.
- Proposals.Patched: a truthy PUT block that is not an object would make the database cast fail. Here every supplied block is well-typed.
- Proposals.ProposalStore.Update: a successful PUT always advances `updatedAt`. The persistence layer may leave the timestamp alone when a save changes no field.
- Request logging (`console.log`, `console.error`) is not modelled.
