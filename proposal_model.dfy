/**
 * The proposal record (backend/models/Proposal.js): the closed status set,
 * the field defaults, and the order of the approval stages.
 */
module ProposalModel {
  import opened Wrappers
  import opened Auth

  /** The `STATUS` enum: a proposal's status is always one of these six. */
  datatype Status = Draft | PendingDean | PendingVc | PendingController | Approved | Cancelled

  /** The status strings, in the order of the enum. */
  const StatusLabels: seq<string> :=
    ["draft", "pending_dean", "pending_vc", "pending_controller", "approved", "cancelled"]

  /** The string a status is stored as. */
  function StatusLabel(s: Status): (l: string)
    ensures l in StatusLabels
    ensures l == StatusLabels[Rank(s)]
  {
    match s
    case Draft => "draft"
    case PendingDean => "pending_dean"
    case PendingVc => "pending_vc"
    case PendingController => "pending_controller"
    case Approved => "approved"
    case Cancelled => "cancelled"
  }

  /** The enum validator: a string is accepted exactly when it is in the enum. */
  function ParseStatus(l: string): (r: Option<Status>)
    ensures r.Some? <==> l in StatusLabels
    ensures r.Some? ==> StatusLabel(r.value) == l
  {
    if l == "draft" then Some(Draft)
    else if l == "pending_dean" then Some(PendingDean)
    else if l == "pending_vc" then Some(PendingVc)
    else if l == "pending_controller" then Some(PendingController)
    else if l == "approved" then Some(Approved)
    else if l == "cancelled" then Some(Cancelled)
    else None
  }

  /** Every status survives being stored as a string and read back. */
  lemma StatusRoundTrip(s: Status)
    ensures ParseStatus(StatusLabel(s)) == Some(s)
  {
  }

  /**
   * Position in the lifecycle: the approval chain draft, pending_dean,
   * pending_vc, pending_controller, approved, with the rejection exit last.
   */
  function Rank(s: Status): nat
  {
    match s
    case Draft => 0
    case PendingDean => 1
    case PendingVc => 2
    case PendingController => 3
    case Approved => 4
    case Cancelled => 5
  }

  /** Approved and cancelled proposals admit no further change. */
  predicate IsTerminal(s: Status)
  {
    s == Approved || s == Cancelled
  }

  /** The three stages that await an approver's decision. */
  predicate IsPending(s: Status)
  {
    s == PendingDean || s == PendingVc || s == PendingController
  }

  /** The status a successful sign moves a proposal to. */
  function Next(s: Status): (n: Status)
    requires !IsTerminal(s)
    ensures Rank(n) == Rank(s) + 1
    ensures n != Cancelled
  {
    match s
    case Draft => PendingDean
    case PendingDean => PendingVc
    case PendingVc => PendingController
    case PendingController => Approved
  }

  /** The approvers: the roles that own a pending stage and may cancel. */
  predicate IsApprover(r: Role)
  {
    r == Dean || r == Vc || r == Controller
  }

  /** The pending stage an approver decides on. */
  function PendingStage(r: Role): (s: Option<Status>)
    ensures s.Some? <==> IsApprover(r)
    ensures s.Some? ==> IsPending(s.value)
  {
    match r
    case Dean => Some(PendingDean)
    case Vc => Some(PendingVc)
    case Controller => Some(PendingController)
    case _ => None
  }

  /** The status from which a role signs: the chairman's draft or an approver's stage. */
  function SignStage(r: Role): (s: Option<Status>)
    ensures s.Some? <==> !r.Other?
    ensures s.Some? ==> !IsTerminal(s.value)
    ensures IsApprover(r) ==> s == PendingStage(r)
  {
    match r
    case Chairman => Some(Draft)
    case Other(_) => None
    case _ => PendingStage(r)
  }

  /**
   * The stage a role owns is named after it: the chairman signs from "draft",
   * an approver signs and cancels at "pending_" followed by its own designation.
   */
  lemma StageNamedAfterRole(r: Role)
    ensures SignStage(r).Some? ==>
              StatusLabel(SignStage(r).value) == (if r == Chairman then "draft" else "pending_" + Label(r))
    ensures PendingStage(r).Some? ==> StatusLabel(PendingStage(r).value) == "pending_" + Label(r)
  {
  }

  /** Each status that awaits a decision is awaited from exactly one role. */
  lemma SignStageInjective(r1: Role, r2: Role)
    requires SignStage(r1).Some? && SignStage(r1) == SignStage(r2)
    ensures r1 == r2
  {
  }

  /** One signature slot per signing role; each defaults to the empty string. */
  datatype Signatures = Signatures(chairman: string, dean: string, vc: string, controller: string)

  const EmptySignatures := Signatures("", "", "", "")

  /** The slot a signing role writes. */
  function Slot(sigs: Signatures, r: Role): string
    requires !r.Other?
  {
    match r
    case Chairman => sigs.chairman
    case Dean => sigs.dean
    case Vc => sigs.vc
    case Controller => sigs.controller
  }

  /** Writes one role's slot. */
  function WithSlot(sigs: Signatures, r: Role, v: string): (s: Signatures)
    requires !r.Other?
    ensures Slot(s, r) == v
    ensures forall r': Role :: !r'.Other? && r' != r ==> Slot(s, r') == Slot(sigs, r')
  {
    match r
    case Chairman => sigs.(chairman := v)
    case Dean => sigs.(dean := v)
    case Vc => sigs.(vc := v)
    case Controller => sigs.(controller := v)
  }

  /** The `exam` block. */
  datatype ExamInfo = ExamInfo(degree: string, level: string, semester: string, year: string)

  /** The `course` block. */
  datatype CourseInfo = CourseInfo(name: string, courseCode: string, courseTitle: string,
                                   examType: string, credit: string)

  /** The `committee` block. */
  datatype CommitteeInfo = CommitteeInfo(chairman: string, chairmanDesignation: string,
                                         member1: string, member1Designation: string,
                                         member2: string, member2Designation: string)

  /** The `external` block. */
  datatype ExternalInfo = ExternalInfo(name: string, designation: string, dept: string, uni: string)

  /** The data the chairman fills in while the proposal is a draft. */
  datatype Content = Content(exam: Option<ExamInfo>, course: Option<CourseInfo>,
                             committee: Option<CommitteeInfo>, examRelated: seq<string>,
                             external: Option<ExternalInfo>)

  /** No block filled in yet; `examRelated` is an empty array. */
  const EmptyContent := Content(None, None, None, [], None)

  /** Logical time: the value of the store's clock when a record was saved. */
  type Time = nat

  /**
   * A stored proposal. The owner is required; `cancelledAt` and `cancelledBy`
   * are optional; `createdAt` and `updatedAt` are the automatic timestamps.
   */
  datatype Proposal = Proposal(
    chairmanId: UserId,
    status: Status,
    content: Content,
    signatures: Signatures,
    cancelledAt: Option<Time>,
    cancelledBy: Option<Role>,
    createdAt: Time,
    updatedAt: Time)

  /**
   * How far along the approval chain the proposal got: the rank of its status,
   * or for a cancelled proposal the rank of the stage at which it was rejected.
   */
  function Progress(p: Proposal): nat
  {
    if p.status == Cancelled && p.cancelledBy.Some? && PendingStage(p.cancelledBy.value).Some?
    then Rank(PendingStage(p.cancelledBy.value).value)
    else Rank(p.status)
  }

  /** Only the roles whose stage the proposal has passed can have signed. */
  predicate SignedOnlyPassed(p: Proposal)
  {
    && (p.signatures.chairman != "" ==> Rank(Draft) < Progress(p))
    && (p.signatures.dean != "" ==> Rank(PendingDean) < Progress(p))
    && (p.signatures.vc != "" ==> Rank(PendingVc) < Progress(p))
    && (p.signatures.controller != "" ==> Rank(PendingController) < Progress(p))
  }

  /**
   * The record invariant every stored proposal keeps: the cancellation fields
   * are set exactly on cancelled proposals, by an approver, at the time of the
   * last save; timestamps are ordered; signatures only for passed stages.
   */
  predicate Consistent(p: Proposal)
  {
    && p.createdAt <= p.updatedAt
    && (p.status == Cancelled <==> p.cancelledBy.Some?)
    && (p.cancelledAt.Some? <==> p.cancelledBy.Some?)
    && (p.cancelledBy.Some? ==> IsApprover(p.cancelledBy.value))
    && (p.cancelledAt.Some? ==> p.cancelledAt.value == p.updatedAt)
    && SignedOnlyPassed(p)
  }

  /** A record as `Proposal.create({ chairmanId, status: 'draft' })` stores it. */
  function NewProposal(owner: UserId, now: Time): (p: Proposal)
    ensures p.chairmanId == owner && p.status == Draft
    ensures p.content == EmptyContent && p.signatures == EmptySignatures
    ensures p.cancelledAt.None? && p.cancelledBy.None?
    ensures p.createdAt == now && p.updatedAt == now
    ensures Consistent(p)
  {
    Proposal(owner, Draft, EmptyContent, EmptySignatures, None, None, now, now)
  }
}
