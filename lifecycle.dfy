/**
 * The life of one proposal record: the sequence of values it takes as
 * requests arrive, and the state-machine facts that hold over that sequence.
 */
module Lifecycle {
  import opened Wrappers
  import opened Auth
  import opened ProposalModel
  import opened Proposals

  /** A request against the record, served at logical time `at`. */
  datatype Event = Event(action: Action, at: Time)

  /** The record after one request: its new value, or the old one when refused. */
  function After(p: Proposal, ev: Event): Proposal
  {
    match Apply(p, ev.action, ev.at)
    case Ok(v) => v
    case Err(_) => p
  }

  /** The values the record takes: `p`, then one more per event. */
  function Run(p: Proposal, evs: seq<Event>): (h: seq<Proposal>)
    ensures |h| == |evs| + 1 && h[0] == p
    decreases |evs|
  {
    if evs == [] then [p] else [p] + Run(After(p, evs[0]), evs[1..])
  }

  /** Each value of the history follows from the one before. */
  lemma {:induction false} RunStep(p: Proposal, evs: seq<Event>, i: nat)
    requires i < |evs|
    ensures Run(p, evs)[i + 1] == After(Run(p, evs)[i], evs[i])
    decreases i
  {
    if i > 0 {
      RunStep(After(p, evs[0]), evs[1..], i - 1);
    }
  }

  /** The owner and the creation time never change. */
  lemma {:induction false} OwnerFixed(p: Proposal, evs: seq<Event>, i: nat)
    requires i <= |evs|
    ensures Run(p, evs)[i].chairmanId == p.chairmanId
    ensures Run(p, evs)[i].createdAt == p.createdAt
  {
    if i > 0 {
      OwnerFixed(p, evs, i - 1);
      RunStep(p, evs, i - 1);
    }
  }

  /** Every status change is one step along the chain, or a rejection at a pending stage. */
  lemma StepIsLegal(p: Proposal, evs: seq<Event>, i: nat)
    requires i < |evs|
    ensures var h := Run(p, evs);
            h[i + 1].status == h[i].status || LegalMove(h[i].status, h[i + 1].status)
  {
    RunStep(p, evs, i);
  }

  /** Status only moves forward. */
  lemma {:induction false} StatusForward(p: Proposal, evs: seq<Event>, i: nat, j: nat)
    requires i <= j <= |evs|
    ensures Rank(Run(p, evs)[i].status) <= Rank(Run(p, evs)[j].status)
  {
    if i < j {
      StatusForward(p, evs, i, j - 1);
      StepIsLegal(p, evs, j - 1);
    }
  }

  /** Once approved or cancelled, the record never changes again. */
  lemma {:induction false} TerminalAbsorbing(p: Proposal, evs: seq<Event>, i: nat, j: nat)
    requires i <= j <= |evs|
    requires IsTerminal(Run(p, evs)[i].status)
    ensures Run(p, evs)[j] == Run(p, evs)[i]
  {
    if i < j {
      TerminalAbsorbing(p, evs, i, j - 1);
      RunStep(p, evs, j - 1);
    }
  }

  /** Cancelled is reached only by a rejection at some pending stage. */
  lemma {:induction false} CancelledOnlyFromPending(p: Proposal, evs: seq<Event>, j: nat)
    requires j <= |evs|
    requires p.status != Cancelled && Run(p, evs)[j].status == Cancelled
    ensures var h := Run(p, evs);
            exists i :: 0 <= i < j && IsPending(h[i].status) && h[i + 1].status == Cancelled &&
                        evs[i].action.CancelBy? &&
                        PendingStage(evs[i].action.caller.designation) == Some(h[i].status)
  {
    var h := Run(p, evs);
    RunStep(p, evs, j - 1);
    if h[j - 1].status == Cancelled {
      CancelledOnlyFromPending(p, evs, j - 1);
    } else {
      assert IsPending(h[j - 1].status);
      var a := evs[j - 1].action;
      assert Apply(h[j - 1], a, evs[j - 1].at).Ok?;
    }
  }

  /** Only the draft's owner, or the role whose stage it is, moves the status. */
  lemma StatusMovedByStageHolder(p: Proposal, evs: seq<Event>, i: nat)
    requires i < |evs|
    requires Run(p, evs)[i + 1].status != Run(p, evs)[i].status
    ensures var h := Run(p, evs);
            var caller := ActionCaller(evs[i].action);
            SignStage(caller.designation) == Some(h[i].status) &&
            (h[i].status == Draft ==> caller.designation == Chairman && caller.id == p.chairmanId)
  {
    RunStep(p, evs, i);
    OwnerFixed(p, evs, i);
  }

  /** Only the owning chairman, and only on a draft, changes the content. */
  lemma ContentOnlyByOwner(p: Proposal, evs: seq<Event>, i: nat)
    requires i < |evs|
    requires Run(p, evs)[i + 1].content != Run(p, evs)[i].content
    ensures var h := Run(p, evs);
            evs[i].action.UpdateBy? && evs[i].action.caller.designation == Chairman &&
            evs[i].action.caller.id == p.chairmanId && h[i].status == Draft
  {
    RunStep(p, evs, i);
    OwnerFixed(p, evs, i);
  }

  /** A role's signature slot changes only by that role signing at its own stage. */
  lemma SlotChangedBySigner(p: Proposal, evs: seq<Event>, role: Role, i: nat)
    requires !role.Other? && i < |evs|
    requires Slot(Run(p, evs)[i + 1].signatures, role) != Slot(Run(p, evs)[i].signatures, role)
    ensures var h := Run(p, evs);
            evs[i].action.SignBy? && evs[i].action.caller.designation == role &&
            Some(h[i].status) == SignStage(role) && h[i + 1].status == Next(h[i].status) &&
            Slot(h[i + 1].signatures, role) != ""
  {
    RunStep(p, evs, i);
  }

  /** Each signature slot is written at most once in a record's life. */
  lemma SlotWrittenOnce(p: Proposal, evs: seq<Event>, role: Role, i: nat, j: nat)
    requires !role.Other? && i < j < |evs|
    ensures var h := Run(p, evs);
            Slot(h[i + 1].signatures, role) == Slot(h[i].signatures, role) ||
            Slot(h[j + 1].signatures, role) == Slot(h[j].signatures, role)
  {
    var h := Run(p, evs);
    if Slot(h[i + 1].signatures, role) != Slot(h[i].signatures, role) &&
       Slot(h[j + 1].signatures, role) != Slot(h[j].signatures, role) {
      SlotChangedBySigner(p, evs, role, i);
      SlotChangedBySigner(p, evs, role, j);
      StatusForward(p, evs, i + 1, j);
      assert false;
    }
  }

  /** A signature, once written, is never cleared. */
  lemma {:induction false} SignatureKept(p: Proposal, evs: seq<Event>, role: Role, i: nat, j: nat)
    requires !role.Other? && i <= j <= |evs|
    requires Slot(Run(p, evs)[i].signatures, role) != ""
    ensures Slot(Run(p, evs)[j].signatures, role) != ""
  {
    if i < j {
      SignatureKept(p, evs, role, i, j - 1);
      var h := Run(p, evs);
      if Slot(h[j].signatures, role) != Slot(h[j - 1].signatures, role) {
        SlotChangedBySigner(p, evs, role, j - 1);
      }
    }
  }

  /**
   * No stage is skipped: whenever the record has passed a status `s` of the
   * chain since `p`, some request signed it out of `s`, made by the role whose
   * stage `s` is.
   */
  lemma {:induction false} EveryStageSigned(p: Proposal, evs: seq<Event>, j: nat, s: Status)
    requires j <= |evs| && !IsTerminal(s)
    requires Rank(p.status) <= Rank(s) < Rank(Run(p, evs)[j].status)
    requires Run(p, evs)[j].status != Cancelled
    ensures var h := Run(p, evs);
            exists i :: 0 <= i < j && h[i].status == s && h[i + 1].status == Next(s) &&
                        SignStage(ActionCaller(evs[i].action).designation) == Some(s)
  {
    var h := Run(p, evs);
    StepIsLegal(p, evs, j - 1);
    if h[j - 1].status == h[j].status {
      EveryStageSigned(p, evs, j - 1, s);
    } else {
      StatusMovedByStageHolder(p, evs, j - 1);
      if h[j - 1].status != s {
        EveryStageSigned(p, evs, j - 1, s);
      }
    }
  }

  /** An approved draft was signed by its owner and then by every approver, in turn. */
  lemma ApprovalSignedByAll(p: Proposal, evs: seq<Event>, j: nat, role: Role)
    requires j <= |evs| && p.status == Draft && Run(p, evs)[j].status == Approved
    requires !role.Other?
    ensures var h := Run(p, evs);
            exists i :: 0 <= i < j && Some(h[i].status) == SignStage(role) &&
                        ActionCaller(evs[i].action).designation == role &&
                        h[i + 1].status == Next(h[i].status)
  {
    var s := SignStage(role).value;
    EveryStageSigned(p, evs, j, s);
    var h := Run(p, evs);
    var i :| 0 <= i < j && h[i].status == s && h[i + 1].status == Next(s) &&
             SignStage(ActionCaller(evs[i].action).designation) == Some(s);
    SignStageInjective(role, ActionCaller(evs[i].action).designation);
  }

  /** Requests served in clock order, none before the record's last save. */
  ghost predicate InClockOrder(p: Proposal, evs: seq<Event>)
  {
    && (forall i :: 0 <= i < |evs| ==> p.updatedAt <= evs[i].at)
    && (forall i, j :: 0 <= i < j < |evs| ==> evs[i].at <= evs[j].at)
  }

  /** A consistent record stays consistent through any requests served in clock order. */
  lemma {:induction false} ConsistentThroughout(p: Proposal, evs: seq<Event>, i: nat)
    requires i <= |evs| && Consistent(p) && InClockOrder(p, evs)
    ensures Consistent(Run(p, evs)[i])
    ensures i < |evs| ==> Run(p, evs)[i].updatedAt <= evs[i].at
  {
    if i > 0 {
      ConsistentThroughout(p, evs, i - 1);
      RunStep(p, evs, i - 1);
    }
  }
}
