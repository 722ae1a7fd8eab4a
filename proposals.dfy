/**
 * The proposal routes (backend/routes/proposals.js): the per-record rules of
 * each route as functions, and the store they run against as a class whose
 * methods are the route handlers.
 */
module Proposals {
  import opened Wrappers
  import opened Auth
  import opened ProposalModel

  type ProposalId = nat

  /** The rejections a proposal route answers with. */
  datatype Error =
    | NotFound     // 404
    | Forbidden    // 403 "Forbidden" (or "Cannot cancel this proposal")
    | WrongStatus  // 403 "Wrong status"

  type Outcome<T> = Result<T, Error>

  // ---------------------------------------------------------------------------
  // View authorisation (GET /:id)

  /** The `canView` rule: the owner, the approver of the current stage, or anyone once approved. */
  function CanView(p: Proposal, caller: User): (r: bool)
    ensures p.status == Draft || p.status == Cancelled ==> (r <==> caller.id == p.chairmanId)
    ensures p.status == Approved ==> r
    ensures IsPending(p.status) ==>
              (r <==> caller.id == p.chairmanId || PendingStage(caller.designation) == Some(p.status))
  {
    var isChairman := p.chairmanId == caller.id;
    || isChairman
    || (caller.designation == Dean && p.status == PendingDean)
    || (caller.designation == Vc && p.status == PendingVc)
    || (caller.designation == Controller && p.status == PendingController)
    || p.status == Approved
  }

  // ---------------------------------------------------------------------------
  // Sign (POST /:id/sign)

  /** JavaScript truthiness of the optional `signature` body field. */
  predicate Supplied(signature: Option<string>)
  {
    signature.Some? && signature.value != ""
  }

  /** One step along the chain, writing the signer's slot when a signature is supplied. */
  function Signed(p: Proposal, r: Role, signature: Option<string>, now: Time): Proposal
    requires !IsTerminal(p.status) && !r.Other?
  {
    p.(status := Next(p.status),
       signatures := if Supplied(signature) then WithSlot(p.signatures, r, signature.value)
                     else p.signatures,
       updatedAt := now)
  }

  /**
   * What signing does to an existing record: succeeds exactly when the caller's
   * role signs from the current status (and, for the chairman, owns it);
   * advances the status one step; writes only the caller's own slot.
   */
  function SignStep(p: Proposal, caller: User, signature: Option<string>, now: Time): (r: Outcome<Proposal>)
    ensures r.Ok? <==> SignStage(caller.designation) == Some(p.status) &&
                       (caller.designation == Chairman ==> caller.id == p.chairmanId)
    ensures r.Err? ==> r.error == (if IsApprover(caller.designation) then WrongStatus else Forbidden)
    ensures r.Ok? ==> !IsTerminal(p.status) && r.value.status == Next(p.status)
    ensures r.Ok? ==> r.value.chairmanId == p.chairmanId && r.value.content == p.content &&
                      r.value.cancelledAt == p.cancelledAt && r.value.cancelledBy == p.cancelledBy &&
                      r.value.createdAt == p.createdAt && r.value.updatedAt == now
    ensures r.Ok? ==> Slot(r.value.signatures, caller.designation) ==
                        (if Supplied(signature) then signature.value
                         else Slot(p.signatures, caller.designation))
    ensures r.Ok? ==> forall r': Role :: !r'.Other? && r' != caller.designation ==>
                        Slot(r.value.signatures, r') == Slot(p.signatures, r')
    ensures r.Ok? && Consistent(p) && p.updatedAt <= now ==> Consistent(r.value)
  {
    match caller.designation
    case Chairman =>
      if p.chairmanId != caller.id || p.status != Draft then Err(Forbidden)
      else Ok(Signed(p, Chairman, signature, now))
    case Dean =>
      if p.status != PendingDean then Err(WrongStatus)
      else Ok(Signed(p, Dean, signature, now))
    case Vc =>
      if p.status != PendingVc then Err(WrongStatus)
      else Ok(Signed(p, Vc, signature, now))
    case Controller =>
      if p.status != PendingController then Err(WrongStatus)
      else Ok(Signed(p, Controller, signature, now))
    case Other(_) =>
      Err(Forbidden)
  }

  // ---------------------------------------------------------------------------
  // Cancel (POST /:id/cancel)

  /** The cancel route's `allowed` check: the caller is the approver of the current stage. */
  function CancelAllowed(role: Role, s: Status): (r: bool)
    ensures r <==> PendingStage(role) == Some(s)
    ensures r ==> IsApprover(role) && IsPending(s)
  {
    || (role == Dean && s == PendingDean)
    || (role == Vc && s == PendingVc)
    || (role == Controller && s == PendingController)
  }

  /**
   * What cancelling does to an existing record: only the approver of the
   * current stage succeeds; the status becomes cancelled and the rejection is
   * recorded; content, owner and signatures stay as they were.
   */
  function CancelStep(p: Proposal, caller: User, now: Time): (r: Outcome<Proposal>)
    ensures r.Ok? <==> IsApprover(caller.designation) && PendingStage(caller.designation) == Some(p.status)
    ensures r.Err? ==> r.error == Forbidden
    ensures r.Ok? ==> IsPending(p.status) && r.value.status == Cancelled
    ensures r.Ok? ==> r.value.cancelledBy == Some(caller.designation) && r.value.cancelledAt == Some(now)
    ensures r.Ok? ==> r.value.chairmanId == p.chairmanId && r.value.content == p.content &&
                      r.value.signatures == p.signatures && r.value.createdAt == p.createdAt &&
                      r.value.updatedAt == now
    ensures r.Ok? && Consistent(p) && p.updatedAt <= now ==> Consistent(r.value)
  {
    if !CancelAllowed(caller.designation, p.status) then Err(Forbidden)
    else Ok(p.(status := Cancelled, cancelledAt := Some(now),
               cancelledBy := Some(caller.designation), updatedAt := now))
  }

  // ---------------------------------------------------------------------------
  // Content update (PUT /:id) and delete (DELETE /:id)

  /** The record lookup of PUT and DELETE: the caller's own draft. */
  predicate OwnsDraft(p: Proposal, caller: User)
  {
    p.chairmanId == caller.id && p.status == Draft
  }

  /** The `examRelated` body field: absent, some value that is not an array, or an array. */
  datatype ExamRelatedArg = Omitted | NotAnArray | Items(items: seq<string>)

  /** The body of PUT /:id; `None` stands for an absent or falsy field. */
  datatype Patch = Patch(exam: Option<ExamInfo>, course: Option<CourseInfo>,
                         committee: Option<CommitteeInfo>, examRelated: ExamRelatedArg,
                         external: Option<ExternalInfo>)

  /** A body that supplies nothing. */
  const EmptyPatch := Patch(None, None, None, Omitted, None)

  /** Replaces each block the patch supplies and keeps every other block. */
  function Patched(c: Content, patch: Patch): (r: Content)
    ensures r.exam == (if patch.exam.Some? then patch.exam else c.exam)
    ensures r.course == (if patch.course.Some? then patch.course else c.course)
    ensures r.committee == (if patch.committee.Some? then patch.committee else c.committee)
    ensures r.examRelated == (if patch.examRelated.Items? then patch.examRelated.items else c.examRelated)
    ensures r.external == (if patch.external.Some? then patch.external else c.external)
  {
    var c1 := if patch.exam.Some? then c.(exam := patch.exam) else c;
    var c2 := if patch.course.Some? then c1.(course := patch.course) else c1;
    var c3 := if patch.committee.Some? then c2.(committee := patch.committee) else c2;
    var c4 := if patch.examRelated.Items? then c3.(examRelated := patch.examRelated.items) else c3;
    if patch.external.Some? then c4.(external := patch.external) else c4
  }

  /** Applying the same body twice is applying it once. */
  lemma PatchedIdempotent(c: Content, patch: Patch)
    ensures Patched(Patched(c, patch), patch) == Patched(c, patch)
  {
  }

  /** A body that supplies nothing leaves the content as it was. */
  lemma EmptyPatchIsIdentity(c: Content)
    ensures Patched(c, EmptyPatch) == c
  {
  }

  /**
   * What PUT does to an existing record: a non-chairman is refused by the role
   * gate; a chairman who does not own it as a draft is told it does not exist;
   * the owner's draft gets the new content and nothing else changes.
   */
  function UpdateStep(p: Proposal, caller: User, patch: Patch, now: Time): (r: Outcome<Proposal>)
    ensures r.Ok? <==> caller.designation == Chairman && caller.id == p.chairmanId && p.status == Draft
    ensures r.Err? ==> r.error == (if caller.designation == Chairman then NotFound else Forbidden)
    ensures r.Ok? ==> r.value.content == Patched(p.content, patch) && r.value.updatedAt == now
    ensures r.Ok? ==> r.value.status == p.status && r.value.signatures == p.signatures &&
                      r.value.chairmanId == p.chairmanId && r.value.createdAt == p.createdAt &&
                      r.value.cancelledAt == p.cancelledAt && r.value.cancelledBy == p.cancelledBy
    ensures r.Ok? && Consistent(p) && p.updatedAt <= now ==> Consistent(r.value)
  {
    if RequireRole(Some(caller), [Chairman]) != Admitted then Err(Forbidden)
    else if !OwnsDraft(p, caller) then Err(NotFound)
    else Ok(p.(content := Patched(p.content, patch), updatedAt := now))
  }

  // ---------------------------------------------------------------------------
  // Every state change of an existing record

  /** A request that may change an existing record in place. */
  datatype Action =
    | SignBy(caller: User, signature: Option<string>)
    | CancelBy(caller: User)
    | UpdateBy(caller: User, patch: Patch)

  function ActionCaller(a: Action): User
  {
    match a
    case SignBy(c, _) => c
    case CancelBy(c) => c
    case UpdateBy(c, _) => c
  }

  /** A status change the lifecycle allows: one step along the chain, or rejection at a pending stage. */
  predicate LegalMove(s: Status, s': Status)
  {
    (!IsTerminal(s) && s' == Next(s)) || (IsPending(s) && s' == Cancelled)
  }

  /**
   * The effect of one request on an existing record, with the facts that hold
   * of every request: terminal records refuse everything; owner and creation
   * time never change; status moves only legally and only by its stage's
   * holder; content changes only by the owner on a draft; a signature slot
   * changes only by its own role leaving its stage, and only to a non-empty value.
   */
  function Apply(p: Proposal, a: Action, now: Time): (r: Outcome<Proposal>)
    ensures IsTerminal(p.status) ==> r.Err?
    ensures r.Ok? ==> r.value.chairmanId == p.chairmanId && r.value.createdAt == p.createdAt &&
                      r.value.updatedAt == now
    ensures r.Ok? && r.value.status != p.status ==>
              LegalMove(p.status, r.value.status) &&
              SignStage(ActionCaller(a).designation) == Some(p.status) &&
              (p.status == Draft ==> ActionCaller(a).id == p.chairmanId)
    ensures r.Ok? && r.value.content != p.content ==>
              a.UpdateBy? && a.caller.designation == Chairman && OwnsDraft(p, a.caller)
    ensures r.Ok? ==> forall role: Role ::
              (!role.Other? && Slot(r.value.signatures, role) != Slot(p.signatures, role)) ==>
                a.SignBy? && a.caller.designation == role && SignStage(role) == Some(p.status) &&
                Slot(r.value.signatures, role) != "" && r.value.status == Next(p.status)
    ensures r.Ok? && p.cancelledBy != r.value.cancelledBy ==>
              a.CancelBy? && r.value.cancelledBy == Some(a.caller.designation)
    ensures r.Ok? && Consistent(p) && p.updatedAt <= now ==> Consistent(r.value)
  {
    match a
    case SignBy(caller, signature) => SignStep(p, caller, signature, now)
    case CancelBy(caller) => CancelStep(p, caller, now)
    case UpdateBy(caller, patch) => UpdateStep(p, caller, patch, now)
  }

  // ---------------------------------------------------------------------------
  // Listing (GET /, GET /new, GET /cancelled)

  /** A record filter: optionally one owner, and a set of admitted statuses. */
  datatype Query = Query(owner: Option<UserId>, statuses: set<Status>)

  predicate Matches(q: Query, p: Proposal)
  {
    (q.owner.Some? ==> p.chairmanId == q.owner.value) && p.status in q.statuses
  }

  /**
   * The role-to-query selection of GET /: a chairman's own drafts and
   * cancelled proposals, or an approver's stage; nothing for any other role.
   */
  function QueueQuery(caller: User): (q: Option<Query>)
    ensures q.None? <==> caller.designation.Other?
    ensures q.Some? ==> forall p :: Matches(q.value, p) ==> CanView(p, caller)
    ensures q.Some? && caller.designation == Chairman ==>
              forall p :: Matches(q.value, p) <==> p.chairmanId == caller.id && (p.status == Draft || p.status == Cancelled)
    ensures q.Some? && IsApprover(caller.designation) ==>
              forall p :: Matches(q.value, p) <==> CancelAllowed(caller.designation, p.status)
  {
    match caller.designation
    case Chairman => Some(Query(Some(caller.id), {Draft, Cancelled}))
    case Dean => Some(Query(None, {PendingDean}))
    case Vc => Some(Query(None, {PendingVc}))
    case Controller => Some(Query(None, {PendingController}))
    case Other(_) => None
  }

  /** A record in a listing, with its id. */
  datatype Entry = Entry(id: ProposalId, proposal: Proposal)

  /** Most recently updated first. */
  ghost predicate ByRecency(r: seq<Entry>)
  {
    forall i, j :: 0 <= i < j < |r| ==> r[i].proposal.updatedAt >= r[j].proposal.updatedAt
  }

  ghost predicate DistinctIds(r: seq<Entry>)
  {
    forall i, j :: 0 <= i < j < |r| ==> r[i].id != r[j].id
  }

  /** Places an entry among entries ordered most recent first. */
  function InsertByRecency(r: seq<Entry>, e: Entry): (s: seq<Entry>)
    ensures |s| == |r| + 1
    ensures multiset(s) == multiset(r) + multiset{e}
    ensures forall x :: x in s <==> x in r || x == e
  {
    if r == [] then [e]
    else if e.proposal.updatedAt >= r[0].proposal.updatedAt then [e] + r
    else
      assert r == [r[0]] + r[1..];
      [r[0]] + InsertByRecency(r[1..], e)
  }

  /** Every element of a non-empty tail is an element of the whole. */
  lemma InTail(r: seq<Entry>, x: Entry)
    requires r != [] && x in r[1..]
    ensures exists k :: 1 <= k < |r| && r[k] == x
  {
    var k :| 0 <= k < |r[1..]| && r[1..][k] == x;
    assert r[k + 1] == x;
  }

  /** Inserting keeps a listing most recent first. */
  lemma {:induction false} InsertKeepsOrder(r: seq<Entry>, e: Entry)
    requires ByRecency(r)
    ensures ByRecency(InsertByRecency(r, e))
  {
    if r != [] && e.proposal.updatedAt < r[0].proposal.updatedAt {
      var t := InsertByRecency(r[1..], e);
      InsertKeepsOrder(r[1..], e);
      forall j | 0 <= j < |t| ensures t[j].proposal.updatedAt <= r[0].proposal.updatedAt {
        assert t[j] in t;
        if t[j] != e {
          InTail(r, t[j]);
        }
      }
      assert InsertByRecency(r, e) == [r[0]] + t;
    }
  }

  /** Inserting an entry with a new id keeps ids distinct. */
  lemma {:induction false} InsertKeepsDistinct(r: seq<Entry>, e: Entry)
    requires DistinctIds(r) && forall x :: x in r ==> x.id != e.id
    ensures DistinctIds(InsertByRecency(r, e))
  {
    if r != [] && e.proposal.updatedAt < r[0].proposal.updatedAt {
      var t := InsertByRecency(r[1..], e);
      InsertKeepsDistinct(r[1..], e);
      forall j | 0 <= j < |t| ensures t[j].id != r[0].id {
        assert t[j] in t;
        if t[j] != e {
          InTail(r, t[j]);
        }
      }
      assert InsertByRecency(r, e) == [r[0]] + t;
    } else if r != [] {
      assert InsertByRecency(r, e) == [e] + r;
    }
  }

  /**
   * `find(q).sort({ updatedAt: -1 })` over the store `m`: each matching record
   * exactly once, with its stored value, most recent first.
   */
  ghost predicate IsListing(r: seq<Entry>, m: map<ProposalId, Proposal>, q: Query)
  {
    && (forall x :: x in r ==> x.id in m && m[x.id] == x.proposal)
    && (forall id :: id in m ==> (Matches(q, m[id]) <==> Entry(id, m[id]) in r))
    && DistinctIds(r)
    && ByRecency(r)
  }

  // ---------------------------------------------------------------------------
  // The store

  /**
   * The proposal collection. Ids are handed out from `nextId`; `clock` is a
   * logical clock, stamped on every save and then advanced.
   */
  class ProposalStore {
    var proposals: map<ProposalId, Proposal>
    var clock: Time
    var nextId: ProposalId

    /** Ids are below `nextId`, every save is in the past, every record is consistent. */
    ghost predicate Valid()
      reads this
    {
      forall id :: id in proposals ==>
        id < nextId && proposals[id].updatedAt < clock && Consistent(proposals[id])
    }

    constructor ()
      ensures Valid() && proposals == map[]
    {
      proposals := map[];
      clock := 0;
      nextId := 0;
    }

    /** POST /: a chairman's new draft; any other role is refused. */
    method Create(caller: User) returns (o: Outcome<ProposalId>)
      requires Valid()
      modifies this
      ensures Valid()
      ensures caller.designation != Chairman ==>
                o == Err(Forbidden) && proposals == old(proposals) && clock == old(clock) &&
                nextId == old(nextId)
      ensures caller.designation == Chairman ==>
                o.Ok? && o.value !in old(proposals) &&
                proposals == old(proposals)[o.value := NewProposal(caller.id, old(clock))] &&
                clock == old(clock) + 1 && nextId == old(nextId) + 1
      ensures o.Ok? ==> forall k :: k in proposals && k != o.value ==>
                          proposals[k].updatedAt < proposals[o.value].updatedAt
    {
      if RequireRole(Some(caller), [Chairman]) != Admitted {
        return Err(Forbidden);
      }
      var id := nextId;
      proposals := proposals[id := NewProposal(caller.id, clock)];
      nextId := nextId + 1;
      clock := clock + 1;
      o := Ok(id);
    }

    /** The records matching `q`, most recently updated first. */
    method Find(q: Query) returns (r: seq<Entry>)
      ensures IsListing(r, proposals, q)
    {
      var m := proposals;
      var keys := m.Keys;
      r := [];
      while keys != {}
        invariant keys <= m.Keys
        invariant forall x :: x in r ==>
                    x.id in m && x.id !in keys && m[x.id] == x.proposal
        invariant forall id :: id in m && id !in keys ==>
                    (Matches(q, m[id]) <==> Entry(id, m[id]) in r)
        invariant DistinctIds(r)
        invariant ByRecency(r)
        decreases keys
      {
        var id :| id in keys;
        keys := keys - {id};
        if Matches(q, m[id]) {
          InsertKeepsOrder(r, Entry(id, m[id]));
          InsertKeepsDistinct(r, Entry(id, m[id]));
          r := InsertByRecency(r, Entry(id, m[id]));
        }
      }
    }

    /** GET /: the caller's role queue. */
    method List(caller: User) returns (o: Outcome<seq<Entry>>)
      ensures QueueQuery(caller).None? ==> o == Err(Forbidden)
      ensures QueueQuery(caller).Some? ==> o.Ok? && IsListing(o.value, proposals, QueueQuery(caller).value)
    {
      var q := QueueQuery(caller);
      if q.None? {
        return Err(Forbidden);
      }
      var r := Find(q.value);
      o := Ok(r);
    }

    /** GET /new: the chairman's own drafts. */
    method ListNew(caller: User) returns (o: Outcome<seq<Entry>>)
      ensures caller.designation != Chairman ==> o == Err(Forbidden)
      ensures caller.designation == Chairman ==>
                o.Ok? && IsListing(o.value, proposals, Query(Some(caller.id), {Draft}))
    {
      if RequireRole(Some(caller), [Chairman]) != Admitted {
        return Err(Forbidden);
      }
      var r := Find(Query(Some(caller.id), {Draft}));
      o := Ok(r);
    }

    /** GET /cancelled: the chairman's own cancelled proposals. */
    method ListCancelled(caller: User) returns (o: Outcome<seq<Entry>>)
      ensures caller.designation != Chairman ==> o == Err(Forbidden)
      ensures caller.designation == Chairman ==>
                o.Ok? && IsListing(o.value, proposals, Query(Some(caller.id), {Cancelled}))
    {
      if RequireRole(Some(caller), [Chairman]) != Admitted {
        return Err(Forbidden);
      }
      var r := Find(Query(Some(caller.id), {Cancelled}));
      o := Ok(r);
    }

    /** GET /:id: the record, when the caller may view it. */
    method Get(caller: User, id: ProposalId) returns (o: Outcome<Proposal>)
      ensures id !in proposals ==> o == Err(NotFound)
      ensures id in proposals ==>
                if CanView(proposals[id], caller) then o == Ok(proposals[id]) else o == Err(Forbidden)
    {
      if id !in proposals {
        return Err(NotFound);
      }
      var p := proposals[id];
      if !CanView(p, caller) {
        return Err(Forbidden);
      }
      o := Ok(p);
    }

    /** DELETE /:id: removes the caller's own draft and nothing else. */
    method Delete(caller: User, id: ProposalId) returns (o: Outcome<()>)
      requires Valid()
      modifies this
      ensures Valid() && clock == old(clock) && nextId == old(nextId)
      ensures caller.designation != Chairman ==> o == Err(Forbidden)
      ensures caller.designation == Chairman ==>
                (o.Ok? <==> id in old(proposals) && OwnsDraft(old(proposals)[id], caller))
      ensures o.Err? ==> proposals == old(proposals)
      ensures o.Err? && caller.designation == Chairman ==> o.error == NotFound
      ensures o.Ok? ==> proposals == old(proposals) - {id}
    {
      if RequireRole(Some(caller), [Chairman]) != Admitted {
        return Err(Forbidden);
      }
      if id !in proposals || !OwnsDraft(proposals[id], caller) {
        return Err(NotFound);
      }
      proposals := proposals - {id};
      o := Ok(());
    }

    /** PUT /:id: merges the supplied blocks into the caller's own draft. */
    method Update(caller: User, id: ProposalId, patch: Patch) returns (o: Outcome<()>)
      requires Valid()
      modifies this
      ensures Valid() && nextId == old(nextId)
      ensures caller.designation != Chairman ==>
                o == Err(Forbidden) && proposals == old(proposals) && clock == old(clock)
      ensures caller.designation == Chairman && id !in old(proposals) ==>
                o == Err(NotFound) && proposals == old(proposals) && clock == old(clock)
      ensures caller.designation == Chairman && id in old(proposals) ==>
                var step := UpdateStep(old(proposals)[id], caller, patch, old(clock));
                if step.Ok? then
                  o == Ok(()) && proposals == old(proposals)[id := step.value] && clock == old(clock) + 1
                else
                  o == Err(step.error) && proposals == old(proposals) && clock == old(clock)
      ensures o.Ok? ==> forall k :: k in proposals && k != id ==>
                          proposals[k].updatedAt < proposals[id].updatedAt
    {
      if RequireRole(Some(caller), [Chairman]) != Admitted {
        return Err(Forbidden);
      }
      if id !in proposals {
        return Err(NotFound);
      }
      var step := UpdateStep(proposals[id], caller, patch, clock);
      if step.Err? {
        return Err(step.error);
      }
      proposals := proposals[id := step.value];
      clock := clock + 1;
      o := Ok(());
    }

    /** POST /:id/sign: advances the record one stage; answers with the new status. */
    method Sign(caller: User, id: ProposalId, signature: Option<string>) returns (o: Outcome<Status>)
      requires Valid()
      modifies this
      ensures Valid() && nextId == old(nextId)
      ensures id !in old(proposals) ==>
                o == Err(NotFound) && proposals == old(proposals) && clock == old(clock)
      ensures id in old(proposals) ==>
                var step := SignStep(old(proposals)[id], caller, signature, old(clock));
                if step.Ok? then
                  o == Ok(step.value.status) && proposals == old(proposals)[id := step.value] &&
                  clock == old(clock) + 1
                else
                  o == Err(step.error) && proposals == old(proposals) && clock == old(clock)
      ensures o.Ok? ==> forall k :: k in proposals && k != id ==>
                          proposals[k].updatedAt < proposals[id].updatedAt
    {
      if id !in proposals {
        return Err(NotFound);
      }
      var step := SignStep(proposals[id], caller, signature, clock);
      if step.Err? {
        return Err(step.error);
      }
      proposals := proposals[id := step.value];
      clock := clock + 1;
      o := Ok(step.value.status);
    }

    /** POST /:id/cancel: the approver of the current stage rejects the proposal. */
    method Cancel(caller: User, id: ProposalId) returns (o: Outcome<()>)
      requires Valid()
      modifies this
      ensures Valid() && nextId == old(nextId)
      ensures !IsApprover(caller.designation) ==>
                o == Err(Forbidden) && proposals == old(proposals) && clock == old(clock)
      ensures IsApprover(caller.designation) && id !in old(proposals) ==>
                o == Err(NotFound) && proposals == old(proposals) && clock == old(clock)
      ensures IsApprover(caller.designation) && id in old(proposals) ==>
                var step := CancelStep(old(proposals)[id], caller, old(clock));
                if step.Ok? then
                  o == Ok(()) && proposals == old(proposals)[id := step.value] && clock == old(clock) + 1
                else
                  o == Err(step.error) && proposals == old(proposals) && clock == old(clock)
      ensures o.Ok? ==> forall k :: k in proposals && k != id ==>
                          proposals[k].updatedAt < proposals[id].updatedAt
    {
      if RequireRole(Some(caller), [Dean, Vc, Controller]) != Admitted {
        return Err(Forbidden);
      }
      if id !in proposals {
        return Err(NotFound);
      }
      var step := CancelStep(proposals[id], caller, clock);
      if step.Err? {
        return Err(step.error);
      }
      proposals := proposals[id := step.value];
      clock := clock + 1;
      o := Ok(());
    }
  }
}
