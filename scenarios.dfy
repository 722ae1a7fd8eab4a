/**
 * Client code that drives the store through a draft that is filled in,
 * signed, approved unsigned and rejected, and through a refused view and
 * refused deletes; every assertion follows from the route contracts alone.
 */
module Scenarios {
  import opened Wrappers
  import opened Auth
  import opened ProposalModel
  import opened Proposals

  /** A chairman drafts, fills in and signs; the dean approves unsigned; the VC rejects. */
  method DraftSignAndReject()
  {
    var store := new ProposalStore();
    var x := User(1, Chairman);
    var y := User(2, Dean);
    var z := User(3, Vc);

    var created := store.Create(x);
    assert created.Ok?;
    var pid := created.value;

    var exam := ExamInfo("CSE", "1", "1", "2024");
    var updated := store.Update(x, pid, EmptyPatch.(exam := Some(exam)));
    assert updated == Ok(());
    var seen := store.Get(x, pid);
    assert seen.Ok? && seen.value.content.exam == Some(exam) && seen.value.status == Draft;

    var signed := store.Sign(x, pid, Some("imgA"));
    assert signed == Ok(PendingDean);
    assert store.proposals[pid].signatures.chairman == "imgA";

    signed := store.Sign(y, pid, None);
    assert signed == Ok(PendingVc);
    assert store.proposals[pid].signatures.dean == "";

    seen := store.Get(y, pid);
    assert seen == Err(Forbidden);

    var cancelled := store.Cancel(z, pid);
    assert cancelled == Ok(());
    assert store.proposals[pid].status == Cancelled;
    assert store.proposals[pid].cancelledBy == Some(Vc);

    signed := store.Sign(z, pid, Some("imgC"));
    assert signed == Err(WrongStatus);
    signed := store.Sign(x, pid, None);
    assert signed == Err(Forbidden);
    cancelled := store.Cancel(z, pid);
    assert cancelled == Err(Forbidden);
  }

  /** A approver cannot see another chairman's draft; a submitted proposal cannot be deleted. */
  method ViewAndDeleteRefused()
  {
    var store := new ProposalStore();
    var x := User(1, Chairman);
    var w := User(4, Dean);

    var created := store.Create(x);
    assert created.Ok?;
    var pid := created.value;

    var seen := store.Get(w, pid);
    assert seen == Err(Forbidden);

    var signed := store.Sign(x, pid, None);
    assert signed == Ok(PendingDean);
    var deleted := store.Delete(x, pid);
    assert deleted == Err(NotFound);
    deleted := store.Delete(w, pid);
    assert deleted == Err(Forbidden);
    assert pid in store.proposals;

    var cancelled := store.Cancel(x, pid + 1);
    assert cancelled == Err(Forbidden);
    cancelled := store.Cancel(w, pid + 1);
    assert cancelled == Err(NotFound);
  }
}
