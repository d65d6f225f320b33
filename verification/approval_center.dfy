/** The admin's approval queue (admin-portal/components/BusApprovalCenter.tsx):
    submitted buses wait in a pending list until an admin approves them,
    which moves them to the front of the approved list, or rejects them,
    which drops them. */
module ApprovalCenter {
  import opened Common

  /** A bus submission as the queue shows it. */
  datatype PendingBus = PendingBus(
    id: string,
    name: string,
    ownerName: string,
    capacity: int,
    features: seq<string>,
    price: int,
    images: seq<string>,
    videoUrl: string,
    desc: string)

  /** No two buses in the list share an id. */
  predicate UniqueIds(buses: seq<PendingBus>) {
    forall i, j :: 0 <= i < j < |buses| ==> buses[i].id != buses[j].id
  }

  /** Some bus in the list has this id. */
  predicate Listed(buses: seq<PendingBus>, id: string) {
    exists k :: 0 <= k < |buses| && buses[k].id == id
  }

  /** `buses.filter(b => b.id !== id)`: every bus with another id, in order. */
  function Without(buses: seq<PendingBus>, id: string): (r: seq<PendingBus>)
    ensures IsSubsequence(r, buses)
    ensures forall b :: b in r <==> b in buses && b.id != id
    ensures forall b :: multiset(r)[b] == if b.id != id then multiset(buses)[b] else 0
    ensures !Listed(r, id)
  {
    Filter(buses, (b: PendingBus) => b.id != id)
  }

  /** `buses.find(b => b.id === id)`: the position of the first bus with
      this id. */
  function FirstWithId(buses: seq<PendingBus>, id: string): (r: Option<nat>)
    ensures r.Some? <==> Listed(buses, id)
    ensures r.Some? ==> r.value < |buses| && buses[r.value].id == id
  {
    FindIndex(buses, (b: PendingBus) => b.id == id)
  }

  /** Removing an id that no bus has leaves the list as it was. */
  lemma {:induction false} WithoutUnlisted(buses: seq<PendingBus>, id: string)
    requires !Listed(buses, id)
    ensures Without(buses, id) == buses
  {
    if buses != [] {
      assert !Listed(buses[1..], id) by {
        forall k | 0 <= k < |buses[1..]| ensures buses[1..][k].id != id {
          assert buses[1..][k] == buses[k + 1];
        }
      }
      WithoutUnlisted(buses[1..], id);
      assert buses == [buses[0]] + buses[1..];
    }
  }

  /** With unique ids, removing a listed id removes exactly one bus. */
  lemma {:induction false} WithoutListedUnique(buses: seq<PendingBus>, id: string)
    requires UniqueIds(buses) && Listed(buses, id)
    ensures |Without(buses, id)| == |buses| - 1
  {
    var rest := buses[1..];
    assert forall k :: 0 <= k < |rest| ==> rest[k] == buses[k + 1];
    if buses[0].id == id {
      assert !Listed(rest, id);
      WithoutUnlisted(rest, id);
    } else {
      assert Listed(rest, id);
      WithoutListedUnique(rest, id);
    }
  }

  /** The queue page's state. */
  class ApprovalQueue {
    var pending: seq<PendingBus>
    var approved: seq<PendingBus>
    /** The id awaiting a reject confirmation. */
    var confirmReject: Option<string>
    /** The id awaiting an approve confirmation. */
    var approvingBusId: Option<string>
    /** The bus open in the detail view. */
    var selectedBus: Option<PendingBus>

    constructor (submissions: seq<PendingBus>)
      ensures pending == submissions && approved == []
      ensures confirmReject.None? && approvingBusId.None? && selectedBus.None?
    {
      pending := submissions;
      approved := [];
      confirmReject := None;
      approvingBusId := None;
      selectedBus := None;
    }

    /** `handleApprove`: a pending id moves its first bus to the front of the
        approved list and drops every pending bus with that id, keeping the
        others in order; any other id changes nothing. With unique ids the
        two lists together keep their size. */
    method Approve(id: string)
      modifies this
      ensures Listed(old(pending), id) ==>
        && approved == [old(pending)[FirstWithId(old(pending), id).value]] + old(approved)
        && pending == Without(old(pending), id)
        && approvingBusId.None?
      ensures !Listed(old(pending), id) ==>
        pending == old(pending) && approved == old(approved) && approvingBusId == old(approvingBusId)
      ensures !Listed(pending, id) && IsSubsequence(pending, old(pending))
      ensures UniqueIds(old(pending)) ==> |pending| + |approved| == |old(pending)| + |old(approved)|
      ensures confirmReject == old(confirmReject) && selectedBus == old(selectedBus)
    {
      match FirstWithId(pending, id)
      case None =>
        WithoutUnlisted(pending, id);
      case Some(k) =>
        if UniqueIds(pending) {
          WithoutListedUnique(pending, id);
        }
        approved := [pending[k]] + approved;
        pending := Without(pending, id);
        approvingBusId := None;
    }

    /** `handleReject`: every pending bus with that id is dropped, the others
        keep their order, the approved list is untouched and the reject
        confirmation closes. */
    method Reject(id: string)
      modifies this
      ensures pending == Without(old(pending), id)
      ensures !Listed(pending, id) && IsSubsequence(pending, old(pending))
      ensures forall b :: b in old(pending) && b.id != id ==> b in pending
      ensures !Listed(old(pending), id) ==> pending == old(pending)
      ensures approved == old(approved) && confirmReject.None?
      ensures approvingBusId == old(approvingBusId) && selectedBus == old(selectedBus)
    {
      if !Listed(pending, id) {
        WithoutUnlisted(pending, id);
      }
      pending := Without(pending, id);
      confirmReject := None;
    }
  }
}
