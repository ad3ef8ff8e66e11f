/** Document approvals: approving and rejecting requests in the in-memory
    list, the pending/completed split, and the badge colours. */
module Approvals {

  datatype Approval = Approval(
    id: string,
    documentTitle: string,
    requester: string,
    requestDate: string,
    status: string,
    priority: string,
    kind: string)

  const GreyBadge := "bg-gray-500/10 text-gray-700 border-gray-200"

  /** Badge colour of an approval status; grey for any other value. */
  function StatusColor(status: string): (c: string)
    ensures status != "pending" && status != "approved" && status != "rejected" ==> c == GreyBadge
  {
    if status == "pending" then "bg-yellow-500/10 text-yellow-700 border-yellow-200"
    else if status == "approved" then "bg-green-500/10 text-green-700 border-green-200"
    else if status == "rejected" then "bg-red-500/10 text-red-700 border-red-200"
    else GreyBadge
  }

  /** Badge colour of a priority; grey for any other value. */
  function PriorityColor(priority: string): (c: string)
    ensures priority != "high" && priority != "medium" && priority != "low" ==> c == GreyBadge
  {
    if priority == "high" then "bg-red-500/10 text-red-700 border-red-200"
    else if priority == "medium" then "bg-orange-500/10 text-orange-700 border-orange-200"
    else if priority == "low" then "bg-blue-500/10 text-blue-700 border-blue-200"
    else GreyBadge
  }

  /** The three statuses have distinct, non-grey colours; high priority and
      a rejection share red. */
  lemma ColoursDistinct()
    ensures StatusColor("pending") != StatusColor("approved")
    ensures StatusColor("approved") != StatusColor("rejected")
    ensures StatusColor("pending") != StatusColor("rejected")
    ensures StatusColor("pending") != GreyBadge && StatusColor("approved") != GreyBadge
    ensures StatusColor("rejected") != GreyBadge
    ensures PriorityColor("high") == StatusColor("rejected")
  {
  }

  /** The approvals awaiting a decision, in order. */
  function Pending(a: seq<Approval>): (r: seq<Approval>)
    ensures forall x :: x in r <==> x in a && x.status == "pending"
  {
    if a == [] then []
    else if a[0].status == "pending" then [a[0]] + Pending(a[1..])
    else Pending(a[1..])
  }

  /** The decided approvals (every status other than pending), in order. */
  function Completed(a: seq<Approval>): (r: seq<Approval>)
    ensures forall x :: x in r <==> x in a && x.status != "pending"
  {
    if a == [] then []
    else if a[0].status != "pending" then [a[0]] + Completed(a[1..])
    else Completed(a[1..])
  }

  /** The two lists split the approvals: together they hold every approval
      exactly as often as the list does. */
  lemma {:induction false} Partition(a: seq<Approval>)
    ensures multiset(Pending(a)) + multiset(Completed(a)) == multiset(a)
    ensures |Pending(a)| + |Completed(a)| == |a|
  {
    if a != [] {
      Partition(a[1..]);
      assert a == [a[0]] + a[1..];
    }
  }

  /** Setting the status of the approvals with an id. */
  function Decide(a: seq<Approval>, id: string, status: string): (r: seq<Approval>)
    ensures |r| == |a|
    ensures forall i :: 0 <= i < |r| ==> r[i] == if a[i].id == id then a[i].(status := status) else a[i]
  {
    seq(|a|, i requires 0 <= i < |a| => if a[i].id == id then a[i].(status := status) else a[i])
  }

  /** After approving or rejecting an id, no pending approval has it, and the
      pending list loses exactly those entries. */
  lemma DecidedLeavesPending(a: seq<Approval>, id: string, status: string)
    requires status == "approved" || status == "rejected"
    ensures forall x | x in Pending(Decide(a, id, status)) :: x.id != id
    ensures forall x :: x in Pending(Decide(a, id, status)) <==> x in Pending(a) && x.id != id
  {
    var d := Decide(a, id, status);
    forall x | x in Pending(a) && x.id != id
      ensures x in Pending(d)
    {
      var i :| 0 <= i < |a| && a[i] == x;
      assert d[i] == x;
    }
  }

  class Board {
    var approvals: seq<Approval>

    constructor (initial: seq<Approval>)
      ensures approvals == initial
    {
      approvals := initial;
    }

    /** `handleApprove`. */
    method Approve(id: string)
      modifies this
      ensures approvals == Decide(old(approvals), id, "approved")
    {
      approvals := Decide(approvals, id, "approved");
    }

    /** `handleReject`. */
    method Reject(id: string)
      modifies this
      ensures approvals == Decide(old(approvals), id, "rejected")
    {
      approvals := Decide(approvals, id, "rejected");
    }
  }
}
