/** The dashboard: the four counters and the five most recent documents
    computed from the user's documents, and the greeting's first name.  The
    fetch itself is an input: its rows, newest first, or nothing when it
    failed or returned no data. */
module Dashboard {
  import opened Js
  import opened DocumentStatus

  /** A fetched row (the selected columns). */
  datatype DocRow = DocRow(id: string, status: string, templateName: Option<string>, updatedAt: string)

  datatype Stats = Stats(total: nat, pending: nat, sent: nat, completed: nat)

  const ZeroStats := Stats(0, 0, 0, 0)

  /** The signed-in user: the metadata first name and the e-mail address,
      either of which may be missing. */
  datatype User = User(id: string, firstName: Option<string>, email: Option<string>)

  /** The number of rows whose status is one of `names`. */
  function CountIn(docs: seq<DocRow>, names: set<string>): (n: nat)
    ensures n <= |docs|
    ensures n == 0 <==> forall i :: 0 <= i < |docs| ==> docs[i].status !in names
  {
    if docs == [] then 0
    else (if docs[0].status in names then 1 else 0) + CountIn(docs[1..], names)
  }

  /** Rows counted for disjoint status sets add up. */
  lemma {:induction false} CountInUnion(docs: seq<DocRow>, a: set<string>, b: set<string>)
    requires a !! b
    ensures CountIn(docs, a) + CountIn(docs, b) == CountIn(docs, a + b)
  {
    if docs != [] {
      CountInUnion(docs[1..], a, b);
    }
  }

  /** When every row's status is in the set, every row is counted. */
  lemma {:induction false} CountInAll(docs: seq<DocRow>, names: set<string>)
    requires forall i :: 0 <= i < |docs| ==> docs[i].status in names
    ensures CountIn(docs, names) == |docs|
  {
    if docs != [] {
      CountInAll(docs[1..], names);
    }
  }

  const PendingNames: set<string> := {"draft"}
  const SentNames: set<string> := {"sent_for_signature", "company_signed"}
  const CompletedNames: set<string> := {"fully_signed"}

  /** The counters: all rows; drafts as pending; sent for signature or
      company-signed as sent; fully signed as completed. */
  function StatsOf(docs: seq<DocRow>): (s: Stats)
    ensures s.total == |docs|
    ensures s.pending + s.sent + s.completed <= s.total
  {
    CountInUnion(docs, PendingNames, SentNames);
    CountInUnion(docs, PendingNames + SentNames, CompletedNames);
    Stats(|docs|, CountIn(docs, PendingNames), CountIn(docs, SentNames), CountIn(docs, CompletedNames))
  }

  /** The four counted sets are exactly the four stored statuses, one each
      for pending and completed and two for sent. */
  lemma CountedNames(s: string)
    ensures s in PendingNames <==> Parse(s) == Some(Draft)
    ensures s in SentNames <==> Parse(s) == Some(SentForSignature) || Parse(s) == Some(CompanySigned)
    ensures s in CompletedNames <==> Parse(s) == Some(FullySigned)
    ensures s in PendingNames + SentNames + CompletedNames <==> Known(s)
  {
  }

  /** When every row has one of the four statuses, the three counters add
      up to the total. */
  lemma StatsSumKnown(docs: seq<DocRow>)
    requires forall i :: 0 <= i < |docs| ==> Known(docs[i].status)
    ensures var s := StatsOf(docs); s.pending + s.sent + s.completed == s.total
  {
    CountInUnion(docs, PendingNames, SentNames);
    CountInUnion(docs, PendingNames + SentNames, CompletedNames);
    forall i | 0 <= i < |docs|
      ensures docs[i].status in PendingNames + SentNames + CompletedNames
    {
      CountedNames(docs[i].status);
    }
    CountInAll(docs, PendingNames + SentNames + CompletedNames);
  }

  /** A row with a status outside the four is counted only in the total. */
  lemma StatsSumUnknown(docs: seq<DocRow>, i: int)
    requires 0 <= i < |docs| && !Known(docs[i].status)
    ensures var s := StatsOf(docs); s.pending + s.sent + s.completed < s.total
  {
    var all := PendingNames + SentNames + CompletedNames;
    CountInUnion(docs, PendingNames, SentNames);
    CountInUnion(docs, PendingNames + SentNames, CompletedNames);
    CountedNames(docs[i].status);
    CountOutside(docs, all, i);
  }

  lemma {:induction false} CountOutside(docs: seq<DocRow>, names: set<string>, i: int)
    requires 0 <= i < |docs| && docs[i].status !in names
    ensures CountIn(docs, names) < |docs|
  {
    if i > 0 {
      CountOutside(docs[1..], names, i - 1);
    }
  }

  /** `allDocs.slice(0, 5)`: the first five rows, or all of them when
      fewer. */
  function Recent(docs: seq<DocRow>): (r: seq<DocRow>)
    ensures |r| == if |docs| < 5 then |docs| else 5
    ensures r <= docs
  {
    if |docs| < 5 then docs else docs[..5]
  }

  /** The greeting name: the metadata first name, else the address up to its
      first `@`, else "User". */
  function FirstName(user: Option<User>): (name: string)
    ensures name != ""
    ensures user.None? ==> name == "User"
    ensures user.Some? && Truthy(user.value.firstName) ==> name == user.value.firstName.value
    ensures '@' in name ==> user.Some? && Truthy(user.value.firstName)
  {
    if user.None? then "User"
    else if Truthy(user.value.firstName) then user.value.firstName.value
    else if user.value.email.Some? && BeforeFirst(user.value.email.value, '@') != "" then
      BeforeFirst(user.value.email.value, '@')
    else "User"
  }

  /** Without a first name, an address `local@domain` greets `local`; an
      address that starts with `@` falls through to "User". */
  lemma FirstNameFromEmail(id: string, first: Option<string>, local: string, domain: string)
    requires !Truthy(first) && '@' !in local
    ensures local != "" ==> FirstName(Some(User(id, first, Some(local + "@" + domain)))) == local
    ensures local == "" ==> FirstName(Some(User(id, first, Some(local + "@" + domain)))) == "User"
  {
    SplitAfter(local, domain, '@');
  }

  /** The dashboard's state. */
  class Board {
    var loading: bool
    var stats: Stats
    var recentDocs: seq<DocRow>
    /** The user ids whose documents were fetched. */
    var fetches: seq<string>

    constructor ()
      ensures loading && stats == ZeroStats && recentDocs == [] && fetches == []
    {
      loading := true;
      stats := ZeroStats;
      recentDocs := [];
      fetches := [];
    }

    /** The effect: nothing without a user (loading stays on); otherwise one
        fetch, the counters and recent list from its rows when it gave any,
        and loading off. */
    method FetchDashboardData(user: Option<User>, rows: Option<seq<DocRow>>)
      modifies this
      ensures user.None? ==>
        loading == old(loading) && stats == old(stats) && recentDocs == old(recentDocs) && fetches == old(fetches)
      ensures user.Some? ==>
        && fetches == old(fetches) + [user.value.id]
        && !loading
        && stats == (if rows.Some? then StatsOf(rows.value) else old(stats))
        && recentDocs == (if rows.Some? then Recent(rows.value) else old(recentDocs))
    {
      if user.None? {
        return;
      }
      fetches := fetches + [user.value.id];
      if rows.Some? {
        stats := StatsOf(rows.value);
        recentDocs := Recent(rows.value);
      }
      loading := false;
    }
  }
}
