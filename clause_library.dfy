/** The clause library: the search/category filter, and the add, edit and
    delete handlers over the in-memory list of saved clauses.  Persisting
    the list in the browser's storage is not modelled. */
module ClauseLibrary {
  import opened Js

  datatype Clause = Clause(
    id: int,
    title: string,
    description: string,
    category: string,
    content: string,
    lastUsed: string,
    usageCount: int)

  /** The add/edit form. */
  datatype ClauseDraft = ClauseDraft(title: string, description: string, category: string, content: string)

  const EmptyDraft := ClauseDraft("", "", "", "")

  /** A clause matches: the lower-cased search occurs in its lower-cased
      title or description, and its category is the selected one unless
      "All" is selected. */
  predicate Matches(c: Clause, search: string, category: string)
  {
    (Contains(Lower(c.title), Lower(search)) || Contains(Lower(c.description), Lower(search)))
    && (category == "All" || c.category == category)
  }

  /** `a` is `b` with some elements left out, in the same order. */
  predicate IsSubsequence<T(==)>(a: seq<T>, b: seq<T>)
  {
    if b == [] then a == []
    else (a != [] && a[0] == b[0] && IsSubsequence(a[1..], b[1..])) || IsSubsequence(a, b[1..])
  }

  /** `filteredClauses`. */
  function Filtered(clauses: seq<Clause>, search: string, category: string): (r: seq<Clause>)
    ensures forall c :: c in r <==> c in clauses && Matches(c, search, category)
    ensures |r| <= |clauses|
  {
    if clauses == [] then []
    else if Matches(clauses[0], search, category) then [clauses[0]] + Filtered(clauses[1..], search, category)
    else Filtered(clauses[1..], search, category)
  }

  /** The filtered list keeps the library's order. */
  lemma {:induction false} FilteredIsSubsequence(clauses: seq<Clause>, search: string, category: string)
    ensures IsSubsequence(Filtered(clauses, search, category), clauses)
  {
    if clauses != [] {
      FilteredIsSubsequence(clauses[1..], search, category);
      if Matches(clauses[0], search, category) {
        assert ([clauses[0]] + Filtered(clauses[1..], search, category))[1..] == Filtered(clauses[1..], search, category);
      }
    }
  }

  /** With an empty search and "All" everything is shown. */
  lemma ShowAll(clauses: seq<Clause>)
    ensures Filtered(clauses, "", "All") == clauses
  {
    if clauses != [] {
      assert OccursAt(Lower(clauses[0].title), Lower(""), 0);
      ShowAll(clauses[1..]);
    }
  }

  /** `Math.max(0, ...ids)`. */
  function MaxId(clauses: seq<Clause>): (m: int)
    ensures m >= 0
    ensures forall i :: 0 <= i < |clauses| ==> clauses[i].id <= m
    ensures m == 0 || exists i :: 0 <= i < |clauses| && clauses[i].id == m
  {
    if clauses == [] then 0
    else
      var rest := MaxId(clauses[1..]);
      if clauses[0].id > rest then clauses[0].id else rest
  }

  /** The id for a new clause: above every existing one, so unique. */
  function NextId(clauses: seq<Clause>): (id: int)
    ensures id >= 1
    ensures forall i :: 0 <= i < |clauses| ==> clauses[i].id < id
  {
    MaxId(clauses) + 1
  }

  /** A new clause from the form, never used yet. */
  function NewClause(d: ClauseDraft, id: int): Clause
  {
    Clause(id, d.title, d.description, d.category, d.content, "Never", 0)
  }

  /** The edit of the clauses with the edited id: the form's fields, marked
      used just now; id and usage count kept; every other clause kept. */
  function EditClauses(clauses: seq<Clause>, id: int, d: ClauseDraft): (r: seq<Clause>)
    ensures |r| == |clauses|
    ensures forall i :: 0 <= i < |r| ==>
      if clauses[i].id == id
      then r[i] == Clause(id, d.title, d.description, d.category, d.content, "Just now", clauses[i].usageCount)
      else r[i] == clauses[i]
  {
    seq(|clauses|, i requires 0 <= i < |clauses| =>
      if clauses[i].id == id
      then clauses[i].(title := d.title, description := d.description, category := d.category,
                       content := d.content, lastUsed := "Just now")
      else clauses[i])
  }

  /** `prev.filter(c => c.id !== id)`. */
  function DeleteClauses(clauses: seq<Clause>, id: int): (r: seq<Clause>)
    ensures forall c :: c in r <==> c in clauses && c.id != id
  {
    if clauses == [] then []
    else if clauses[0].id == id then DeleteClauses(clauses[1..], id)
    else [clauses[0]] + DeleteClauses(clauses[1..], id)
  }

  /** Delete keeps the others in order and takes the length down by the
      number of clauses with that id. */
  lemma {:induction false} DeleteShape(clauses: seq<Clause>, id: int)
    ensures IsSubsequence(DeleteClauses(clauses, id), clauses)
    ensures |DeleteClauses(clauses, id)| == |clauses| - |WithId(clauses, id)|
  {
    if clauses != [] {
      DeleteShape(clauses[1..], id);
      if clauses[0].id != id {
        assert ([clauses[0]] + DeleteClauses(clauses[1..], id))[1..] == DeleteClauses(clauses[1..], id);
      }
    }
  }

  /** The clauses carrying an id. */
  function WithId(clauses: seq<Clause>, id: int): seq<Clause>
  {
    if clauses == [] then []
    else if clauses[0].id == id then [clauses[0]] + WithId(clauses[1..], id)
    else WithId(clauses[1..], id)
  }

  class Library {
    var clauses: seq<Clause>
    var searchTerm: string
    var selectedCategory: string
    var isAddModalOpen: bool
    var editingClause: Option<Clause>
    var newClause: ClauseDraft

    constructor (initial: seq<Clause>)
      ensures clauses == initial && searchTerm == "" && selectedCategory == "All"
      ensures !isAddModalOpen && editingClause.None? && newClause == EmptyDraft
    {
      clauses := initial;
      searchTerm := "";
      selectedCategory := "All";
      isAddModalOpen := false;
      editingClause := None;
      newClause := EmptyDraft;
    }

    /** `closeModal`. */
    method CloseModal()
      modifies this`isAddModalOpen, this`editingClause, this`newClause
      ensures !isAddModalOpen && editingClause.None? && newClause == EmptyDraft
    {
      isAddModalOpen := false;
      editingClause := None;
      newClause := EmptyDraft;
    }

    /** `handleEditClause`: opens the form on a clause. */
    method EditClause(c: Clause)
      modifies this`isAddModalOpen, this`editingClause, this`newClause
      ensures isAddModalOpen && editingClause == Some(c)
      ensures newClause == ClauseDraft(c.title, c.description, c.category, c.content)
    {
      editingClause := Some(c);
      newClause := ClauseDraft(c.title, c.description, c.category, c.content);
      isAddModalOpen := true;
    }

    /** `handleAddClause`: refuses a form without title or content (nothing
        changes); otherwise edits the clause being edited, or prepends a new
        clause with a fresh id, and closes the form. */
    method AddClause()
      modifies this`clauses, this`isAddModalOpen, this`editingClause, this`newClause
      ensures old(newClause).title == "" || old(newClause).content == "" ==>
        clauses == old(clauses) && isAddModalOpen == old(isAddModalOpen)
        && editingClause == old(editingClause) && newClause == old(newClause)
      ensures old(newClause).title != "" && old(newClause).content != "" ==>
        && clauses == (if old(editingClause).Some?
                       then EditClauses(old(clauses), old(editingClause).value.id, old(newClause))
                       else [NewClause(old(newClause), NextId(old(clauses)))] + old(clauses))
        && !isAddModalOpen && editingClause.None? && newClause == EmptyDraft
    {
      if newClause.title == "" || newClause.content == "" {
        return;
      }
      if editingClause.Some? {
        clauses := EditClauses(clauses, editingClause.value.id, newClause);
      } else {
        var id := NextId(clauses);
        clauses := [NewClause(newClause, id)] + clauses;
      }
      CloseModal();
    }

    /** `handleDeleteClause`. */
    method DeleteClause(c: Clause)
      modifies this`clauses
      ensures clauses == DeleteClauses(old(clauses), c.id)
    {
      clauses := DeleteClauses(clauses, c.id);
    }
  }

  /** Ids stay unique: adding a clause to a list of distinct ids keeps them
      distinct, and so do edit and delete. */
  predicate DistinctIds(clauses: seq<Clause>)
  {
    forall i, j :: 0 <= i < j < |clauses| ==> clauses[i].id != clauses[j].id
  }

  lemma DistinctIdsKept(clauses: seq<Clause>, d: ClauseDraft, id: int)
    requires DistinctIds(clauses)
    ensures DistinctIds([NewClause(d, NextId(clauses))] + clauses)
    ensures DistinctIds(EditClauses(clauses, id, d))
    ensures DistinctIds(DeleteClauses(clauses, id))
  {
    var added := [NewClause(d, NextId(clauses))] + clauses;
    forall i, j | 0 <= i < j < |added|
      ensures added[i].id != added[j].id
    {
      if i > 0 {
        assert added[i] == clauses[i - 1] && added[j] == clauses[j - 1];
      } else {
        assert added[j] == clauses[j - 1];
      }
    }
    var edited := EditClauses(clauses, id, d);
    forall i, j | 0 <= i < j < |edited|
      ensures edited[i].id != edited[j].id
    {
      assert edited[i].id == clauses[i].id && edited[j].id == clauses[j].id;
    }
    DeleteDistinct(clauses, id);
  }

  lemma {:induction false} DeleteDistinct(clauses: seq<Clause>, id: int)
    requires DistinctIds(clauses)
    ensures DistinctIds(DeleteClauses(clauses, id))
  {
    if clauses != [] {
      assert DistinctIds(clauses[1..]) by {
        forall i, j | 0 <= i < j < |clauses[1..]|
          ensures clauses[1..][i].id != clauses[1..][j].id
        {
          assert clauses[1..][i] == clauses[i + 1] && clauses[1..][j] == clauses[j + 1];
        }
      }
      DeleteDistinct(clauses[1..], id);
      var rest := DeleteClauses(clauses[1..], id);
      if clauses[0].id != id {
        var r := [clauses[0]] + rest;
        forall i, j | 0 <= i < j < |r|
          ensures r[i].id != r[j].id
        {
          if i == 0 {
            assert r[j] in clauses[1..];
          } else {
            assert r[i] == rest[i - 1] && r[j] == rest[j - 1];
          }
        }
      }
    }
  }
}
