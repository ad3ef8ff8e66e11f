/** The template library's custom-template form: the required fields, the
    defaults, and the comma-separated field list.  The clock reading that
    makes the id is an input (its decimal text). */
module TemplateLibrary {
  import opened Js

  /** The custom-template form: five text inputs. */
  datatype CustomForm = CustomForm(name: string, description: string, category: string, estimatedTime: string, fields: string)

  const EmptyForm := CustomForm("", "", "", "", "")

  /** The template handed to the caller. */
  datatype Template = Template(id: string, name: string, description: string, category: string,
                               estimatedTime: string, fields: seq<string>)

  /** A field name as the parser leaves it: non-empty, no comma, and no
      whitespace at either end. */
  predicate CleanField(f: string)
  {
    f != [] && ',' !in f && !IsSpace(f[0]) && !IsSpace(f[|f| - 1])
  }

  /** A character that is not in a string is not in its trimmed form. */
  lemma TrimKeepsAbsent(s: string, c: char)
    requires c !in s
    ensures c !in Trim(s)
  {
    TrimShape(s);
  }

  /** A string with no whitespace at either end is its own trim. */
  lemma TrimClean(f: string)
    requires f != [] && !IsSpace(f[0]) && !IsSpace(f[|f| - 1])
    ensures Trim(f) == f
  {
    assert TrimStart(f) == f;
  }

  /** `.map(field => field.trim()).filter(Boolean)` over the pieces: each
      piece trimmed, the empty ones dropped. */
  function TrimmedPieces(parts: seq<string>): seq<string>
  {
    if parts == [] then []
    else if Trim(parts[0]) == [] then TrimmedPieces(parts[1..])
    else [Trim(parts[0])] + TrimmedPieces(parts[1..])
  }

  /** From comma-free pieces, every kept field is clean, and there are no
      more fields than pieces. */
  lemma {:induction false} TrimmedPiecesClean(parts: seq<string>)
    requires forall i :: 0 <= i < |parts| ==> ',' !in parts[i]
    ensures |TrimmedPieces(parts)| <= |parts|
    ensures forall i :: 0 <= i < |TrimmedPieces(parts)| ==> CleanField(TrimmedPieces(parts)[i])
  {
    if parts != [] {
      var rest := TrimmedPieces(parts[1..]);
      TrimmedPiecesClean(parts[1..]);
      var t := Trim(parts[0]);
      if t != [] {
        PieceClean(parts[0]);
        var r := [t] + rest;
        forall i | 0 <= i < |r|
          ensures CleanField(r[i])
        {
          if i > 0 {
            assert r[i] == rest[i - 1];
          }
        }
      }
    }
  }

  /** A comma-free piece trims to a clean field or to nothing. */
  lemma PieceClean(p: string)
    requires ',' !in p
    ensures Trim(p) != [] ==> CleanField(Trim(p))
  {
    TrimKeepsAbsent(p, ',');
    TrimShape(p);
  }

  /** `customTemplate.fields.split(',').map(...).filter(Boolean)`. */
  function ParseFields(s: string): seq<string>
  {
    TrimmedPieces(Split(s, ','))
  }

  /** Every parsed field is clean, and there is at most one more field than
      there are commas. */
  lemma ParseFieldsClean(s: string)
    ensures forall i :: 0 <= i < |ParseFields(s)| ==> CleanField(ParseFields(s)[i])
    ensures |ParseFields(s)| <= Count(s, ',') + 1
  {
    var parts := Split(s, ',');
    assert forall i :: 0 <= i < |parts| ==> parts[i] in parts;
    TrimmedPiecesClean(parts);
    SplitCount(s, ',');
  }

  /** Splitting the comma-join of comma-free pieces gives the pieces back. */
  lemma {:induction false} SplitJoin(fs: seq<string>)
    requires |fs| >= 1
    requires forall i :: 0 <= i < |fs| ==> ',' !in fs[i]
    ensures Split(Join(fs, ','), ',') == fs
  {
    if |fs| == 1 {
      SplitNone(fs[0], ',');
    } else {
      SplitJoin(fs[1..]);
      SplitAfter(fs[0], Join(fs[1..], ','), ',');
    }
  }

  /** Clean pieces pass through the trim-and-drop step unchanged. */
  lemma {:induction false} TrimmedClean(fs: seq<string>)
    requires forall i :: 0 <= i < |fs| ==> CleanField(fs[i])
    ensures TrimmedPieces(fs) == fs
  {
    if fs != [] {
      TrimClean(fs[0]);
      TrimmedClean(fs[1..]);
    }
  }

  /** Writing clean field names separated by commas and parsing the text
      gives the same list back. */
  lemma ParseJoin(fs: seq<string>)
    requires forall i :: 0 <= i < |fs| ==> CleanField(fs[i])
    ensures ParseFields(Join(fs, ',')) == fs
  {
    if fs == [] {
      assert Split("", ',') == [""];
      assert Trim("") == "";
    } else {
      SplitJoin(fs);
      TrimmedClean(fs);
    }
  }

  /** The form is refused when the name or the description is empty. */
  predicate Accepted(form: CustomForm)
  {
    form.name != "" && form.description != ""
  }

  /** The new template: id `custom-<clock>`, the form's name and
      description, category and time defaulted when left empty, and the
      parsed fields. */
  function NewTemplate(form: CustomForm, clock: string): (t: Template)
    ensures "custom-" <= t.id
    ensures t.name == form.name && t.description == form.description
    ensures t.category != "" && t.estimatedTime != ""
    ensures form.category != "" ==> t.category == form.category
    ensures form.estimatedTime != "" ==> t.estimatedTime == form.estimatedTime
    ensures t.fields == ParseFields(form.fields)
  {
    Template("custom-" + clock, form.name, form.description,
             if form.category == "" then "Custom" else form.category,
             if form.estimatedTime == "" then "10 minutes" else form.estimatedTime,
             ParseFields(form.fields))
  }

  /** Left empty, category and time take "Custom" and "10 minutes". */
  lemma Defaults(form: CustomForm, clock: string)
    requires form.category == "" && form.estimatedTime == ""
    ensures NewTemplate(form, clock).category == "Custom"
    ensures NewTemplate(form, clock).estimatedTime == "10 minutes"
  {
  }

  /** The library page's state. */
  class Library {
    var isCustomModalOpen: bool
    var customTemplate: CustomForm
    /** The templates handed to the page's selection callback. */
    var selected: seq<Template>

    constructor ()
      ensures !isCustomModalOpen && customTemplate == EmptyForm && selected == []
    {
      isCustomModalOpen := false;
      customTemplate := EmptyForm;
      selected := [];
    }

    /** `handleCustomTemplate`: a form without name or description changes
        nothing; otherwise the new template is selected, the dialog closes
        and the form is reset. */
    method HandleCustomTemplate(clock: string)
      modifies this
      ensures !Accepted(old(customTemplate)) ==>
        selected == old(selected) && isCustomModalOpen == old(isCustomModalOpen)
        && customTemplate == old(customTemplate)
      ensures Accepted(old(customTemplate)) ==>
        selected == old(selected) + [NewTemplate(old(customTemplate), clock)]
        && !isCustomModalOpen && customTemplate == EmptyForm
    {
      if customTemplate.name == "" || customTemplate.description == "" {
        return;
      }
      var t := NewTemplate(customTemplate, clock);
      isCustomModalOpen := false;
      customTemplate := EmptyForm;
      selected := selected + [t];
    }
  }
}
