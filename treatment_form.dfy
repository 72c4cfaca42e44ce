/** The add-procedure form: its field state, the three-photo cap on file
    selection, and the treatment draft it hands to the application on submit. */
module TreatmentForm {
  import opened Types
  import opened Strings
  import App

  /** A file picked in the browser; only its name reaches the model. */
  datatype File = File(name: string)

  const MaxPhotos: nat := 3

  /** `Array.from(files).slice(0, 3)`: the first three files of a selection. */
  function KeepFirst(files: seq<File>): (r: seq<File>)
    ensures |r| == if |files| <= MaxPhotos then |files| else MaxPhotos
    ensures r <= files
  {
    if |files| <= MaxPhotos then files else files[..MaxPhotos]
  }

  /** One attachment per file, in order, named after it. `idOf(i)` is the
      random identifier drawn for the i-th file and `urlOf(f)` the object URL
      the browser issues for it. */
  function Attachments(files: seq<File>, idOf: nat -> string, urlOf: File -> string): (r: seq<Attachment>)
    ensures |r| == |files|
    ensures forall i :: 0 <= i < |files| ==> r[i].name == files[i].name && r[i].url == urlOf(files[i])
  {
    seq(|files|, i requires 0 <= i < |files| => Attachment(idOf(i), files[i].name, urlOf(files[i])))
  }

  class Form {
    var kind: TreatmentType
    var date: string
    var notes: string
    var cost: string
    var currency: string
    var warranty: string
    var files: seq<File>

    /** Every selection passes through the cap. */
    ghost predicate Valid()
      reads this
    {
      |files| <= MaxPhotos
    }

    /** The defaults: a filling, today's calendar date (the part of the ISO
        timestamp `nowIso` before 'T'), US dollars, and everything else empty. */
    constructor(nowIso: string)
      ensures Valid()
      ensures kind == Filling && currency == "USD"
      ensures date == BeforeFirst(nowIso, 'T') && 'T' !in date
      ensures notes == "" && cost == "" && warranty == "" && files == []
    {
      kind := Filling;
      date := BeforeFirst(nowIso, 'T');
      notes := "";
      cost := "";
      currency := "USD";
      warranty := "";
      files := [];
    }

    method SetKind(k: TreatmentType)
      modifies this
      ensures kind == k
      ensures date == old(date) && notes == old(notes) && cost == old(cost)
      ensures currency == old(currency) && warranty == old(warranty) && files == old(files)
    {
      kind := k;
    }

    /** The text inputs: date, notes, cost, currency and warranty end date. */
    method SetText(newDate: string, newNotes: string, newCost: string, newCurrency: string, newWarranty: string)
      modifies this
      ensures date == newDate && notes == newNotes && cost == newCost
      ensures currency == newCurrency && warranty == newWarranty
      ensures kind == old(kind) && files == old(files)
    {
      date, notes, cost, currency, warranty := newDate, newNotes, newCost, newCurrency, newWarranty;
    }

    /** `handleFileChange`: a selection (None when the input reports no file
        list) replaces the kept files by its first three; no selection keeps them. */
    method HandleFileChange(selection: Option<seq<File>>)
      requires Valid()
      modifies this
      ensures Valid()
      ensures selection.Some? ==> files == KeepFirst(selection.value)
      ensures selection.None? ==> files == old(files)
      ensures kind == old(kind) && date == old(date) && notes == old(notes) && cost == old(cost)
      ensures currency == old(currency) && warranty == old(warranty)
    {
      if selection.Some? {
        files := KeepFirst(selection.value);
      }
    }

    /** `handleSubmit`: the draft handed to the caller. The tooth comes from
        the selection (None for a general procedure); an empty cost or
        warranty string gives no value; `parseAmount` is `parseFloat` on a
        non-empty cost string. The form never sets a dentist. */
    function Submit(selectedTooth: Option<Tooth>, parseAmount: string -> int,
                    idOf: nat -> string, urlOf: File -> string): (d: TreatmentDraft)
      reads this
      ensures d.toothId == (if selectedTooth.Some? then Some(selectedTooth.value.id) else None)
      ensures d.kind == kind && d.date == date && d.notes == notes && d.currency == currency
      ensures d.cost.None? <==> cost == ""
      ensures d.cost.Some? ==> d.cost.value == parseAmount(cost)
      ensures d.warrantyUntil.None? <==> warranty == ""
      ensures d.warrantyUntil.Some? ==> d.warrantyUntil.value == warranty
      ensures |d.attachments| == |files|
      ensures forall i :: 0 <= i < |files| ==> d.attachments[i].name == files[i].name
      ensures d.dentistId.None?
    {
      TreatmentDraft(
        if selectedTooth.Some? then Some(selectedTooth.value.id) else None,
        kind, date, notes,
        if cost != "" then Some(parseAmount(cost)) else None,
        currency,
        if warranty != "" then Some(warranty) else None,
        Attachments(files, idOf, urlOf),
        None)
    }
  }

  /** However many files are picked, a submitted draft carries at most three photos. */
  lemma {:induction false} AtMostThreePhotos(selection: seq<File>, idOf: nat -> string, urlOf: File -> string)
    ensures |Attachments(KeepFirst(selection), idOf, urlOf)| <= MaxPhotos
    ensures forall i :: 0 <= i < |Attachments(KeepFirst(selection), idOf, urlOf)| ==>
              Attachments(KeepFirst(selection), idOf, urlOf)[i].name == selection[i].name
  {
    var kept := KeepFirst(selection);
    assert forall i :: 0 <= i < |kept| ==> kept[i] == selection[i];
  }

  /** Submitting the form with a chart tooth selected and handing the draft
      to the application's save rewrites that tooth to the status mapped from
      the chosen kind, and leaves every tooth with another number as it was. */
  lemma FormSaveMarksSelectedTooth(f: Form, teeth: seq<Tooth>, i: int, parseAmount: string -> int,
                                   idOf: nat -> string, urlOf: File -> string)
    requires 0 <= i < |teeth| && teeth[i].id != 0
    requires App.StatusAfter(f.kind).Some?
    ensures var d := f.Submit(Some(teeth[i]), parseAmount, idOf, urlOf);
            App.UpdateTeeth(teeth, d)[i].status == App.StatusAfter(f.kind).value
            && forall j :: 0 <= j < |teeth| && teeth[j].id != teeth[i].id ==> App.UpdateTeeth(teeth, d)[j] == teeth[j]
  {
    var d := f.Submit(Some(teeth[i]), parseAmount, idOf, urlOf);
    App.SaveSetsMappedStatus(teeth, d, i);
    forall j | 0 <= j < |teeth| && teeth[j].id != teeth[i].id
      ensures App.UpdateTeeth(teeth, d)[j] == teeth[j]
    {
      App.SaveKeepsOtherTeeth(teeth, d, j);
    }
  }

  /** Submitting with no tooth selected records a general procedure, which
      leaves the whole chart as it was. */
  lemma GeneralFormSaveKeepsChart(f: Form, teeth: seq<Tooth>, parseAmount: string -> int,
                                  idOf: nat -> string, urlOf: File -> string)
    ensures App.UpdateTeeth(teeth, f.Submit(None, parseAmount, idOf, urlOf)) == teeth
  {
    App.GeneralProcedureKeepsTeeth(teeth, f.Submit(None, parseAmount, idOf, urlOf));
  }
}
