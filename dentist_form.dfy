/** The add-dentist form's submit rule: a name that is blank after trimming
    blocks the save; otherwise every text field is trimmed and an optional
    field left blank is dropped. */
module DentistForm {
  import opened Types
  import opened Strings

  /** `s.trim() || undefined`: the trimmed text, or nothing when it is empty. */
  function Blankable(s: string): (r: Option<string>)
    ensures r.None? <==> forall i :: 0 <= i < |s| ==> IsSpace(s[i])
    ensures r.Some? ==> r.value == Trim(s) && r.value != []
  {
    var t := Trim(s);
    if t == [] then None else Some(t)
  }

  /** `handleSubmit`: None when the save is refused (nothing reaches the
      caller); otherwise the record handed to the caller. The specialty select
      is None for the empty choice and is passed through unchanged. The draft
      type has no `id` and no `isVerified` field, so the payload cannot carry them. */
  function Submit(name: string, clinicName: string, kind: Option<DentistType>,
                  phone: string, notes: string): (r: Option<DentistDraft>)
    ensures r.None? <==> Trim(name) == []
    ensures r.Some? ==> r.value.name == Trim(name) && r.value.name != []
    ensures r.Some? ==> r.value.clinicName == Blankable(clinicName)
    ensures r.Some? ==> r.value.phone == Blankable(phone)
    ensures r.Some? ==> r.value.notes == Blankable(notes)
    ensures r.Some? ==> r.value.kind == kind
  {
    if Trim(name) == [] then None
    else Some(DentistDraft(Trim(name), Blankable(clinicName), kind, Blankable(phone), Blankable(notes)))
  }

  /** The save button is disabled exactly when a submit would be refused. */
  predicate SubmitDisabled(name: string)
  {
    Trim(name) == []
  }

  lemma DisabledIffRefused(name: string, clinicName: string, kind: Option<DentistType>,
                           phone: string, notes: string)
    ensures SubmitDisabled(name) <==> Submit(name, clinicName, kind, phone, notes).None?
  {
  }

  /** A name made only of white space is refused, however the other fields are filled. */
  lemma BlankNameRefused(name: string, clinicName: string, kind: Option<DentistType>,
                         phone: string, notes: string)
    requires forall i :: 0 <= i < |name| ==> IsSpace(name[i])
    ensures Submit(name, clinicName, kind, phone, notes) == None
  {
  }

  /** Every specialty name is a non-empty string, so `type || undefined`
      keeps any chosen specialty. */
  lemma SpecialtyNamesNonEmpty(t: DentistType)
    ensures DentistTypeName(t) != ""
  {
  }

  /** Submitting what a submit produced yields the same record again: the
      normalisation is idempotent. */
  lemma {:induction false} SubmitIdempotent(name: string, clinicName: string, kind: Option<DentistType>,
                                            phone: string, notes: string)
    requires Submit(name, clinicName, kind, phone, notes).Some?
    ensures var d := Submit(name, clinicName, kind, phone, notes).value;
            Submit(d.name, Unblank(d.clinicName), d.kind, Unblank(d.phone), Unblank(d.notes)) == Some(d)
  {
    TrimIdempotent(name);
    TrimIdempotent(clinicName);
    TrimIdempotent(phone);
    TrimIdempotent(notes);
    var d := Submit(name, clinicName, kind, phone, notes).value;
    BlankableOfUnblank(d.clinicName, clinicName);
    BlankableOfUnblank(d.phone, phone);
    BlankableOfUnblank(d.notes, notes);
  }

  /** The text a stored optional field shows when the form is filled from it. */
  function Unblank(o: Option<string>): string
  {
    if o.Some? then o.value else ""
  }

  lemma BlankableOfUnblank(o: Option<string>, s: string)
    requires o == Blankable(s)
    ensures Blankable(Unblank(o)) == o
  {
    if o.Some? {
      TrimIdempotent(s);
    }
  }
}
