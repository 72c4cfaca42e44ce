/** The domain records and closed enumerations shared by every screen of the
    application: tooth statuses, treatment kinds, dentist specialties, and the
    Treatment, Tooth, Dentist, Attachment and UserProfile records. */
module Types {

  datatype Option<T> = None | Some(value: T)

  /** The status shown for one tooth of the chart. */
  datatype ToothStatus =
    | Healthy | Filled | Treated | Crown | Veneer | Missing | Implant | Attention

  /** The string value of each status, as stored and compared. */
  function StatusName(s: ToothStatus): string
  {
    match s
    case Healthy => "Healthy"
    case Filled => "Filled"
    case Treated => "Root Canal"
    case Crown => "Crown"
    case Veneer => "Veneer"
    case Missing => "Missing"
    case Implant => "Implant"
    case Attention => "Needs Attention"
  }

  /** The enumeration in declaration order (what `Object.values` lists). */
  function ToothStatusValues(): (r: seq<ToothStatus>)
    ensures |r| == 8
    ensures forall s: ToothStatus :: s in r
    ensures forall i, j :: 0 <= i < j < |r| ==> r[i] != r[j]
  {
    var r := [Healthy, Filled, Treated, ToothStatus.Crown, ToothStatus.Veneer, Missing, ToothStatus.Implant, Attention];
    assert forall v: ToothStatus :: v in r by {
      forall v: ToothStatus ensures v in r {
        assert v.Healthy? || v.Filled? || v.Treated? || v.Crown? || v.Veneer? || v.Missing? || v.Implant? || v.Attention?;
      }
    }
    r
  }

  lemma StatusNameInjective(a: ToothStatus, b: ToothStatus)
    requires StatusName(a) == StatusName(b)
    ensures a == b
  {
  }

  /** The kind of a recorded procedure. */
  datatype TreatmentType =
    | Filling | RootCanal | Crown | Extraction | Veneer | Implant
    | Braces | Hygiene | Checkup | Other

  function TreatmentTypeName(t: TreatmentType): string
  {
    match t
    case Filling => "Filling"
    case RootCanal => "Root Canal"
    case Crown => "Crown"
    case Extraction => "Extraction"
    case Veneer => "Veneer"
    case Implant => "Implant"
    case Braces => "Braces/Mouthguard"
    case Hygiene => "Hygiene/Cleaning"
    case Checkup => "Checkup"
    case Other => "Other"
  }

  function TreatmentTypeValues(): (r: seq<TreatmentType>)
    ensures |r| == 10
    ensures forall t: TreatmentType :: t in r
    ensures forall i, j :: 0 <= i < j < |r| ==> r[i] != r[j]
  {
    var r := [Filling, RootCanal, TreatmentType.Crown, Extraction, TreatmentType.Veneer, TreatmentType.Implant,
              Braces, Hygiene, Checkup, TreatmentType.Other];
    assert forall v: TreatmentType :: v in r by {
      forall v: TreatmentType ensures v in r {
        assert v.Filling? || v.RootCanal? || v.Crown? || v.Extraction? || v.Veneer? || v.Implant?
          || v.Braces? || v.Hygiene? || v.Checkup? || v.Other?;
      }
    }
    r
  }

  lemma TreatmentTypeNameInjective(a: TreatmentType, b: TreatmentType)
    requires TreatmentTypeName(a) == TreatmentTypeName(b)
    ensures a == b
  {
  }

  /** The root-canal status and the root-canal treatment carry the same string. */
  lemma RootCanalSharesName()
    ensures StatusName(Treated) == TreatmentTypeName(RootCanal) == "Root Canal"
  {
  }

  /** A dentist's specialty. */
  datatype DentistType =
    | General | Surgeon | Endodontist | Orthodontist | Periodontist
    | Pediatric | Prosthodontist | Other

  function DentistTypeName(t: DentistType): string
  {
    match t
    case General => "General Dentist"
    case Surgeon => "Oral Surgeon"
    case Endodontist => "Endodontist"
    case Orthodontist => "Orthodontist"
    case Periodontist => "Periodontist"
    case Pediatric => "Pediatric Dentist"
    case Prosthodontist => "Prosthodontist"
    case Other => "Other"
  }

  function DentistTypeValues(): (r: seq<DentistType>)
    ensures |r| == 8
    ensures forall t: DentistType :: t in r
    ensures forall i, j :: 0 <= i < j < |r| ==> r[i] != r[j]
  {
    var r := [General, Surgeon, Endodontist, Orthodontist, Periodontist, Pediatric, Prosthodontist, DentistType.Other];
    assert forall v: DentistType :: v in r by {
      forall v: DentistType ensures v in r {
        assert v.General? || v.Surgeon? || v.Endodontist? || v.Orthodontist? || v.Periodontist?
          || v.Pediatric? || v.Prosthodontist? || v.Other?;
      }
    }
    r
  }

  lemma DentistTypeNameInjective(a: DentistType, b: DentistType)
    requires DentistTypeName(a) == DentistTypeName(b)
    ensures a == b
  {
  }

  /** An FDI tooth number: quadrant digit 1-4, position digit 1-8. */
  predicate IsFdi(id: int)
  {
    1 <= id / 10 <= 4 && 1 <= id % 10 <= 8
  }

  /** The 32 FDI numbers 11-18, 21-28, 31-38, 41-48. */
  const FdiIds: set<int> :=
    {11, 12, 13, 14, 15, 16, 17, 18, 21, 22, 23, 24, 25, 26, 27, 28,
     31, 32, 33, 34, 35, 36, 37, 38, 41, 42, 43, 44, 45, 46, 47, 48}

  lemma IsFdiExactly(id: int)
    ensures IsFdi(id) <==> id in FdiIds
  {
    if IsFdi(id) {
      assert 10 <= id < 50;
    }
  }

  datatype Attachment = Attachment(id: string, name: string, url: string)

  /** A recorded procedure. `toothId` None is a general procedure; `cost` is a
      whole amount in `currency`. `kind` is the source's `type` field. */
  datatype Treatment = Treatment(
    id: string,
    toothId: Option<int>,
    kind: TreatmentType,
    date: string,
    notes: string,
    cost: Option<int>,
    currency: string,
    warrantyUntil: Option<string>,
    attachments: seq<Attachment>,
    dentistId: Option<string>)

  /** A treatment before it is given an identifier (`Omit<Treatment, 'id'>`). */
  datatype TreatmentDraft = TreatmentDraft(
    toothId: Option<int>,
    kind: TreatmentType,
    date: string,
    notes: string,
    cost: Option<int>,
    currency: string,
    warrantyUntil: Option<string>,
    attachments: seq<Attachment>,
    dentistId: Option<string>)

  /** `{ ...data, id }`: the draft's fields plus an identifier. */
  function Stamp(d: TreatmentDraft, id: string): (t: Treatment)
    ensures t.id == id && Unstamp(t) == d
  {
    Treatment(id, d.toothId, d.kind, d.date, d.notes, d.cost, d.currency,
              d.warrantyUntil, d.attachments, d.dentistId)
  }

  /** A treatment's fields other than its identifier. */
  function Unstamp(t: Treatment): TreatmentDraft
  {
    TreatmentDraft(t.toothId, t.kind, t.date, t.notes, t.cost, t.currency,
                   t.warrantyUntil, t.attachments, t.dentistId)
  }

  lemma StampUnstamp(t: Treatment)
    ensures Stamp(Unstamp(t), t.id) == t
  {
  }

  /** JavaScript truthiness of an optional number: null and 0 are falsy. */
  predicate Truthy(n: Option<int>)
  {
    n.Some? && n.value != 0
  }

  /** `labelText` is the source's `label` field (a Dafny keyword). */
  datatype Tooth = Tooth(id: int, labelText: string, status: ToothStatus)

  datatype Dentist = Dentist(
    id: string,
    name: string,
    clinicName: Option<string>,
    kind: Option<DentistType>,
    phone: Option<string>,
    notes: Option<string>,
    isVerified: bool)

  /** A dentist before it is stored (`Omit<Dentist, 'id' | 'isVerified'>`). */
  datatype DentistDraft = DentistDraft(
    name: string,
    clinicName: Option<string>,
    kind: Option<DentistType>,
    phone: Option<string>,
    notes: Option<string>)

  datatype UserProfile = UserProfile(
    name: string, dob: string, bloodType: string, allergies: string, medicalNotes: string)
}
