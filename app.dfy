/** The application shell: the treatment log, the tooth chart and the session
    flags, with the handlers that update them. */
module App {
  import opened Types
  import opened Constants

  /** The tooth status a saved treatment of kind `kind` writes to its tooth;
      None for the kinds that leave the chart alone. */
  function StatusAfter(kind: TreatmentType): (r: Option<ToothStatus>)
    ensures r.Some? <==> kind in {Extraction, RootCanal, TreatmentType.Crown, Filling, TreatmentType.Veneer}
    ensures r != Some(ToothStatus.Implant) && r != Some(Attention) && r != Some(Healthy)
  {
    match kind
    case Extraction => Some(Missing)
    case RootCanal => Some(Treated)
    case Crown => Some(ToothStatus.Crown)
    case Filling => Some(Filled)
    case Veneer => Some(ToothStatus.Veneer)
    case _ => None
  }

  /** The callback of `teeth.map` in the save handler: the tooth whose id equals
      the treatment's tooth takes the mapped status; every other tooth is kept. */
  function RewriteTooth(t: Tooth, d: TreatmentDraft): Tooth
  {
    if d.toothId == Some(t.id) && StatusAfter(d.kind).Some? then t.(status := StatusAfter(d.kind).value)
    else t
  }

  /** The chart after saving treatment `d`: rewritten only when `d.toothId` is truthy. */
  function UpdateTeeth(teeth: seq<Tooth>, d: TreatmentDraft): (r: seq<Tooth>)
    ensures |r| == |teeth|
    ensures forall i :: 0 <= i < |r| ==> r[i].id == teeth[i].id && r[i].labelText == teeth[i].labelText
  {
    if Truthy(d.toothId) then seq(|teeth|, i requires 0 <= i < |teeth| => RewriteTooth(teeth[i], d))
    else teeth
  }

  /** A tooth referenced by a treatment of a mapped kind takes exactly the mapped status. */
  lemma SaveSetsMappedStatus(teeth: seq<Tooth>, d: TreatmentDraft, i: int)
    requires 0 <= i < |teeth| && Truthy(d.toothId) && teeth[i].id == d.toothId.value
    requires StatusAfter(d.kind).Some?
    ensures UpdateTeeth(teeth, d)[i].status == StatusAfter(d.kind).value
    ensures d.kind == Extraction ==> UpdateTeeth(teeth, d)[i].status == Missing
    ensures d.kind == RootCanal ==> UpdateTeeth(teeth, d)[i].status == Treated
    ensures d.kind == TreatmentType.Crown ==> UpdateTeeth(teeth, d)[i].status == ToothStatus.Crown
    ensures d.kind == Filling ==> UpdateTeeth(teeth, d)[i].status == Filled
    ensures d.kind == TreatmentType.Veneer ==> UpdateTeeth(teeth, d)[i].status == ToothStatus.Veneer
  {
  }

  /** Every tooth whose id is not the treatment's tooth is left exactly as it was. */
  lemma SaveKeepsOtherTeeth(teeth: seq<Tooth>, d: TreatmentDraft, i: int)
    requires 0 <= i < |teeth| && d.toothId != Some(teeth[i].id)
    ensures UpdateTeeth(teeth, d)[i] == teeth[i]
  {
  }

  /** Implant, Braces, Hygiene, Checkup and Other never change the chart. */
  lemma UnmappedKindsKeepTeeth(teeth: seq<Tooth>, d: TreatmentDraft)
    requires d.kind in {TreatmentType.Implant, Braces, Hygiene, Checkup, TreatmentType.Other}
    ensures UpdateTeeth(teeth, d) == teeth
  {
  }

  /** A general procedure (null or 0 tooth reference) never changes the chart. */
  lemma GeneralProcedureKeepsTeeth(teeth: seq<Tooth>, d: TreatmentDraft)
    requires !Truthy(d.toothId)
    ensures UpdateTeeth(teeth, d) == teeth
  {
  }

  /** Saving the same treatment twice leaves the chart as saving it once. */
  lemma UpdateTeethIdempotent(teeth: seq<Tooth>, d: TreatmentDraft)
    ensures UpdateTeeth(UpdateTeeth(teeth, d), d) == UpdateTeeth(teeth, d)
  {
  }

  /** A chart with the ids and labels of the initial chart, in its order. */
  ghost predicate ChartShape(teeth: seq<Tooth>)
  {
    |teeth| == |InitialTeeth|
    && forall i :: 0 <= i < |teeth| ==>
         teeth[i].id == InitialTeeth[i].id && teeth[i].labelText == InitialTeeth[i].labelText
  }

  /** No tooth carries a status that no treatment writes (Implant, Needs Attention). */
  ghost predicate OnlyRecordedStatuses(teeth: seq<Tooth>)
  {
    forall i :: 0 <= i < |teeth| ==> teeth[i].status != ToothStatus.Implant && teeth[i].status != Attention
  }

  /** Saving any treatment keeps the chart's shape and never produces the
      Implant or Needs Attention status. */
  lemma UpdateTeethPreservesChart(teeth: seq<Tooth>, d: TreatmentDraft)
    requires ChartShape(teeth) && OnlyRecordedStatuses(teeth)
    ensures ChartShape(UpdateTeeth(teeth, d)) && OnlyRecordedStatuses(UpdateTeeth(teeth, d))
  {
  }

  lemma InitialChartValid()
    ensures ChartShape(InitialTeeth) && OnlyRecordedStatuses(InitialTeeth)
  {
    InitialTeethHealthyFdi();
  }

  /** `teeth.find(t => t.id === id) || null`: the first tooth with the given id. */
  function FindTooth(teeth: seq<Tooth>, id: Option<int>): (r: Option<Tooth>)
    ensures r.None? <==> id.None? || forall i :: 0 <= i < |teeth| ==> teeth[i].id != id.value
    ensures r.Some? ==> r.value in teeth && r.value.id == id.value
    ensures r.Some? ==> exists i :: 0 <= i < |teeth| && teeth[i] == r.value
                                    && forall j :: 0 <= j < i ==> teeth[j].id != id.value
  {
    if id.None? || teeth == [] then None
    else if teeth[0].id == id.value then Some(teeth[0])
    else
      var r := FindTooth(teeth[1..], id);
      if r.Some? then
        var k :| 0 <= k < |teeth[1..]| && teeth[1..][k] == r.value
                 && forall j :: 0 <= j < k ==> teeth[1..][j].id != id.value;
        assert teeth[k + 1] == r.value;
        r
      else r
  }

  /** On a chart of the initial shape, every FDI number finds its tooth. */
  lemma FindToothOnChart(teeth: seq<Tooth>, id: int)
    requires ChartShape(teeth) && id in FdiIds
    ensures FindTooth(teeth, Some(id)).Some? && FindTooth(teeth, Some(id)).value.id == id
  {
    InitialTeethIds();
    var i :| 0 <= i < |InitialTeeth| && InitialTeeth[i].id == id;
    assert teeth[i].id == id;
  }

  datatype View = MapView | TimelineView | ProfileView

  /** The signed-in user the authentication provider reports. */
  datatype User = User(id: string, email: string)

  const GuestProfile := UserProfile("Guest User", "", "O+", "", "")

  /** The state of the application component and its handlers. */
  class DentTrack {
    var session: Option<User>
    var isSyncing: bool
    var teeth: seq<Tooth>
    var treatments: seq<Treatment>
    var selectedToothId: Option<int>
    var view: View
    var isAddingTreatment: bool
    var profile: UserProfile

    /** The chart always has the initial chart's teeth in its order, and only
        statuses that some treatment writes (or Healthy). */
    ghost predicate Valid()
      reads this
    {
      ChartShape(teeth) && OnlyRecordedStatuses(teeth)
    }

    constructor ()
      ensures Valid()
      ensures session == None && !isSyncing
      ensures teeth == InitialTeeth && treatments == []
      ensures selectedToothId == None && view == MapView && !isAddingTreatment
      ensures profile == GuestProfile
    {
      session := None;
      isSyncing := false;
      teeth := InitialTeeth;
      treatments := [];
      selectedToothId := None;
      view := MapView;
      isAddingTreatment := false;
      profile := GuestProfile;
      InitialChartValid();
    }

    /** The tooth the chart currently has selected. */
    function SelectedTooth(): (r: Option<Tooth>)
      reads this
      ensures r.Some? ==> r.value in teeth && selectedToothId == Some(r.value.id)
    {
      FindTooth(teeth, selectedToothId)
    }

    /** Login, first step: the syncing indicator goes on while the sign-in runs. */
    method BeginLogin()
      modifies this
      ensures isSyncing
      ensures session == old(session) && teeth == old(teeth) && treatments == old(treatments)
      ensures selectedToothId == old(selectedToothId) && view == old(view)
      ensures isAddingTreatment == old(isAddingTreatment) && profile == old(profile)
    {
      isSyncing := true;
    }

    /** Login, second step: the session is set and the indicator goes off. */
    method CompleteLogin(user: User)
      modifies this
      ensures session == Some(user) && !isSyncing
      ensures teeth == old(teeth) && treatments == old(treatments)
      ensures selectedToothId == old(selectedToothId) && view == old(view)
      ensures isAddingTreatment == old(isAddingTreatment) && profile == old(profile)
    {
      session := Some(user);
      isSyncing := false;
    }

    /** The session effect, first step: with a session, syncing starts. */
    method SessionSyncStart()
      modifies this
      ensures isSyncing == (old(session).Some? || old(isSyncing))
      ensures session == old(session) && teeth == old(teeth) && treatments == old(treatments)
      ensures selectedToothId == old(selectedToothId) && view == old(view)
      ensures isAddingTreatment == old(isAddingTreatment) && profile == old(profile)
    {
      if session.Some? {
        isSyncing := true;
      }
    }

    /** The session effect, second step: syncing ends and the profile name is filled in. */
    method SessionSyncDone()
      modifies this
      ensures !isSyncing && profile == old(profile).(name := "Alex Doe")
      ensures session == old(session) && teeth == old(teeth) && treatments == old(treatments)
      ensures selectedToothId == old(selectedToothId) && view == old(view)
      ensures isAddingTreatment == old(isAddingTreatment)
    {
      isSyncing := false;
      profile := profile.(name := "Alex Doe");
    }

    /** Logout clears the session, shows the profile screen and keeps every record. */
    method Logout()
      modifies this
      ensures session == None && view == ProfileView
      ensures teeth == old(teeth) && treatments == old(treatments)
      ensures isSyncing == old(isSyncing) && selectedToothId == old(selectedToothId)
      ensures isAddingTreatment == old(isAddingTreatment) && profile == old(profile)
    {
      session := None;
      view := ProfileView;
    }

    /** A click on a tooth of the chart selects it and shows the chart. */
    method ToothClick(tooth: Tooth)
      modifies this
      ensures selectedToothId == Some(tooth.id) && !isAddingTreatment && view == MapView
      ensures session == old(session) && isSyncing == old(isSyncing)
      ensures teeth == old(teeth) && treatments == old(treatments) && profile == old(profile)
    {
      selectedToothId := Some(tooth.id);
      isAddingTreatment := false;
      view := MapView;
    }

    /** A click on a tooth badge of the journal shows that tooth on the chart. */
    method ShowToothFromJournal(id: int)
      modifies this
      ensures selectedToothId == Some(id) && view == MapView
      ensures isAddingTreatment == old(isAddingTreatment)
      ensures session == old(session) && isSyncing == old(isSyncing)
      ensures teeth == old(teeth) && treatments == old(treatments) && profile == old(profile)
    {
      view := MapView;
      selectedToothId := Some(id);
    }

    /** The navigation buttons. */
    method SetView(v: View)
      modifies this
      ensures view == v
      ensures selectedToothId == old(selectedToothId) && isAddingTreatment == old(isAddingTreatment)
      ensures session == old(session) && isSyncing == old(isSyncing)
      ensures teeth == old(teeth) && treatments == old(treatments) && profile == old(profile)
    {
      view := v;
    }

    /** Opening or closing the treatment dialog. */
    method SetAddingTreatment(open: bool)
      modifies this
      ensures isAddingTreatment == open
      ensures selectedToothId == old(selectedToothId) && view == old(view)
      ensures session == old(session) && isSyncing == old(isSyncing)
      ensures teeth == old(teeth) && treatments == old(treatments) && profile == old(profile)
    {
      isAddingTreatment := open;
    }

    /** Saving a treatment: the draft, stamped with `freshId`, goes to the front
        of the log, the dialog closes and the referenced tooth takes the status
        the treatment's kind maps to. `freshId` stands for the random id. */
    method SaveTreatment(data: TreatmentDraft, freshId: string)
      requires Valid()
      modifies this
      ensures Valid()
      ensures treatments == [Stamp(data, freshId)] + old(treatments)
      ensures teeth == UpdateTeeth(old(teeth), data)
      ensures !isAddingTreatment
      ensures session == old(session) && isSyncing == old(isSyncing)
      ensures selectedToothId == old(selectedToothId) && view == old(view) && profile == old(profile)
    {
      var newTreatment := Stamp(data, freshId);
      treatments := [newTreatment] + treatments;
      isAddingTreatment := false;
      if Truthy(data.toothId) {
        teeth := UpdateTeeth(teeth, data);
      }
      UpdateTeethPreservesChart(old(teeth), data);
    }
  }

  /** The saved log grows by one: the new record, equal to the draft plus its
      id, is first and the previous log follows unchanged. */
  lemma SavePrependsRecord(log: seq<Treatment>, d: TreatmentDraft, id: string)
    ensures |[Stamp(d, id)] + log| == |log| + 1
    ensures ([Stamp(d, id)] + log)[0].id == id && Unstamp(([Stamp(d, id)] + log)[0]) == d
    ensures ([Stamp(d, id)] + log)[1..] == log
  {
  }
}
