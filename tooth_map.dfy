/** The tooth chart's classification and styling rules: the anatomical type of
    a tooth from its position digit, its drawing scale, its indicator, the
    classes of its outline and label, and which jaw it is drawn in. */
module ToothMap {
  import opened Types

  datatype ToothType = Incisor | Canine | Premolar | Molar

  /** JavaScript's `a % b` for b > 0: the remainder has the sign of `a`. */
  function JsRem(a: int, b: int): (r: int)
    requires b > 0
    ensures a >= 0 ==> r == a % b
    ensures -b < r < b && (a < 0 ==> r <= 0)
    ensures (a - r) % b == 0
  {
    if a >= 0 then
      MultipleRem(b, a / b);
      a % b
    else
      NegativeRemainder(a, b);
      -((-a) % b)
  }

  /** A multiple of `b` leaves no remainder. */
  lemma MultipleRem(b: int, k: int)
    requires b > 0
    ensures (b * k) % b == 0
  {
    var q, rem := (b * k) / b, (b * k) % b;
    assert b * (k - q) == rem by {
      assert b * k == b * q + rem;
      assert b * (k - q) == b * k - b * q;
    }
    assert k - q >= 1 ==> b * (k - q) >= b * 1;
    assert k - q <= -1 ==> b * (k - q) <= b * -1;
  }

  /** For a negative dividend, JavaScript's remainder differs from `a` by a multiple of `b`. */
  lemma NegativeRemainder(a: int, b: int)
    requires a < 0 && b > 0
    ensures (a + (-a) % b) % b == 0
  {
    var q := (-a) / b;
    assert a + (-a) % b == b * -q by {
      assert -a == b * q + (-a) % b;
      assert b * -q == -(b * q);
    }
    MultipleRem(b, -q);
  }

  /** `getToothType`: the type from the last decimal digit of the tooth number. */
  function GetToothType(id: int): ToothType
  {
    var n := JsRem(id, 10);
    if n == 1 || n == 2 then Incisor
    else if n == 3 then Canine
    else if n == 4 || n == 5 then Premolar
    else Molar
  }

  /** On an FDI tooth the position digit decides the type: 1-2 incisor,
      3 canine, 4-5 premolar, 6-8 molar, the same in all four quadrants. */
  lemma ToothTypeByPosition(id: int)
    requires IsFdi(id)
    ensures id % 10 in {1, 2} <==> GetToothType(id) == Incisor
    ensures id % 10 == 3 <==> GetToothType(id) == Canine
    ensures id % 10 in {4, 5} <==> GetToothType(id) == Premolar
    ensures id % 10 in {6, 7, 8} <==> GetToothType(id) == Molar
  {
  }

  /** Negative numbers are taken as molars, whatever their last digit. */
  lemma NegativeIdsAreMolars(id: int)
    requires id < 0 && id % 10 != 0
    ensures GetToothType(id) == Molar
  {
  }

  /** `getToothScale`, in hundredths (1, 1.1, 1.25, 1.5). */
  function ScaleHundredths(t: ToothType): (s: int)
    ensures 100 <= s <= 150
  {
    match t
    case Incisor => 100
    case Canine => 110
    case Premolar => 125
    case Molar => 150
  }

  /** The anatomical order from the midline backwards. */
  function TypeRank(t: ToothType): (r: nat)
    ensures r < 4
  {
    match t
    case Incisor => 0
    case Canine => 1
    case Premolar => 2
    case Molar => 3
  }

  /** The scale grows strictly from incisor to canine to premolar to molar. */
  lemma ScaleStrictlyIncreasing(a: ToothType, b: ToothType)
    ensures TypeRank(a) < TypeRank(b) <==> ScaleHundredths(a) < ScaleHundredths(b)
  {
  }

  /** Within a quadrant, a tooth further from the midline is never drawn smaller. */
  lemma ScaleGrowsBackwards(a: int, b: int)
    requires IsFdi(a) && IsFdi(b) && a % 10 <= b % 10
    ensures ScaleHundredths(GetToothType(a)) <= ScaleHundredths(GetToothType(b))
  {
  }

  /** The anatomical marks drawn inside a tooth. */
  datatype Indicator = IncisalEdge | CanineTip | PremolarCusps | MolarCusps

  /** `ToothIndicator`: nothing for a missing tooth, otherwise the mark of its type. */
  function ToothIndicator(t: ToothType, status: ToothStatus): (r: Option<Indicator>)
    ensures r.None? <==> status == Missing
  {
    if status == Missing then None
    else match t
      case Incisor => Some(IncisalEdge)
      case Canine => Some(CanineTip)
      case Premolar => Some(PremolarCusps)
      case Molar => Some(MolarCusps)
  }

  /** On a tooth that is not missing, different types get different marks. */
  lemma IndicatorTellsTypesApart(a: ToothType, b: ToothType, status: ToothStatus)
    requires status != Missing && a != b
    ensures ToothIndicator(a, status) != ToothIndicator(b, status)
  {
  }

  /** The classes `getToothStyle` composes, kept apart: the fill of the outline,
      the fill of the number label and the stroke. */
  datatype ToothStyle = ToothStyle(fill: string, textFill: string, stroke: string)

  const Base := "transition-all duration-300 cursor-pointer hover:opacity-90"
  const SelectedStroke := "stroke-dental-600 stroke-[3]"
  const PlainStroke := "stroke-slate-300 stroke-[1.5]"
  const SelectedFill := "fill-dental-50"

  /** The outline fill and label fill of each status when not selected. */
  function StatusFill(status: ToothStatus): (string, string)
  {
    match status
    case Healthy => ("fill-white", "fill-slate-400")
    case Filled => ("fill-blue-50", "fill-blue-600")
    case Treated => ("fill-red-50", "fill-red-700")
    case Crown => ("fill-yellow-50", "fill-yellow-700")
    case Veneer => ("fill-purple-50", "fill-purple-700")
    case Missing => ("fill-slate-100", "fill-slate-300")
    case Implant => ("fill-gray-200", "fill-gray-700")
    case Attention => ("fill-orange-100", "fill-orange-700")
  }

  /** `getToothStyle`: the stroke follows the selection alone, the selection
      overrides the fill for every status, the label fill follows the status alone. */
  function GetToothStyle(status: ToothStatus, isSelected: bool): (r: ToothStyle)
    ensures r.stroke == if isSelected then SelectedStroke else PlainStroke
    ensures isSelected ==> r.fill == SelectedFill
    ensures !isSelected ==> r.fill == StatusFill(status).0
    ensures r.textFill == StatusFill(status).1
  {
    var (fill, textFill) := StatusFill(status);
    ToothStyle(if isSelected then SelectedFill else fill, textFill,
               if isSelected then SelectedStroke else PlainStroke)
  }

  /** The class string `getToothStyle` returns for the outline. */
  function ClassName(s: ToothStyle): string
  {
    Base + " " + s.fill + " " + s.stroke
  }

  /** Unselected, the eight statuses get eight different fills, none of them the selection fill. */
  lemma FillsDistinct(a: ToothStatus, b: ToothStatus)
    requires a != b
    ensures GetToothStyle(a, false).fill != GetToothStyle(b, false).fill
    ensures GetToothStyle(a, false).fill != SelectedFill
  {
    match a {
      case Healthy => case Filled => case Treated => case Crown =>
      case Veneer => case Missing => case Implant => case Attention =>
    }
  }

  /** The outline of a missing tooth: its fill becomes transparent and an
      unselected stroke becomes dashed and faint (the two `replace` calls;
      only the fill and the stroke contain the replaced text). */
  function FinalStyle(status: ToothStatus, isSelected: bool): (r: ToothStyle)
    ensures status != Missing ==> r == GetToothStyle(status, isSelected)
    ensures status == Missing && !isSelected ==>
      r.fill == "fill-transparent" && r.stroke == PlainStroke + " stroke-dashed opacity-30"
    ensures status == Missing && isSelected ==> r == GetToothStyle(status, isSelected)
    ensures r.textFill == GetToothStyle(status, isSelected).textFill
  {
    var s := GetToothStyle(status, isSelected);
    if status == Missing then
      s.(fill := if s.fill == "fill-slate-100" then "fill-transparent" else s.fill,
         stroke := if s.stroke == PlainStroke then PlainStroke + " stroke-dashed opacity-30" else s.stroke)
    else s
  }

  /** The teeth of the lower jaw are drawn flipped vertically. */
  predicate IsLower(id: int)
  {
    31 <= id <= 48
  }

  function VerticalScale(id: int): (v: int)
    ensures v == -1 || v == 1
    ensures v == -1 <==> IsLower(id)
  {
    if IsLower(id) then -1 else 1
  }

  /** On FDI numbers, the lower jaw is exactly quadrants 3 and 4. */
  lemma LowerJawIsQuadrants3And4(id: int)
    requires IsFdi(id)
    ensures IsLower(id) <==> id / 10 in {3, 4}
  {
  }

  /** The arcs the chart is drawn on, from left to right. */
  const UpperTeeth: seq<int> := [18, 17, 16, 15, 14, 13, 12, 11, 21, 22, 23, 24, 25, 26, 27, 28]
  const LowerTeeth: seq<int> := [48, 47, 46, 45, 44, 43, 42, 41, 31, 32, 33, 34, 35, 36, 37, 38]

  function UpperArcId(i: int): int
    requires 0 <= i < 16
  {
    if i < 8 then 18 - i else 21 + (i - 8)
  }

  function LowerArcId(i: int): int
    requires 0 <= i < 16
  {
    if i < 8 then 48 - i else 31 + (i - 8)
  }

  lemma ArcLayout()
    ensures |UpperTeeth| == 16 && |LowerTeeth| == 16
    ensures forall i :: 0 <= i < 16 ==> UpperTeeth[i] == UpperArcId(i) && LowerTeeth[i] == LowerArcId(i)
  {
  }

  /** Each arc holds 16 distinct teeth of its own jaw, and no tooth is on both arcs. */
  lemma ArcsSeparate()
    ensures |UpperTeeth| == 16 && |LowerTeeth| == 16
    ensures forall i, j :: 0 <= i < j < 16 ==> UpperTeeth[i] != UpperTeeth[j] && LowerTeeth[i] != LowerTeeth[j]
    ensures forall i :: 0 <= i < 16 ==> IsFdi(UpperTeeth[i]) && !IsLower(UpperTeeth[i])
    ensures forall i :: 0 <= i < 16 ==> IsFdi(LowerTeeth[i]) && IsLower(LowerTeeth[i])
    ensures forall i, j :: 0 <= i < 16 && 0 <= j < 16 ==> UpperTeeth[i] != LowerTeeth[j]
  {
    ArcLayout();
  }

  /** Every FDI tooth is on one of the arcs. */
  lemma ArcsCoverFdi(id: int)
    requires IsFdi(id)
    ensures id in UpperTeeth || id in LowerTeeth
  {
    ArcLayout();
    var q, p := id / 10, id % 10;
    if q == 1 { assert UpperTeeth[8 - p] == id; }
    else if q == 2 { assert UpperTeeth[7 + p] == id; }
    else if q == 4 { assert LowerTeeth[8 - p] == id; }
    else { assert LowerTeeth[7 + p] == id; }
  }

  /** The two arcs have 16 distinct teeth each, all upper teeth above and all
      lower teeth below, no tooth on both, and together they hold every FDI tooth. */
  lemma ArcsPartitionTeeth()
    ensures |UpperTeeth| == 16 && |LowerTeeth| == 16
    ensures forall i, j :: 0 <= i < j < 16 ==> UpperTeeth[i] != UpperTeeth[j] && LowerTeeth[i] != LowerTeeth[j]
    ensures forall i :: 0 <= i < 16 ==> IsFdi(UpperTeeth[i]) && !IsLower(UpperTeeth[i])
    ensures forall i :: 0 <= i < 16 ==> IsFdi(LowerTeeth[i]) && IsLower(LowerTeeth[i])
    ensures forall i, j :: 0 <= i < 16 && 0 <= j < 16 ==> UpperTeeth[i] != LowerTeeth[j]
    ensures forall id :: IsFdi(id) ==> id in UpperTeeth || id in LowerTeeth
  {
    ArcsSeparate();
    forall id | IsFdi(id) ensures id in UpperTeeth || id in LowerTeeth {
      ArcsCoverFdi(id);
    }
  }

  /** A tooth is drawn only when it has a position on one of the arcs. */
  predicate HasPosition(id: int)
  {
    id in UpperTeeth || id in LowerTeeth
  }

  lemma HasPositionExactlyFdi(id: int)
    ensures HasPosition(id) <==> IsFdi(id)
  {
    ArcsPartitionTeeth();
  }

  /** One entry of the legend under the chart. */
  datatype LegendEntry = LegendEntry(caption: string, className: string)

  const Legend: seq<LegendEntry> := [
    LegendEntry("Healthy", "bg-white border border-slate-300"),
    LegendEntry("Filled", "bg-blue-50 border border-blue-200"),
    LegendEntry("Root Canal", "bg-red-50 border border-red-200"),
    LegendEntry("Crown", "bg-yellow-50 border border-yellow-200"),
    LegendEntry("Veneer", "bg-purple-50 border border-purple-200"),
    LegendEntry("Missing", "bg-slate-100 border border-slate-300 border-dashed"),
    LegendEntry("Implant", "bg-gray-200 border border-gray-400"),
    LegendEntry("Attention", "bg-orange-100 border border-orange-200")
  ]

  /** One legend entry per status, in the enumeration's order; the entries
      carry the status names, except that Needs Attention is captioned "Attention". */
  lemma LegendCoversStatuses()
    ensures |Legend| == |ToothStatusValues()| == 8
    ensures forall i :: 0 <= i < 7 ==> Legend[i].caption == StatusName(ToothStatusValues()[i])
    ensures ToothStatusValues()[7] == Attention && Legend[7].caption == "Attention"
  {
  }

  /** What the chart draws for one tooth. */
  datatype ToothView = ToothView(
    kind: ToothType,
    scale: int,
    verticalScale: int,
    style: ToothStyle,
    indicator: Option<Indicator>,
    rootCanalDot: bool,
    caption: string)

  /** The drawing of one tooth, or nothing for a tooth without a position. */
  function RenderTooth(t: Tooth, selectedToothId: Option<int>): (r: Option<ToothView>)
    ensures r.None? <==> !HasPosition(t.id)
    ensures r.Some? ==> r.value.kind == GetToothType(t.id) && r.value.scale == ScaleHundredths(r.value.kind)
    ensures r.Some? ==> r.value.indicator == ToothIndicator(GetToothType(t.id), t.status)
    ensures r.Some? ==> r.value.style == FinalStyle(t.status, selectedToothId == Some(t.id))
    ensures r.Some? ==> (r.value.indicator.None? <==> t.status == Missing)
    ensures r.Some? ==> (r.value.rootCanalDot <==> t.status == Treated)
    ensures r.Some? ==> (r.value.verticalScale == -1 <==> IsLower(t.id))
    ensures r.Some? ==> r.value.caption == t.labelText
  {
    if !HasPosition(t.id) then None
    else
      var kind := GetToothType(t.id);
      Some(ToothView(kind, ScaleHundredths(kind), VerticalScale(t.id),
                     FinalStyle(t.status, selectedToothId == Some(t.id)),
                     ToothIndicator(kind, t.status), t.status == Treated, t.labelText))
  }
}
