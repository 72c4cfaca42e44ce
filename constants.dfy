/** The literal tables of the application: the initial tooth chart and the
    colour classes of each tooth status. */
module Constants {
  import opened Types
  import opened Strings

  /** The initial chart: the 32 permanent teeth in FDI notation, all healthy,
      in chart order (upper right, upper left, lower left, lower right). */
  const InitialTeeth: seq<Tooth> := [
    // Upper right, 18 down to 11
    Tooth(18, "18", Healthy),
    Tooth(17, "17", Healthy),
    Tooth(16, "16", Healthy),
    Tooth(15, "15", Healthy),
    Tooth(14, "14", Healthy),
    Tooth(13, "13", Healthy),
    Tooth(12, "12", Healthy),
    Tooth(11, "11", Healthy),
    // Upper left, 21 to 28
    Tooth(21, "21", Healthy),
    Tooth(22, "22", Healthy),
    Tooth(23, "23", Healthy),
    Tooth(24, "24", Healthy),
    Tooth(25, "25", Healthy),
    Tooth(26, "26", Healthy),
    Tooth(27, "27", Healthy),
    Tooth(28, "28", Healthy),
    // Lower left, 31 to 38
    Tooth(31, "31", Healthy),
    Tooth(32, "32", Healthy),
    Tooth(33, "33", Healthy),
    Tooth(34, "34", Healthy),
    Tooth(35, "35", Healthy),
    Tooth(36, "36", Healthy),
    Tooth(37, "37", Healthy),
    Tooth(38, "38", Healthy),
    // Lower right, 41 to 48
    Tooth(41, "41", Healthy),
    Tooth(42, "42", Healthy),
    Tooth(43, "43", Healthy),
    Tooth(44, "44", Healthy),
    Tooth(45, "45", Healthy),
    Tooth(46, "46", Healthy),
    Tooth(47, "47", Healthy),
    Tooth(48, "48", Healthy)
  ]

  /** The FDI number at position `i` of the chart order. */
  function ChartOrderId(i: int): (id: int)
    requires 0 <= i < 32
    ensures IsFdi(id)
    ensures id / 10 == i / 8 + 1
  {
    if i < 8 then 18 - i
    else if i < 16 then 21 + (i - 8)
    else if i < 24 then 31 + (i - 16)
    else 41 + (i - 24)
  }

  /** The chart lists the teeth in chart order. */
  lemma InitialTeethOrder()
    ensures |InitialTeeth| == 32
    ensures forall i :: 0 <= i < 32 ==> InitialTeeth[i].id == ChartOrderId(i)
  {
  }

  lemma ChartOrderInjective(i: int, j: int)
    requires 0 <= i < 32 && 0 <= j < 32 && i != j
    ensures ChartOrderId(i) != ChartOrderId(j)
  {
  }

  lemma TwoDigitStr(n: int)
    requires 10 <= n < 100
    ensures NatStr(n) == [Digit(n / 10), Digit(n % 10)]
  {
  }

  lemma LabelsUpperRight()
    ensures forall i :: 0 <= i < 8 ==> InitialTeeth[i].labelText == NatStr(InitialTeeth[i].id)
  {
    forall i | 0 <= i < 8 ensures InitialTeeth[i].labelText == NatStr(InitialTeeth[i].id) {
      TwoDigitStr(InitialTeeth[i].id);
    }
  }

  lemma LabelsUpperLeft()
    ensures forall i :: 8 <= i < 16 ==> InitialTeeth[i].labelText == NatStr(InitialTeeth[i].id)
  {
    forall i | 8 <= i < 16 ensures InitialTeeth[i].labelText == NatStr(InitialTeeth[i].id) {
      TwoDigitStr(InitialTeeth[i].id);
    }
  }

  lemma LabelsLowerLeft()
    ensures forall i :: 16 <= i < 24 ==> InitialTeeth[i].labelText == NatStr(InitialTeeth[i].id)
  {
    forall i | 16 <= i < 24 ensures InitialTeeth[i].labelText == NatStr(InitialTeeth[i].id) {
      TwoDigitStr(InitialTeeth[i].id);
    }
  }

  lemma LabelsLowerRight()
    ensures forall i :: 24 <= i < 32 ==> InitialTeeth[i].labelText == NatStr(InitialTeeth[i].id)
  {
    forall i | 24 <= i < 32 ensures InitialTeeth[i].labelText == NatStr(InitialTeeth[i].id) {
      TwoDigitStr(InitialTeeth[i].id);
    }
  }

  /** Every tooth of the initial chart is healthy and carries an FDI number. */
  lemma InitialTeethHealthyFdi()
    ensures |InitialTeeth| == 32
    ensures forall i :: 0 <= i < |InitialTeeth| ==> InitialTeeth[i].status == Healthy
    ensures forall i :: 0 <= i < |InitialTeeth| ==> IsFdi(InitialTeeth[i].id)
  {
    InitialTeethOrder();
  }

  /** Each tooth of the initial chart is labelled by its number in decimal. */
  lemma InitialTeethLabels()
    ensures forall i :: 0 <= i < |InitialTeeth| ==> InitialTeeth[i].labelText == NatStr(InitialTeeth[i].id)
  {
    LabelsUpperRight();
    LabelsUpperLeft();
    LabelsLowerLeft();
    LabelsLowerRight();
  }

  /** The ids of the initial chart are pairwise distinct. */
  lemma InitialTeethDistinct()
    ensures forall i, j :: 0 <= i < j < |InitialTeeth| ==> InitialTeeth[i].id != InitialTeeth[j].id
  {
    InitialTeethOrder();
    forall i, j | 0 <= i < j < 32 ensures InitialTeeth[i].id != InitialTeeth[j].id {
      ChartOrderInjective(i, j);
    }
  }

  /** The position of FDI number `id` in the chart order. */
  lemma ChartPositionOf(id: int) returns (i: int)
    requires id in FdiIds
    ensures 0 <= i < 32 && ChartOrderId(i) == id
  {
    IsFdiExactly(id);
    i := (id / 10 - 1) * 8 + (if id / 10 == 1 then 8 - id % 10 else id % 10 - 1);
  }

  /** The ids of the initial chart are exactly the 32 FDI numbers. */
  lemma InitialTeethIds()
    ensures forall i :: 0 <= i < |InitialTeeth| ==> InitialTeeth[i].id in FdiIds
    ensures forall id :: id in FdiIds ==> exists i :: 0 <= i < |InitialTeeth| && InitialTeeth[i].id == id
  {
    InitialTeethOrder();
    forall i | 0 <= i < 32 ensures InitialTeeth[i].id in FdiIds {
      IsFdiExactly(ChartOrderId(i));
    }
    forall id | id in FdiIds ensures exists i :: 0 <= i < 32 && InitialTeeth[i].id == id {
      var i := ChartPositionOf(id);
      assert InitialTeeth[i].id == id;
    }
  }

  /** `STATUS_COLORS`: the badge classes of each status (total over the enumeration). */
  function StatusColor(s: ToothStatus): string
  {
    match s
    case Healthy => "bg-white border-slate-300 text-slate-700"
    case Filled => "bg-blue-100 border-blue-500 text-blue-800"
    case Treated => "bg-red-50 border-red-400 text-red-800"
    case Crown => "bg-yellow-50 border-yellow-500 text-yellow-800"
    case Veneer => "bg-purple-50 border-purple-400 text-purple-800"
    case Missing => "bg-slate-100 border-slate-200 text-slate-300 opacity-60 dashed-border"
    case Implant => "bg-gray-200 border-gray-600 text-gray-900"
    case Attention => "bg-orange-100 border-orange-500 text-orange-800 ring-2 ring-orange-200"
  }
}
