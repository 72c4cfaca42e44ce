/** The treatment journal: a copy of the log sorted newest first (a stable
    sort on the treatment date), shown as one card per treatment, or an empty
    state when nothing is recorded. */
module Timeline {
  import opened Types
  import opened Strings

  /** The order the journal shows: dates never increase along the list.
      `timeOf` is the instant a date string denotes (`new Date(d).getTime()`). */
  ghost predicate NewestFirst(s: seq<Treatment>, timeOf: string -> int)
  {
    forall i, j :: 0 <= i < j < |s| ==> timeOf(s[i].date) >= timeOf(s[j].date)
  }

  /** A newer-or-equal head before a list ordered newest first keeps the order. */
  lemma ConsNewestFirst(h: Treatment, rest: seq<Treatment>, timeOf: string -> int)
    requires NewestFirst(rest, timeOf)
    requires forall x :: x in rest ==> timeOf(x.date) <= timeOf(h.date)
    ensures NewestFirst([h] + rest, timeOf)
  {
    var r := [h] + rest;
    forall i, j | 0 <= i < j < |r| ensures timeOf(r[i].date) >= timeOf(r[j].date) {
      assert r[j] == rest[j - 1];
      if i > 0 {
        assert r[i] == rest[i - 1];
      }
    }
  }

  /** Placing `t` ahead of a list whose head is not newer keeps the order. */
  lemma AheadKeepsOrder(t: Treatment, s: seq<Treatment>, timeOf: string -> int)
    requires s == [] || timeOf(s[0].date) <= timeOf(t.date)
    ensures NewestFirst(s, timeOf) ==> NewestFirst([t] + s, timeOf)
  {
    if NewestFirst(s, timeOf) {
      forall x | x in s ensures timeOf(x.date) <= timeOf(t.date) {
        var k :| 0 <= k < |s| && s[k] == x;
        assert k == 0 || timeOf(s[0].date) >= timeOf(s[k].date);
      }
      ConsNewestFirst(t, s, timeOf);
    }
  }

  /** Keeping a strictly newer head in front of the ordered insertion into
      the tail keeps the order. */
  lemma PastHeadKeepsOrder(t: Treatment, s: seq<Treatment>, rest: seq<Treatment>, timeOf: string -> int)
    requires s != [] && timeOf(s[0].date) > timeOf(t.date)
    requires multiset(rest) == multiset(s[1..]) + multiset{t}
    requires NewestFirst(s[1..], timeOf) ==> NewestFirst(rest, timeOf)
    ensures NewestFirst(s, timeOf) ==> NewestFirst([s[0]] + rest, timeOf)
  {
    if NewestFirst(s, timeOf) {
      forall x | x in rest ensures timeOf(x.date) <= timeOf(s[0].date) {
        assert x in multiset(rest);
        if x != t {
          assert x in multiset(s[1..]);
          var k :| 0 <= k < |s[1..]| && s[1..][k] == x;
          assert s[k + 1] == x;
        }
      }
      assert NewestFirst(s[1..], timeOf);
      ConsNewestFirst(s[0], rest, timeOf);
    }
  }

  /** Places `t` in a list ordered newest first, before the first treatment
      that is not strictly newer, so that it stays ahead of its equals. */
  function Insert(t: Treatment, s: seq<Treatment>, timeOf: string -> int): (r: seq<Treatment>)
    ensures |r| == |s| + 1
    ensures multiset(r) == multiset(s) + multiset{t}
    ensures NewestFirst(s, timeOf) ==> NewestFirst(r, timeOf)
  {
    if s == [] || timeOf(s[0].date) <= timeOf(t.date) then
      AheadKeepsOrder(t, s, timeOf);
      [t] + s
    else
      var rest := Insert(t, s[1..], timeOf);
      assert s == [s[0]] + s[1..];
      PastHeadKeepsOrder(t, s, rest, timeOf);
      [s[0]] + rest
  }

  /** `[...treatments].sort((a, b) => time(b) - time(a))`: a new list with the
      same treatments, newest first; the input list is a value and is not touched. */
  function SortNewestFirst(ts: seq<Treatment>, timeOf: string -> int): (r: seq<Treatment>)
    ensures |r| == |ts|
    ensures multiset(r) == multiset(ts)
    ensures NewestFirst(r, timeOf)
  {
    if ts == [] then []
    else
      assert ts == [ts[0]] + ts[1..];
      Insert(ts[0], SortNewestFirst(ts[1..], timeOf), timeOf)
  }

  /** The treatments of `s` whose date denotes instant `k`, in their order in `s`. */
  function WithTime(s: seq<Treatment>, k: int, timeOf: string -> int): seq<Treatment>
  {
    if s == [] then []
    else (if timeOf(s[0].date) == k then [s[0]] else []) + WithTime(s[1..], k, timeOf)
  }

  lemma WithTimeCons(h: Treatment, rest: seq<Treatment>, k: int, timeOf: string -> int)
    ensures WithTime([h] + rest, k, timeOf)
            == (if timeOf(h.date) == k then [h] else []) + WithTime(rest, k, timeOf)
  {
    assert ([h] + rest)[1..] == rest;
  }

  /** Past a strictly newer head, insertion goes on in the tail. */
  lemma InsertPastHead(t: Treatment, s: seq<Treatment>, timeOf: string -> int)
    requires s != [] && timeOf(s[0].date) > timeOf(t.date)
    ensures Insert(t, s, timeOf) == [s[0]] + Insert(t, s[1..], timeOf)
  {
  }

  /** Two heads of which at most one is present may be swapped. */
  lemma SwapHeads(hs: seq<Treatment>, ht: seq<Treatment>, w: seq<Treatment>)
    requires hs == [] || ht == []
    ensures hs + (ht + w) == ht + (hs + w)
  {
    if hs == [] {
      assert hs + (ht + w) == ht + w == ht + (hs + w);
    } else {
      assert hs + (ht + w) == hs + w == ht + (hs + w);
    }
  }

  lemma {:induction false} InsertKeepsEqualsInOrder(t: Treatment, s: seq<Treatment>, k: int, timeOf: string -> int)
    ensures WithTime(Insert(t, s, timeOf), k, timeOf)
            == (if timeOf(t.date) == k then [t] else []) + WithTime(s, k, timeOf)
  {
    if s == [] || timeOf(s[0].date) <= timeOf(t.date) {
      WithTimeCons(t, s, k, timeOf);
    } else {
      var rest := Insert(t, s[1..], timeOf);
      var ht := if timeOf(t.date) == k then [t] else [];
      var hs := if timeOf(s[0].date) == k then [s[0]] else [];
      InsertPastHead(t, s, timeOf);
      WithTimeCons(s[0], rest, k, timeOf);
      InsertKeepsEqualsInOrder(t, s[1..], k, timeOf);
      WithTimeCons(s[0], s[1..], k, timeOf);
      assert [s[0]] + s[1..] == s;
      SwapHeads(hs, ht, WithTime(s[1..], k, timeOf));
    }
  }

  /** The sort is stable: treatments with the same date keep their relative order. */
  lemma {:induction false} SortIsStable(ts: seq<Treatment>, k: int, timeOf: string -> int)
    ensures WithTime(SortNewestFirst(ts, timeOf), k, timeOf) == WithTime(ts, k, timeOf)
  {
    if ts != [] {
      SortIsStable(ts[1..], k, timeOf);
      InsertKeepsEqualsInOrder(ts[0], SortNewestFirst(ts[1..], timeOf), k, timeOf);
    }
  }

  /** The badge text of a treatment kind: its first two characters, upper-cased. */
  function TypeBadge(kind: TreatmentType): (r: string)
    ensures |r| == 2
  {
    Upper(Prefix(TreatmentTypeName(kind), 2))
  }

  /** The ten kinds get ten different badges. */
  lemma TypeBadgeValues(kind: TreatmentType)
    ensures TypeBadge(kind) == match kind
      case Filling => "FI" case RootCanal => "RO" case Crown => "CR"
      case Extraction => "EX" case Veneer => "VE" case Implant => "IM"
      case Braces => "BR" case Hygiene => "HY" case Checkup => "CH" case Other => "OT"
  {
  }

  lemma TypeBadgeInjective(a: TreatmentType, b: TreatmentType)
    requires a != b
    ensures TypeBadge(a) != TypeBadge(b)
  {
    TypeBadgeValues(a);
    TypeBadgeValues(b);
  }

  /** One journal card. Each optional part is shown only when the matching
      field is truthy: the tooth number, the notes, the cost with its currency,
      the warranty date and the photo count. */
  datatype Card = Card(
    badge: string,
    title: string,
    tooth: Option<int>,
    notes: Option<string>,
    cost: Option<(int, string)>,
    warranty: Option<string>,
    photos: Option<nat>)

  function CardOf(t: Treatment): (c: Card)
    ensures c.tooth.Some? <==> Truthy(t.toothId)
    ensures c.tooth.Some? ==> c.tooth.value == t.toothId.value
    ensures c.cost.Some? <==> Truthy(t.cost)
    ensures c.photos.Some? <==> |t.attachments| > 0
    ensures c.badge == TypeBadge(t.kind) && c.title == TreatmentTypeName(t.kind)
  {
    Card(TypeBadge(t.kind), TreatmentTypeName(t.kind),
         if Truthy(t.toothId) then Some(t.toothId.value) else None,
         if t.notes != "" then Some(t.notes) else None,
         if Truthy(t.cost) then Some((t.cost.value, t.currency)) else None,
         if t.warrantyUntil.Some? && t.warrantyUntil.value != "" then t.warrantyUntil else None,
         if |t.attachments| > 0 then Some(|t.attachments|) else None)
  }

  datatype JournalView = EmptyState | Cards(cards: seq<Card>)

  /** The journal: the empty state for an empty log, else one card per
      treatment in newest-first order. */
  function Journal(ts: seq<Treatment>, timeOf: string -> int): (v: JournalView)
    ensures v.EmptyState? <==> ts == []
    ensures v.Cards? ==> |v.cards| == |ts|
    ensures v.Cards? ==> forall i :: 0 <= i < |ts| ==> v.cards[i] == CardOf(SortNewestFirst(ts, timeOf)[i])
  {
    var sorted := SortNewestFirst(ts, timeOf);
    if |sorted| == 0 then EmptyState
    else Cards(seq(|sorted|, i requires 0 <= i < |sorted| => CardOf(sorted[i])))
  }
}
