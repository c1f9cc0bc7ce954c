/** Grouping of dated items into the sidebar's buckets: "Today",
    "Yesterday", "Previous 7 days", "Previous 30 days", then one bucket per
    month. Calendar arithmetic is abstracted: the day boundaries are given
    as instants and the month label as a function. */
module DateUtils {
  datatype DateGroup<T> = DateGroup(name: string, items: seq<T>)  // `name` is the source's `label`

  /** Start of today, of yesterday, and of the days 7 and 30 days back. */
  datatype Thresholds = Thresholds(today: int, yesterday: int, week: int, month: int)

  const TODAY: string := "Today"
  const YESTERDAY: string := "Yesterday"
  const PREVIOUS_7_DAYS: string := "Previous 7 days"
  const PREVIOUS_30_DAYS: string := "Previous 30 days"

  predicate IsFixedLabel(s: string) {
    s == TODAY || s == YESTERDAY || s == PREVIOUS_7_DAYS || s == PREVIOUS_30_DAYS
  }

  /** The first boundary the date reaches decides its bucket. */
  function BucketLabel(date: int, th: Thresholds, monthYear: int -> string): string {
    if date >= th.today then TODAY
    else if date >= th.yesterday then YESTERDAY
    else if date >= th.week then PREVIOUS_7_DAYS
    else if date >= th.month then PREVIOUS_30_DAYS
    else monthYear(date)
  }

  /** The month label never collides with the fixed labels. */
  ghost predicate MonthLabelsDistinct(monthYear: int -> string) {
    forall d :: !IsFixedLabel(monthYear(d))
  }

  /** Each label names exactly its range of dates. */
  lemma BucketLabelRanges(date: int, th: Thresholds, monthYear: int -> string)
    requires MonthLabelsDistinct(monthYear)
    ensures BucketLabel(date, th, monthYear) == TODAY <==> date >= th.today
    ensures BucketLabel(date, th, monthYear) == YESTERDAY <==> th.yesterday <= date < th.today
    ensures BucketLabel(date, th, monthYear) == PREVIOUS_7_DAYS <==>
      date < th.today && date < th.yesterday && th.week <= date
    ensures BucketLabel(date, th, monthYear) == PREVIOUS_30_DAYS <==>
      date < th.today && date < th.yesterday && date < th.week && th.month <= date
    ensures !IsFixedLabel(BucketLabel(date, th, monthYear)) <==>
      date < th.today && date < th.yesterday && date < th.week && date < th.month
  {
    assert !IsFixedLabel(monthYear(date));
  }

  /** The bucket label of an item. */
  function Labeler<T>(getDate: T -> int, th: Thresholds, monthYear: int -> string): T -> string {
    (x: T) => BucketLabel(getDate(x), th, monthYear)
  }

  /** The label of every item, in order. */
  function LabelsOf<T>(items: seq<T>, key: T -> string): (ls: seq<string>)
    ensures |ls| == |items|
    ensures forall i :: 0 <= i < |items| ==> ls[i] == key(items[i])
  {
    if |items| == 0 then []
    else LabelsOf(items[..|items| - 1], key) + [key(items[|items| - 1])]
  }

  /** The distinct labels, in order of first appearance. */
  function FirstSeen(ls: seq<string>): (ks: seq<string>)
    ensures forall l :: l in ks <==> l in ls
    ensures forall a, b :: 0 <= a < b < |ks| ==> ks[a] != ks[b]
  {
    if |ls| == 0 then []
    else
      var prev := FirstSeen(ls[..|ls| - 1]);
      var l := ls[|ls| - 1];
      assert ls == ls[..|ls| - 1] + [l];
      if l in prev then prev else prev + [l]
  }

  lemma FirstSeenSnoc(ls: seq<string>, l: string)
    ensures FirstSeen(ls + [l]) == if l in ls then FirstSeen(ls) else FirstSeen(ls) + [l]
  {
    assert (ls + [l])[..|ls|] == ls;
  }

  /** The items whose label (in the parallel sequence `ls`) is `k`, in input
      order. */
  function Select<T>(items: seq<T>, ls: seq<string>, k: string): seq<T>
    requires |ls| == |items|
  {
    if |items| == 0 then []
    else
      Select(items[..|items| - 1], ls[..|ls| - 1], k)
        + (if ls[|ls| - 1] == k then [items[|items| - 1]] else [])
  }

  lemma SelectSnoc<T>(items: seq<T>, ls: seq<string>, x: T, l: string, k: string)
    requires |ls| == |items|
    ensures Select(items + [x], ls + [l], k) == Select(items, ls, k) + (if l == k then [x] else [])
  {
    assert (items + [x])[..|items|] == items;
    assert (ls + [l])[..|ls|] == ls;
  }

  /** Every selected item carries the label, and every item carrying the
      label is selected. */
  lemma {:induction false} SelectMembers<T>(items: seq<T>, ls: seq<string>, k: string)
    requires |ls| == |items|
    ensures forall x :: x in Select(items, ls, k) ==> exists i :: 0 <= i < |items| && items[i] == x && ls[i] == k
    ensures forall i :: 0 <= i < |items| && ls[i] == k ==> items[i] in Select(items, ls, k)
  {
    if |items| > 0 {
      var n := |items| - 1;
      SelectMembers(items[..n], ls[..n], k);
      assert forall i :: 0 <= i < n ==> items[..n][i] == items[i] && ls[..n][i] == ls[i];
    }
  }

  /** Selecting a label no item carries gives nothing. */
  lemma {:induction false} SelectAbsent<T>(items: seq<T>, ls: seq<string>, k: string)
    requires |ls| == |items| && k !in ls
    ensures Select(items, ls, k) == []
  {
    if |items| > 0 {
      var n := |items| - 1;
      assert forall i :: 0 <= i < n ==> ls[..n][i] == ls[i];
      SelectAbsent(items[..n], ls[..n], k);
    }
  }

  /** The positions whose label is k, in increasing order. */
  function Positions(ls: seq<string>, k: string): (ps: seq<nat>)
    ensures forall m :: 0 <= m < |ps| ==> ps[m] < |ls| && ls[ps[m]] == k
    ensures forall m, n :: 0 <= m < n < |ps| ==> ps[m] < ps[n]
    ensures forall i :: 0 <= i < |ls| && ls[i] == k ==> i in ps
  {
    if |ls| == 0 then []
    else
      var n := |ls| - 1;
      var prev := Positions(ls[..n], k);
      assert forall i :: 0 <= i < n ==> ls[..n][i] == ls[i];
      prev + (if ls[n] == k then [n] else [])
  }

  /** A group keeps its items in input order: its m-th item is the input
      item at the m-th position carrying the label. */
  lemma {:induction false} SelectInInputOrder<T>(items: seq<T>, ls: seq<string>, k: string)
    requires |ls| == |items|
    ensures |Select(items, ls, k)| == |Positions(ls, k)|
    ensures forall m :: 0 <= m < |Positions(ls, k)| ==>
      Select(items, ls, k)[m] == items[Positions(ls, k)[m]]
  {
    if |items| > 0 {
      var n := |items| - 1;
      SelectInInputOrder(items[..n], ls[..n], k);
    }
  }

  /** Grouping by a label sequence: one group per distinct label, in order
      of first appearance, holding the items with that label in input order. */
  function GroupBy<T>(items: seq<T>, ls: seq<string>): (gs: seq<DateGroup<T>>)
    requires |ls| == |items|
    ensures |gs| == |FirstSeen(ls)|
    ensures forall j :: 0 <= j < |gs| ==>
      gs[j].name == FirstSeen(ls)[j] && gs[j].items == Select(items, ls, gs[j].name)
  {
    var ks := FirstSeen(ls);
    seq(|ks|, j requires 0 <= j < |ks| => DateGroup(ks[j], Select(items, ls, ks[j])))
  }

  /** The reference grouping of the items by their bucket labels. */
  function Group<T>(items: seq<T>, key: T -> string): seq<DateGroup<T>> {
    GroupBy(items, LabelsOf(items, key))
  }

  /** The state of the source's loop after a prefix of the items with
      labels `ls`: a bucket per label seen, keyed in first-seen order, each
      holding that label's items. */
  ghost predicate Buckets<T>(buckets: map<string, seq<T>>, orderedKeys: seq<string>, items: seq<T>, ls: seq<string>)
    requires |ls| == |items|
  {
    && orderedKeys == FirstSeen(ls)
    && (forall k :: k in buckets <==> k in orderedKeys)
    && (forall k :: k in buckets ==> buckets[k] == Select(items, ls, k))
  }

  /** One iteration of the loop keeps `Buckets`. */
  lemma BucketsStep<T>(
    buckets: map<string, seq<T>>, orderedKeys: seq<string>, items: seq<T>, ls: seq<string>, x: T, l: string)
    requires |ls| == |items| && Buckets(buckets, orderedKeys, items, ls)
    ensures var b := if l in buckets then buckets else buckets[l := []];
      var o := if l in buckets then orderedKeys else orderedKeys + [l];
      Buckets(b[l := b[l] + [x]], o, items + [x], ls + [l])
  {
    FirstSeenSnoc(ls, l);
    var b := if l in buckets then buckets else buckets[l := []];
    var b' := b[l := b[l] + [x]];
    forall k | k in b'
      ensures b'[k] == Select(items + [x], ls + [l], k)
    {
      SelectSnoc(items, ls, x, l, k);
      if k == l && l !in buckets {
        SelectAbsent(items, ls, l);
      }
    }
  }

  /** At the end of the loop the buckets, read in key order, are the
      reference grouping. */
  lemma BucketsAreGroups<T>(buckets: map<string, seq<T>>, orderedKeys: seq<string>, items: seq<T>, ls: seq<string>)
    requires |ls| == |items| && Buckets(buckets, orderedKeys, items, ls)
    ensures forall j :: 0 <= j < |orderedKeys| ==> orderedKeys[j] in buckets
    ensures seq(|orderedKeys|, j requires 0 <= j < |orderedKeys| => DateGroup(orderedKeys[j], buckets[orderedKeys[j]]))
      == GroupBy(items, ls)
  {
  }

  lemma LabelsOfSnoc<T>(items: seq<T>, x: T, key: T -> string)
    ensures LabelsOf(items + [x], key) == LabelsOf(items, key) + [key(x)]
  {
    assert (items + [x])[..|items|] == items;
  }

  /** `groupByDate`, following the source's loop over an insertion-ordered
      bucket map. */
  method GroupByDate<T>(items: seq<T>, getDate: T -> int, th: Thresholds, monthYear: int -> string)
    returns (groups: seq<DateGroup<T>>)
    ensures groups == Group(items, Labeler(getDate, th, monthYear))
    ensures |items| == 0 ==> groups == []
  {
    var key := Labeler(getDate, th, monthYear);
    var buckets: map<string, seq<T>> := map[];
    var orderedKeys: seq<string> := [];
    for i := 0 to |items|
      invariant Buckets(buckets, orderedKeys, items[..i], LabelsOf(items[..i], key))
    {
      var k := key(items[i]);
      BucketsStep(buckets, orderedKeys, items[..i], LabelsOf(items[..i], key), items[i], k);
      assert items[..i + 1] == items[..i] + [items[i]];
      LabelsOfSnoc(items[..i], items[i], key);
      if k !in buckets {
        buckets := buckets[k := []];
        orderedKeys := orderedKeys + [k];
      }
      buckets := buckets[k := buckets[k] + [items[i]]];
    }
    assert items[..|items|] == items;
    BucketsAreGroups(buckets, orderedKeys, items, LabelsOf(items, key));
    groups := seq(|orderedKeys|, j requires 0 <= j < |orderedKeys| =>
      DateGroup(orderedKeys[j], buckets[orderedKeys[j]]));
  }

  /** The items of all groups, one group after the other. */
  function Flatten<T>(gs: seq<DateGroup<T>>): seq<T> {
    if |gs| == 0 then [] else Flatten(gs[..|gs| - 1]) + gs[|gs| - 1].items
  }

  lemma FlattenSnoc<T>(gs: seq<DateGroup<T>>, g: DateGroup<T>)
    ensures Flatten(gs + [g]) == Flatten(gs) + g.items
  {
    assert (gs + [g])[..|gs|] == gs;
  }

  /** Appending an item to one group adds it once to the flattened items. */
  lemma {:induction false} FlattenGrow<T>(gs: seq<DateGroup<T>>, p: nat, x: T)
    requires p < |gs|
    ensures multiset(Flatten(gs[p := gs[p].(items := gs[p].items + [x])]))
      == multiset(Flatten(gs)) + multiset{x}
  {
    var n := |gs| - 1;
    var gs2 := gs[p := gs[p].(items := gs[p].items + [x])];
    assert Flatten(gs2) == Flatten(gs2[..n]) + gs2[n].items;
    assert Flatten(gs) == Flatten(gs[..n]) + gs[n].items;
    if p < n {
      assert gs2[..n] == gs[..n][p := gs[..n][p].(items := gs[..n][p].items + [x])];
      assert gs2[n] == gs[n];
      FlattenGrow(gs[..n], p, x);
    } else {
      assert gs2[..n] == gs[..n];
      assert gs2[n].items == gs[n].items + [x];
    }
  }

  /** Appending an item to the last group appends it to the flattened
      items. */
  lemma FlattenGrowLast<T>(gs: seq<DateGroup<T>>, x: T)
    requires |gs| > 0
    ensures var p := |gs| - 1;
      Flatten(gs[p := gs[p].(items := gs[p].items + [x])]) == Flatten(gs) + [x]
  {
    var p := |gs| - 1;
    assert gs[p := gs[p].(items := gs[p].items + [x])][..p] == gs[..p];
  }

  /** Labels are distinct, no group is empty, every grouped item carries its
      group's label, and every item is in the group of its label. */
  lemma {:induction false} GroupShape<T>(items: seq<T>, key: T -> string)
    ensures var gs := Group(items, key);
      && (forall a, b :: 0 <= a < b < |gs| ==> gs[a].name != gs[b].name)
      && (forall g :: 0 <= g < |gs| ==> |gs[g].items| > 0)
      && (forall g, x :: 0 <= g < |gs| && x in gs[g].items ==> key(x) == gs[g].name)
      && (forall i :: 0 <= i < |items| ==>
            exists g :: 0 <= g < |gs| && gs[g].name == key(items[i]) && items[i] in gs[g].items)
  {
    var ls := LabelsOf(items, key);
    var gs := Group(items, key);
    var ks := FirstSeen(ls);
    forall g | 0 <= g < |gs|
      ensures |gs[g].items| > 0
      ensures forall x :: x in gs[g].items ==> key(x) == gs[g].name
    {
      SelectMembers(items, ls, ks[g]);
      assert ks[g] in ls;
      var i :| 0 <= i < |ls| && ls[i] == ks[g];
      assert items[i] in gs[g].items;
    }
    forall i | 0 <= i < |items|
      ensures exists g :: 0 <= g < |gs| && gs[g].name == key(items[i]) && items[i] in gs[g].items
    {
      assert ls[i] in ks;
      var g :| 0 <= g < |ks| && ks[g] == ls[i];
      SelectMembers(items, ls, ks[g]);
      assert items[i] in gs[g].items;
    }
  }

  /** How the grouping grows when one more item, with label l, is appended:
      a new last group for a new label, otherwise the item joins the end of
      its label's group. */
  lemma GroupSnoc<T>(items: seq<T>, ls: seq<string>, x: T, l: string)
    requires |ls| == |items|
    ensures var gs, gs' := GroupBy(items, ls), GroupBy(items + [x], ls + [l]);
      && (l !in ls ==> gs' == gs + [DateGroup(l, [x])])
      && (l in ls ==>
            exists p :: 0 <= p < |gs| && gs[p].name == l && gs' == gs[p := gs[p].(items := gs[p].items + [x])])
  {
    FirstSeenSnoc(ls, l);
    var ks, ks' := FirstSeen(ls), FirstSeen(ls + [l]);
    var gs, gs' := GroupBy(items, ls), GroupBy(items + [x], ls + [l]);
    if l !in ls {
      var want := gs + [DateGroup(l, [x])];
      forall g | 0 <= g < |gs'|
        ensures gs'[g] == want[g]
      {
        SelectSnoc(items, ls, x, l, ks'[g]);
        if g < |gs| {
          assert ks[g] in ls;
        } else {
          SelectAbsent(items, ls, l);
        }
      }
    } else {
      assert l in ks;
      var p :| 0 <= p < |ks| && ks[p] == l;
      var want := gs[p := gs[p].(items := gs[p].items + [x])];
      forall g | 0 <= g < |gs'|
        ensures gs'[g] == want[g]
      {
        SelectSnoc(items, ls, x, l, ks'[g]);
      }
    }
  }

  /** Grouping is a partition: taken together the groups hold every input
      item exactly as often as the input does. */
  lemma {:induction false} GroupByPartition<T>(items: seq<T>, ls: seq<string>)
    requires |ls| == |items|
    ensures multiset(Flatten(GroupBy(items, ls))) == multiset(items)
  {
    if |items| > 0 {
      var n := |items| - 1;
      var init, x, l := items[..n], items[n], ls[n];
      assert items == init + [x];
      assert ls == ls[..n] + [l];
      GroupByPartition(init, ls[..n]);
      GroupSnoc(init, ls[..n], x, l);
      var gs := GroupBy(init, ls[..n]);
      if l !in ls[..n] {
        FlattenSnoc(gs, DateGroup(l, [x]));
      } else {
        var p :| 0 <= p < |gs| && gs[p].name == l
          && GroupBy(items, ls) == gs[p := gs[p].(items := gs[p].items + [x])];
        FlattenGrow(gs, p, x);
      }
    }
  }

  lemma GroupPartition<T>(items: seq<T>, key: T -> string)
    ensures multiset(Flatten(Group(items, key))) == multiset(items)
  {
    GroupByPartition(items, LabelsOf(items, key));
  }

  /** Equal labels are never separated by a different one. */
  ghost predicate Contiguous(ls: seq<string>) {
    forall i, j, l :: 0 <= i < j < l < |ls| && ls[i] == ls[l] ==> ls[j] == ls[i]
  }

  /** With contiguous labels, the last label to appear first is the last
      label. */
  lemma {:induction false} LastKeyIsLastLabel(ls: seq<string>)
    requires |ls| > 0 && Contiguous(ls)
    ensures |FirstSeen(ls)| > 0
    ensures FirstSeen(ls)[|FirstSeen(ls)| - 1] == ls[|ls| - 1]
  {
    var init := ls[..|ls| - 1];
    var l := ls[|ls| - 1];
    assert ls == init + [l];
    if l in FirstSeen(init) {
      assert l in init;
      var i :| 0 <= i < |init| && init[i] == l;
      assert ls[i] == l;
      if |init| - 1 > i {
        assert ls[|init| - 1] == l;
      }
      assert init[|init| - 1] == l;
      assert Contiguous(init);
      LastKeyIsLastLabel(init);
    }
  }

  /** With contiguous labels, reading the groups in order gives back the
      input. */
  lemma {:induction false} ContiguousGroupsConcatenate<T>(items: seq<T>, ls: seq<string>)
    requires |ls| == |items| && Contiguous(ls)
    ensures Flatten(GroupBy(items, ls)) == items
  {
    if |items| > 0 {
      var n := |items| - 1;
      var init, x, l := items[..n], items[n], ls[n];
      assert items == init + [x];
      assert ls == ls[..n] + [l];
      assert Contiguous(ls[..n]);
      ContiguousGroupsConcatenate(init, ls[..n]);
      GroupSnoc(init, ls[..n], x, l);
      var gs := GroupBy(init, ls[..n]);
      if l !in ls[..n] {
        FlattenSnoc(gs, DateGroup(l, [x]));
      } else {
        var p :| 0 <= p < |gs| && gs[p].name == l
          && GroupBy(items, ls) == gs[p := gs[p].(items := gs[p].items + [x])];
        LastKeyIsLastLabel(ls);
        assert FirstSeen(ls) == FirstSeen(ls[..n]);
        assert p == |gs| - 1;
        FlattenGrowLast(gs, x);
      }
    }
  }

  /** The month label is constant on intervals: two dates with the same
      label have it on every date between them. */
  ghost predicate MonthLabelsConvex(monthYear: int -> string) {
    forall a, b, c :: c <= b <= a && monthYear(a) == monthYear(c) ==> monthYear(b) == monthYear(a)
  }

  ghost predicate Ordered(th: Thresholds) {
    th.today >= th.yesterday >= th.week >= th.month
  }

  /** Items sorted newest first get contiguous bucket labels. */
  lemma SortedInputIsContiguous<T>(
    items: seq<T>, getDate: T -> int, th: Thresholds, monthYear: int -> string)
    requires forall i, j :: 0 <= i < j < |items| ==> getDate(items[i]) >= getDate(items[j])
    requires Ordered(th) && MonthLabelsDistinct(monthYear) && MonthLabelsConvex(monthYear)
    ensures Contiguous(LabelsOf(items, Labeler(getDate, th, monthYear)))
  {
    var ls := LabelsOf(items, Labeler(getDate, th, monthYear));
    forall i, j, l | 0 <= i < j < l < |ls| && ls[i] == ls[l]
      ensures ls[j] == ls[i]
    {
      LabelBetween(getDate(items[i]), getDate(items[j]), getDate(items[l]), th, monthYear);
    }
  }

  /** A date between two dates with the same bucket label has that label. */
  lemma LabelBetween(a: int, b: int, c: int, th: Thresholds, monthYear: int -> string)
    requires a >= b >= c
    requires Ordered(th) && MonthLabelsDistinct(monthYear) && MonthLabelsConvex(monthYear)
    requires BucketLabel(a, th, monthYear) == BucketLabel(c, th, monthYear)
    ensures BucketLabel(b, th, monthYear) == BucketLabel(a, th, monthYear)
  {
    BucketLabelRanges(a, th, monthYear);
    BucketLabelRanges(c, th, monthYear);
    if c < th.month {
      assert a < th.month by {
        assert !IsFixedLabel(BucketLabel(c, th, monthYear));
      }
      assert monthYear(a) == monthYear(c);
    }
  }

  /** For input sorted newest first, as the sidebar supplies it, the groups
      read in order reproduce the input. */
  lemma SortedInputRoundTrips<T>(
    items: seq<T>, getDate: T -> int, th: Thresholds, monthYear: int -> string)
    requires forall i, j :: 0 <= i < j < |items| ==> getDate(items[i]) >= getDate(items[j])
    requires Ordered(th) && MonthLabelsDistinct(monthYear) && MonthLabelsConvex(monthYear)
    ensures Flatten(Group(items, Labeler(getDate, th, monthYear))) == items
  {
    var key := Labeler(getDate, th, monthYear);
    SortedInputIsContiguous(items, getDate, th, monthYear);
    ContiguousGroupsConcatenate(items, LabelsOf(items, key));
  }
}
