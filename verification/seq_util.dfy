/** Sequence operations with the semantics of the JavaScript array methods
    the application relies on (`findIndex`, `slice`, `filter`, `join`). */
module SeqUtil {

  /** `Array.prototype.findIndex`: the index of the first element satisfying
      `p`, or -1 when there is none. */
  function FindIndex<T>(s: seq<T>, p: T -> bool): (r: int)
    ensures -1 <= r < |s|
    ensures r == -1 <==> forall i :: 0 <= i < |s| ==> !p(s[i])
    ensures r >= 0 ==> p(s[r]) && forall i :: 0 <= i < r ==> !p(s[i])
  {
    if |s| == 0 then -1
    else if p(s[0]) then 0
    else
      var k := FindIndex(s[1..], p);
      if k == -1 then -1 else k + 1
  }

  /** How `slice` reads one of its bounds: a negative bound counts from the
      end, and every bound is clamped into `0..len`. */
  function SliceBound(x: int, len: nat): (r: nat)
    ensures r <= len
    ensures 0 <= x <= len ==> r == x
    ensures x > len ==> r == len
    ensures x < 0 && len + x >= 0 ==> r == len + x
    ensures len + x < 0 ==> r == 0
  {
    if x < 0 then (if len + x < 0 then 0 else len + x)
    else if x > len then len
    else x
  }

  /** `Array.prototype.slice(start, end)`, including negative bounds. */
  function Slice<T>(s: seq<T>, start: int, end: int): (r: seq<T>)
    ensures |r| <= |s|
    ensures 0 <= start <= end <= |s| ==> r == s[start..end]
    ensures 0 <= start <= |s| < end ==> r == s[start..]
    ensures 0 <= start && end < 0 && start <= |s| + end ==> r == s[start..|s| + end]
    ensures start <= 0 && end < 0 && |s| + end <= 0 ==> r == []
    ensures start >= |s| ==> r == []
    ensures SliceBound(end, |s|) <= SliceBound(start, |s|) ==> r == []
    ensures |r| == if SliceBound(start, |s|) < SliceBound(end, |s|) then SliceBound(end, |s|) - SliceBound(start, |s|) else 0
    ensures forall i :: 0 <= i < |r| ==> r[i] == s[SliceBound(start, |s|) + i]
  {
    var from := SliceBound(start, |s|);
    var to := SliceBound(end, |s|);
    if from < to then s[from..to] else []
  }

  /** `Array.prototype.filter`. */
  function Filter<T(==)>(s: seq<T>, p: T -> bool): (r: seq<T>)
    ensures |r| <= |s|
    ensures forall i :: 0 <= i < |r| ==> p(r[i]) && r[i] in s
    ensures forall i :: 0 <= i < |s| && p(s[i]) ==> s[i] in r
  {
    if |s| == 0 then []
    else if p(s[0]) then [s[0]] + Filter(s[1..], p)
    else Filter(s[1..], p)
  }

  lemma {:induction false} FilterAppend<T>(a: seq<T>, b: seq<T>, p: T -> bool)
    ensures Filter(a + b, p) == Filter(a, p) + Filter(b, p)
  {
    if |a| == 0 {
      assert a + b == b;
    } else {
      assert (a + b)[1..] == a[1..] + b;
      FilterAppend(a[1..], b, p);
    }
  }

  lemma {:induction false} FilterSnoc<T>(s: seq<T>, x: T, p: T -> bool)
    ensures Filter(s + [x], p) == Filter(s, p) + (if p(x) then [x] else [])
  {
    FilterAppend(s, [x], p);
    assert [x][1..] == [];
  }

  /** Filtering keeps a sequence whose every element passes. */
  lemma {:induction false} FilterAll<T>(s: seq<T>, p: T -> bool)
    requires forall i :: 0 <= i < |s| ==> p(s[i])
    ensures Filter(s, p) == s
  {
    if |s| > 0 {
      FilterAll(s[1..], p);
    }
  }

  /** Filtering drops a sequence whose every element fails. */
  lemma {:induction false} FilterNone<T>(s: seq<T>, p: T -> bool)
    requires forall i :: 0 <= i < |s| ==> !p(s[i])
    ensures Filter(s, p) == []
  {
    if |s| > 0 {
      FilterNone(s[1..], p);
    }
  }

  /** Filtering keeps exactly the one element that passes. */
  lemma {:induction false} FilterSingle<T>(s: seq<T>, p: T -> bool, g: nat)
    requires g < |s| && p(s[g])
    requires forall i :: 0 <= i < |s| && i != g ==> !p(s[i])
    ensures Filter(s, p) == [s[g]]
  {
    var a, b := s[..g], s[g + 1..];
    assert s == a + [s[g]] + b;
    FilterAppend(a + [s[g]], b, p);
    FilterSnoc(a, s[g], p);
    assert forall i :: 0 <= i < |a| ==> a[i] == s[i];
    FilterNone(a, p);
    assert forall i :: 0 <= i < |b| ==> b[i] == s[g + 1 + i];
    FilterNone(b, p);
  }

  /** `Array.prototype.join(sep)` over strings. */
  function Join(parts: seq<string>, sep: string): (r: string)
    ensures |parts| == 1 ==> r == parts[0]
    ensures |parts| >= 1 ==> |parts[0]| <= |r| && r[..|parts[0]|] == parts[0]
    ensures |parts| >= 1 ==>
      var last := parts[|parts| - 1];
      |last| <= |r| && r[|r| - |last|..] == last
    ensures |parts| == 0 ==> r == ""
    ensures |parts| == 2 ==> r == parts[0] + sep + parts[1]
  {
    if |parts| == 0 then ""
    else if |parts| == 1 then parts[0]
    else parts[0] + sep + Join(parts[1..], sep)
  }

  /** Joining one more part appends the separator and that part: together
      with the cases of `Join`'s contract this fixes the result for every
      number of parts. */
  lemma {:induction false} JoinSnoc(parts: seq<string>, last: string, sep: string)
    requires |parts| >= 1
    ensures Join(parts + [last], sep) == Join(parts, sep) + sep + last
    decreases |parts|
  {
    var all := parts + [last];
    assert all[0] == parts[0];
    assert all[1..] == parts[1..] + [last];
    if |parts| == 1 {
      assert all[1..] == [last];
    } else {
      JoinSnoc(parts[1..], last, sep);
      calc {
        Join(all, sep);
        parts[0] + sep + Join(parts[1..] + [last], sep);
        parts[0] + sep + (Join(parts[1..], sep) + sep + last);
        (parts[0] + sep + Join(parts[1..], sep)) + sep + last;
        Join(parts, sep) + sep + last;
      }
    }
  }

  /** Three parts are joined with the separator between neighbours. */
  lemma JoinThree(a: string, b: string, c: string, sep: string)
    ensures Join([a, b, c], sep) == a + sep + b + sep + c
  {
    JoinSnoc([a, b], c, sep);
    assert [a, b] + [c] == [a, b, c];
  }
}
