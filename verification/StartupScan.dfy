/**
  The scan of the request log at start-up: of all valid records the newest ones are kept in
  a bounded min-heap, and returned in time order.
 */
module StartupScan {
  import opened GoText
  import Sorting

  datatype Record = Record(observed: int, body: string)

  // ---- The heap -------------------------------------------------------------------------

  function Parent(i: nat): nat
    requires i > 0
  {
    (i - 1) / 2
  }

  /** The record at p is not newer than the one at c. */
  predicate Before(h: seq<Record>, p: nat, c: nat) {
    p < |h| && c < |h| ==> h[p].observed <= h[c].observed
  }

  predicate Below(h: seq<Record>, i: nat) {
    i > 0 ==> Before(h, Parent(i), i)
  }

  /** The heap order, except possibly between position `hole` and its parent. */
  predicate HeapUp(h: seq<Record>, hole: nat) {
    (forall i: nat :: i < |h| && i != hole ==> Below(h, i))
    && (hole > 0 ==> Before(h, Parent(hole), 2 * hole + 1) && Before(h, Parent(hole), 2 * hole + 2))
  }

  /** The heap order, except possibly between position `hole` and its children. */
  predicate HeapDown(h: seq<Record>, hole: nat) {
    (forall i: nat :: i < |h| && i != 2 * hole + 1 && i != 2 * hole + 2 ==> Below(h, i))
    && (hole > 0 ==> Before(h, Parent(hole), 2 * hole + 1) && Before(h, Parent(hole), 2 * hole + 2))
  }

  predicate Heap(h: seq<Record>) {
    forall i: nat :: i < |h| ==> Below(h, i)
  }

  /** The root is oldest. */
  lemma {:induction false} RootIsOldest(h: seq<Record>, i: nat)
    requires Heap(h) && i < |h|
    ensures h[0].observed <= h[i].observed
  {
    if i > 0 {
      assert Below(h, i);
      RootIsOldest(h, Parent(i));
    }
  }

  function Swapped(h: seq<Record>, i: nat, j: nat): (s: seq<Record>)
    requires i < |h| && j < |h|
    ensures |s| == |h| && multiset(s) == multiset(h)
  {
    SwapKeeps(h, i, j);
    h[i := h[j]][j := h[i]]
  }

  lemma SwapKeeps(h: seq<Record>, i: nat, j: nat)
    requires i < |h| && j < |h|
    ensures multiset(h[i := h[j]][j := h[i]]) == multiset(h)
  {
  }

  lemma UpStep(h: seq<Record>, j: nat)
    requires 0 < j < |h| && HeapUp(h, j) && h[j].observed < h[Parent(j)].observed
    ensures HeapUp(Swapped(h, Parent(j), j), Parent(j))
  {
    var p := Parent(j);
    var s := Swapped(h, p, j);
    assert p > 0 ==> Below(h, p);
    forall i: nat | i < |s| && i != p ensures Below(s, i) {
      assert i != j ==> Below(h, i);
    }
    if p > 0 {
      forall c | c in {2 * p + 1, 2 * p + 2} ensures Before(s, Parent(p), c) {
        if c < |h| && c != j { assert Below(h, c) && Parent(c) == p; }
      }
    }
  }

  lemma DownStep(h: seq<Record>, i: nat, j: nat)
    requires i < |h| && j < |h| && (j == 2 * i + 1 || j == 2 * i + 2) && HeapDown(h, i) && h[j].observed < h[i].observed
    requires Before(h, j, 2 * i + 1) && Before(h, j, 2 * i + 2)
    ensures HeapDown(Swapped(h, i, j), j)
  {
    var s := Swapped(h, i, j);
    forall c: nat | c < |s| && c != 2 * j + 1 && c != 2 * j + 2 ensures Below(s, c) {
      if c != 2 * i + 1 && c != 2 * i + 2 { assert Below(h, c); }
    }
    forall c | c in {2 * j + 1, 2 * j + 2} ensures Before(s, Parent(j), c) {
      if c < |h| { assert Below(h, c) && Parent(c) == j; }
    }
  }

  lemma DownDone(h: seq<Record>, i: nat)
    requires HeapDown(h, i) && Before(h, i, 2 * i + 1) && Before(h, i, 2 * i + 2)
    ensures Heap(h)
  {
    forall c: nat | c < |h| ensures Below(h, c) {
      if c == 2 * i + 1 || c == 2 * i + 2 { assert Parent(c) == i; }
    }
  }

  class RecordHeap {
    var h: seq<Record>

    constructor ()
      ensures h == []
    {
      h := [];
    }

    predicate Valid()
      reads this
    {
      Heap(h)
    }

    /** Sift up, as container/heap does. */
    method Up(start: nat)
      requires start < |h| && HeapUp(h, start)
      modifies this
      ensures Valid() && multiset(h) == multiset(old(h)) && |h| == |old(h)|
    {
      var j: nat := start;
      while j > 0 && h[j].observed < h[Parent(j)].observed
        invariant j < |h| && |h| == |old(h)| && HeapUp(h, j) && multiset(h) == multiset(old(h))
      {
        UpStep(h, j);
        h := Swapped(h, Parent(j), j);
        j := Parent(j);
      }
      assert Below(h, j);
    }

    /** Sift down from the root. */
    method Down()
      requires HeapDown(h, 0)
      modifies this
      ensures Valid() && multiset(h) == multiset(old(h)) && |h| == |old(h)|
    {
      var i: nat := 0;
      while true
        invariant (|h| > 0 ==> i < |h|) && |h| == |old(h)| && HeapDown(h, i) && multiset(h) == multiset(old(h))
        decreases |h| - i
      {
        var j: nat := 2 * i + 1;
        if j >= |h| { break; }
        if j + 1 < |h| && h[j + 1].observed < h[j].observed { j := j + 1; }
        if h[j].observed >= h[i].observed { break; }
        DownStep(h, i, j);
        h := Swapped(h, i, j);
        i := j;
      }
      DownDone(h, i);
    }

    method Push(r: Record)
      requires Valid()
      modifies this
      ensures Valid() && multiset(h) == multiset(old(h)) + multiset{r} && |h| == |old(h)| + 1
    {
      ghost var before := h;
      h := h + [r];
      forall i: nat | i < |before| ensures Below(h, i) { assert Below(before, i); }
      Up(|h| - 1);
    }

    /** The oldest record leaves: the last one takes its place and sinks. */
    method Pop() returns (r: Record)
      requires Valid() && |h| > 0
      modifies this
      ensures Valid() && r == old(h)[0] && |h| == |old(h)| - 1 && multiset(h) + multiset{r} == multiset(old(h))
    {
      var n := |h| - 1;
      ghost var before := h;
      h := Swapped(h, 0, n);
      r := h[n];
      assert h == h[..n] + [r];
      h := h[..n];
      forall i: nat | i < n && i != 1 && i != 2 ensures Below(h, i) {
        assert Below(before, i);
      }
      Down();
    }
  }

  // ---- What is kept --------------------------------------------------------------------------

  /** `kept` are the newest of `seen`, at most k of them. */
  predicate Newest(kept: multiset<Record>, seen: multiset<Record>, k: nat) {
    kept <= seen && |kept| == (if |seen| < k then |seen| else k)
    && forall x, y :: x in seen - kept && y in kept ==> x.observed <= y.observed
  }

  lemma KeepAll(kept: multiset<Record>, seen: multiset<Record>, k: nat, r: Record)
    requires Newest(kept, seen, k) && |kept| < k
    ensures Newest(kept + multiset{r}, seen + multiset{r}, k)
  {
    var rest := seen - kept;
    assert seen == kept + rest;
    assert |rest| == 0;
    assert rest == multiset{};
  }

  lemma DropNew(kept: multiset<Record>, seen: multiset<Record>, k: nat, r: Record)
    requires Newest(kept, seen, k) && |kept| == k && forall y :: y in kept ==> r.observed <= y.observed
    ensures Newest(kept, seen + multiset{r}, k)
  {
    forall x, y | x in seen + multiset{r} - kept && y in kept ensures x.observed <= y.observed {
      if x != r { assert x in seen - kept; }
    }
    assert |seen| >= k by { assert seen == kept + (seen - kept); }
  }

  lemma Replace(kept: multiset<Record>, rest: multiset<Record>, seen: multiset<Record>, k: nat, oldest: Record, r: Record)
    requires Newest(kept, seen, k) && |kept| == k && kept == rest + multiset{oldest}
    requires oldest.observed < r.observed && forall y :: y in kept ==> oldest.observed <= y.observed
    ensures Newest(rest + multiset{r}, seen + multiset{r}, k)
  {
    assert |seen| >= k by { assert seen == kept + (seen - kept); }
    assert |rest + multiset{r}| == k;
    forall x, y | x in seen + multiset{r} - (rest + multiset{r}) && y in rest + multiset{r} ensures x.observed <= y.observed {
      assert x in seen - rest;
      assert oldest in kept;
      if x != oldest { assert x in seen - kept; }
      if y != r { assert y in kept; }
    }
  }

  // ---- Time order -------------------------------------------------------------------------------

  predicate InOrder(rs: seq<Record>) {
    forall i, j :: 0 <= i < j < |rs| ==> rs[i].observed <= rs[j].observed
  }

  function Earlier(): (Record, Record) -> bool {
    (a: Record, b: Record) => a.observed < b.observed
  }

  /** A stable sort by time: records of the same time keep their order. */
  method SortByTime(rs: seq<Record>) returns (t: seq<Record>)
    ensures InOrder(t) && multiset(t) == multiset(rs)
    ensures forall z :: Sorting.Level(t, z, Earlier()) == Sorting.Level(rs, z, Earlier())
  {
    t := Sorting.SortBy(rs, Earlier());
    Sorting.SortBySorts(rs, Earlier());
    forall z ensures Sorting.Level(t, z, Earlier()) == Sorting.Level(rs, z, Earlier()) {
      Sorting.SortByStable(rs, Earlier(), z);
    }
  }

  // ---- The scan -----------------------------------------------------------------------------------

  /** The records of the lines that decode. */
  function ValidRecords(lines: seq<Option<Record>>): seq<Record> {
    if |lines| == 0 then []
    else ValidRecords(lines[..|lines| - 1]) + (match lines[|lines| - 1] case None => [] case Some(r) => [r])
  }

  function AllRecords(files: seq<seq<Option<Record>>>): seq<Record> {
    if |files| == 0 then [] else AllRecords(files[..|files| - 1]) + ValidRecords(files[|files| - 1])
  }

  method Offer(heap: RecordHeap, k: nat, r: Record, ghost seen: multiset<Record>)
    requires heap.Valid() && Newest(multiset(heap.h), seen, k)
    modifies heap
    ensures heap.Valid() && Newest(multiset(heap.h), seen + multiset{r}, k)
  {
    ghost var kept := multiset(heap.h);
    assert |heap.h| == |kept|;
    if k > 0 {
      if |heap.h| < k {
        KeepAll(kept, seen, k, r);
        heap.Push(r);
        return;
      }
      forall i | 0 <= i < |heap.h| ensures heap.h[0].observed <= heap.h[i].observed { RootIsOldest(heap.h, i); }
      ghost var oldest := heap.h[0];
      assert forall y :: y in kept ==> oldest.observed <= y.observed;
      if r.observed > heap.h[0].observed {
        var _ := heap.Pop();
        Replace(kept, multiset(heap.h), seen, k, oldest, r);
        heap.Push(r);
        return;
      }
    }
    DropNew(kept, seen, k, r);
  }

  lemma SeenMore(before: seq<Record>, lines: seq<Option<Record>>, i: nat)
    requires i < |lines|
    ensures var seen, more := before + ValidRecords(lines[..i]), before + ValidRecords(lines[..i + 1]);
      multiset(more) == if lines[i].None? then multiset(seen) else multiset(seen) + multiset{lines[i].value}
  {
    assert lines[..i + 1][..i] == lines[..i];
    if lines[i].None? {
      assert ValidRecords(lines[..i + 1]) == ValidRecords(lines[..i]);
    } else {
      assert before + ValidRecords(lines[..i + 1]) == before + ValidRecords(lines[..i]) + [lines[i].value];
    }
  }

  method ScanFile(heap: RecordHeap, k: nat, lines: seq<Option<Record>>, ghost before: seq<Record>)
    requires heap.Valid() && Newest(multiset(heap.h), multiset(before), k)
    modifies heap
    ensures heap.Valid() && Newest(multiset(heap.h), multiset(before + ValidRecords(lines)), k)
  {
    hide Newest, Heap;
    var i := 0;
    assert before + ValidRecords(lines[..0]) == before;
    while i < |lines|
      invariant 0 <= i <= |lines| && heap.Valid()
      invariant Newest(multiset(heap.h), multiset(before + ValidRecords(lines[..i])), k)
    {
      SeenMore(before, lines, i);
      match lines[i] {
        case None =>
        case Some(r) => Offer(heap, k, r, multiset(before + ValidRecords(lines[..i])));
      }
      i := i + 1;
    }
    assert lines[..i] == lines;
  }

  /** loadRequestState: files newest first, of which those that exist are given. */
  method LoadRequestState(files: seq<seq<Option<Record>>>, maxRecords: int) returns (result: seq<Record>)
    ensures Newest(multiset(result), multiset(AllRecords(files)), if maxRecords < 0 then 0 else maxRecords)
    ensures InOrder(result)
  {
    var k := if maxRecords < 0 then 0 else maxRecords;
    var heap := new RecordHeap();
    var i := 0;
    while i < |files|
      invariant 0 <= i <= |files| && heap.Valid() && fresh(heap)
      invariant Newest(multiset(heap.h), multiset(AllRecords(files[..i])), k)
    {
      assert files[..i + 1][..i] == files[..i];
      ScanFile(heap, k, files[i], AllRecords(files[..i]));
      i := i + 1;
    }
    assert files[..i] == files;
    result := SortByTime(heap.h);
  }
}
