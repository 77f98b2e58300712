/** The JavaScript array operations the effects rely on (indexOf, splice) and
    the behaviour of an index loop `for (i = 0; i < a.length; i++)` (or a
    `for..of` loop, which walks the same indices) whose body may splice the
    current element out of the array it walks. */
module JsArray {

  /** No object occurs twice. */
  predicate Distinct<T(==)>(s: seq<T>) {
    forall i, j :: 0 <= i < j < |s| ==> s[i] != s[j]
  }

  /** Array.prototype.indexOf: the first index holding `x`, or -1. */
  function IndexOf<T(==)>(s: seq<T>, x: T): (r: int)
    ensures -1 <= r < |s|
    ensures r == -1 <==> x !in s
    ensures 0 <= r ==> s[r] == x && x !in s[..r]
  {
    if s == [] then -1
    else if s[0] == x then 0
    else
      var k := IndexOf(s[1..], x);
      if k == -1 then -1
      else
        assert s[..k + 1] == [s[0]] + s[1..][..k];
        k + 1
  }

  /** Array.prototype.splice(start, 1): a negative start counts from the end
      (clamped at 0), a start past the end removes nothing. */
  function SpliceOne<T>(s: seq<T>, start: int): (r: seq<T>)
    ensures |r| == |s| - 1 <==> 0 < |s| && start < |s|
    ensures |r| != |s| - 1 ==> r == s
    ensures 0 <= start < |s| ==> r == s[..start] + s[start + 1..]
    ensures start < 0 < |s| ==> r == s[..Clamp(|s| + start)] + s[Clamp(|s| + start) + 1..]
  {
    var at := if start < 0 then Clamp(|s| + start) else if start < |s| then start else |s|;
    if at < |s| then s[..at] + s[at + 1..] else s
  }

  function Clamp(i: int): nat {
    if i < 0 then 0 else i
  }

  /** indexOf followed by splice(index, 1) when the index is not -1: the
      removal of the first occurrence of `x`, keeping the order of the rest. */
  function RemoveFirst<T(==)>(s: seq<T>, x: T): (r: seq<T>)
    ensures x !in s ==> r == s
    ensures x in s ==> |r| == |s| - 1 && r == s[..IndexOf(s, x)] + s[IndexOf(s, x) + 1..]
    ensures multiset(r) == multiset(s) - multiset{x}
  {
    var i := IndexOf(s, x);
    if i != -1 then
      assert s == s[..i] + [x] + s[i + 1..];
      SpliceOne(s, i)
    else s
  }

  /** In a sequence without repetitions, removing the element at slot `i`
      deletes exactly that slot and leaves no repetitions. */
  lemma {:induction false} RemoveAt<T>(s: seq<T>, i: nat)
    requires Distinct(s) && i < |s|
    ensures RemoveFirst(s, s[i]) == s[..i] + s[i + 1..]
    ensures Distinct(RemoveFirst(s, s[i]))
  {
    var r := s[..i] + s[i + 1..];
    forall a, b | 0 <= a < b < |r| ensures r[a] != r[b] {
      var a' := if a < i then a else a + 1;
      var b' := if b < i then b else b + 1;
      assert r[a] == s[a'] && r[b] == s[b'];
    }
  }

  /** splice(indexOf(x), 1) without the -1 guard: when `x` is absent, the
      start -1 makes it drop the LAST element instead. */
  lemma {:induction false} UnguardedSpliceOfAbsent<T>(s: seq<T>, x: T)
    requires x !in s && |s| > 0
    ensures SpliceOne(s, IndexOf(s, x)) == s[..|s| - 1]
  {
  }

  /** splice(indexOf(x), 1) is RemoveFirst when `x` is present. */
  lemma {:induction false} UnguardedSpliceOfPresent<T>(s: seq<T>, x: T)
    requires x in s
    ensures SpliceOne(s, IndexOf(s, x)) == RemoveFirst(s, x)
  {
  }

  /** In an array without repeats, splice(indexOf(s[i]), 1) removes slot i. */
  lemma {:induction false} UnguardedSpliceAt<T>(s: seq<T>, i: nat)
    requires Distinct(s) && i < |s|
    ensures SpliceOne(s, IndexOf(s, s[i])) == s[..i] + s[i + 1..]
    ensures Distinct(s[..i] + s[i + 1..])
  {
    RemoveAt(s, i);
    UnguardedSpliceOfPresent(s, s[i]);
  }

  /** Where each element of s[..i] + s[i+1..] comes from. */
  lemma {:induction false} SlotAfterRemoval<T>(s: seq<T>, i: nat, k: nat)
    requires i < |s| && k < |s| - 1
    ensures (s[..i] + s[i + 1..])[k] == if k < i then s[k] else s[k + 1]
  {
  }

  // ----------------------------------------------------------------------
  // An index loop whose body may remove the current element.

  /** One slot of the array after the loop: the object, its state, and
      whether it is still in the array. */
  datatype Entry<T, S> = Entry(obj: T, state: S, live: bool)

  /** The index loop over `xs` (objects with their states). The body `step`
      gives the new state of the current object and whether it spliced
      itself out. After a removal the next object slides into the current
      slot and the index moves past it: that object is skipped, unchanged. */
  function Sweep<T, S>(xs: seq<(T, S)>, step: S -> (S, bool)): (r: seq<Entry<T, S>>)
    ensures |r| == |xs|
    decreases |xs|
  {
    if xs == [] then []
    else
      var (next, gone) := step(xs[0].1);
      if !gone then [Entry(xs[0].0, next, true)] + Sweep(xs[1..], step)
      else if |xs| == 1 then [Entry(xs[0].0, next, false)]
      else [Entry(xs[0].0, next, false), Entry(xs[1].0, xs[1].1, true)] + Sweep(xs[2..], step)
  }

  /** The objects still in the array after the loop, in order, with their states. */
  function Live<T, S>(es: seq<Entry<T, S>>): (r: seq<(T, S)>)
    ensures |r| <= |es|
  {
    if es == [] then []
    else (if es[0].live then [(es[0].obj, es[0].state)] else []) + Live(es[1..])
  }

  function Objects<T, S>(xs: seq<(T, S)>): (r: seq<T>)
    ensures |r| == |xs| && forall k :: 0 <= k < |xs| ==> r[k] == xs[k].0
  {
    seq(|xs|, k requires 0 <= k < |xs| => xs[k].0)
  }

  lemma {:induction false} LiveAppend<T, S>(a: seq<Entry<T, S>>, b: seq<Entry<T, S>>)
    ensures Live(a + b) == Live(a) + Live(b)
  {
    if a == [] {
      assert a + b == b;
    } else {
      assert (a + b)[0] == a[0];
      assert (a + b)[1..] == a[1..] + b;
      LiveAppend(a[1..], b);
    }
  }

  /** The sweep from slot j when the body keeps the object there. */
  lemma {:induction false} SweepFromKept<T, S>(xs: seq<(T, S)>, step: S -> (S, bool), j: nat)
    requires j < |xs| && !step(xs[j].1).1
    ensures Sweep(xs[j..], step) == [Entry(xs[j].0, step(xs[j].1).0, true)] + Sweep(xs[j + 1..], step)
  {
    assert xs[j..][0] == xs[j] && xs[j..][1..] == xs[j + 1..];
  }

  /** The sweep from slot j when the body removes the object there and
      another one follows: that one is skipped. */
  lemma {:induction false} SweepFromSkip<T, S>(xs: seq<(T, S)>, step: S -> (S, bool), j: nat)
    requires j + 1 < |xs| && step(xs[j].1).1
    ensures Sweep(xs[j..], step)
         == [Entry(xs[j].0, step(xs[j].1).0, false), Entry(xs[j + 1].0, xs[j + 1].1, true)] + Sweep(xs[j + 2..], step)
  {
    assert xs[j..][0] == xs[j] && xs[j..][1] == xs[j + 1] && xs[j..][2..] == xs[j + 2..];
  }

  /** The sweep from the last slot when the body removes the object there. */
  lemma {:induction false} SweepFromLast<T, S>(xs: seq<(T, S)>, step: S -> (S, bool), j: nat)
    requires j + 1 == |xs| && step(xs[j].1).1
    ensures Sweep(xs[j..], step) == [Entry(xs[j].0, step(xs[j].1).0, false)]
  {
    assert xs[j..] == [xs[j]];
  }

  lemma {:induction false} LiveSingle<T, S>(e: Entry<T, S>)
    ensures Live([e]) == if e.live then [(e.obj, e.state)] else []
  {
    assert [e][1..] == [];
  }

  /** The array after the body ran at index i on its element, whose new
      state and removal flag are `out`. */
  function AfterBody<T, S>(arr: seq<(T, S)>, i: nat, out: (S, bool)): seq<(T, S)>
    requires i < |arr|
  {
    if out.1 then arr[..i] + arr[i + 1..] else arr[i := (arr[i].0, out.0)]
  }

  /** The ghost bookkeeping of one iteration: the processed prefix of
      Sweep(xs, step) grows by the current slot, and by the skipped one
      after it when the current object was removed. */
  function SweepStep<T, S>(xs: seq<(T, S)>, step: S -> (S, bool), acc: seq<Entry<T, S>>, j: nat): (r: seq<Entry<T, S>>)
    requires j < |xs|
    ensures |acc| < |r| <= |acc| + 2 && r[..|acc|] == acc
  {
    var (next, gone) := step(xs[j].1);
    if !gone then acc + [Entry(xs[j].0, next, true)]
    else if j + 1 < |xs| then acc + [Entry(xs[j].0, next, false), Entry(xs[j + 1].0, xs[j + 1].1, true)]
    else acc + [Entry(xs[j].0, next, false)]
  }

  /** The loop invariant of an index loop whose body may splice out the
      current element: `acc` is the processed prefix of the sweep, the
      array is what survived of it followed by the untouched rest, and the
      index points at the first untouched element. */
  ghost predicate SweepLoop<T, S>(xs: seq<(T, S)>, step: S -> (S, bool), acc: seq<Entry<T, S>>, arr: seq<(T, S)>, i: nat) {
    && |acc| <= |xs|
    && Sweep(xs, step) == acc + Sweep(xs[|acc|..], step)
    && arr == Live(acc) + xs[|acc|..]
    && (|acc| < |xs| ==> i == |Live(acc)|)
    && (|acc| == |xs| ==> |arr| <= i)
  }

  /** The element the body sees at index i is the first untouched one. */
  lemma {:induction false} SweepLoopCurrent<T, S>(xs: seq<(T, S)>, step: S -> (S, bool), acc: seq<Entry<T, S>>, arr: seq<(T, S)>, i: nat)
    requires SweepLoop(xs, step, acc, arr, i) && i < |arr|
    ensures |acc| < |xs| && arr[i] == xs[|acc|]
  {
  }

  /** One iteration, whatever the body does, preserves the invariant. */
  lemma {:induction false} SweepLoopAdvance<T, S>(xs: seq<(T, S)>, step: S -> (S, bool), acc: seq<Entry<T, S>>, arr: seq<(T, S)>, i: nat)
    requires SweepLoop(xs, step, acc, arr, i) && i < |arr|
    ensures |acc| < |xs| && arr[i] == xs[|acc|]
    ensures SweepLoop(xs, step, SweepStep(xs, step, acc, |acc|), AfterBody(arr, i, step(arr[i].1)), i + 1)
  {
    SweepLoopCurrent(xs, step, acc, arr, i);
    var j := |acc|;
    if !step(xs[j].1).1 {
      SweepLoopKept(xs, step, acc, arr, i);
    } else if j + 1 < |xs| {
      SweepLoopSkip(xs, step, acc, arr, i);
    } else {
      SweepLoopLast(xs, step, acc, arr, i);
    }
  }

  lemma {:induction false} SweepLoopKept<T, S>(xs: seq<(T, S)>, step: S -> (S, bool), acc: seq<Entry<T, S>>, arr: seq<(T, S)>, i: nat)
    requires SweepLoop(xs, step, acc, arr, i) && |acc| < |xs| && !step(xs[|acc|].1).1
    ensures SweepLoop(xs, step, SweepStep(xs, step, acc, |acc|), arr[i := (xs[|acc|].0, step(xs[|acc|].1).0)], i + 1)
  {
    var j := |acc|;
    var next := SweepStep(xs, step, acc, j);
    KeptPrefix(xs, step, acc, j);
    KeptLive(xs, step, acc, j);
    assert |next| == j + 1;
    ReplaceAt(Live(acc), xs[j..], arr, (xs[j].0, step(xs[j].1).0));
    assert xs[j..][1..] == xs[j + 1..];
  }

  /** Concatenation regrouped, apart from any context that would unfold
      the parts. */
  lemma {:induction false} Regroup<T>(a: seq<T>, b: seq<T>, c: seq<T>)
    ensures a + (b + c) == (a + b) + c
  {
  }

  lemma {:induction false} KeptPrefix<T, S>(xs: seq<(T, S)>, step: S -> (S, bool), acc: seq<Entry<T, S>>, j: nat)
    requires j < |xs| && !step(xs[j].1).1 && Sweep(xs, step) == acc + Sweep(xs[j..], step)
    ensures Sweep(xs, step) == SweepStep(xs, step, acc, j) + Sweep(xs[j + 1..], step)
  {
    var e := [Entry(xs[j].0, step(xs[j].1).0, true)];
    SweepFromKept(xs, step, j);
    assert SweepStep(xs, step, acc, j) == acc + e;
    Regroup(acc, e, Sweep(xs[j + 1..], step));
  }

  lemma {:induction false} KeptLive<T, S>(xs: seq<(T, S)>, step: S -> (S, bool), acc: seq<Entry<T, S>>, j: nat)
    requires j < |xs| && !step(xs[j].1).1
    ensures Live(SweepStep(xs, step, acc, j)) == Live(acc) + [(xs[j].0, step(xs[j].1).0)]
  {
    var e := Entry(xs[j].0, step(xs[j].1).0, true);
    assert SweepStep(xs, step, acc, j) == acc + [e];
    LiveAppend(acc, [e]);
    LiveSingle(e);
  }

  /** Replacing the first element of the part after a prefix. */
  lemma {:induction false} ReplaceAt<T>(prefix: seq<T>, rest: seq<T>, arr: seq<T>, v: T)
    requires arr == prefix + rest && 0 < |rest|
    ensures arr[|prefix| := v] == prefix + [v] + rest[1..]
  {
    assert rest == [rest[0]] + rest[1..];
  }

  lemma {:induction false} SweepLoopSkip<T, S>(xs: seq<(T, S)>, step: S -> (S, bool), acc: seq<Entry<T, S>>, arr: seq<(T, S)>, i: nat)
    requires SweepLoop(xs, step, acc, arr, i) && |acc| + 1 < |xs| && step(xs[|acc|].1).1
    ensures SweepLoop(xs, step, SweepStep(xs, step, acc, |acc|), arr[..i] + arr[i + 1..], i + 1)
  {
    var j := |acc|;
    var next := SweepStep(xs, step, acc, j);
    SkipPrefix(xs, step, acc, j);
    SkipLive(xs, step, acc, j);
    assert |next| == j + 2;
    DropAt(Live(acc), xs[j..], arr);
    assert xs[j..][1] == xs[j + 1] && xs[j..][2..] == xs[j + 2..];
  }

  /** Removing the first element of the part after a prefix, when a second
      one follows it. */
  lemma {:induction false} DropAt<T>(prefix: seq<T>, rest: seq<T>, arr: seq<T>)
    requires arr == prefix + rest && 1 < |rest|
    ensures arr[..|prefix|] + arr[|prefix| + 1..] == (prefix + [rest[1]]) + rest[2..]
  {
    assert arr[..|prefix|] == prefix;
    assert arr[|prefix| + 1..] == rest[1..] == [rest[1]] + rest[2..];
  }

  lemma {:induction false} SkipPrefix<T, S>(xs: seq<(T, S)>, step: S -> (S, bool), acc: seq<Entry<T, S>>, j: nat)
    requires j + 1 < |xs| && step(xs[j].1).1 && Sweep(xs, step) == acc + Sweep(xs[j..], step)
    ensures Sweep(xs, step) == SweepStep(xs, step, acc, j) + Sweep(xs[j + 2..], step)
  {
    var ef := [Entry(xs[j].0, step(xs[j].1).0, false), Entry(xs[j + 1].0, xs[j + 1].1, true)];
    SweepFromSkip(xs, step, j);
    assert SweepStep(xs, step, acc, j) == acc + ef;
    Regroup(acc, ef, Sweep(xs[j + 2..], step));
  }

  lemma {:induction false} SkipLive<T, S>(xs: seq<(T, S)>, step: S -> (S, bool), acc: seq<Entry<T, S>>, j: nat)
    requires j + 1 < |xs| && step(xs[j].1).1
    ensures Live(SweepStep(xs, step, acc, j)) == Live(acc) + [xs[j + 1]]
  {
    var e := Entry(xs[j].0, step(xs[j].1).0, false);
    var f := Entry(xs[j + 1].0, xs[j + 1].1, true);
    assert SweepStep(xs, step, acc, j) == acc + [e, f];
    LiveAppend(acc, [e, f]);
    assert [e, f] == [e] + [f];
    LiveAppend([e], [f]);
    LiveSingle(e);
    LiveSingle(f);
  }

  lemma {:induction false} SweepLoopLast<T, S>(xs: seq<(T, S)>, step: S -> (S, bool), acc: seq<Entry<T, S>>, arr: seq<(T, S)>, i: nat)
    requires SweepLoop(xs, step, acc, arr, i) && |acc| + 1 == |xs| && step(xs[|acc|].1).1
    ensures SweepLoop(xs, step, SweepStep(xs, step, acc, |acc|), arr[..i] + arr[i + 1..], i + 1)
  {
    var j := |acc|;
    var e := Entry(xs[j].0, step(xs[j].1).0, false);
    SweepFromLast(xs, step, j);
    LiveAppend(acc, [e]);
    LiveSingle(e);
    assert arr[..i] + arr[i + 1..] == Live(acc);
    assert xs[j + 1..] == [];
  }

  /** When the loop exits, the array is what survived of the whole sweep. */
  lemma {:induction false} SweepLoopDone<T, S>(xs: seq<(T, S)>, step: S -> (S, bool), acc: seq<Entry<T, S>>, arr: seq<(T, S)>, i: nat)
    requires SweepLoop(xs, step, acc, arr, i) && |arr| <= i
    ensures arr == Live(Sweep(xs, step))
  {
    assert xs[|acc|..] == [];
    assert Sweep(xs[|acc|..], step) == [];
    assert acc + [] == acc;
  }

  /** Every slot is either processed by the body or skipped; it is skipped
      exactly when the slot before it was processed and removed. */
  lemma {:induction false} SweepSlot<T, S>(xs: seq<(T, S)>, step: S -> (S, bool), k: nat)
    requires k < |xs|
    ensures var r := Sweep(xs, step);
      && (k > 0 && !r[k - 1].live ==> r[k] == Entry(xs[k].0, xs[k].1, true))
      && (k == 0 || r[k - 1].live ==> r[k].state == step(xs[k].1).0 && r[k].live == !step(xs[k].1).1)
    decreases |xs|
  {
    var (next, gone) := step(xs[0].1);
    if k > 0 {
      if !gone {
        SweepSlot(xs[1..], step, k - 1);
      } else if k > 1 {
        SweepSlot(xs[2..], step, k - 2);
      }
    }
  }

  /** Slot k of the sweep is about the object that was at slot k. */
  lemma {:induction false} SweepObject<T, S>(xs: seq<(T, S)>, step: S -> (S, bool), k: nat)
    requires k < |xs|
    ensures Sweep(xs, step)[k].obj == xs[k].0
    decreases |xs|
  {
    var (next, gone) := step(xs[0].1);
    if k > 0 {
      if !gone {
        SweepObject(xs[1..], step, k - 1);
      } else if k > 1 {
        SweepObject(xs[2..], step, k - 2);
      }
    }
  }

  /** What is left after a loop comes from the live slots. */
  lemma {:induction false} LiveFrom<T, S>(es: seq<Entry<T, S>>, e: (T, S))
    requires e in Live(es)
    ensures exists j :: 0 <= j < |es| && es[j].live && e == (es[j].obj, es[j].state)
    decreases |es|
  {
    var head := if es[0].live then [(es[0].obj, es[0].state)] else [];
    assert Live(es) == head + Live(es[1..]);
    if e !in head {
      LiveFrom(es[1..], e);
      var j :| 0 <= j < |es[1..]| && es[1..][j].live && e == (es[1..][j].obj, es[1..][j].state);
      assert es[j + 1] == es[1..][j];
    }
  }

  /** Every live slot shows up in the survivors. */
  lemma {:induction false} LiveHas<T, S>(es: seq<Entry<T, S>>, j: nat)
    requires j < |es| && es[j].live
    ensures (es[j].obj, es[j].state) in Live(es)
    decreases |es|
  {
    var head := if es[0].live then [(es[0].obj, es[0].state)] else [];
    assert Live(es) == head + Live(es[1..]);
    if j > 0 {
      LiveHas(es[1..], j - 1);
      assert es[1..][j - 1] == es[j];
    }
  }

  /** When the objects are distinct, an object is still in the array after
      the loop exactly when its slot is live. */
  lemma {:induction false} SurvivesIffLive<T, S>(xs: seq<(T, S)>, step: S -> (S, bool), k: nat)
    requires Distinct(Objects(xs)) && k < |xs|
    ensures xs[k].0 in Objects(Live(Sweep(xs, step))) <==> Sweep(xs, step)[k].live
  {
    var sw := Sweep(xs, step);
    var survivors := Live(sw);
    SweepObject(xs, step, k);
    if sw[k].live {
      LiveHas(sw, k);
      var m :| 0 <= m < |survivors| && survivors[m] == (sw[k].obj, sw[k].state);
      assert Objects(survivors)[m] == xs[k].0;
    } else {
      forall m | 0 <= m < |survivors|
        ensures Objects(survivors)[m] != xs[k].0
      {
        LiveFrom(sw, survivors[m]);
        var j :| 0 <= j < |sw| && sw[j].live && survivors[m] == (sw[j].obj, sw[j].state);
        SweepObject(xs, step, j);
        assert Objects(xs)[j] == Objects(survivors)[m] && Objects(xs)[k] == xs[k].0;
      }
    }
  }

  /** The object spliced out of slot i of a repeat-free array is gone. */
  lemma {:induction false} RemovedSlotAbsent<T>(s: seq<T>, i: nat)
    requires Distinct(s) && i < |s|
    ensures s[i] !in s[..i] + s[i + 1..]
  {
    var r := s[..i] + s[i + 1..];
    forall k | 0 <= k < |r|
      ensures r[k] != s[i]
    {
      SlotAfterRemoval(s, i, k);
    }
  }

  /** The loop adds no object: every object left was in the array before. */
  lemma {:induction false} SweepAddsNothing<T, S>(xs: seq<(T, S)>, step: S -> (S, bool), e: (T, S))
    requires e in Live(Sweep(xs, step))
    ensures e.0 in Objects(xs)
  {
    LiveFrom(Sweep(xs, step), e);
    var j :| 0 <= j < |xs| && Sweep(xs, step)[j].live && e == (Sweep(xs, step)[j].obj, Sweep(xs, step)[j].state);
    SweepObject(xs, step, j);
    assert Objects(xs)[j] == e.0;
  }

  /** A removed slot was processed, and its body asked for the removal. */
  lemma {:induction false} RemovedOnlyByStep<T, S>(xs: seq<(T, S)>, step: S -> (S, bool), k: nat)
    requires k < |xs| && !Sweep(xs, step)[k].live
    ensures step(xs[k].1).1 && Sweep(xs, step)[k].state == step(xs[k].1).0
  {
    SweepSlot(xs, step, k);
    if k > 0 && !Sweep(xs, step)[k - 1].live {
      assert false;
    }
  }

  /** The object after a removed one is skipped: it stays, unchanged. */
  lemma {:induction false} SkipAfterRemoval<T, S>(xs: seq<(T, S)>, step: S -> (S, bool), k: nat)
    requires k + 1 < |xs| && !Sweep(xs, step)[k].live
    ensures Sweep(xs, step)[k + 1] == Entry(xs[k + 1].0, xs[k + 1].1, true)
  {
    SweepSlot(xs, step, k + 1);
  }

  /** When no body removes its object, every object is processed once and stays. */
  lemma {:induction false} SweepWithoutRemoval<T, S>(xs: seq<(T, S)>, step: S -> (S, bool))
    requires forall k :: 0 <= k < |xs| ==> !step(xs[k].1).1
    ensures Live(Sweep(xs, step)) == seq(|xs|, k requires 0 <= k < |xs| => (xs[k].0, step(xs[k].1).0))
    decreases |xs|
  {
    if xs != [] {
      assert !step(xs[0].1).1;
      SweepWithoutRemoval(xs[1..], step);
    }
  }

  /** Removals never take out two neighbours, so at least half of the
      objects (rounded down) are still there after the loop. */
  lemma {:induction false} SweepKeepsHalf<T, S>(xs: seq<(T, S)>, step: S -> (S, bool))
    ensures |xs| <= 2 * |Live(Sweep(xs, step))| + 1
    decreases |xs|
  {
    if xs != [] {
      var (next, gone) := step(xs[0].1);
      if !gone {
        SweepKeepsHalf(xs[1..], step);
      } else if |xs| > 1 {
        SweepKeepsHalf(xs[2..], step);
        var r := Sweep(xs, step);
        var tail := Sweep(xs[2..], step);
        assert r == [Entry(xs[0].0, next, false), Entry(xs[1].0, xs[1].1, true)] + tail;
        LiveAppend([Entry(xs[0].0, next, false), Entry(xs[1].0, xs[1].1, true)], tail);
      }
    }
  }
}
