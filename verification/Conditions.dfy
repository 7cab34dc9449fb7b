/** The status conditions of a custom resource: a list that is kept as a set by condition type. */
module Conditions {
  import opened Wrappers

  datatype ConditionStatus = ConditionTrue | ConditionFalse | ConditionUnknown

  datatype Condition = Condition(
    typ: string,
    status: ConditionStatus,
    reason: string,
    message: string,
    lastTransitionTime: int)

  /** The position of the first condition of the type. */
  function Find(conds: seq<Condition>, t: string): (i: Option<nat>)
    ensures i.Some? ==> i.value < |conds| && conds[i.value].typ == t
    ensures i.None? <==> forall j :: 0 <= j < |conds| ==> conds[j].typ != t
  {
    if conds == [] then None
    else if conds[0].typ == t then Some(0)
    else match Find(conds[1..], t) case None => None case Some(i) => Some(i + 1)
  }

  function Lookup(conds: seq<Condition>, t: string): Option<Condition> {
    match Find(conds, t) case None => None case Some(i) => Some(conds[i])
  }

  lemma {:induction false} FindFirst(conds: seq<Condition>, t: string, i: nat)
    requires i < |conds| && conds[i].typ == t && forall j :: 0 <= j < i ==> conds[j].typ != t
    ensures Find(conds, t) == Some(i)
  {
    if i > 0 {
      FindFirst(conds[1..], t, i - 1);
    }
  }

  /** The list after SetCondition, and whether the caller is told about a change.  A condition that keeps its
      status keeps its transition time. */
  function Set(conds: seq<Condition>, c: Condition, now: int): (seq<Condition>, bool) {
    match Find(conds, c.typ)
    case None => (conds + [c.(lastTransitionTime := now)], true)
    case Some(i) =>
      var was := conds[i];
      var time := if was.status == c.status then was.lastTransitionTime else now;
      (conds[i := c.(lastTransitionTime := time)],
       was.status != c.status || was.reason != c.reason || was.message != c.message)
  }

  predicate Unique(conds: seq<Condition>) {
    forall i, j :: 0 <= i < j < |conds| ==> conds[i].typ != conds[j].typ
  }

  /** What a reader sees of a condition, its transition time aside. */
  predicate SameContent(a: Condition, b: Condition) {
    a.typ == b.typ && a.status == b.status && a.reason == b.reason && a.message == b.message
  }

  /** SetCondition keeps types unique, keeps every other entry in its place, stores the new content, and reports
      no change exactly if the list is the same as before, timestamps included. */
  lemma SetEffect(conds: seq<Condition>, c: Condition, now: int)
    ensures var (after, changed) := Set(conds, c, now);
            && (Unique(conds) ==> Unique(after))
            && |conds| <= |after| <= |conds| + 1
            && (forall i :: 0 <= i < |conds| && conds[i].typ != c.typ ==> after[i] == conds[i])
            && Lookup(after, c.typ).Some? && SameContent(Lookup(after, c.typ).value, c)
            && (changed <==> after != conds)
            && (!changed <==> Lookup(conds, c.typ).Some? && SameContent(Lookup(conds, c.typ).value, c))
  {
    var (after, changed) := Set(conds, c, now);
    match Find(conds, c.typ) {
      case None =>
        FindFirst(after, c.typ, |conds|);
      case Some(i) =>
        FirstIsFirst(conds, c.typ);
        FindFirst(after, c.typ, i);
        assert !changed ==> after[i] == conds[i];
        assert changed ==> after[i] != conds[i];
    }
  }

  lemma {:induction false} FirstIsFirst(conds: seq<Condition>, t: string)
    ensures Find(conds, t).Some? ==> forall j :: 0 <= j < Find(conds, t).value ==> conds[j].typ != t
  {
    if conds != [] && conds[0].typ != t {
      FirstIsFirst(conds[1..], t);
      forall j | 0 <= j < |conds| && Find(conds, t).Some? && j < Find(conds, t).value
        ensures conds[j].typ != t
      {
        if j > 0 {
          assert conds[j] == conds[1..][j - 1];
        }
      }
    }
  }

  /** SetCondition does not change what is found for any other type. */
  lemma SetKeepsOthers(conds: seq<Condition>, c: Condition, now: int, t: string)
    requires t != c.typ
    ensures Lookup(Set(conds, c, now).0, t) == Lookup(conds, t)
  {
    var after := Set(conds, c, now).0;
    FirstIsFirst(conds, t);
    if Find(conds, t).Some? {
      var i := Find(conds, t).value;
      assert forall j :: 0 <= j <= i ==> after[j].typ == conds[j].typ;
      FindFirst(after, t, i);
    }
  }

  /* ---------- Histories of SetCondition calls ---------- */

  datatype SetCall = SetCall(cond: Condition, now: int)

  /** The set after a history of calls on a set. */
  function After(init: seq<Condition>, calls: seq<SetCall>): seq<Condition>
    decreases |calls|
  {
    if calls == [] then init
    else
      var last := calls[|calls| - 1];
      Set(After(init, calls[..|calls| - 1]), last.cond, last.now).0
  }

  /** What the type shows: the latest call for it, or the condition it had at the start. */
  function Latest(init: seq<Condition>, calls: seq<SetCall>, t: string): Option<Condition>
    decreases |calls|
  {
    if calls == [] then Lookup(init, t)
    else if calls[|calls| - 1].cond.typ == t then Some(calls[|calls| - 1].cond)
    else Latest(init, calls[..|calls| - 1], t)
  }

  /** The time of the latest call that added the type or changed its status, or the one it had at the start. */
  function LatestTransition(init: seq<Condition>, calls: seq<SetCall>, t: string): Option<int>
    decreases |calls|
  {
    if calls == [] then
      match Lookup(init, t) case None => None case Some(c) => Some(c.lastTransitionTime)
    else
      var before, last := calls[..|calls| - 1], calls[|calls| - 1];
      if last.cond.typ == t
         && (Latest(init, before, t).None? || Latest(init, before, t).value.status != last.cond.status)
      then Some(last.now)
      else LatestTransition(init, before, t)
  }

  /** After any history of calls on any set the types are unique, and every type shows the content of its latest
      call and the time of the latest call that added it or changed its status; a type that was not set is as it
      was at the start. */
  lemma {:induction false} HistoryOfConditions(init: seq<Condition>, calls: seq<SetCall>, t: string)
    requires Unique(init)
    ensures Unique(After(init, calls))
    ensures match Lookup(After(init, calls), t)
            case None => Latest(init, calls, t).None?
            case Some(c) =>
              && Latest(init, calls, t).Some? && SameContent(c, Latest(init, calls, t).value)
              && LatestTransition(init, calls, t) == Some(c.lastTransitionTime)
    decreases |calls|
  {
    if calls != [] {
      var before, last := calls[..|calls| - 1], calls[|calls| - 1];
      var conds := After(init, before);
      HistoryOfConditions(init, before, t);
      SetEffect(conds, last.cond, last.now);
      if last.cond.typ == t {
        TimeAfterSet(conds, last.cond, last.now);
      } else {
        SetKeepsOthers(conds, last.cond, last.now, t);
      }
    }
  }

  lemma TimeAfterSet(conds: seq<Condition>, c: Condition, now: int)
    ensures var was, got := Lookup(conds, c.typ), Lookup(Set(conds, c, now).0, c.typ);
            got.Some? && got.value.lastTransitionTime ==
              if was.Some? && was.value.status == c.status then was.value.lastTransitionTime else now
  {
    var after := Set(conds, c, now).0;
    FirstIsFirst(conds, c.typ);
    match Find(conds, c.typ) {
      case None => FindFirst(after, c.typ, |conds|);
      case Some(i) => FindFirst(after, c.typ, i);
    }
  }

  /** With a clock that never goes back, a transition time is the one from the start or lies between the first and
      the last call. */
  lemma {:induction false} TransitionTimesArePast(init: seq<Condition>, calls: seq<SetCall>, t: string)
    requires forall i, j :: 0 <= i <= j < |calls| ==> calls[i].now <= calls[j].now
    ensures LatestTransition(init, calls, t) == LatestTransition(init, [], t)
            || (calls != [] && LatestTransition(init, calls, t).Some?
                && calls[0].now <= LatestTransition(init, calls, t).value <= calls[|calls| - 1].now)
    decreases |calls|
  {
    if calls != [] {
      TransitionTimesArePast(init, calls[..|calls| - 1], t);
    }
  }

  /* ---------- The order in which conditions are written ---------- */

  predicate Before(a: string, b: string) {
    if a == "" then b != ""
    else if b == "" then false
    else if a[0] != b[0] then a[0] < b[0]
    else Before(a[1..], b[1..])
  }

  lemma BeforeTotal(a: string, b: string)
    ensures a == b || Before(a, b) || Before(b, a)
    ensures !(Before(a, b) && Before(b, a))
    ensures Before(a, b) ==> a != b
  {
    if a != "" && b != "" {
      BeforeTotal(a[1..], b[1..]);
      assert a == [a[0]] + a[1..] && b == [b[0]] + b[1..];
    }
  }

  lemma BeforeTransitive(a: string, b: string, c: string)
    requires Before(a, b) && Before(b, c)
    ensures Before(a, c)
  {
  }

  /** The order of strings: at the first difference the smaller character, or the end, comes first. */
  predicate DifferAt(a: string, b: string, i: nat) {
    i <= |a| && i < |b| && a[..i] == b[..i] && (i == |a| || a[i] < b[i])
  }

  lemma {:induction false} BeforeDiffers(a: string, b: string) returns (i: nat)
    requires Before(a, b)
    ensures DifferAt(a, b, i)
  {
    if a != "" && a[0] == b[0] {
      i := BeforeDiffers(a[1..], b[1..]);
      assert a[..i + 1] == [a[0]] + a[1..][..i] && b[..i + 1] == [b[0]] + b[1..][..i];
      i := i + 1;
    } else {
      i := 0;
    }
  }

  lemma {:induction false} DiffersBefore(a: string, b: string, i: nat)
    requires DifferAt(a, b, i)
    ensures Before(a, b)
  {
    if i > 0 {
      assert a[0] == a[..i][0] == b[..i][0] == b[0];
      assert a[1..][..i - 1] == a[..i][1..] && b[1..][..i - 1] == b[..i][1..];
      DiffersBefore(a[1..], b[1..], i - 1);
    }
  }

  /** The order of the written conditions is that of strings. */
  lemma BeforeIff(a: string, b: string)
    ensures Before(a, b) <==> exists i :: DifferAt(a, b, i)
  {
    if Before(a, b) {
      var i := BeforeDiffers(a, b);
    }
    forall i | DifferAt(a, b, i)
      ensures Before(a, b)
    {
      DiffersBefore(a, b, i);
    }
  }

  predicate SortedByType(conds: seq<Condition>) {
    forall i, j :: 0 <= i < j < |conds| ==> Before(conds[i].typ, conds[j].typ)
  }

  function Insert(sorted: seq<Condition>, c: Condition): seq<Condition> {
    if sorted != [] && Before(sorted[0].typ, c.typ) then [sorted[0]] + Insert(sorted[1..], c)
    else [c] + sorted
  }

  /** The conditions in the order in which they are written. */
  function Sorted(conds: seq<Condition>): seq<Condition> {
    if conds == [] then [] else Insert(Sorted(conds[..|conds| - 1]), conds[|conds| - 1])
  }

  lemma {:induction false} InsertKeepsAll(sorted: seq<Condition>, c: Condition)
    ensures multiset(Insert(sorted, c)) == multiset(sorted) + multiset{c}
  {
    if sorted != [] && Before(sorted[0].typ, c.typ) {
      InsertKeepsAll(sorted[1..], c);
      assert sorted == [sorted[0]] + sorted[1..];
    }
  }

  lemma PrependKeepsOrder(first: Condition, rest: seq<Condition>)
    requires SortedByType(rest) && forall x :: x in rest ==> Before(first.typ, x.typ)
    ensures SortedByType([first] + rest)
  {
  }

  lemma {:induction false} InsertKeepsOrder(sorted: seq<Condition>, c: Condition)
    requires SortedByType(sorted) && forall x :: x in sorted ==> x.typ != c.typ
    ensures SortedByType(Insert(sorted, c))
  {
    if sorted != [] && Before(sorted[0].typ, c.typ) {
      var rest := Insert(sorted[1..], c);
      InsertKeepsOrder(sorted[1..], c);
      InsertKeepsAll(sorted[1..], c);
      forall x | x in rest
        ensures Before(sorted[0].typ, x.typ)
      {
        assert x in multiset(rest);
        assert x == c || x in sorted[1..];
      }
      PrependKeepsOrder(sorted[0], rest);
    } else {
      forall x | x in sorted
        ensures Before(c.typ, x.typ)
      {
        assert sorted[0] in sorted;
        BeforeTotal(sorted[0].typ, c.typ);
        if x != sorted[0] {
          BeforeTransitive(c.typ, sorted[0].typ, x.typ);
        }
      }
      PrependKeepsOrder(c, sorted);
    }
  }

  lemma LastIsNew(before: seq<Condition>, last: Condition, sorted: seq<Condition>)
    requires Unique(before + [last]) && multiset(sorted) == multiset(before)
    ensures forall x :: x in sorted ==> x.typ != last.typ
  {
    forall x | x in sorted
      ensures x.typ != last.typ
    {
      assert x in multiset(sorted) && x in multiset(before);
      var i :| 0 <= i < |before| && before[i] == x;
      assert (before + [last])[i] == x && (before + [last])[|before|] == last;
    }
  }

  /** Sorting orders the conditions by type and neither loses nor invents one. */
  lemma {:induction false} SortedOrdersAll(conds: seq<Condition>)
    requires Unique(conds)
    ensures SortedByType(Sorted(conds)) && multiset(Sorted(conds)) == multiset(conds)
    decreases |conds|
  {
    if conds != [] {
      var before, last := conds[..|conds| - 1], conds[|conds| - 1];
      SortedOrdersAll(before);
      assert conds == before + [last];
      LastIsNew(before, last, Sorted(before));
      InsertKeepsOrder(Sorted(before), last);
      InsertKeepsAll(Sorted(before), last);
    }
  }

  lemma TailOf(a: seq<Condition>)
    requires a != []
    ensures a == [a[0]] + a[1..] && multiset(a[1..]) == multiset(a) - multiset{a[0]}
  {
    assert a == [a[0]] + a[1..];
  }

  lemma {:induction false} HeadsAgree(a: seq<Condition>, b: seq<Condition>)
    requires SortedByType(a) && SortedByType(b) && multiset(a) == multiset(b) && a != [] && b != []
    ensures a[0] == b[0]
  {
    assert a[0] in multiset(b) && b[0] in multiset(a);
    var i :| 0 <= i < |b| && b[i] == a[0];
    var j :| 0 <= j < |a| && a[j] == b[0];
    if i != 0 && j != 0 {
      BeforeTotal(a[0].typ, b[0].typ);
    }
  }

  /** The written form depends only on the set: two lists of the same conditions are sorted into the same list. */
  lemma {:induction false} SortedFormIsUnique(a: seq<Condition>, b: seq<Condition>)
    requires SortedByType(a) && SortedByType(b) && multiset(a) == multiset(b)
    ensures a == b
    decreases |a|
  {
    assert |multiset(a)| == |a| && |multiset(b)| == |b|;
    if a != [] {
      HeadsAgree(a, b);
      TailOf(a);
      TailOf(b);
      SortedFormIsUnique(a[1..], b[1..]);
    }
  }

  lemma FoundInBoth(a: seq<Condition>, b: seq<Condition>, t: string)
    requires multiset(a) == multiset(b) && Find(a, t).Some?
    ensures Find(b, t).Some?
  {
    var i := Find(a, t).value;
    assert a[i] in multiset(b);
    var j :| 0 <= j < |b| && b[j] == a[i];
  }

  /** What is found for a type depends on the set and not on its order. */
  lemma LookupIgnoresOrder(a: seq<Condition>, b: seq<Condition>, t: string)
    requires Unique(a) && Unique(b) && multiset(a) == multiset(b)
    ensures Lookup(a, t) == Lookup(b, t)
  {
    if Find(a, t).Some? {
      FoundInBoth(a, b, t);
      var i := Find(a, t).value;
      assert a[i] in multiset(b);
      var j :| 0 <= j < |b| && b[j] == a[i];
    }
    if Find(b, t).Some? {
      FoundInBoth(b, a, t);
    }
  }

  lemma SortedIsUnique(conds: seq<Condition>)
    requires SortedByType(conds)
    ensures Unique(conds)
  {
    forall i, j | 0 <= i < j < |conds|
      ensures conds[i].typ != conds[j].typ
    {
      BeforeTotal(conds[i].typ, conds[j].typ);
    }
  }

  /** A condition that sorts behind the entry at `i` is inserted into the entries after it. */
  lemma InsertBehind(sorted: seq<Condition>, i: nat, c: Condition)
    requires i < |sorted| && Before(sorted[i].typ, c.typ)
    ensures sorted[..i] + Insert(sorted[i..], c) == sorted[..i + 1] + Insert(sorted[i + 1..], c)
  {
    var rest := sorted[i..];
    assert rest[0] == sorted[i] && rest[1..] == sorted[i + 1..];
    assert Insert(rest, c) == [sorted[i]] + Insert(sorted[i + 1..], c);
  }

  class ConditionSet {
    var conds: seq<Condition>

    constructor ()
      ensures conds == []
    {
      conds := [];
    }

    method SetCondition(newCond: Condition, now: int) returns (changed: bool)
      modifies this
      ensures (conds, changed) == Set(old(conds), newCond, now)
    {
      var c := newCond.(lastTransitionTime := now);
      var i := 0;
      while i < |conds|
        invariant 0 <= i <= |conds| && conds == old(conds)
        invariant forall j :: 0 <= j < i ==> conds[j].typ != newCond.typ
      {
        var was := conds[i];
        if was.typ == newCond.typ {
          FindFirst(conds, newCond.typ, i);
          if was.status == newCond.status {
            c := c.(lastTransitionTime := was.lastTransitionTime);
          }
          conds := conds[i := c];
          return was.status != newCond.status || was.reason != newCond.reason || was.message != newCond.message;
        }
        i := i + 1;
      }
      conds := conds + [c];
      return true;
    }

    method RemoveCondition(t: string) returns (removed: bool)
      modifies this
      ensures removed <==> Find(old(conds), t).Some?
      ensures removed ==> var i := Find(old(conds), t).value; conds == old(conds)[..i] + old(conds)[i + 1..]
      ensures !removed ==> conds == old(conds)
    {
      var i := 0;
      while i < |conds|
        invariant 0 <= i <= |conds| && conds == old(conds)
        invariant forall j :: 0 <= j < i ==> conds[j].typ != t
      {
        if conds[i].typ == t {
          FindFirst(conds, t, i);
          conds := conds[..i] + conds[i + 1..];
          return true;
        }
        i := i + 1;
      }
      return false;
    }

    method GetCondition(t: string) returns (found: Option<Condition>)
      ensures found == Lookup(conds, t)
    {
      var i := 0;
      while i < |conds|
        invariant 0 <= i <= |conds|
        invariant forall j :: 0 <= j < i ==> conds[j].typ != t
      {
        if conds[i].typ == t {
          FindFirst(conds, t, i);
          return Some(conds[i]);
        }
        i := i + 1;
      }
      return None;
    }

    /** Before the conditions are written they are sorted by type, in place. */
    method SortForWriting()
      requires Unique(conds)
      modifies this
      ensures conds == Sorted(old(conds))
      ensures SortedByType(conds) && multiset(conds) == multiset(old(conds))
    {
      var sorted: seq<Condition> := [];
      var n := 0;
      while n < |conds|
        invariant 0 <= n <= |conds| && conds == old(conds)
        invariant sorted == Sorted(conds[..n])
      {
        assert conds[..n + 1][..n] == conds[..n];
        sorted := InsertSorted(sorted, conds[n]);
        n := n + 1;
      }
      assert conds[..n] == conds;
      SortedOrdersAll(conds);
      conds := sorted;
    }

    method InsertSorted(sorted: seq<Condition>, c: Condition) returns (result: seq<Condition>)
      ensures result == Insert(sorted, c)
    {
      var i := 0;
      while i < |sorted| && Before(sorted[i].typ, c.typ)
        invariant 0 <= i <= |sorted|
        invariant Insert(sorted, c) == sorted[..i] + Insert(sorted[i..], c)
      {
        InsertBehind(sorted, i, c);
        i := i + 1;
      }
      result := sorted[..i] + [c] + sorted[i..];
    }
  }
}
