/** Pruning of terminal history, shared by the controller store
  * (ctrlstore.go pruneExecutions) and the legacy runner
  * (runner.go pruneHistoryLocked). */
module History {

  const DEFAULT_MAX_HISTORY: nat := 5000

  function NormalizeMaxHistory(maxHistory: int): (n: nat)
    ensures n > 0 && (maxHistory > 0 ==> n == maxHistory)
  {
    if maxHistory <= 0 then DEFAULT_MAX_HISTORY else maxHistory
  }

  function Count<T>(s: seq<T>, done: T -> bool): (n: nat)
    ensures n <= |s|
  {
    if |s| == 0 then 0 else (if done(s[0]) then 1 else 0) + Count(s[1..], done)
  }

  /** Drops the first k finished entries. */
  function Drop<T>(s: seq<T>, done: T -> bool, k: nat): seq<T> {
    if |s| == 0 || k == 0 then s
    else if done(s[0]) then Drop(s[1..], done, k - 1)
    else [s[0]] + Drop(s[1..], done, k)
  }

  /** The entries Drop removes. */
  function Dropped<T>(s: seq<T>, done: T -> bool, k: nat): seq<T> {
    if |s| == 0 || k == 0 then []
    else if done(s[0]) then [s[0]] + Dropped(s[1..], done, k - 1)
    else Dropped(s[1..], done, k)
  }

  function Excess<T>(s: seq<T>, done: T -> bool, cap: nat): nat {
    var c := Count(s, done);
    if c > cap then c - cap else 0
  }

  /** pruneExecutions: what is left under a cap on terminal entries. */
  function Prune<T>(s: seq<T>, done: T -> bool, cap: nat): seq<T> {
    Drop(s, done, Excess(s, done, cap))
  }

  // ---- an independent description of pruning ------------------------------

  /** The order-preserving selection of the positions where keep holds. */
  function Select<T>(s: seq<T>, keep: seq<bool>): seq<T>
    requires |keep| == |s|
  {
    if |s| == 0 then []
    else (if keep[0] then [s[0]] else []) + Select(s[1..], keep[1..])
  }

  /** Position i survives unless it is finished and fewer than k finished
    * entries come before it. */
  function Survives<T>(s: seq<T>, done: T -> bool, k: nat): (keep: seq<bool>)
    ensures |keep| == |s|
  {
    seq(|s|, i requires 0 <= i < |s| => !done(s[i]) || Count(s[..i], done) >= k)
  }

  lemma {:induction false} CountAppend<T>(s: seq<T>, t: seq<T>, done: T -> bool)
    ensures Count(s + t, done) == Count(s, done) + Count(t, done)
  {
    if |s| == 0 {
      assert s + t == t;
    } else {
      assert (s + t)[1..] == s[1..] + t;
      CountAppend(s[1..], t, done);
    }
  }

  /** Pruning removes exactly the finished entries of rank below the excess,
    * and keeps every other entry in order. */
  lemma {:induction false} DropIsSelection<T>(s: seq<T>, done: T -> bool, k: nat)
    ensures Drop(s, done, k) == Select(s, Survives(s, done, k))
  {
    if |s| > 0 {
      var d := if done(s[0]) then 1 else 0;
      var rest := s[1..];
      var k' := if k >= d then k - d else 0;
      forall i | 0 <= i < |rest|
        ensures Survives(s, done, k)[i + 1] == Survives(rest, done, k')[i]
      {
        assert s[..i + 1] == [s[0]] + rest[..i];
        CountAppend([s[0]], rest[..i], done);
      }
      assert Survives(s, done, k)[1..] == Survives(rest, done, k');
      assert s[..0] == [];
      DropIsSelection(rest, done, k');
    }
  }

  lemma {:induction false} DropCounts<T>(s: seq<T>, done: T -> bool, k: nat)
    ensures Count(Drop(s, done, k), done) == (if Count(s, done) > k then Count(s, done) - k else 0)
  {
    if |s| == 0 || k == 0 {
    } else if done(s[0]) {
      DropCounts(s[1..], done, k - 1);
    } else {
      DropCounts(s[1..], done, k);
      CountAppend([s[0]], Drop(s[1..], done, k), done);
    }
  }

  /** Nothing is invented or lost, and only finished entries are removed. */
  lemma {:induction false} DropPartitions<T>(s: seq<T>, done: T -> bool, k: nat)
    ensures multiset(s) == multiset(Drop(s, done, k)) + multiset(Dropped(s, done, k))
    ensures forall x :: x in Dropped(s, done, k) ==> done(x)
  {
    if |s| == 0 || k == 0 {
    } else {
      assert s == [s[0]] + s[1..];
      DropPartitions(s[1..], done, if done(s[0]) then k - 1 else k);
    }
  }

  lemma {:induction false} DropMembers<T>(s: seq<T>, done: T -> bool, k: nat)
    ensures forall x :: x in Drop(s, done, k) ==> x in s
    ensures forall x :: x in s && !done(x) ==> x in Drop(s, done, k)
  {
    if |s| == 0 || k == 0 {
    } else {
      DropMembers(s[1..], done, if done(s[0]) then k - 1 else k);
    }
  }

  /** After pruning at most `cap` finished entries remain, nothing unfinished
    * is lost, and a list within the cap is left alone. */
  lemma PruneMeetsCap<T>(s: seq<T>, done: T -> bool, cap: nat)
    ensures Count(Prune(s, done, cap), done) == (if Count(s, done) > cap then cap else Count(s, done))
    ensures Count(s, done) <= cap ==> Prune(s, done, cap) == s
    ensures forall x :: x in s && !done(x) ==> x in Prune(s, done, cap)
    ensures forall x :: x in Prune(s, done, cap) ==> x in s
    ensures Prune(Prune(s, done, cap), done, cap) == Prune(s, done, cap)
  {
    var k := Excess(s, done, cap);
    DropCounts(s, done, k);
    DropMembers(s, done, k);
  }

  /** One step of the copying loop of pruneExecutions: processing the next
    * entry of the prefix with `remove` still to go. */
  lemma {:induction false} DropSnoc<T>(s: seq<T>, x: T, done: T -> bool, k: nat)
    ensures Drop(s + [x], done, k) ==
            if done(x) && Count(s, done) < k then Drop(s, done, k) else Drop(s, done, k) + [x]
    ensures Dropped(s + [x], done, k) ==
            if done(x) && Count(s, done) < k then Dropped(s, done, k) + [x] else Dropped(s, done, k)
  {
    if |s| == 0 {
      assert s + [x] == [x];
    } else if k == 0 {
    } else {
      assert (s + [x])[1..] == s[1..] + [x];
      if done(s[0]) {
        DropSnoc(s[1..], x, done, k - 1);
      } else {
        DropSnoc(s[1..], x, done, k);
      }
    }
  }

  /** One more entry of a scan that counts finished entries. */
  lemma CountNext<T>(all: seq<T>, i: nat, done: T -> bool)
    requires i < |all|
    ensures Count(all[..i + 1], done) == Count(all[..i], done) + (if done(all[i]) then 1 else 0)
  {
    assert all[..i + 1] == all[..i] + [all[i]];
    CountAppend(all[..i], [all[i]], done);
  }

  /** One more entry of a scan that drops the first k finished entries. */
  lemma DropNext<T>(all: seq<T>, i: nat, done: T -> bool, k: nat)
    requires i < |all|
    ensures var removed := done(all[i]) && Count(all[..i], done) < k;
      && Drop(all[..i + 1], done, k) == (if removed then Drop(all[..i], done, k) else Drop(all[..i], done, k) + [all[i]])
      && Dropped(all[..i + 1], done, k) == (if removed then Dropped(all[..i], done, k) + [all[i]] else Dropped(all[..i], done, k))
  {
    assert all[..i + 1] == all[..i] + [all[i]];
    DropSnoc(all[..i], all[i], done, k);
  }

  // ---- compaction by position -----------------------------------------------------

  /** The entries at these positions. */
  function Picked<T>(s: seq<T>, pos: seq<nat>): (r: seq<T>)
    requires forall j :: 0 <= j < |pos| ==> pos[j] < |s|
    ensures |r| == |pos| && forall j :: 0 <= j < |pos| ==> r[j] == s[pos[j]]
  {
    seq(|pos|, j requires 0 <= j < |pos| => s[pos[j]])
  }

  /** Entry i is among the first k finished ones. */
  predicate DropsAt<T>(s: seq<T>, i: nat, done: T -> bool, k: nat)
    requires i < |s|
  {
    done(s[i]) && Count(s[..i], done) < k
  }

  /** The positions kept of the first i entries when k finished ones are dropped. */
  function KeptPositions<T>(s: seq<T>, i: nat, done: T -> bool, k: nat): (pos: seq<nat>)
    requires i <= |s|
    ensures |pos| <= i && forall j :: 0 <= j < |pos| ==> pos[j] < i
  {
    if i == 0 then []
    else KeptPositions(s, i - 1, done, k) + if DropsAt(s, i - 1, done, k) then [] else [i - 1]
  }

  function LeftToDrop<T>(s: seq<T>, i: nat, done: T -> bool, k: nat): nat
    requires i <= |s|
  {
    var seen := Count(s[..i], done);
    if seen < k then k - seen else 0
  }

  lemma LeftNext<T>(s: seq<T>, i: nat, done: T -> bool, k: nat)
    requires i < |s|
    ensures DropsAt(s, i, done, k) <==> LeftToDrop(s, i, done, k) > 0 && done(s[i])
    ensures LeftToDrop(s, i + 1, done, k) == LeftToDrop(s, i, done, k) - if DropsAt(s, i, done, k) then 1 else 0
  {
    CountNext(s, i, done);
  }

  /** Picking the kept positions is dropping. */
  lemma {:induction false} PickedIsDropped<T>(s: seq<T>, i: nat, done: T -> bool, k: nat)
    requires i <= |s|
    ensures Picked(s, KeptPositions(s, i, done, k)) == Drop(s[..i], done, k)
  {
    if i > 0 {
      PickedIsDropped(s, i - 1, done, k);
      DropNext(s, i - 1, done, k);
      var pos := KeptPositions(s, i - 1, done, k);
      assert Picked(s, pos + [i - 1]) == Picked(s, pos) + [s[i - 1]];
    }
  }
}
