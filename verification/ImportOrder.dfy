/** The order in which an import looks at a bundle (migrate_import.go): the
  * stable sort of planImports by request time, then id. */
module ImportOrder {
  import opened Model
  import LexOrder

  /** What an import needs to know of a legacy run. `built` is the terminal
    * execution it maps to under the current configuration, if any. */
  datatype LegacyRun = LegacyRun(id: string, requestedAt: Time, finished: bool, built: Option<Exec>)

  predicate Before(a: LegacyRun, b: LegacyRun) {
    if a.requestedAt == b.requestedAt then LexOrder.Less(a.id, b.id) else a.requestedAt < b.requestedAt
  }

  function Insert(x: LegacyRun, s: seq<LegacyRun>): seq<LegacyRun> {
    if s == [] || !Before(s[0], x) then [x] + s else [s[0]] + Insert(x, s[1..])
  }

  /** sort.SliceStable */
  function Sorted(s: seq<LegacyRun>): seq<LegacyRun> {
    if s == [] then [] else Insert(s[0], Sorted(s[1..]))
  }

  ghost predicate Ordered(s: seq<LegacyRun>) {
    forall i, j :: 0 <= i < j < |s| ==> !Before(s[j], s[i])
  }

  predicate SameRank(a: LegacyRun, b: LegacyRun) {
    a.requestedAt == b.requestedAt && a.id == b.id
  }

  /** The entries of one rank, in order. */
  function OfRank(s: seq<LegacyRun>, r: LegacyRun): seq<LegacyRun> {
    if s == [] then [] else (if SameRank(s[0], r) then [s[0]] else []) + OfRank(s[1..], r)
  }

  lemma Ranked(a: LegacyRun, b: LegacyRun)
    ensures Before(a, b) || Before(b, a) || SameRank(a, b)
    ensures !(Before(a, b) && Before(b, a)) && !(Before(a, b) && SameRank(a, b))
  {
    LexOrder.Total(a.id, b.id);
  }

  lemma BeforeTransitive(a: LegacyRun, b: LegacyRun, c: LegacyRun)
    requires Before(a, b) && Before(b, c)
    ensures Before(a, c)
  {
    if a.requestedAt == b.requestedAt == c.requestedAt { LexOrder.Transitive(a.id, b.id, c.id); }
  }

  lemma NotAfter(x: LegacyRun, a: LegacyRun, y: LegacyRun)
    requires !Before(a, x) && !Before(y, a)
    ensures !Before(y, x)
  {
    if Before(y, x) {
      Ranked(y, a);
      Ranked(a, x);
      if Before(a, y) { BeforeTransitive(a, y, x); }
    }
  }

  lemma PrependOrders(x: LegacyRun, s: seq<LegacyRun>)
    requires Ordered(s) && forall y :: y in s ==> !Before(y, x)
    ensures Ordered([x] + s)
  {
  }

  lemma {:induction false} InsertMembers(x: LegacyRun, s: seq<LegacyRun>)
    ensures forall y :: y in Insert(x, s) <==> y in s || y == x
  {
    if s != [] && Before(s[0], x) { InsertMembers(x, s[1..]); }
  }

  lemma {:induction false} InsertOrders(x: LegacyRun, s: seq<LegacyRun>)
    requires Ordered(s)
    ensures Ordered(Insert(x, s)) && multiset(Insert(x, s)) == multiset(s) + multiset{x}
  {
    if s != [] {
      assert s == [s[0]] + s[1..];
      if Before(s[0], x) {
        InsertOrders(x, s[1..]);
        InsertMembers(x, s[1..]);
        Ranked(s[0], x);
        PrependOrders(s[0], Insert(x, s[1..]));
      } else {
        forall y | y in s
          ensures !Before(y, x)
        {
          if y != s[0] { NotAfter(x, s[0], y); }
        }
        PrependOrders(x, s);
      }
    }
  }

  /** Inserting goes before everything of the same rank. */
  lemma {:induction false} InsertIsStable(x: LegacyRun, s: seq<LegacyRun>, r: LegacyRun)
    ensures OfRank(Insert(x, s), r) == (if SameRank(x, r) then [x] else []) + OfRank(s, r)
  {
    assert ([x] + s)[1..] == s;
    if s != [] && Before(s[0], x) {
      InsertIsStable(x, s[1..], r);
      Ranked(s[0], x);
      assert ([s[0]] + Insert(x, s[1..]))[1..] == Insert(x, s[1..]);
    }
  }

  /** The bundle's entries, in order of request time and id, and those of one
    * rank in the order of the bundle: which of two entries of a run comes first
    * does not depend on the sort. */
  lemma {:induction false} SortedIsStable(s: seq<LegacyRun>, r: LegacyRun)
    ensures Ordered(Sorted(s)) && multiset(Sorted(s)) == multiset(s) && OfRank(Sorted(s), r) == OfRank(s, r)
  {
    if s != [] {
      SortedIsStable(s[1..], r);
      InsertOrders(s[0], Sorted(s[1..]));
      InsertIsStable(s[0], Sorted(s[1..]), r);
      assert s == [s[0]] + s[1..];
    }
  }

  lemma {:induction false} SortedLength(s: seq<LegacyRun>)
    ensures |Sorted(s)| == |s|
  {
    if s != [] {
      SortedLength(s[1..]);
      InsertLength(s[0], Sorted(s[1..]));
    }
  }

  lemma {:induction false} InsertLength(x: LegacyRun, s: seq<LegacyRun>)
    ensures |Insert(x, s)| == |s| + 1
  {
    if s != [] && Before(s[0], x) { InsertLength(x, s[1..]); }
  }
}
