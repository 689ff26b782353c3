/** Boards in rank order: the sort, the ranks, the projected rank and the windows a client asks for. */
module Rankings {
  import opened Common
  import opened Sorting
  import opened Leaderboard

  // ---- The order --------------------------------------------------------------------------------

  /** The comparison handed to the sort: the better score first, then whoever got there first. */
  predicate RanksBefore(a: Entry, b: Entry, orderBy: UInt8) {
    if a.score != b.score then BetterThan(a.score, b.score, orderBy) else a.updateTime < b.updateTime
  }

  function ScoreKey(orderBy: UInt8): UInt32 -> nat {
    (score: UInt32) => if orderBy == DESCENDING then TWO32 - 1 - score else score
  }

  /** One number that orders entries as the comparison does. */
  function RankKey(orderBy: UInt8): Entry -> int {
    (e: Entry) => ScoreKey(orderBy)(e.score) * 0x1_0000_0000_0000_0000 + e.updateTime
  }

  lemma RankKeyIsTheComparison(a: Entry, b: Entry, orderBy: UInt8)
    ensures RanksBefore(a, b, orderBy) <==> RankKey(orderBy)(a) < RankKey(orderBy)(b)
    ensures RankKey(orderBy)(a) == RankKey(orderBy)(b) <==> a.score == b.score && a.updateTime == b.updateTime
  {
    var x, y: int := ScoreKey(orderBy)(a.score), ScoreKey(orderBy)(b.score);
    assert BetterThan(a.score, b.score, orderBy) <==> x < y;
    assert a.score == b.score <==> x == y;
  }

  /** A category's entries as one walk over the map meets them. */
  function Listed(entries: Entries, order: seq<UInt64>): seq<Entry>
    requires forall p :: p in order ==> p in entries
  {
    seq(|order|, i requires 0 <= i < |order| => entries[order[i]])
  }

  function OrderingOf(listed: seq<Entry>): UInt8 { if listed == [] then 0 else listed[0].orderBy }

  function Ranked(listed: seq<Entry>): seq<Entry> { StableSort(listed, RankKey(OrderingOf(listed))) }

  /** Entries under their own player, all with one ordering. */
  ghost predicate OneOrdering(entries: Entries, orderBy: UInt8) {
    forall p :: p in entries ==> entries[p].pid == p && entries[p].orderBy == orderBy
  }

  /** A category that only ever saw one ordering has one, under whatever run of uploads and deletions. */
  lemma {:induction false} RunKeepsOneOrdering(ops: seq<Op>, category: UInt32, orderBy: UInt8)
    requires forall op :: op in ops && op.Upload? && op.data.category == category ==> op.data.orderBy == orderBy
    ensures OneOrdering(EntriesOf(After(Leaderboard.EMPTY, ops), category), orderBy)
  {
    if ops == [] {
    } else {
      assert Last(ops) in ops && forall op :: op in Init(ops) ==> op in ops;
      RunKeepsOneOrdering(Init(ops), category, orderBy);
    }
  }

  /** A list that holds a one-ordering category's entries once each, best first. */
  ghost predicate IsBoard(ordered: seq<Entry>, entries: Entries, orderBy: UInt8) {
    && OneOrdering(entries, orderBy)
    && |ordered| == |entries|
    && (forall e: Entry :: e in ordered <==> e.pid in entries && entries[e.pid] == e)
    && (forall i, j :: 0 <= i < j < |ordered| ==> ordered[i].pid != ordered[j].pid)
    && (forall i, j :: 0 <= i < j < |ordered| ==> !RanksBefore(ordered[j], ordered[i], orderBy))
  }

  lemma {:induction false} KeysCounted<T>(order: seq<T>)
    requires NoDuplicates(order)
    ensures |SetOf(order)| == |order|
  {
    if order == [] {
    } else {
      KeysCounted(Init(order));
      assert order == Init(order) + [Last(order)];
      assert SetOf(order) == SetOf(Init(order)) + {Last(order)};
      assert Last(order) !in SetOf(Init(order));
    }
  }

  /** Whatever order the map is walked in, the board is the same up to ties. */
  lemma RankedIsBoard(entries: Entries, order: seq<UInt64>, orderBy: UInt8)
    requires OneOrdering(entries, orderBy) && Enumerates(order, entries.Keys)
    ensures (forall p :: p in order ==> p in entries) && IsBoard(Ranked(Listed(entries, order)), entries, orderBy)
  {
    forall p | p in order ensures p in entries { assert p in SetOf(order); }
    forall p | p in entries ensures p in order { assert p in SetOf(order); }
    var listed := Listed(entries, order);
    KeysCounted(order);
    ListedOnce(entries, order, orderBy);
    SortingMakesBoard(listed, entries, orderBy);
  }

  lemma SortingMakesBoard(listed: seq<Entry>, entries: Entries, orderBy: UInt8)
    requires OneOrdering(entries, orderBy) && |listed| == |entries|
    requires listed != [] ==> OrderingOf(listed) == orderBy
    requires forall e: Entry :: e in listed <==> e.pid in entries && entries[e.pid] == e
    requires forall i, j :: 0 <= i < j < |listed| ==> listed[i].pid != listed[j].pid
    ensures IsBoard(Ranked(listed), entries, orderBy)
  {
    var key := RankKey(OrderingOf(listed));
    StableSortCorrect(listed, key);
    StableSortMembers(listed, key);
    hide StableSort, RankKey;
    SortedStaysDistinct(listed, StableSort(listed, key));
    SortedIsOrdered(StableSort(listed, key), orderBy, OrderingOf(listed));
  }

  lemma ListedOnce(entries: Entries, order: seq<UInt64>, orderBy: UInt8)
    requires OneOrdering(entries, orderBy) && NoDuplicates(order)
    requires forall p :: p in order <==> p in entries
    ensures |Listed(entries, order)| == |order|
    ensures Listed(entries, order) != [] ==> OrderingOf(Listed(entries, order)) == orderBy
    ensures forall e: Entry :: e in Listed(entries, order) <==> e.pid in entries && entries[e.pid] == e
    ensures forall i, j :: 0 <= i < j < |order| ==> Listed(entries, order)[i].pid != Listed(entries, order)[j].pid
  {
    var listed := Listed(entries, order);
    forall e: Entry | e.pid in entries && entries[e.pid] == e ensures e in listed {
      var i :| 0 <= i < |order| && order[i] == e.pid;
      assert listed[i] == e;
    }
    forall i | 0 <= i < |order| ensures listed[i].pid == order[i] && listed[i] == entries[order[i]] {
      assert order[i] in order;
    }
  }

  /** A rearrangement of entries of distinct players has distinct players. */
  lemma SortedStaysDistinct(listed: seq<Entry>, sorted: seq<Entry>)
    requires multiset(sorted) == multiset(listed)
    requires forall i, j :: 0 <= i < j < |listed| ==> listed[i].pid != listed[j].pid
    ensures forall i, j :: 0 <= i < j < |sorted| ==> sorted[i].pid != sorted[j].pid
  {
    forall i, j | 0 <= i < j < |sorted| ensures sorted[i].pid != sorted[j].pid {
      var a, b := sorted[i], sorted[j];
      assert a in multiset(sorted) && b in multiset(sorted);
      assert a in listed && b in listed;
      CountOnce(listed, a);
      CountedOnce(sorted, i, j);
    }
  }

  lemma CountedOnce(sorted: seq<Entry>, i: nat, j: nat)
    requires i < j < |sorted| && multiset(sorted)[sorted[i]] <= 1
    ensures sorted[i] != sorted[j]
  {
    assert sorted == sorted[..i] + [sorted[i]] + sorted[i + 1..j] + [sorted[j]] + sorted[j + 1..];
  }

  lemma {:induction false} CountOnce(listed: seq<Entry>, e: Entry)
    requires forall i, j :: 0 <= i < j < |listed| ==> listed[i].pid != listed[j].pid
    ensures multiset(listed)[e] <= 1
  {
    if listed == [] {
    } else {
      CountOnce(Init(listed), e);
      assert listed == Init(listed) + [Last(listed)];
      if Last(listed) == e {
        assert forall k :: 0 <= k < |listed| - 1 ==> Init(listed)[k].pid != e.pid;
        assert e !in Init(listed);
      }
    }
  }

  lemma SortedIsOrdered(sorted: seq<Entry>, orderBy: UInt8, used: UInt8)
    requires SortedBy(sorted, RankKey(used)) && (sorted != [] ==> used == orderBy)
    ensures forall i, j :: 0 <= i < j < |sorted| ==> !RanksBefore(sorted[j], sorted[i], orderBy)
  {
    forall i, j | 0 <= i < j < |sorted| ensures !RanksBefore(sorted[j], sorted[i], orderBy) {
      RankKeyIsTheComparison(sorted[j], sorted[i], orderBy);
    }
  }

  // ---- Ranks ------------------------------------------------------------------------------------

  /** The rank that the loop gives to the entry at a position: a tied score repeats the one before. */
  function RankAt(ordered: seq<Entry>, i: nat, standard: bool): UInt32
    requires i < |ordered|
  {
    if standard && i > 0 && ordered[i].score == ordered[i - 1].score then RankAt(ordered, i - 1, standard)
    else U32(i + 1)
  }

  function Ranks(ordered: seq<Entry>, standard: bool): map<UInt64, UInt32> {
    if ordered == [] then map[]
    else Ranks(Init(ordered), standard)[Last(ordered).pid := RankAt(ordered, |ordered| - 1, standard)]
  }

  /** The players whose score beats a given one. */
  function Ahead(entries: Entries, score: UInt32, orderBy: UInt8): set<UInt64> {
    set p | p in entries && BetterThan(entries[p].score, score, orderBy)
  }

  /** Competition rank: one more than the number of strictly better scores. */
  function Standing(entries: Entries, score: UInt32, orderBy: UInt8): nat { 1 + |Ahead(entries, score, orderBy)| }

  lemma {:induction false} RankAtPrefix(ordered: seq<Entry>, n: nat, i: nat, standard: bool)
    requires i < n <= |ordered|
    ensures RankAt(ordered[..n], i, standard) == RankAt(ordered, i, standard)
  {
    if !standard || i == 0 || ordered[i].score != ordered[i - 1].score {
    } else {
      RankAtPrefix(ordered, n, i - 1, standard);
    }
  }

  lemma {:induction false} RanksFindsEach(ordered: seq<Entry>, i: nat, standard: bool)
    requires i < |ordered|
    requires forall i, j :: 0 <= i < j < |ordered| ==> ordered[i].pid != ordered[j].pid
    ensures ordered[i].pid in Ranks(ordered, standard)
    ensures Ranks(ordered, standard)[ordered[i].pid] == RankAt(ordered, i, standard)
  {
    if i == |ordered| - 1 {
    } else {
      RanksFindsEach(Init(ordered), i, standard);
      RankAtPrefix(ordered, |ordered| - 1, i, standard);
    }
  }

  /** The first position with the same score, which gives the loop's rank. */
  lemma {:induction false} FirstOfTie(ordered: seq<Entry>, i: nat) returns (first: nat)
    requires i < |ordered|
    ensures first <= i && RankAt(ordered, i, true) == U32(first + 1)
    ensures ordered[first].score == ordered[i].score
    ensures first > 0 ==> ordered[first - 1].score != ordered[first].score
  {
    if i > 0 && ordered[i].score == ordered[i - 1].score {
      first := FirstOfTie(ordered, i - 1);
    } else {
      first := i;
    }
  }

  function Players(ordered: seq<Entry>): seq<UInt64> {
    seq(|ordered|, i requires 0 <= i < |ordered| => ordered[i].pid)
  }

  /** The rank in the loop is the competition rank, for every order the map was walked in. */
  lemma RankIsStanding(ordered: seq<Entry>, entries: Entries, orderBy: UInt8, i: nat)
    requires IsBoard(ordered, entries, orderBy) && i < |ordered|
    ensures RankAt(ordered, i, true) == U32(Standing(entries, ordered[i].score, orderBy))
  {
    var first := FirstOfTie(ordered, i);
    hide IsBoard, RankAt, Standing, U32;
    FirstIsStanding(ordered, entries, orderBy, first);
  }

  lemma FirstIsStanding(ordered: seq<Entry>, entries: Entries, orderBy: UInt8, first: nat)
    requires IsBoard(ordered, entries, orderBy) && first < |ordered|
    requires first > 0 ==> ordered[first - 1].score != ordered[first].score
    ensures first + 1 == Standing(entries, ordered[first].score, orderBy)
  {
    AheadIsPrefix(ordered, entries, orderBy, first);
    DistinctPlayers(ordered, first);
    hide IsBoard, Ahead, Players;
    KeysCounted(Players(ordered[..first]));
  }

  lemma DistinctPlayers(ordered: seq<Entry>, n: nat)
    requires n <= |ordered|
    requires forall i, j :: 0 <= i < j < |ordered| ==> ordered[i].pid != ordered[j].pid
    ensures NoDuplicates(Players(ordered[..n])) && |Players(ordered[..n])| == n
  {
  }

  lemma AheadIsPrefix(ordered: seq<Entry>, entries: Entries, orderBy: UInt8, first: nat)
    requires IsBoard(ordered, entries, orderBy) && first < |ordered|
    requires first > 0 ==> ordered[first - 1].score != ordered[first].score
    ensures SetOf(Players(ordered[..first])) == Ahead(entries, ordered[first].score, orderBy)
  {
    var ahead := Players(ordered[..first]);
    forall p | p in ahead ensures p in Ahead(entries, ordered[first].score, orderBy) {
      var j :| 0 <= j < |ahead| && ahead[j] == p;
      assert first > 0;
      AheadOfTie(ordered, orderBy, first, j);
      assert ordered[j] in ordered;
    }
    forall p | p in Ahead(entries, ordered[first].score, orderBy) ensures p in ahead {
      PositionAhead(ordered, entries, orderBy, first, p);
    }
  }

  lemma AheadOfTie(ordered: seq<Entry>, orderBy: UInt8, first: nat, j: nat)
    requires forall i, j :: 0 <= i < j < |ordered| ==> !RanksBefore(ordered[j], ordered[i], orderBy)
    requires j < first < |ordered| && ordered[first - 1].score != ordered[first].score
    ensures BetterThan(ordered[j].score, ordered[first].score, orderBy)
  {
    assert !RanksBefore(ordered[first], ordered[first - 1], orderBy);
    if j < first - 1 { assert !RanksBefore(ordered[first - 1], ordered[j], orderBy); }
  }

  lemma PositionAhead(ordered: seq<Entry>, entries: Entries, orderBy: UInt8, first: nat, p: UInt64)
    requires IsBoard(ordered, entries, orderBy) && first < |ordered|
    requires p in Ahead(entries, ordered[first].score, orderBy)
    ensures p in Players(ordered[..first])
  {
    assert forall j :: first < j < |ordered| ==> !RanksBefore(ordered[j], ordered[first], orderBy);
    assert entries[p] in ordered;
    var j :| 0 <= j < |ordered| && ordered[j] == entries[p];
    assert j < first;
    assert Players(ordered[..first])[j] == p;
  }
}
