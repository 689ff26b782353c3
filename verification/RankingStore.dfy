/** The leaderboard store as the server runs it: nested maps updated step by step, a file that follows them,
    and queries that sort, rank and cut a category's entries. */
module RankingStore {
  import opened Common
  import opened Sorting
  import opened Leaderboard
  import opened Rankings
  import opened Standings
  import opened Persistence

  datatype OrderParam = OrderParam(orderCalculation: UInt8, offset: UInt32, length: UInt8) {
    /** Standard competition ranking rather than ordinal. */
    predicate Standard() { orderCalculation == 0 }
  }

  /** A query's answer for some walk over the category's map. */
  datatype Answer = Answer(rows: seq<Row>, total: UInt32)

  function AnswerOf(ordered: seq<Entry>, selected: seq<Entry>, standard: bool, commonData: map<UInt64, Blob>): Answer {
    Answer(Rows(ordered, selected, standard, commonData), U32(|ordered|))
  }

  /** The entries around the player, or none when the player has no score. */
  function Nearby(ordered: seq<Entry>, pid: UInt64, length: nat): seq<Entry> {
    var position := PositionOf(ordered, pid);
    if position.None? then []
    else
      var (start, end) := Window(position.value, length, |ordered|);
      ordered[start..end]
  }

  /** A player with a score sees itself among its neighbours, all from the board and in its order. */
  lemma NearbyShowsCaller(ordered: seq<Entry>, pid: UInt64, length: nat)
    ensures Nearby(ordered, pid, length) == [] <==> forall e :: e in ordered ==> e.pid != pid
    ensures Nearby(ordered, pid, length) != [] ==> exists e :: e in Nearby(ordered, pid, length) && e.pid == pid
    ensures exists start, end :: 0 <= start <= end <= |ordered| && Nearby(ordered, pid, length) == ordered[start..end]
  {
    var position := PositionOf(ordered, pid);
    if position.Some? {
      WindowHoldsPlayer(position.value, length, |ordered|);
      var (start, end) := Window(position.value, length, |ordered|);
      assert Nearby(ordered, pid, length)[position.value - start] == ordered[position.value];
    } else {
      assert ordered[0..0] == [];
    }
  }

  function Own(ordered: seq<Entry>, pid: UInt64): seq<Entry> {
    var position := PositionOf(ordered, pid);
    if position.None? then [] else [ordered[position.value]]
  }

  /** A board as some walk over the category's map gives it. */
  ghost predicate BoardOf(ordered: seq<Entry>, entries: Entries) {
    exists walk: seq<UInt64> :: Enumerates(walk, entries.Keys) && Walks(walk, entries)
      && ordered == Ranked(Listed(entries, walk))
  }

  ghost predicate Walks(walk: seq<UInt64>, entries: Entries) {
    forall p :: p in walk ==> p in entries
  }

  /** Every such board holds each entry once, best first. */
  lemma BoardOfIsBoard(ordered: seq<Entry>, entries: Entries, orderBy: UInt8)
    requires BoardOf(ordered, entries) && OneOrdering(entries, orderBy)
    ensures IsBoard(ordered, entries, orderBy)
  {
    var walk: seq<UInt64> :| Enumerates(walk, entries.Keys) && Walks(walk, entries)
                             && ordered == Ranked(Listed(entries, walk));
    RankedIsBoard(entries, walk, orderBy);
  }

  // ---- What clients see after a run ---------------------------------------------------------------

  /** Every row carries a player's score and its competition rank among the entries. */
  ghost predicate RowsStand(rows: seq<Row>, entries: Entries, orderBy: UInt8) {
    forall row :: row in rows ==>
      && row.pid in entries && row.score == entries[row.pid].score
      && row.order == U32(Standing(entries, row.score, orderBy))
  }

  lemma SelectionStands(ordered: seq<Entry>, selected: seq<Entry>, entries: Entries, orderBy: UInt8,
                        commonData: map<UInt64, Blob>)
    requires IsBoard(ordered, entries, orderBy) && forall e :: e in selected ==> e in ordered
    ensures RowsStand(AnswerOf(ordered, selected, true, commonData).rows, entries, orderBy)
  {
    var rows := AnswerOf(ordered, selected, true, commonData).rows;
    hide IsBoard;
    forall row | row in rows ensures
        row.pid in entries && row.score == entries[row.pid].score
          && row.order == U32(Standing(entries, row.score, orderBy))
    {
      var i :| 0 <= i < |rows| && rows[i] == row;
      RowsShowStandings(ordered, selected, entries, orderBy, commonData, i);
    }
  }

  lemma SelectionsAreFromBoard(ordered: seq<Entry>, offset: nat, length: nat, pid: UInt64, wanted: set<UInt64>)
    ensures forall e :: e in Page(ordered, offset, length) ==> e in ordered
    ensures forall e :: e in Nearby(ordered, pid, length) ==> e in ordered
    ensures forall e :: e in Own(ordered, pid) ==> e in ordered
    ensures forall e :: e in Allowed(ordered, wanted) ==> e in ordered
  {
    FilterMembers(ordered, (e: Entry) => e.pid in wanted);
    NearbyShowsCaller(ordered, pid, length);
  }

  /** After any run in which a category saw one ordering, whatever query a client makes of it and however the map is
      walked, the standard ranks it receives are competition ranks: on the whole board, or among the friends. */
  lemma ClientsSeeStandings(ops: seq<Op>, category: UInt32, orderBy: UInt8, ordered: seq<Entry>, param: OrderParam,
                            pid: UInt64, wanted: set<UInt64>)
    requires forall op :: op in ops && op.Upload? && op.data.category == category ==> op.data.orderBy == orderBy
    requires BoardOf(ordered, EntriesOf(After(Leaderboard.EMPTY, ops), category))
    ensures var boards := After(Leaderboard.EMPTY, ops);
            var entries, data := EntriesOf(boards, category), boards.commonData;
            var friends := Allowed(ordered, wanted);
            && RowsStand(AnswerOf(ordered, Page(ordered, param.offset, param.length), true, data).rows, entries,
                         orderBy)
            && RowsStand(AnswerOf(ordered, Nearby(ordered, pid, param.length), true, data).rows, entries, orderBy)
            && RowsStand(AnswerOf(ordered, Own(ordered, pid), true, data).rows, entries, orderBy)
            && RowsStand(AnswerOf(ordered, friends, true, data).rows, entries, orderBy)
            && RowsStand(AnswerOf(friends, Page(friends, param.offset, param.length), true, data).rows,
                         Restricted(entries, wanted), orderBy)
  {
    var boards := After(Leaderboard.EMPTY, ops);
    var entries, data := EntriesOf(boards, category), boards.commonData;
    RunKeepsOneOrdering(ops, category, orderBy);
    BoardOfIsBoard(ordered, entries, orderBy);
    AllowedIsBoard(ordered, entries, orderBy, wanted);
    hide After, EntriesOf, BoardOf, IsBoard, RowsStand, AnswerOf, OneOrdering, Page, Nearby, Own, Allowed, Restricted;
    var friends := Allowed(ordered, wanted);
    SelectionsAreFromBoard(ordered, param.offset, param.length, pid, wanted);
    SelectionsAreFromBoard(friends, param.offset, param.length, pid, wanted);
    SelectionStands(ordered, Page(ordered, param.offset, param.length), entries, orderBy, data);
    SelectionStands(ordered, Nearby(ordered, pid, param.length), entries, orderBy, data);
    SelectionStands(ordered, Own(ordered, pid), entries, orderBy, data);
    SelectionStands(ordered, friends, entries, orderBy, data);
    SelectionStands(friends, Page(friends, param.offset, param.length), Restricted(entries, wanted), orderBy, data);
  }

  class Store {
    var scores: map<UInt32, Entries>
    var commonData: map<UInt64, Blob>
    /** The file, once something was saved. */
    var file: Option<Persisted>
    const friends: Option<UInt32 -> seq<UInt32>>

    function Abs(): Boards
      reads this`scores, this`commonData
    {
      Boards(scores, commonData)
    }

    /** A restart now would restore exactly what is in memory. */
    ghost predicate Saved()
      reads this
    {
      if file.None? then Abs() == EMPTY else Loads(file.value, Abs())
    }

    /** NewStore: loads the file if there is one. */
    constructor (file: Option<Persisted>, friends: Option<UInt32 -> seq<UInt32>>)
      ensures this.file == file && this.friends == friends && Saved()
    {
      this.file, this.friends := file, friends;
      this.scores, this.commonData := map[], map[];
      new;
      if file.Some? {
        var loadedScores := ReadScores(file.value.scores);
        var loadedData := ReadUint64Keys(file.value.commonData);
        scores, commonData := loadedScores, loadedData;
      }
    }

    method Save()
      modifies this`file
      ensures file == Some(OnDisk(Abs())) && Saved()
    {
      SavedFileLoads(Abs());
      hide Loads;
      var scoresByKey := WriteScores(scores);
      var dataByKey := WriteByNumeral(commonData);
      file := Some(Persisted(scoresByKey, dataByKey));
    }

    // ---- Updates --------------------------------------------------------------------------------

    method InsertRanking(pid: UInt64, data: ScoreData, uniqueID: UInt64, now: UInt64)
      modifies this
      ensures Abs() == Apply(old(Abs()), Upload(pid, data, uniqueID, now))
      ensures file == if Stands(EntriesOf(old(Abs()), data.category), pid, data) then old(file) else Some(OnDisk(Abs()))
      ensures old(Saved()) ==> Saved()
    {
      hide OnDisk, Loads, BetterThan;
      if data.category !in scores { scores := scores[data.category := map[]]; }
      var candidate := Candidate(pid, data, uniqueID, now);
      if pid in scores[data.category] && data.updateMode == UPDATE_NORMAL {
        var existing := scores[data.category][pid];
        if !BetterThan(candidate.score, existing.score, candidate.orderBy) { return; }
      }
      var entries: Entries := scores[data.category][pid := candidate];
      scores := scores[data.category := entries];
      Save();
    }

    method DeleteScore(pid: UInt64, category: UInt32)
      modifies this
      ensures Abs() == Apply(old(Abs()), Op.DeleteScore(pid, category))
      ensures file == Some(OnDisk(Abs())) && Saved()
    {
      hide OnDisk, Loads;
      if category in scores {
        RemoveEntry(pid, category);
      }
      Save();
    }

    /** Deletes the entry, and the category with it when that was the last one. */
    method RemoveEntry(pid: UInt64, category: UInt32)
      requires category in scores
      modifies this`scores
      ensures var left := old(scores[category]) - {pid};
              scores == if left == map[] then old(scores) - {category} else old(scores)[category := left]
    {
      scores := scores[category := scores[category] - {pid}];
      if |scores[category]| == 0 { scores := scores - {category}; }
    }

    method DeleteAllScores(pid: UInt64)
      modifies this
      ensures Abs() == Apply(old(Abs()), Op.DeleteAllScores(pid))
      ensures file == Some(OnDisk(Abs())) && Saved()
    {
      hide OnDisk, Loads, WithoutPlayer;
      ghost var was := scores;
      var remaining := scores.Keys;
      while remaining != {}
        invariant remaining <= was.Keys && scores.Keys <= was.Keys && commonData == old(commonData)
        invariant forall c :: c in remaining ==> c in scores && scores[c] == was[c]
        invariant forall c :: c in was && c !in remaining ==> (c in scores <==> was[c] - {pid} != map[])
        invariant forall c :: c in scores && c !in remaining ==> scores[c] == was[c] - {pid}
      {
        var c :| c in remaining;
        remaining := remaining - {c};
        RemoveEntry(pid, c);
      }
      PlayerRemoved(was, scores, commonData, pid);
      Save();
    }

    method UploadCommonData(uniqueID: UInt64, blob: Blob)
      modifies this
      ensures Abs() == Apply(old(Abs()), Op.UploadCommonData(uniqueID, blob))
      ensures file == Some(OnDisk(Abs())) && Saved()
    {
      hide OnDisk, Loads;
      commonData := commonData[uniqueID := blob];
      Save();
    }

    method DeleteCommonData(uniqueID: UInt64)
      modifies this
      ensures Abs() == Apply(old(Abs()), Op.DeleteCommonData(uniqueID))
      ensures file == Some(OnDisk(Abs())) && Saved()
    {
      hide OnDisk, Loads;
      commonData := commonData - {uniqueID};
      Save();
    }

    // ---- Queries --------------------------------------------------------------------------------

    method RankedEntries(category: UInt32) returns (ordered: seq<Entry>)
      ensures BoardOf(ordered, EntriesOf(Abs(), category))
    {
      var entries := EntriesOf(Abs(), category);
      var walk: seq<UInt64> := [];
      var remaining := entries.Keys;
      while remaining != {}
        invariant NoDuplicates(walk) && SetOf(walk) == entries.Keys - remaining && remaining <= entries.Keys
      {
        var p :| p in remaining;
        remaining := remaining - {p};
        WalkGrows(walk, p);
        walk := walk + [p];
      }
      forall p | p in walk ensures p in entries { assert p in SetOf(walk); }
      var listed := Listed(entries, walk);
      var a := new Entry[|listed|](i requires 0 <= i < |listed| => listed[i]);
      assert a[..] == listed;
      SliceStable(a, RankKey(OrderingOf(listed)));
      ordered := a[..];
      assert Walks(walk, entries);
    }

    method RankData(ordered: seq<Entry>, selected: seq<Entry>, standard: bool) returns (list: seq<Row>)
      ensures list == Rows(ordered, selected, standard, commonData)
    {
      var ranks: map<UInt64, UInt32> := map[];
      var previousScore: UInt32, previousRank: UInt32 := 0, 0;
      var index := 0;
      while index < |ordered|
        invariant 0 <= index <= |ordered| && ranks == Ranks(ordered[..index], standard)
        invariant index > 0 ==>
                    previousScore == ordered[index - 1].score && previousRank == RankAt(ordered, index - 1, standard)
      {
        var entry := ordered[index];
        var rank := U32(index + 1);
        if standard && index > 0 && entry.score == previousScore { rank := previousRank; }
        RankAtPrefix(ordered, index + 1, index, standard);
        assert Init(ordered[..index + 1]) == ordered[..index];
        ranks := ranks[entry.pid := rank];
        previousScore, previousRank := entry.score, rank;
        index := index + 1;
      }
      assert ordered[..index] == ordered;
      list := [];
      var i := 0;
      while i < |selected|
        invariant 0 <= i <= |selected| && list == Rows(ordered, selected[..i], standard, commonData)
      {
        list := list + [RowOf(selected[i], ranks, commonData)];
        i := i + 1;
      }
      assert selected[..i] == selected;
    }

    method FilterEntries(entries: seq<Entry>, allowed: set<UInt64>) returns (filtered: seq<Entry>)
      ensures filtered == Allowed(entries, allowed)
    {
      filtered := [];
      var i := 0;
      while i < |entries|
        invariant 0 <= i <= |entries| && filtered == Allowed(entries[..i], allowed)
      {
        assert Init(entries[..i + 1]) == entries[..i];
        if entries[i].pid in allowed { filtered := filtered + [entries[i]]; }
        i := i + 1;
      }
      assert entries[..i] == entries;
    }

    function FriendPIDs(pid: UInt64): seq<UInt32> {
      if friends.None? then [] else friends.value(U32(pid))
    }

    method FriendSet(pid: UInt64) returns (wanted: set<UInt64>)
      ensures forall p :: p in wanted <==> p == pid || p in FriendPIDs(pid)
      ensures forall p :: p in wanted <==> p == pid || (friends.Some? && p in friends.value(pid % 0x1_0000_0000))
    {
      wanted := {pid};
      if friends.None? { return; }
      var list := friends.value(U32(pid));
      var i := 0;
      while i < |list|
        invariant 0 <= i <= |list|
        invariant forall p :: p in wanted <==> p == pid || p in list[..i]
      {
        assert list[..i + 1] == list[..i] + [list[i]];
        wanted := wanted + {list[i]};
        i := i + 1;
      }
      assert list[..i] == list;
    }

    /** Ranking mode 0: the global leaderboard. */
    method GlobalRankings(category: UInt32, param: OrderParam) returns (answer: Answer)
      ensures exists ordered ::
                && BoardOf(ordered, EntriesOf(Abs(), category))
                && answer == AnswerOf(ordered, Page(ordered, param.offset, param.length), param.Standard(), commonData)
    {
      var ordered := RankedEntries(category);
      var rows := RankData(ordered, Page(ordered, param.offset, param.length), param.Standard());
      answer := Answer(rows, U32(|ordered|));
    }

    /** Ranking mode 1: the entries around the caller. */
    method NearbyRankings(pid: UInt64, category: UInt32, param: OrderParam) returns (answer: Answer)
      ensures exists ordered ::
                && BoardOf(ordered, EntriesOf(Abs(), category))
                && answer == AnswerOf(ordered, Nearby(ordered, pid, param.length), param.Standard(), commonData)
    {
      hide BoardOf, Rows, PositionOf;
      var ordered := RankedEntries(category);
      var position := IndexOf(ordered, pid);
      if position < 0 {
        NoRows(ordered, param.Standard(), commonData);
        return Answer([], U32(|ordered|));
      }
      var length: nat := param.length;
      if length <= 0 { length := 1; }
      var start := position - length / 2;
      if start < 0 { start := 0; }
      var end := start + length;
      if end > |ordered| { end := |ordered|; }
      assert ordered[start..end] == Nearby(ordered, pid, param.length);
      var rows := RankData(ordered, ordered[start..end], param.Standard());
      answer := Answer(rows, U32(|ordered|));
    }

    /** Ranking modes 2 and 3: the leaderboard of the caller and their friends. */
    method FriendsRankings(pid: UInt64, category: UInt32, param: OrderParam) returns (answer: Answer)
      ensures exists all, wanted ::
                && BoardOf(all, EntriesOf(Abs(), category))
                && (forall p :: p in wanted <==> p == pid || p in FriendPIDs(pid))
                && var ordered := Allowed(all, wanted);
                   answer == AnswerOf(ordered, Page(ordered, param.offset, param.length), param.Standard(), commonData)
    {
      hide BoardOf, Rows, Ranked, Allowed, Page, EntriesOf, FriendPIDs;
      var wanted := FriendSet(pid);
      var all := RankedEntries(category);
      var ordered := FilterEntries(all, wanted);
      var rows := RankData(ordered, Page(ordered, param.offset, param.length), param.Standard());
      answer := Answer(rows, U32(|ordered|));
    }

    /** Ranking mode 4: the caller's own row. */
    method OwnRanking(pid: UInt64, category: UInt32, param: OrderParam) returns (answer: Answer)
      ensures exists ordered ::
                && BoardOf(ordered, EntriesOf(Abs(), category))
                && answer == AnswerOf(ordered, Own(ordered, pid), param.Standard(), commonData)
    {
      var ordered := RankedEntries(category);
      var position := IndexOf(ordered, pid);
      var own := if position < 0 then [] else [ordered[position]];
      assert own == Own(ordered, pid);
      var rows := RankData(ordered, own, param.Standard());
      answer := Answer(rows, U32(|ordered|));
    }

    /** Where a player's entry comes first in the list, or -1. */
    method IndexOf(ordered: seq<Entry>, pid: UInt64) returns (position: int)
      ensures PositionOf(ordered, pid) == if position < 0 then None else Some(position)
    {
      position := -1;
      var index := 0;
      while index < |ordered|
        invariant 0 <= index <= |ordered| && PositionOf(ordered[..index], pid) == None
      {
        assert Init(ordered[..index + 1]) == ordered[..index];
        if ordered[index].pid == pid {
          PositionStays(ordered, index + 1, pid);
          return index;
        }
        index := index + 1;
      }
      assert ordered[..index] == ordered;
    }

    /** The rows of some players, with their ranks on the whole board. */
    method RankingsForPIDs(pids: seq<UInt64>, category: UInt32, param: OrderParam) returns (answer: Answer)
      ensures exists ordered ::
                && BoardOf(ordered, EntriesOf(Abs(), category))
                && answer == AnswerOf(ordered, Allowed(ordered, SetOf(pids)), param.Standard(), commonData)
    {
      var wanted: set<UInt64> := {};
      var i := 0;
      while i < |pids|
        invariant 0 <= i <= |pids| && wanted == SetOf(pids[..i])
      {
        assert pids[..i + 1] == pids[..i] + [pids[i]];
        wanted := wanted + {pids[i]};
        i := i + 1;
      }
      assert pids[..i] == pids;
      var ordered := RankedEntries(category);
      var selected := FilterEntries(ordered, wanted);
      var rows := RankData(ordered, selected, param.Standard());
      answer := Answer(rows, U32(|ordered|));
    }

    method ApproximateOrder(category: UInt32, score: UInt32) returns (order: UInt32)
      ensures exists ordered ::
                && BoardOf(ordered, EntriesOf(Abs(), category)) && order == Projected(ordered, score)
    {
      hide BoardOf, BetterThan;
      var ordered := RankedEntries(category);
      var orderBy := if |ordered| > 0 then ordered[0].orderBy else 0;
      order := 1;
      var i := 0;
      while i < |ordered|
        invariant 0 <= i <= |ordered| && order == U32(1 + Beaten(ordered[..i], score, orderBy))
      {
        assert Init(ordered[..i + 1]) == ordered[..i];
        if BetterThan(ordered[i].score, score, orderBy) {
          OneMore(1 + Beaten(ordered[..i], score, orderBy));
          order := U32(order + 1);
        }
        i := i + 1;
      }
      assert ordered[..i] == ordered;
    }
  }

  lemma PlayerRemoved(was: map<UInt32, Entries>, scores: map<UInt32, Entries>, commonData: map<UInt64, Blob>,
                      pid: UInt64)
    requires scores.Keys <= was.Keys
    requires forall c :: c in was ==> (c in scores <==> was[c] - {pid} != map[])
    requires forall c :: c in scores ==> scores[c] == was[c] - {pid}
    ensures Boards(scores, commonData) == WithoutPlayer(Boards(was, commonData), pid)
  {
  }

  lemma OneMore(n: nat)
    ensures U32(U32(n) + 1) == U32(n + 1)
  {
  }

  lemma NoRows(ordered: seq<Entry>, standard: bool, commonData: map<UInt64, Blob>)
    ensures Rows(ordered, [], standard, commonData) == []
  {
  }

  lemma WalkGrows(walk: seq<UInt64>, p: UInt64)
    requires NoDuplicates(walk) && p !in SetOf(walk)
    ensures NoDuplicates(walk + [p]) && SetOf(walk + [p]) == SetOf(walk) + {p}
  {
    assert p !in walk;
    forall x ensures x in SetOf(walk + [p]) <==> x in SetOf(walk) + {p} {
      assert x in walk + [p] <==> x in walk || x == p;
    }
  }

  lemma {:induction false} PositionStays(ordered: seq<Entry>, n: nat, pid: UInt64)
    requires n <= |ordered| && PositionOf(ordered[..n], pid).Some?
    ensures PositionOf(ordered, pid) == PositionOf(ordered[..n], pid)
  {
    if n == |ordered| {
      assert ordered[..n] == ordered;
    } else {
      assert Init(ordered)[..n] == ordered[..n];
      PositionStays(Init(ordered), n, pid);
    }
  }
}
