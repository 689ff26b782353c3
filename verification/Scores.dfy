/** The leaderboard in plain numbers: which score is kept, how a board is sorted, and what the ranks count. */
module Scores {
  import opened Common
  import opened Leaderboard
  import opened Rankings
  import opened Standings
  import opened RankingStore

  // ---- Which score is kept ----------------------------------------------------------------------

  /** Over any run in which a player only improves, the score kept is the highest ever put forward on a descending
      board and the lowest on any other, such as a board of lap times. */
  lemma BestScoreIsKept(b: Boards, ops: seq<Op>, pid: UInt64, category: UInt32, orderBy: UInt8)
    requires OnlyImproves(ops, pid, category, orderBy)
    ensures var entries, attempts := EntriesOf(After(b, ops), category), Attempts(b, ops, pid, category);
            && (pid in entries <==> attempts != [])
            && (pid in entries ==>
                  && entries[pid] in attempts
                  && forall e :: e in attempts ==>
                       if orderBy == 1 then e.score <= entries[pid].score else entries[pid].score <= e.score)
  {
    PersonalBest(b, ops, pid, category, orderBy);
    var attempts := Attempts(b, ops, pid, category);
    hide After, EntriesOf, Attempts, OnlyImproves;
    if attempts != [] {
      var i: nat :| IsBest(attempts, i, orderBy) && EntriesOf(After(b, ops), category)[pid] == attempts[i];
      forall e | e in attempts ensures !BetterThan(e.score, attempts[i].score, orderBy) {
        var j :| 0 <= j < |attempts| && attempts[j] == e;
      }
    }
  }

  /** One upload: in update mode 0 a score that is no better leaves the old entry, and any other upload is stored. */
  lemma UploadDecides(b: Boards, pid: UInt64, data: ScoreData, uniqueID: UInt64, now: UInt64)
    ensures var was, became := EntriesOf(b, data.category),
                               EntriesOf(Inserted(b, pid, data, uniqueID, now), data.category);
            && pid in became
            && if && pid in was && data.updateMode == 0
                  && (if data.orderBy == 1 then data.score <= was[pid].score else was[pid].score <= data.score)
               then became == was
               else became[pid].score == data.score && became[pid].updateTime == now
                    && became[pid].uniqueID == uniqueID
  {
  }

  // ---- Boards -----------------------------------------------------------------------------------

  /** Highest score first on a descending board, lowest first on any other; whoever was earlier wins a tie. */
  lemma BoardsAreSorted(ordered: seq<Entry>, entries: Entries, orderBy: UInt8)
    requires BoardOf(ordered, entries) && OneOrdering(entries, orderBy)
    ensures forall i, j :: 0 <= i < j < |ordered| ==>
              && (if orderBy == 1 then ordered[i].score >= ordered[j].score else ordered[i].score <= ordered[j].score)
              && (ordered[i].score == ordered[j].score ==> ordered[i].updateTime <= ordered[j].updateTime)
  {
    BoardOfIsBoard(ordered, entries, orderBy);
    hide BoardOf;
    forall i, j | 0 <= i < j < |ordered|
      ensures if orderBy == 1 then ordered[i].score >= ordered[j].score else ordered[i].score <= ordered[j].score
      ensures ordered[i].score == ordered[j].score ==> ordered[i].updateTime <= ordered[j].updateTime
    {
      assert !RanksBefore(ordered[j], ordered[i], orderBy);
    }
  }

  // ---- Ranks ------------------------------------------------------------------------------------

  /** The players with a higher score. */
  function Higher(entries: Entries, score: UInt32): set<UInt64> { set p | p in entries && entries[p].score > score }

  /** The players with a lower score. */
  function Lower(entries: Entries, score: UInt32): set<UInt64> { set p | p in entries && entries[p].score < score }

  lemma AheadCounts(entries: Entries, score: UInt32, orderBy: UInt8)
    ensures Ahead(entries, score, orderBy) == if orderBy == 1 then Higher(entries, score) else Lower(entries, score)
  {
  }

  /** A row shows the entry at a position of the board: with calculation 0 it is ranked behind those with better
      scores, and with any other by its position. */
  ghost predicate ShowsRank(row: Row, ordered: seq<Entry>, i: nat, entries: Entries, orderBy: UInt8,
                            orderCalculation: UInt8)
  {
    && i < |ordered| && row.pid == ordered[i].pid && row.score == ordered[i].score
    && row.order == if orderCalculation != 0 then U32(i + 1)
                    else if orderBy == 1 then U32(1 + |Higher(entries, row.score)|)
                    else U32(1 + |Lower(entries, row.score)|)
  }

  lemma RowShowsRank(ordered: seq<Entry>, selected: seq<Entry>, entries: Entries, orderBy: UInt8, param: OrderParam,
                     commonData: map<UInt64, Blob>, k: nat, i: nat)
    requires IsBoard(ordered, entries, orderBy) && k < |selected| && i < |ordered| && selected[k] == ordered[i]
    ensures ShowsRank(AnswerOf(ordered, selected, param.Standard(), commonData).rows[k], ordered, i, entries, orderBy,
                      param.orderCalculation)
  {
    RanksFindsEach(ordered, i, param.Standard());
    RankIsStanding(ordered, entries, orderBy, i);
    AheadCounts(entries, ordered[i].score, orderBy);
    hide IsBoard, Ranks, Ahead, Higher, Lower;
    if !param.Standard() { assert RankAt(ordered, i, false) == U32(i + 1); }
  }

  /** How many rows a page has: what is left behind the offset, and no more than were asked for; 0 asks for all. */
  function PageLength(total: nat, offset: nat, length: nat): nat {
    if offset >= total then 0 else if 0 < length < total - offset then length else total - offset
  }

  lemma PageCuts(ordered: seq<Entry>, offset: nat, length: nat)
    ensures |Page(ordered, offset, length)| == PageLength(|ordered|, offset, length)
    ensures forall k :: 0 <= k < |Page(ordered, offset, length)| ==>
              offset + k < |ordered| && Page(ordered, offset, length)[k] == ordered[offset + k]
  {
  }

  lemma AnswersAll(ordered: seq<Entry>, selected: seq<Entry>, standard: bool, commonData: map<UInt64, Blob>)
    ensures |AnswerOf(ordered, selected, standard, commonData).rows| == |selected|
  {
  }

  lemma BoardHoldsAll(ordered: seq<Entry>, entries: Entries, orderBy: UInt8)
    requires IsBoard(ordered, entries, orderBy)
    ensures |ordered| == |entries|
  {
  }

  lemma PageOfBoard(ordered: seq<Entry>, entries: Entries, orderBy: UInt8, param: OrderParam,
                    commonData: map<UInt64, Blob>)
    requires IsBoard(ordered, entries, orderBy)
    ensures var rows := AnswerOf(ordered, Page(ordered, param.offset, param.length), param.Standard(), commonData).rows;
            && |rows| == PageLength(|entries|, param.offset, param.length)
            && forall k :: 0 <= k < |rows| ==>
                 ShowsRank(rows[k], ordered, param.offset + k, entries, orderBy, param.orderCalculation)
  {
    var selected := Page(ordered, param.offset, param.length);
    var rows := AnswerOf(ordered, selected, param.Standard(), commonData).rows;
    hide IsBoard, ShowsRank, AnswerOf, Page, PageLength;
    PageCuts(ordered, param.offset, param.length);
    AnswersAll(ordered, selected, param.Standard(), commonData);
    BoardHoldsAll(ordered, entries, orderBy);
    forall k | 0 <= k < |rows|
      ensures ShowsRank(rows[k], ordered, param.offset + k, entries, orderBy, param.orderCalculation)
    {
      assert selected[k] == Page(ordered, param.offset, param.length)[k];
      RowShowsRank(ordered, selected, entries, orderBy, param, commonData, k, param.offset + k);
    }
  }

  /** A page shows the board from its offset on, each row ranked on the whole board; among friends, on the friends'. */
  lemma PagesShowRanks(ordered: seq<Entry>, entries: Entries, orderBy: UInt8, param: OrderParam,
                       commonData: map<UInt64, Blob>, wanted: set<UInt64>)
    requires BoardOf(ordered, entries) && OneOrdering(entries, orderBy)
    ensures var rows := AnswerOf(ordered, Page(ordered, param.offset, param.length), param.Standard(), commonData).rows;
            && |rows| == PageLength(|entries|, param.offset, param.length)
            && forall k :: 0 <= k < |rows| ==>
                 ShowsRank(rows[k], ordered, param.offset + k, entries, orderBy, param.orderCalculation)
    ensures var friends, theirs := Allowed(ordered, wanted), Restricted(entries, wanted);
            var rows := AnswerOf(friends, Page(friends, param.offset, param.length), param.Standard(), commonData).rows;
            && |rows| == PageLength(|theirs|, param.offset, param.length)
            && forall k :: 0 <= k < |rows| ==>
                 ShowsRank(rows[k], friends, param.offset + k, theirs, orderBy, param.orderCalculation)
  {
    BoardOfIsBoard(ordered, entries, orderBy);
    AllowedIsBoard(ordered, entries, orderBy, wanted);
    hide BoardOf, IsBoard, ShowsRank, AnswerOf, Page, PageLength, OneOrdering, Allowed, Restricted;
    PageOfBoard(ordered, entries, orderBy, param, commonData);
    PageOfBoard(Allowed(ordered, wanted), Restricted(entries, wanted), orderBy, param, commonData);
  }

  /** Around a player, alone, and for a list of players, each row is ranked on the whole board, too. */
  lemma SelectionsShowRanks(ordered: seq<Entry>, entries: Entries, orderBy: UInt8, param: OrderParam,
                            commonData: map<UInt64, Blob>, pid: UInt64, wanted: set<UInt64>, selected: seq<Entry>,
                            k: nat)
    requires BoardOf(ordered, entries) && OneOrdering(entries, orderBy)
    requires selected in {Nearby(ordered, pid, param.length), Own(ordered, pid), Allowed(ordered, wanted)}
    requires k < |selected|
    ensures exists i: nat :: ShowsRank(AnswerOf(ordered, selected, param.Standard(), commonData).rows[k], ordered, i,
                                       entries, orderBy, param.orderCalculation)
  {
    BoardOfIsBoard(ordered, entries, orderBy);
    SelectionsAreFromBoard(ordered, param.offset, param.length, pid, wanted);
    hide BoardOf, IsBoard, ShowsRank, AnswerOf, Nearby, Own, Allowed;
    assert selected[k] in ordered;
    var i :| 0 <= i < |ordered| && ordered[i] == selected[k];
    RowShowsRank(ordered, selected, entries, orderBy, param, commonData, k, i);
  }

  /** The projected rank of a score counts the higher scores on a descending board, and the lower ones on any other. */
  lemma ProjectionCounts(ordered: seq<Entry>, entries: Entries, orderBy: UInt8, score: UInt32)
    requires BoardOf(ordered, entries) && OneOrdering(entries, orderBy)
    ensures Projected(ordered, score)
            == if orderBy == 1 then U32(1 + |Higher(entries, score)|) else U32(1 + |Lower(entries, score)|)
  {
    hide BoardOf, IsBoard, OneOrdering, Ranked, Projected, U32;
    BoardOfIsBoard(ordered, entries, orderBy);
    ProjectedIsStanding(ordered, entries, orderBy, score);
    AheadCounts(entries, score, orderBy);
    hide Ahead, Higher, Lower;
  }
}
