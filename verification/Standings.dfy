/** What a client sees of a board: rows with ranks, pages, the window around a player, and projected ranks. */
module Standings {
  import opened Common
  import opened Leaderboard
  import opened Rankings

  // ---- Rows -------------------------------------------------------------------------------------

  datatype Row = Row(
    pid: UInt64, uniqueID: UInt64, order: UInt32, category: UInt32, score: UInt32,
    groups: Blob, param: UInt64, commonData: Blob, updateTime: UInt64)

  function RowOf(e: Entry, ranks: map<UInt64, UInt32>, commonData: map<UInt64, Blob>): Row {
    Row(e.pid, e.uniqueID, if e.pid in ranks then ranks[e.pid] else 0, e.category, e.score, e.groups, e.param,
        if e.uniqueID in commonData then commonData[e.uniqueID] else [], e.updateTime)
  }

  /** The selected entries with the ranks they have on the whole list. */
  function Rows(ordered: seq<Entry>, selected: seq<Entry>, standard: bool, commonData: map<UInt64, Blob>): seq<Row> {
    seq(|selected|, i requires 0 <= i < |selected| => RowOf(selected[i], Ranks(ordered, standard), commonData))
  }

  /** Standard ranks are competition ranks on the whole board, however it was walked and whatever part is shown. */
  lemma RowsShowStandings(ordered: seq<Entry>, selected: seq<Entry>, entries: Entries, orderBy: UInt8,
                          commonData: map<UInt64, Blob>, i: nat)
    requires IsBoard(ordered, entries, orderBy) && i < |selected| && selected[i] in ordered
    ensures var row, e := Rows(ordered, selected, true, commonData)[i], selected[i];
            && row.order == U32(Standing(entries, e.score, orderBy))
            && row.pid in entries && entries[row.pid] == e
            && row.score == e.score && row.uniqueID == e.uniqueID && row.category == e.category
            && row.param == e.param && row.groups == e.groups && row.updateTime == e.updateTime
            && (if row.uniqueID in commonData then row.commonData == commonData[row.uniqueID] else row.commonData == [])
  {
    var k :| 0 <= k < |ordered| && ordered[k] == selected[i];
    RanksFindsEach(ordered, k, true);
    RankIsStanding(ordered, entries, orderBy, k);
  }

  /** Ordinal ranks count the rows of the whole board from 1, so nobody shares one. */
  lemma OrdinalRanksCount(ordered: seq<Entry>, entries: Entries, orderBy: UInt8, commonData: map<UInt64, Blob>, i: nat)
    requires IsBoard(ordered, entries, orderBy) && i < |ordered|
    ensures Rows(ordered, ordered, false, commonData)[i].order == U32(i + 1)
    ensures forall j :: 0 <= j < |ordered| && RanksBefore(ordered[i], ordered[j], orderBy) ==> i < j
  {
    RanksFindsEach(ordered, i, false);
    assert forall j :: 0 <= j < i ==> !RanksBefore(ordered[i], ordered[j], orderBy);
  }

  /** Who comes before an entry. */
  function Earlier(entries: Entries, e: Entry, orderBy: UInt8): set<UInt64> {
    set p | p in entries && RanksBefore(entries[p], e, orderBy)
  }

  ghost predicate NoTies(entries: Entries) {
    forall p, q :: p in entries && q in entries && p != q ==>
      entries[p].score != entries[q].score || entries[p].updateTime != entries[q].updateTime
  }

  /** Without ties in score and time, a position is the number of entries that come before. */
  lemma PositionCountsEarlier(ordered: seq<Entry>, entries: Entries, orderBy: UInt8, i: nat)
    requires IsBoard(ordered, entries, orderBy) && NoTies(entries) && i < |ordered|
    ensures i == |Earlier(entries, ordered[i], orderBy)|
  {
    DistinctPlayers(ordered, i);
    EarlierIsPrefix(ordered, entries, orderBy, i);
    KeysCounted(Players(ordered[..i]));
  }

  lemma NotBeforeItself(e: Entry, orderBy: UInt8)
    ensures !RanksBefore(e, e, orderBy)
  {
  }

  lemma OneRanksBefore(a: Entry, b: Entry, orderBy: UInt8)
    requires a.score != b.score || a.updateTime != b.updateTime
    ensures RanksBefore(a, b, orderBy) || RanksBefore(b, a, orderBy)
  {
  }

  lemma EarlierIsPrefix(ordered: seq<Entry>, entries: Entries, orderBy: UInt8, i: nat)
    requires IsBoard(ordered, entries, orderBy) && NoTies(entries) && i < |ordered|
    ensures SetOf(Players(ordered[..i])) == Earlier(entries, ordered[i], orderBy)
  {
    hide RanksBefore;
    var before := Players(ordered[..i]);
    NotBeforeItself(ordered[i], orderBy);
    assert forall j :: i < j < |ordered| ==> !RanksBefore(ordered[j], ordered[i], orderBy);
    forall p | p in before ensures p in Earlier(entries, ordered[i], orderBy) {
      var j :| 0 <= j < |before| && before[j] == p;
      assert ordered[j] in ordered && ordered[i] in ordered;
      OneRanksBefore(ordered[j], ordered[i], orderBy);
    }
    forall p | p in Earlier(entries, ordered[i], orderBy) ensures p in before {
      assert entries[p] in ordered;
      var j :| 0 <= j < |ordered| && ordered[j] == entries[p];
      assert j < i;
      assert before[j] == p;
    }
  }

  /** Then the walk over the map does not show: there is only one board. */
  lemma BoardIsUnique(a: seq<Entry>, b: seq<Entry>, entries: Entries, orderBy: UInt8)
    requires IsBoard(a, entries, orderBy) && IsBoard(b, entries, orderBy) && NoTies(entries)
    ensures a == b
  {
    forall i | 0 <= i < |a| ensures a[i] == b[i] {
      assert a[i] in a && a[i] in b;
      var j :| 0 <= j < |b| && b[j] == a[i];
      PositionCountsEarlier(a, entries, orderBy, i);
      PositionCountsEarlier(b, entries, orderBy, j);
    }
  }

  // ---- Pages and windows ------------------------------------------------------------------------

  /** From an offset, at most length entries; no length means all of them. */
  function Page<T>(entries: seq<T>, offset: nat, length: nat): seq<T> {
    var selected := DropUpTo(entries, offset);
    if 0 < length then TakeUpTo(selected, length) else selected
  }

  /** Ranks are given before the page is cut. */
  lemma PageOfRows(ordered: seq<Entry>, standard: bool, commonData: map<UInt64, Blob>, offset: nat, length: nat)
    ensures Rows(ordered, Page(ordered, offset, length), standard, commonData)
            == Page(Rows(ordered, ordered, standard, commonData), offset, length)
  {
  }

  /** Consecutive pages show the board without a gap or an overlap. */
  lemma {:induction false} PagesTile<T>(entries: seq<T>, length: nat, pages: nat)
    requires length > 0 && |entries| <= length * pages
    ensures Concatenated(seq(pages, i requires 0 <= i < pages => Page(entries, length * i, length))) == entries
  {
    PagesReach(entries, length, pages, pages);
    var all := seq(pages, i requires 0 <= i < pages => Page(entries, length * i, length));
    assert all[..pages] == all;
  }

  function Concatenated<T>(pages: seq<seq<T>>): seq<T> {
    if pages == [] then [] else Concatenated(Init(pages)) + Last(pages)
  }

  lemma {:induction false} PagesReach<T>(entries: seq<T>, length: nat, pages: nat, k: nat)
    requires length > 0 && k <= pages
    ensures Concatenated(seq(pages, i requires 0 <= i < pages => Page(entries, length * i, length))[..k])
            == TakeUpTo(entries, length * k)
  {
    var all := seq(pages, i requires 0 <= i < pages => Page(entries, length * i, length));
    if k == 0 {
      assert length * k == 0;
    } else {
      PagesReach(entries, length, pages, k - 1);
      assert Init(all[..k]) == all[..k - 1] && Last(all[..k]) == Page(entries, length * (k - 1), length);
      assert length * k == length * (k - 1) + length;
      PageExtends(entries, length * (k - 1), length);
    }
  }

  lemma PageExtends<T>(entries: seq<T>, offset: nat, length: nat)
    requires length > 0
    ensures TakeUpTo(entries, offset) + Page(entries, offset, length) == TakeUpTo(entries, offset + length)
  {
  }

  function PositionOf(ordered: seq<Entry>, pid: UInt64): (r: Option<nat>)
    ensures r.Some? <==> exists e :: e in ordered && e.pid == pid
    ensures r.Some? ==> r.value < |ordered| && ordered[r.value].pid == pid
  {
    if ordered == [] then None
    else
      var before := PositionOf(Init(ordered), pid);
      assert ordered == Init(ordered) + [Last(ordered)];
      if before.Some? then before else if Last(ordered).pid == pid then Some(|ordered| - 1) else None
  }

  /** The first and one past the last position shown around a player. */
  function Window(position: nat, length: nat, count: nat): (nat, nat)
    requires position < count
  {
    var shown := if length == 0 then 1 else length;
    var start := if position < shown / 2 then 0 else position - shown / 2;
    (start, if start + shown > count then count else start + shown)
  }

  /** The window holds the player, stays on the board, and is as long as asked unless the board ends. */
  lemma WindowHoldsPlayer(position: nat, length: nat, count: nat)
    requires position < count
    ensures var (start, end) := Window(position, length, count);
            && start <= position < end <= count
            && end - start <= (if length == 0 then 1 else length)
            && (end - start < length ==> end == count)
            && (start == 0 || position - start == length / 2)
  {
  }

  // ---- Boards of some players -------------------------------------------------------------------

  function Allowed(ordered: seq<Entry>, allowed: set<UInt64>): seq<Entry> {
    Filter(ordered, (e: Entry) => e.pid in allowed)
  }

  function Restricted(entries: Entries, allowed: set<UInt64>): Entries {
    map p | p in entries && p in allowed :: entries[p]
  }

  /** Keeping some players of a board leaves the board of those players. */
  lemma AllowedIsBoard(ordered: seq<Entry>, entries: Entries, orderBy: UInt8, allowed: set<UInt64>)
    requires IsBoard(ordered, entries, orderBy)
    ensures IsBoard(Allowed(ordered, allowed), Restricted(entries, allowed), orderBy)
  {
    var kept := Allowed(ordered, allowed);
    FilterMembers(ordered, (e: Entry) => e.pid in allowed);
    AllowedKeepsOrder(ordered, orderBy, allowed);
    DistinctPlayers(kept, |kept|);
    assert kept[..|kept|] == kept;
    KeysCounted(Players(kept));
    PlayersOfBoard(kept, Restricted(entries, allowed));
  }

  lemma PlayersOfBoard(ordered: seq<Entry>, entries: Entries)
    requires forall p :: p in entries ==> entries[p].pid == p
    requires forall e: Entry :: e in ordered <==> e.pid in entries && entries[e.pid] == e
    ensures SetOf(Players(ordered)) == entries.Keys
  {
    forall p | p in entries ensures p in Players(ordered) {
      assert entries[p] in ordered;
      var j :| 0 <= j < |ordered| && ordered[j] == entries[p];
      assert Players(ordered)[j] == p;
    }
    forall p | p in Players(ordered) ensures p in entries {
      var j :| 0 <= j < |ordered| && Players(ordered)[j] == p;
      assert ordered[j] in ordered;
    }
  }

  lemma {:induction false} AllowedKeepsOrder(ordered: seq<Entry>, orderBy: UInt8, allowed: set<UInt64>)
    requires forall i, j :: 0 <= i < j < |ordered| ==> ordered[i].pid != ordered[j].pid
    requires forall i, j :: 0 <= i < j < |ordered| ==> !RanksBefore(ordered[j], ordered[i], orderBy)
    ensures var kept := Allowed(ordered, allowed);
            && (forall i, j :: 0 <= i < j < |kept| ==> kept[i].pid != kept[j].pid)
            && (forall i, j :: 0 <= i < j < |kept| ==> !RanksBefore(kept[j], kept[i], orderBy))
  {
    if ordered == [] {
    } else {
      AllowedKeepsOrder(Init(ordered), orderBy, allowed);
      var kept := Allowed(Init(ordered), allowed);
      FilterMembers(Init(ordered), (e: Entry) => e.pid in allowed);
      forall i | 0 <= i < |kept|
        ensures kept[i].pid != Last(ordered).pid && !RanksBefore(Last(ordered), kept[i], orderBy)
      {
        assert kept[i] in kept;
        var j :| 0 <= j < |ordered| - 1 && ordered[j] == kept[i];
      }
    }
  }

  // ---- Projected ranks --------------------------------------------------------------------------

  /** How many listed scores beat one. */
  function Beaten(ordered: seq<Entry>, score: UInt32, orderBy: UInt8): nat {
    if ordered == [] then 0
    else Beaten(Init(ordered), score, orderBy) + (if BetterThan(Last(ordered).score, score, orderBy) then 1 else 0)
  }

  /** ApproximateOrder's answer. */
  function Projected(ordered: seq<Entry>, score: UInt32): UInt32 {
    U32(1 + Beaten(ordered, score, OrderingOf(ordered)))
  }

  /** The projected rank is the standing that the score would have on the board as it is. */
  lemma ProjectedIsStanding(ordered: seq<Entry>, entries: Entries, orderBy: UInt8, score: UInt32)
    requires IsBoard(ordered, entries, orderBy)
    ensures Projected(ordered, score) == U32(Standing(entries, score, orderBy))
  {
    BeatenAreAhead(ordered, entries, orderBy, score);
    if ordered == [] {
      assert Ahead(entries, score, orderBy) == {};
    } else {
      assert ordered[0] in ordered;
    }
  }

  lemma BeatenAreAhead(ordered: seq<Entry>, entries: Entries, orderBy: UInt8, score: UInt32)
    requires IsBoard(ordered, entries, orderBy)
    ensures Beaten(ordered, score, orderBy) == |Ahead(entries, score, orderBy)|
  {
    var ahead := Ahead(entries, score, orderBy);
    AllowedIsBoard(ordered, entries, orderBy, ahead);
    BeatenAreAllowed(ordered, ahead, score, orderBy);
    assert Restricted(entries, ahead).Keys == ahead;
  }

  lemma {:induction false} BeatenAreAllowed(ordered: seq<Entry>, ahead: set<UInt64>, score: UInt32, orderBy: UInt8)
    requires forall e :: e in ordered ==> (e.pid in ahead <==> BetterThan(e.score, score, orderBy))
    ensures Beaten(ordered, score, orderBy) == |Allowed(ordered, ahead)|
  {
    if ordered == [] {
    } else {
      assert ordered == Init(ordered) + [Last(ordered)];
      BeatenAreAllowed(Init(ordered), ahead, score, orderBy);
    }
  }

  /** How the standing after an upload compares with the projection made before it. */
  lemma UploadMeetsProjection(b: Boards, pid: UInt64, data: ScoreData, uniqueID: UInt64, now: UInt64)
    requires OneOrdering(EntriesOf(b, data.category), data.orderBy)
    ensures var was := EntriesOf(b, data.category);
            var became := EntriesOf(Inserted(b, pid, data, uniqueID, now), data.category);
            var projected := Standing(was, data.score, data.orderBy);
            && OneOrdering(became, data.orderBy) && pid in became
            && var landed := Standing(became, became[pid].score, data.orderBy);
            if pid !in was || !BetterThan(was[pid].score, data.score, data.orderBy) then landed == projected
            else if data.updateMode == UPDATE_NORMAL then landed < projected
            else landed + 1 == projected
  {
    var was := EntriesOf(b, data.category);
    var became := EntriesOf(Inserted(b, pid, data, uniqueID, now), data.category);
    var ahead := Ahead(was, data.score, data.orderBy);
    var after := Ahead(became, became[pid].score, data.orderBy);
    if pid !in was || !BetterThan(was[pid].score, data.score, data.orderBy) {
      assert after == ahead;
    } else if data.updateMode == UPDATE_NORMAL {
      assert after <= ahead - {pid} && pid in ahead;
      Smaller(after, ahead - {pid});
    } else {
      assert after == ahead - {pid} && pid in ahead;
    }
  }

  /** The rank shown after an upload against the rank projected before it, whatever the two walks. */
  lemma ShownRankMeetsProjection(b: Boards, pid: UInt64, data: ScoreData, uniqueID: UInt64, now: UInt64,
                                 walk: seq<UInt64>, later: seq<UInt64>, i: nat)
    requires var was := EntriesOf(b, data.category);
             OneOrdering(was, data.orderBy) && Enumerates(walk, was.Keys) && |was| + 1 < TWO32
    requires var became := EntriesOf(Inserted(b, pid, data, uniqueID, now), data.category);
             && Enumerates(later, became.Keys) && (forall p :: p in later ==> p in became)
             && i < |Ranked(Listed(became, later))| && Ranked(Listed(became, later))[i].pid == pid
    ensures forall p :: p in walk ==> p in EntriesOf(b, data.category)
    ensures var was := EntriesOf(b, data.category);
            var became := EntriesOf(Inserted(b, pid, data, uniqueID, now), data.category);
            var projected := Projected(Ranked(Listed(was, walk)), data.score);
            var shown := RankAt(Ranked(Listed(became, later)), i, true);
            if pid !in was || !BetterThan(was[pid].score, data.score, data.orderBy) then shown == projected
            else if data.updateMode == UPDATE_NORMAL then shown < projected
            else shown + 1 == projected
  {
    var was := EntriesOf(b, data.category);
    var became := EntriesOf(Inserted(b, pid, data, uniqueID, now), data.category);
    UploadMeetsProjection(b, pid, data, uniqueID, now);
    RankedIsBoard(was, walk, data.orderBy);
    RankedIsBoard(became, later, data.orderBy);
    var ordered := Ranked(Listed(became, later));
    assert ordered[i] in ordered;
    ProjectedIsStanding(Ranked(Listed(was, walk)), was, data.orderBy, data.score);
    RankIsStanding(ordered, became, data.orderBy, i);
    StandingFits(was, data.score, data.orderBy);
    assert |became| <= |was| + 1;
    StandingFits(became, became[pid].score, data.orderBy);
  }

  lemma StandingFits(entries: Entries, score: UInt32, orderBy: UInt8)
    requires |entries| < TWO32
    ensures Standing(entries, score, orderBy) <= |entries| + 1
    ensures Standing(entries, score, orderBy) < TWO32 ==>
              U32(Standing(entries, score, orderBy)) == Standing(entries, score, orderBy)
  {
    Smaller(Ahead(entries, score, orderBy), entries.Keys);
  }

  lemma Smaller<T>(a: set<T>, b: set<T>)
    requires a <= b
    ensures |a| <= |b|
  {
    assert b == a + (b - a);
  }
}
