/** The leaderboard's contents: what an upload keeps, what a deletion removes, and what runs of them keep. */
module Leaderboard {
  import opened Common

  const DESCENDING: UInt8 := 1
  const UPDATE_NORMAL: UInt8 := 0

  type Blob = seq<UInt8>

  /** One player's score in one category. */
  datatype Entry = Entry(
    pid: UInt64, uniqueID: UInt64, category: UInt32, score: UInt32, orderBy: UInt8,
    groups: Blob, param: UInt64, updateTime: UInt64)

  type Entries = map<UInt64, Entry>

  datatype Boards = Boards(scores: map<UInt32, Entries>, commonData: map<UInt64, Blob>)

  const EMPTY: Boards := Boards(map[], map[])

  datatype ScoreData = ScoreData(category: UInt32, score: UInt32, orderBy: UInt8, updateMode: UInt8, groups: Blob,
                                 param: UInt64)

  /** Whether a score beats another: higher wins when descending, lower otherwise. */
  predicate BetterThan(score: UInt32, other: UInt32, orderBy: UInt8) {
    if orderBy == DESCENDING then score > other else score < other
  }

  function EntriesOf(b: Boards, category: UInt32): Entries {
    if category in b.scores then b.scores[category] else map[]
  }

  function Candidate(pid: UInt64, data: ScoreData, uniqueID: UInt64, now: UInt64): Entry {
    Entry(pid, uniqueID, data.category, data.score, data.orderBy, data.groups, data.param, now)
  }

  /** The existing score stands: a normal upload that is not better changes nothing. */
  predicate Stands(entries: Entries, pid: UInt64, data: ScoreData) {
    pid in entries && data.updateMode == UPDATE_NORMAL && !BetterThan(data.score, entries[pid].score, data.orderBy)
  }

  function Inserted(b: Boards, pid: UInt64, data: ScoreData, uniqueID: UInt64, now: UInt64): Boards {
    var entries := EntriesOf(b, data.category);
    if Stands(entries, pid, data) then b
    else b.(scores := b.scores[data.category := entries[pid := Candidate(pid, data, uniqueID, now)]])
  }

  /** The category without the player; an emptied category disappears. */
  function WithoutScore(b: Boards, pid: UInt64, category: UInt32): Boards {
    if category !in b.scores then b
    else if b.scores[category] - {pid} == map[] then b.(scores := b.scores - {category})
    else b.(scores := b.scores[category := b.scores[category] - {pid}])
  }

  function WithoutPlayer(b: Boards, pid: UInt64): Boards {
    b.(scores := map c | c in b.scores && b.scores[c] - {pid} != map[] :: b.scores[c] - {pid})
  }

  datatype Op =
    | Upload(pid: UInt64, data: ScoreData, uniqueID: UInt64, now: UInt64)
    | DeleteScore(pid: UInt64, category: UInt32)
    | DeleteAllScores(pid: UInt64)
    | UploadCommonData(uniqueID: UInt64, blob: Blob)
    | DeleteCommonData(uniqueID: UInt64)

  function Apply(b: Boards, op: Op): Boards {
    match op
    case Upload(pid, data, uniqueID, now) => Inserted(b, pid, data, uniqueID, now)
    case DeleteScore(pid, category) => WithoutScore(b, pid, category)
    case DeleteAllScores(pid) => WithoutPlayer(b, pid)
    case UploadCommonData(uniqueID, blob) => b.(commonData := b.commonData[uniqueID := blob])
    case DeleteCommonData(uniqueID) => b.(commonData := b.commonData - {uniqueID})
  }

  function After(b: Boards, ops: seq<Op>): Boards {
    if ops == [] then b else Apply(After(b, Init(ops)), Last(ops))
  }

  // ---- What every run keeps ---------------------------------------------------------------------

  /** Each entry sits under its own category and player, and no category is empty. */
  ghost predicate Filed(b: Boards) {
    forall c :: c in b.scores ==>
                  && b.scores[c] != map[]
                  && forall p :: p in b.scores[c] ==> b.scores[c][p].pid == p && b.scores[c][p].category == c
  }

  lemma ApplyKeepsFiled(b: Boards, op: Op)
    requires Filed(b)
    ensures Filed(Apply(b, op))
  {
    if op.Upload? {
      var entries := EntriesOf(b, op.data.category)[op.pid := Candidate(op.pid, op.data, op.uniqueID, op.now)];
      assert op.pid in entries;
    }
  }

  lemma {:induction false} RunKeepsFiled(b: Boards, ops: seq<Op>)
    requires Filed(b)
    ensures Filed(After(b, ops))
  {
    if ops == [] {
    } else {
      RunKeepsFiled(b, Init(ops));
      ApplyKeepsFiled(After(b, Init(ops)), Last(ops));
    }
  }

  /** An upload either changes nothing, being no better, or replaces one entry by what was uploaded. */
  lemma UploadTouchesOneEntry(b: Boards, pid: UInt64, data: ScoreData, uniqueID: UInt64, now: UInt64)
    ensures var after := Inserted(b, pid, data, uniqueID, now);
            && after.commonData == b.commonData
            && (forall c: UInt32, p :: (c != data.category || p != pid) ==>
                  (p in EntriesOf(after, c) <==> p in EntriesOf(b, c))
                  && (p in EntriesOf(b, c) ==> EntriesOf(after, c)[p] == EntriesOf(b, c)[p]))
            && var entries := EntriesOf(after, data.category);
            && pid in entries
            && !(data.updateMode == UPDATE_NORMAL && BetterThan(data.score, entries[pid].score, data.orderBy))
            && (entries[pid] != Candidate(pid, data, uniqueID, now) ==>
                  && pid in EntriesOf(b, data.category) && entries[pid] == EntriesOf(b, data.category)[pid]
                  && data.updateMode == UPDATE_NORMAL)
            && var e := Candidate(pid, data, uniqueID, now);
               && e.pid == pid && e.uniqueID == uniqueID && e.category == data.category && e.score == data.score
               && e.orderBy == data.orderBy && e.groups == data.groups && e.param == data.param && e.updateTime == now
  {
  }

  /** Deletions remove the named entries, and only those. */
  lemma DeletionsAreExact(b: Boards, pid: UInt64, category: UInt32)
    ensures WithoutScore(b, pid, category).commonData == b.commonData == WithoutPlayer(b, pid).commonData
    ensures forall c: UInt32, p ::
              var was, one := EntriesOf(b, c), EntriesOf(WithoutScore(b, pid, category), c);
              var all := EntriesOf(WithoutPlayer(b, pid), c);
              && (p in one <==> p in was && !(p == pid && c == category)) && (p in one ==> one[p] == was[p])
              && (p in all <==> p in was && p != pid) && (p in all ==> all[p] == was[p])
  {
    forall c: UInt32, p ensures
        var was, one := EntriesOf(b, c), EntriesOf(WithoutScore(b, pid, category), c);
        var all := EntriesOf(WithoutPlayer(b, pid), c);
        && (p in one <==> p in was && !(p == pid && c == category)) && (p in one ==> one[p] == was[p])
        && (p in all <==> p in was && p != pid) && (p in all ==> all[p] == was[p])
    {
      var left := EntriesOf(b, c) - {pid};
      if p in EntriesOf(b, c) && p != pid { assert p in left; }
      if left == map[] { assert p !in left; }
    }
  }

  // ---- Personal bests ---------------------------------------------------------------------------

  /** Every entry a player put forward in a category: the one they had, then their uploads. */
  function Attempts(b: Boards, ops: seq<Op>, pid: UInt64, category: UInt32): seq<Entry> {
    if ops == [] then
      if pid in EntriesOf(b, category) then [EntriesOf(b, category)[pid]] else []
    else
      var op := Last(ops);
      Attempts(b, Init(ops), pid, category)
      + if op.Upload? && op.pid == pid && op.data.category == category
        then [Candidate(pid, op.data, op.uniqueID, op.now)] else []
  }

  /** The player only uploads to the category, in normal mode and with one ordering; others do as they like. */
  ghost predicate OnlyImproves(ops: seq<Op>, pid: UInt64, category: UInt32, orderBy: UInt8) {
    forall op :: op in ops ==>
      && (op.Upload? && op.pid == pid && op.data.category == category ==>
            op.data.updateMode == UPDATE_NORMAL && op.data.orderBy == orderBy)
      && op != DeleteScore(pid, category)
      && op != DeleteAllScores(pid)
  }

  /** The earliest of the best. */
  ghost predicate IsBest(attempts: seq<Entry>, i: nat, orderBy: UInt8) {
    && i < |attempts|
    && (forall j :: 0 <= j < |attempts| ==> !BetterThan(attempts[j].score, attempts[i].score, orderBy))
    && (forall j :: 0 <= j < i ==> BetterThan(attempts[i].score, attempts[j].score, orderBy))
  }

  /** The player's entry is the earliest of the best of their attempts; without attempts there is none. */
  ghost predicate KeepsBest(entries: Entries, pid: UInt64, attempts: seq<Entry>, orderBy: UInt8) {
    if attempts == [] then pid !in entries
    else exists i: nat :: IsBest(attempts, i, orderBy) && pid in entries && entries[pid] == attempts[i]
  }

  /** Whatever everyone else does meanwhile, a player keeps the earliest of their best scores, whole. */
  lemma {:induction false} PersonalBest(b: Boards, ops: seq<Op>, pid: UInt64, category: UInt32, orderBy: UInt8)
    requires OnlyImproves(ops, pid, category, orderBy)
    ensures KeepsBest(EntriesOf(After(b, ops), category), pid, Attempts(b, ops, pid, category), orderBy)
  {
    if ops == [] {
      var attempts := Attempts(b, ops, pid, category);
      if attempts != [] { assert IsBest(attempts, 0, orderBy); }
    } else {
      var op, mid := Last(ops), After(b, Init(ops));
      assert op in ops && forall o :: o in Init(ops) ==> o in ops;
      PersonalBest(b, Init(ops), pid, category, orderBy);
      var earlier := Attempts(b, Init(ops), pid, category);
      if op.Upload? && op.pid == pid && op.data.category == category {
        UploadKeepsBest(mid, op, earlier, orderBy);
      } else {
        assert Attempts(b, ops, pid, category) == earlier;
        OthersLeaveEntry(mid, op, pid, category);
      }
    }
  }

  lemma UploadKeepsBest(b: Boards, op: Op, earlier: seq<Entry>, orderBy: UInt8)
    requires op.Upload? && op.data.updateMode == UPDATE_NORMAL && op.data.orderBy == orderBy
    requires KeepsBest(EntriesOf(b, op.data.category), op.pid, earlier, orderBy)
    ensures KeepsBest(EntriesOf(Apply(b, op), op.data.category), op.pid,
                      earlier + [Candidate(op.pid, op.data, op.uniqueID, op.now)], orderBy)
  {
    var was := EntriesOf(b, op.data.category);
    var attempts := earlier + [Candidate(op.pid, op.data, op.uniqueID, op.now)];
    if earlier == [] {
      assert IsBest(attempts, 0, orderBy);
    } else {
      var i: nat :| IsBest(earlier, i, orderBy) && op.pid in was && was[op.pid] == earlier[i];
      assert IsBest(attempts, if Stands(was, op.pid, op.data) then i else |earlier|, orderBy);
    }
  }

  lemma OthersLeaveEntry(b: Boards, op: Op, pid: UInt64, category: UInt32)
    requires !(op.Upload? && op.pid == pid && op.data.category == category)
    requires op != DeleteScore(pid, category) && op != DeleteAllScores(pid)
    ensures var was, now := EntriesOf(b, category), EntriesOf(Apply(b, op), category);
            (pid in now <==> pid in was) && (pid in was ==> now[pid] == was[pid])
  {
    var was := EntriesOf(b, category);
    match op {
      case DeleteScore(p, c) => if c == category && pid in was { assert pid in was - {p}; }
      case DeleteAllScores(p) => if pid in was { assert pid in was - {p}; }
      case _ =>
    }
  }

  /** The best score is unique among the attempts, so the kept entry is determined. */
  lemma BestIsUnique(attempts: seq<Entry>, i: nat, j: nat, orderBy: UInt8)
    requires IsBest(attempts, i, orderBy) && IsBest(attempts, j, orderBy)
    ensures i == j
  {
    assert !BetterThan(attempts[i].score, attempts[j].score, orderBy);
    assert !BetterThan(attempts[j].score, attempts[i].score, orderBy);
  }
}
