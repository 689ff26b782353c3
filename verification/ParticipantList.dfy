/** The per-console player counts that a gathering's details report, as the server adds them up. */
module ParticipantList {
  import opened Common
  import opened Gatherings
  import opened GatheringStore
  import HeadCounts

  /** The 16-bit counters over a list of players: absent means zero. */
  ghost predicate Counted(counts: map<PID, UInt16>, players: seq<PID>) {
    && counts.Keys == SetOf(players)
    && forall pid :: pid in counts ==> counts[pid] == U16(Count(players, pid))
  }

  method ParticipantDetailsOf(session: Session) returns (details: seq<HeadCounts.ParticipantDetails>)
    ensures details == HeadCounts.Details(Dedup(session.participants), session.participants)
  {
    var counts := CountPlayers(session.participants);
    var distinct := RemoveDuplicates(session.participants);
    DedupFacts(session.participants);
    details := [];
    for i := 0 to |distinct|
      invariant details == HeadCounts.Details(distinct[..i], session.participants)
    {
      assert Init(distinct[..i + 1]) == distinct[..i];
      assert distinct[i] in distinct;
      details := details + [HeadCounts.ParticipantDetails(distinct[i], counts[distinct[i]])];
    }
    assert distinct[..|distinct|] == distinct;
  }

  method CountPlayers(players: seq<PID>) returns (counts: map<PID, UInt16>)
    ensures Counted(counts, players)
  {
    counts := map[];
    for i := 0 to |players|
      invariant Counted(counts, players[..i])
    {
      var pid := players[i];
      var before: nat := if pid in counts then counts[pid] else 0;
      CountingOneMore(counts, players[..i], pid);
      counts := counts[pid := U16(before + 1)];
      assert players[..i + 1] == players[..i] + [pid];
    }
    assert players[..|players|] == players;
  }

  lemma CountingOneMore(counts: map<PID, UInt16>, players: seq<PID>, pid: PID)
    requires Counted(counts, players)
    ensures var before: nat := if pid in counts then counts[pid] else 0;
            Counted(counts[pid := U16(before + 1)], players + [pid])
  {
    var more := players + [pid];
    assert Init(more) == players;
    CountPositive(players, pid);
    forall x ensures x in SetOf(more) <==> x in SetOf(players) || x == pid {
    }
    var n := Count(players, pid);
    assert U16(U16(n) + 1) == U16(n + 1);
  }
}
