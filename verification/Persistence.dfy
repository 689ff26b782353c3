/** The leaderboard on disk: maps keyed by decimal numerals, and what loading them restores. */
module Persistence {
  import opened Common
  import opened Decimal
  import opened Leaderboard

  /** The file's contents once decoded: scores by category and player, blobs by unique ID. */
  datatype Persisted = Persisted(scores: map<string, map<string, Entry>>, commonData: map<string, Blob>)

  lemma FormatDistinguishes()
    ensures forall m, n :: Format(m) == Format(n) ==> m == n
  {
    forall m, n | Format(m) == Format(n) ensures m == n {
      FormatInjective(m, n);
    }
  }

  /** The map with every key written as a numeral; distinct keys stay distinct. */
  function ByNumeral<V>(m: map<nat, V>): (r: map<string, V>)
    ensures forall n :: n in m ==> Format(n) in r && r[Format(n)] == m[n]
    ensures forall s :: s in r ==> exists n :: n in m && s == Format(n)
  {
    FormatDistinguishes();
    map n | n in m :: Format(n) := m[n]
  }

  function Files(scores: map<UInt32, Entries>): (r: map<nat, map<string, Entry>>)
    ensures forall c :: c in r <==> c in scores.Keys
    ensures forall c :: c in r ==> r[c] == ByNumeral(scores[c])
  {
    map c | c in scores :: ByNumeral(scores[c])
  }

  function ScoresOnDisk(scores: map<UInt32, Entries>): map<string, map<string, Entry>> { ByNumeral(Files(scores)) }

  /** Nothing else is keyed by the numerals of a map. */
  lemma ByNumeralOnly<V>(m: map<nat, V>, r: map<string, V>)
    requires forall n :: n in m ==> Format(n) in r && r[Format(n)] == m[n]
    requires forall s :: s in r ==> exists n :: n in m && s == Format(n)
    ensures r == ByNumeral(m)
  {
    hide Format;
    var w := ByNumeral(m);
    forall s | s in r ensures s in w && w[s] == r[s] {
      var n :| n in m && s == Format(n);
    }
    forall s | s in w ensures s in r {
      var n :| n in m && s == Format(n);
    }
  }

  /** What save writes. */
  function OnDisk(b: Boards): Persisted { Persisted(ScoresOnDisk(b.scores), ByNumeral(b.commonData)) }

  /** A result of loading: every readable key gives its number a value; of several, any may win. */
  ghost predicate Reads<V>(file: map<string, V>, limit: nat, r: map<nat, V>) {
    && (forall n :: n in r ==> exists s :: s in file && Scan(s, limit) == Some(n) && file[s] == r[n])
    && (forall s :: s in file && Scan(s, limit).Some? ==> Scan(s, limit).value in r)
  }

  ghost predicate ReadsScores(file: map<string, map<string, Entry>>, r: map<UInt32, Entries>) {
    && (forall c :: c in r ==> exists s :: s in file && Scan(s, TWO32) == Some(c) && Reads(file[s], TWO64, r[c]))
    && (forall s :: s in file && Scan(s, TWO32).Some? ==> Scan(s, TWO32).value in r)
  }

  ghost predicate Loads(file: Persisted, b: Boards) {
    ReadsScores(file.scores, b.scores) && Reads(file.commonData, TWO64, b.commonData)
  }

  lemma ScansBack(n: nat, limit: nat)
    requires n < limit
    ensures Scan(Format(n), limit) == Some(n)
  {
    FormatParses(n, limit);
  }

  lemma ReadsBack<V>(m: map<nat, V>, limit: nat, r: map<nat, V>)
    requires forall n :: n in m ==> n < limit
    requires Reads(ByNumeral(m), limit, r)
    ensures r == m
  {
    hide ByNumeral, Reads;
    forall n | n in m ensures n in r {
      KeyIsRead(m, limit, r, n);
    }
    forall n | n in r ensures n in m && r[n] == m[n] {
      KeyReadsBack(m, limit, r, n);
    }
  }

  lemma KeyIsRead<V>(m: map<nat, V>, limit: nat, r: map<nat, V>, n: nat)
    requires n in m && n < limit && Reads(ByNumeral(m), limit, r)
    ensures n in r
  {
    hide Format, Scan, ByNumeral;
    ScansBack(n, limit);
    assert Format(n) in ByNumeral(m);
  }

  lemma KeyReadsBack<V>(m: map<nat, V>, limit: nat, r: map<nat, V>, n: nat)
    requires forall n :: n in m ==> n < limit
    requires Reads(ByNumeral(m), limit, r) && n in r
    ensures n in m && r[n] == m[n]
  {
    hide Format, Scan, ByNumeral;
    var file := ByNumeral(m);
    var s :| s in file && Scan(s, limit) == Some(n) && file[s] == r[n];
    var k :| k in m && s == Format(k);
    ScansBack(k, limit);
  }

  /** Loading what was saved restores the same scores and common data, in whatever order both walk the maps. */
  lemma RoundTrip(b: Boards, loaded: Boards)
    requires Loads(OnDisk(b), loaded)
    ensures loaded == b
  {
    hide Format, Scan, ByNumeral;
    ReadsBack(b.commonData, TWO64, loaded.commonData);
    ScoresReadBack(b.scores, loaded.scores);
  }

  lemma ScoresReadBack(scores: map<UInt32, Entries>, loaded: map<UInt32, Entries>)
    requires ReadsScores(ScoresOnDisk(scores), loaded)
    ensures loaded == scores
  {
    hide ReadsScores, ScoresOnDisk;
    forall c | c in scores ensures c in loaded {
      CategoryIsRead(scores, loaded, c);
    }
    forall c | c in loaded ensures c in scores && loaded[c] == scores[c] {
      CategoryReadsBack(scores, loaded, c);
    }
  }

  lemma CategoryIsRead(scores: map<UInt32, Entries>, loaded: map<UInt32, Entries>, c: UInt32)
    requires ReadsScores(ScoresOnDisk(scores), loaded) && c in scores
    ensures c in loaded
  {
    var file := ByNumeral(Files(scores));
    assert ReadsScores(file, loaded);
    hide Format, Scan, ByNumeral, Files, Reads, ScoresOnDisk;
    ScansBack(c, TWO32);
    assert c in Files(scores) && Format(c) in file;
  }

  lemma CategoryReadsBack(scores: map<UInt32, Entries>, loaded: map<UInt32, Entries>, c: UInt32)
    requires ReadsScores(ScoresOnDisk(scores), loaded) && c in loaded
    ensures c in scores && loaded[c] == scores[c]
  {
    var files := Files(scores);
    var file := ByNumeral(files);
    assert ReadsScores(file, loaded);
    hide Format, Scan, ByNumeral, Files, Reads, ScoresOnDisk;
    var s :| s in file && Scan(s, TWO32) == Some(c) && Reads(file[s], TWO64, loaded[c]);
    hide ReadsScores;
    var k: nat :| k in files && s == Format(k);
    assert k in scores;
    ScansBack(k, TWO32);
    ReadsBack(scores[c], TWO64, loaded[c]);
  }

  lemma OwnFileReads<V>(m: map<nat, V>, limit: nat)
    requires forall n :: n in m ==> n < limit
    ensures Reads(ByNumeral(m), limit, m)
  {
    hide Format, Scan, ByNumeral;
    var file := ByNumeral(m);
    forall n | n in m ensures exists s :: s in file && Scan(s, limit) == Some(n) && file[s] == m[n] {
      ScansBack(n, limit);
      assert Format(n) in file;
    }
    forall s | s in file && Scan(s, limit).Some? ensures Scan(s, limit).value in m {
      var n :| n in m && s == Format(n);
      ScansBack(n, limit);
    }
  }

  /** A saved file does load to what was saved. */
  lemma SavedFileLoads(b: Boards)
    ensures Loads(OnDisk(b), b)
  {
    OwnFileReads(b.commonData, TWO64);
    hide Reads, ReadsScores, ByNumeral, ScoresOnDisk;
    OwnScoresRead(b.scores);
  }

  lemma OwnScoresRead(scores: map<UInt32, Entries>)
    ensures ReadsScores(ScoresOnDisk(scores), scores)
  {
    hide Scan, ScoresOnDisk, Reads;
    OwnKeysRead(scores);
    forall c | c in scores ensures CategoryOnDisk(scores, c) {
      OwnCategoryRead(scores, c);
    }
  }

  lemma OwnKeysRead(scores: map<UInt32, Entries>)
    ensures forall s :: s in ScoresOnDisk(scores) && Scan(s, TWO32).Some? ==> Scan(s, TWO32).value in scores
  {
    hide Scan, ByNumeral;
    OwnFileReads(Files(scores), TWO32);
  }

  ghost predicate CategoryOnDisk(scores: map<UInt32, Entries>, c: UInt32)
    requires c in scores
  {
    exists s :: s in ScoresOnDisk(scores) && Scan(s, TWO32) == Some(c)
      && Reads(ScoresOnDisk(scores)[s], TWO64, scores[c])
  }

  lemma OwnCategoryRead(scores: map<UInt32, Entries>, c: UInt32)
    requires c in scores
    ensures CategoryOnDisk(scores, c)
  {
    var files := Files(scores);
    var file := ByNumeral(files);
    assert ScoresOnDisk(scores) == file;
    hide Format, Scan, ByNumeral, Files, ScoresOnDisk, Reads;
    ScansBack(c, TWO32);
    OwnFileReads(scores[c], TWO64);
    assert c in files && Format(c) in file;
  }

  // ---- The loops that write and read such maps --------------------------------------------------

  method WriteByNumeral<V>(m: map<nat, V>) returns (r: map<string, V>)
    ensures r == ByNumeral(m)
  {
    FormatDistinguishes();
    hide Format, ByNumeral;
    r := map[];
    var remaining := m.Keys;
    while remaining != {}
      invariant remaining <= m.Keys
      invariant forall n :: n in m && n !in remaining ==> Format(n) in r && r[Format(n)] == m[n]
      invariant forall s :: s in r ==> exists n :: n in m && n !in remaining && s == Format(n)
    {
      var n :| n in remaining;
      remaining := remaining - {n};
      r := r[Format(n) := m[n]];
      assert n in m && n !in remaining;
    }
    ByNumeralOnly(m, r);
  }

  method WriteScores(scores: map<UInt32, Entries>) returns (r: map<string, map<string, Entry>>)
    ensures r == ScoresOnDisk(scores)
  {
    FormatDistinguishes();
    hide Format, ByNumeral, Files;
    r := map[];
    ghost var files := Files(scores);
    var remaining := scores.Keys;
    while remaining != {}
      invariant remaining <= scores.Keys
      invariant forall c :: c in scores && c !in remaining ==> Format(c) in r && r[Format(c)] == files[c]
      invariant forall s :: s in r ==> exists c :: c in scores && c !in remaining && s == Format(c)
    {
      var c :| c in remaining;
      remaining := remaining - {c};
      var entries := WriteByNumeral(scores[c]);
      r := r[Format(c) := entries];
      assert c in scores && c !in remaining;
    }
    ByNumeralOnly(files, r);
  }

  method ReadUint64Keys<V>(file: map<string, V>) returns (r: map<UInt64, V>)
    ensures Reads(file, TWO64, r)
  {
    r := map[];
    var remaining := file.Keys;
    while remaining != {}
      invariant remaining <= file.Keys
      invariant forall n :: n in r ==> exists s :: s in file && Scan(s, TWO64) == Some(n) && file[s] == r[n]
      invariant forall s :: s in file && s !in remaining && Scan(s, TWO64).Some? ==> Scan(s, TWO64).value in r
    {
      var s :| s in remaining;
      remaining := remaining - {s};
      var n := Scan(s, TWO64);
      if n.None? { continue; }
      ScanFits(s, TWO64);
      r := r[n.value := file[s]];
    }
  }

  lemma ScanFits(s: string, limit: nat)
    requires Scan(s, limit).Some?
    ensures Scan(s, limit).value < limit
  {
  }

  method ReadScores(file: map<string, map<string, Entry>>) returns (r: map<UInt32, Entries>)
    ensures ReadsScores(file, r)
  {
    hide Scan;
    r := map[];
    var remaining := file.Keys;
    while remaining != {}
      invariant remaining <= file.Keys
      invariant forall c :: c in r ==> exists s :: s in file && Scan(s, TWO32) == Some(c) && Reads(file[s], TWO64, r[c])
      invariant forall s :: s in file && s !in remaining && Scan(s, TWO32).Some? ==> Scan(s, TWO32).value in r
    {
      var s :| s in remaining;
      remaining := remaining - {s};
      var c := Scan(s, TWO32);
      if c.None? { continue; }
      ScanFits(s, TWO32);
      var entries := ReadUint64Keys(file[s]);
      r := r[c.value := entries];
    }
  }
}
