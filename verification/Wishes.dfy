/** What a search means to the player who writes its criteria: bounds on numbers, met or not. */
module Wishes {
  import opened Common
  import opened Decimal
  import opened Gatherings
  import opened Search
  import opened Sorting
  import opened Discovery
  import opened Invariants

  // ---- Bounds and their text --------------------------------------------------------------------

  datatype Bound = Any | Exactly(n: UInt32) | Between(low: UInt32, high: UInt32) {
    /** The string a console sends for it. */
    function Text(): string {
      match this
      case Any => ""
      case Exactly(n) => Format(n)
      case Between(low, high) => Format(low) + "," + Format(high)
    }

    predicate Meets(value: nat) {
      match this
      case Any => true
      case Exactly(n) => value == n
      case Between(low, high) => low <= value <= high
    }
  }

  /** The text of a bound is read as that bound: "5" accepts 5 only, "1,10" accepts 1 to 10, and "" accepts anything. */
  lemma TextMeansBound(bound: Bound, value: nat)
    ensures !ParseConstraint(bound.Text()).Malformed?
    ensures ParseConstraint(bound.Text()).Allows(value) <==> bound.Meets(value)
  {
    match bound
    case Any =>
    case Exactly(n) => ParseConstraintReadsNumbers(n, n);
    case Between(low, high) => ParseConstraintReadsNumbers(low, high);
  }

  /** As in the source's own examples. */
  lemma ExampleTexts()
    ensures Any.Text() == "" && Exactly(5).Text() == "5" && Between(1, 10).Text() == "1,10"
    ensures Exactly(4096).Text() == "4096"
  {
    assert Format(10) == Format(1) + "0" && Format(40) == Format(4) + "0";
    assert Format(409) == Format(40) + "9" && Format(4096) == Format(409) + "6";
  }

  /** A text that is neither empty nor begins with a digit is refused. */
  lemma TextMustBeginWithDigit(value: string)
    requires value != "" && !('0' <= value[0] <= '9')
    ensures ParseConstraint(value).Malformed?
  {
    var number := value[..CommaIndex(value)];
    if number != "" { assert number[0] == value[0]; }
  }

  /** Bounds on the numbers of a record, but for attribute 1, where any text may stand as reference. */
  datatype Wish = Wish(attributes: seq<Bound>, reference: string, gameMode: Bound, minimum: Bound, maximum: Bound,
                       systemType: Bound, vacant: bool, unlocked: bool, hosted: bool, selection: SelectionMethod,
                       heads: UInt16)

  function Texts(wish: Wish): seq<string> {
    seq(|wish.attributes|, i requires 0 <= i < |wish.attributes| =>
      if i == 1 then wish.reference else wish.attributes[i].Text())
  }

  /** The criteria a console sends for a wish. */
  function Written(wish: Wish): Criteria {
    Criteria(Texts(wish), wish.gameMode.Text(), wish.minimum.Text(), wish.maximum.Text(),
             wish.systemType.Text(), wish.vacant, wish.unlocked, wish.hosted, wish.selection, wish.heads)
  }

  /** The numbers of a gathering's record are as the wish says; attribute 1 is no condition. */
  predicate Fits(wish: Wish, info: MatchmakeSession) {
    && wish.gameMode.Meets(info.gameMode) && wish.systemType.Meets(info.matchmakeSystemType)
    && wish.minimum.Meets(info.minimumParticipants) && wish.maximum.Meets(info.maximumParticipants)
    && |info.attributes| == |wish.attributes|
    && forall i :: 0 <= i < |wish.attributes| && i != 1 ==> wish.attributes[i].Meets(info.attributes[i])
  }

  /** A gathering for friends only is found by the friends of its owner only. */
  predicate Befriended(env: Env, pid: PID, info: MatchmakeSession) {
    info.participationPolicy == 98 ==>
      env.friendLookup && info.ownerPID % 0x1_0000_0000 in env.friendPIDs(pid % 0x1_0000_0000)
  }

  /** As many more heads are within the limit, where 0 is no limit and nobody is one head. */
  predicate Holds(g: Gathering, heads: UInt16) {
    var more := if heads == 0 then 1 else heads;
    g.info.maximumParticipants == 0
    || (|g.participants| % 0x1_0000_0000 + more) % 0x1_0000_0000 <= g.info.maximumParticipants
  }

  /** Everything that a wish and the options of its search ask of a gathering. */
  predicate Granted(env: Env, pid: PID, wish: Wish, options: SearchOptions, g: Gathering) {
    && Fits(wish, g.info) && Befriended(env, pid, g.info)
    && (options.excludeOwnerPID == 0 || g.info.ownerPID != options.excludeOwnerPID)
    && (wish.unlocked || options.autoMatchmake ==> g.info.openParticipation)
    && (wish.hosted || options.autoMatchmake ==> g.info.hostPID != 0)
    && (wish.vacant || options.autoMatchmake ==> Holds(g, wish.heads))
  }

  lemma AttributesMean(wish: Wish, criteria: Criteria, attributes: seq<UInt32>)
    requires criteria.attribs == Texts(wish)
    ensures AttributesMatch(criteria, attributes) <==>
              && |attributes| == |wish.attributes|
              && forall i :: 0 <= i < |wish.attributes| && i != 1 ==> wish.attributes[i].Meets(attributes[i])
  {
    hide ParseConstraint;
    forall i | 0 <= i < |wish.attributes| && i < |attributes| && i != 1
      ensures ParseConstraint(criteria.attribs[i]).Allows(attributes[i]) <==> wish.attributes[i].Meets(attributes[i])
    {
      TextMeansBound(wish.attributes[i], attributes[i]);
    }
  }

  lemma WrittenIsWellFormed(wish: Wish, options: SearchOptions)
    ensures WellFormed(Restrict(Written(wish), options))
  {
    hide ParseConstraint;
    TextMeansBound(wish.gameMode, 0);
    TextMeansBound(wish.systemType, 0);
    TextMeansBound(wish.minimum, 0);
    TextMeansBound(wish.maximum, 0);
    forall i | 0 <= i < |wish.attributes| && i != 1 ensures !ParseConstraint(Written(wish).attribs[i]).Malformed? {
      TextMeansBound(wish.attributes[i], 0);
    }
  }

  /** The filters of a search, over the texts, keep exactly the gatherings that the wish is about. */
  lemma FiltersMeanWish(env: Env, pid: PID, wish: Wish, options: SearchOptions, g: Gathering)
    ensures Passes(env, pid, Restrict(Written(wish), options), options, g) <==> Granted(env, pid, wish, options, g)
  {
    hide ParseConstraint, AttributesMatch;
    TextMeansBound(wish.gameMode, g.info.gameMode);
    TextMeansBound(wish.systemType, g.info.matchmakeSystemType);
    TextMeansBound(wish.minimum, g.info.minimumParticipants);
    TextMeansBound(wish.maximum, g.info.maximumParticipants);
    AttributesMean(wish, Restrict(Written(wish), options), g.info.attributes);
  }

  // ---- What a search returns --------------------------------------------------------------------

  function WrittenAll(wishes: seq<Wish>): seq<Criteria> {
    seq(|wishes|, i requires 0 <= i < |wishes| => Written(wishes[i]))
  }

  lemma HitIsGranted(env: Env, pid: PID, wishes: seq<Wish>, range: ResultRange, source: Option<MatchmakeSession>,
                     options: SearchOptions, alls: seq<seq<Gathering>>, g: Gathering)
    requires |alls| == |wishes| && g in AllHits(env, pid, WrittenAll(wishes), range, source, options, alls)
    ensures exists i :: 0 <= i < |wishes| && g in alls[i] && Granted(env, pid, wishes[i], options, g)
  {
    hide AllHits, Passes, WellFormed, Granted, Restrict, Written;
    var criterias := WrittenAll(wishes);
    HitsMembers(env, pid, criterias, range, source, options, alls, g);
    var i :| 0 <= i < |criterias| && WellFormed(Restrict(criterias[i], options)) && g in alls[i]
             && Passes(env, pid, Restrict(criterias[i], options), options, g);
    FiltersMeanWish(env, pid, wishes[i], options, g);
  }

  lemma GrantedIsHit(env: Env, pid: PID, wishes: seq<Wish>, range: ResultRange, source: Option<MatchmakeSession>,
                     options: SearchOptions, alls: seq<seq<Gathering>>, i: nat, g: Gathering)
    requires |alls| == |wishes| && i < |wishes| && g in alls[i] && Granted(env, pid, wishes[i], options, g)
    requires range.offset in {0, 0xFFFF_FFFF}
    ensures g in AllHits(env, pid, WrittenAll(wishes), range, source, options, alls)
  {
    hide AllHits, Passes, WellFormed, Granted, Restrict, Written;
    FiltersMeanWish(env, pid, wishes[i], options, g);
    WrittenIsWellFormed(wishes[i], options);
    HitsComplete(env, pid, WrittenAll(wishes), range, source, options, alls, i, g);
  }

  /** Everything returned is live and was wished for, and a search that does not reach its limit misses nothing. */
  lemma SearchGrantsWishes(env: Env, sessions: map<nat, Gathering>, pid: PID, wishes: seq<Wish>, range: ResultRange,
                           source: Option<MatchmakeSession>, options: SearchOptions, results: seq<Gathering>)
    requires Searched(env, sessions, pid, WrittenAll(wishes), range, source, options, results)
    ensures forall g :: g in results ==>
              g in sessions.Values && exists i :: 0 <= i < |wishes| && Granted(env, pid, wishes[i], options, g)
    ensures options.allowPublic && range.offset in {0, 0xFFFF_FFFF}
            && |results| < (if range.length == 0 then 0xFFFF_FFFF else range.length) ==>
              forall gid, i ::
                gid in sessions && 0 <= i < |wishes| && Granted(env, pid, wishes[i], options, sessions[gid]) ==>
                  sessions[gid] in results
    ensures !options.allowPublic ==> results == []
  {
    hide AllHits, Granted, Lookup, Enumerates;
    var orders, alls :| |alls| == |WrittenAll(wishes)| && Listed(sessions, orders, alls)
                        && results == SearchResult(env, pid, WrittenAll(wishes), range, source, options, alls);
    forall g | g in results
      ensures g in sessions.Values && exists i :: 0 <= i < |wishes| && Granted(env, pid, wishes[i], options, g)
    {
      HitIsGranted(env, pid, wishes, range, source, options, alls, g);
      var i :| 0 <= i < |wishes| && g in alls[i] && Granted(env, pid, wishes[i], options, g);
      LookedUpIsLive(sessions, orders[i], g);
    }
    if options.allowPublic && range.offset in {0, 0xFFFF_FFFF} {
      forall gid, i | gid in sessions && 0 <= i < |wishes| && Granted(env, pid, wishes[i], options, sessions[gid])
        ensures |results| < EffectiveLength(range) ==> sessions[gid] in results
      {
        LookupComplete(sessions, orders[i], gid);
        GrantedIsHit(env, pid, wishes, range, source, options, alls, i, sessions[gid]);
      }
    }
  }

  /** Criteria with a text that is no bound find nothing, and the search goes on without them. */
  lemma NonsenseFindsNothing(env: Env, pid: PID, criterias: seq<Criteria>, range: ResultRange,
                             source: Option<MatchmakeSession>, options: SearchOptions, alls: seq<seq<Gathering>>,
                             text: string)
    requires |alls| == |criterias| && criterias != [] && text != "" && !('0' <= text[0] <= '9')
    requires var last := Last(criterias);
             || text in {last.gameMode, last.minParticipants, last.maxParticipants, last.matchmakeSystemType}
             || exists i :: 0 <= i < |last.attribs| && i != 1 && last.attribs[i] == text
    ensures AllHits(env, pid, criterias, range, source, options, alls)
            == AllHits(env, pid, Init(criterias), range, source, options, Init(alls))
  {
    TextMustBeginWithDigit(text);
    hide ParseConstraint;
  }

  // ---- In which order ---------------------------------------------------------------------------

  /** Two numbers are at most d apart. */
  predicate Near(a: nat, b: nat, d: nat) { a <= b + d && b <= a + d }

  /** Two pairs of numbers are at most d apart in all. */
  ghost predicate NearTogether(a: nat, b: nat, x: nat, y: nat, d: nat) {
    exists c: nat :: c <= d && Near(a, b, c) && Near(x, y, d - c)
  }

  lemma DistanceIsGap(a: nat, b: nat, x: nat, y: nat)
    ensures forall d: nat :: Distance(a, b) <= d <==> Near(a, b, d)
    ensures forall d: nat :: Distance(a, b) + Distance(x, y) <= d <==> NearTogether(a, b, x, y, d)
  {
    forall d: nat ensures Distance(a, b) + Distance(x, y) <= d <==> NearTogether(a, b, x, y, d) {
      var c := Distance(a, b);
      assert c <= d && Distance(x, y) <= d - c ==> Near(a, b, c) && Near(x, y, d - c);
    }
  }

  lemma ReferenceReads(wish: Wish, options: SearchOptions, r: UInt32)
    requires |wish.attributes| > 1 && wish.reference == Format(r)
    ensures ReferenceAttribute(Restrict(Written(wish), options)) == r
  {
    FormatParses(r, TWO32);
  }

  lemma FoundByOne(env: Env, pid: PID, criteria: Criteria, range: ResultRange, source: Option<MatchmakeSession>,
                   options: SearchOptions, all: seq<Gathering>)
    ensures AllHits(env, pid, [criteria], range, source, options, [all])
            == Hits(env, pid, criteria, range, source, options, all)
  {
    hide Hits;
    assert Init([criteria]) == [];
  }

  /** An earlier result is at least as near to the reference, in attribute 1 or progress or both together, or at least
      as full, as the wish's selection method says. */
  ghost predicate Precedes(wish: Wish, source: Option<MatchmakeSession>, r: UInt32, a: Gathering, b: Gathering)
    requires |a.info.attributes| > 1 && |b.info.attributes| > 1
  {
    var x, y := a.info.attributes[1], b.info.attributes[1];
    match wish.selection
    case Random => |a.participants| % 0x1_0000_0000 >= |b.participants| % 0x1_0000_0000
    case ProgressScore =>
      source.Some? ==>
        var p := source.value.progressScore;
        forall d: nat :: Near(p, b.info.progressScore, d) ==> Near(p, a.info.progressScore, d)
    case BroadenRangeWithProgressScore =>
      source.Some? ==>
        var p := source.value.progressScore;
        forall d: nat ::
          NearTogether(r, y, p, b.info.progressScore, d) ==> NearTogether(r, x, p, a.info.progressScore, d)
    case _ => forall d: nat :: Near(r, y, d) ==> Near(r, x, d)
  }

  lemma NoWorsePrecedes(wish: Wish, source: Option<MatchmakeSession>, options: SearchOptions, r: UInt32, a: Gathering,
                        b: Gathering)
    requires |wish.attributes| > 1 && wish.reference == Format(r)
    requires |a.info.attributes| > 1 && |b.info.attributes| > 1
    requires NoWorse(Restrict(Written(wish), options), source, a, b)
    ensures Precedes(wish, source, r, a, b)
  {
    ReferenceReads(wish, options, r);
    var p := if source.Some? then source.value.progressScore else 0;
    DistanceIsGap(r, a.info.attributes[1], p, a.info.progressScore);
    DistanceIsGap(r, b.info.attributes[1], p, b.info.progressScore);
    DistanceIsGap(p, a.info.progressScore, 0, 0);
    DistanceIsGap(p, b.info.progressScore, 0, 0);
    hide ReferenceAttribute, Format, Distance, Near, NearTogether;
  }

  lemma ResultsAreHits(env: Env, sessions: map<nat, Gathering>, pid: PID, criteria: Criteria, range: ResultRange,
                       source: Option<MatchmakeSession>, options: SearchOptions, results: seq<Gathering>)
    returns (all: seq<Gathering>)
    requires Searched(env, sessions, pid, [criteria], range, source, options, results)
    ensures results <= Hits(env, pid, criteria, range, source, options, all)
  {
    hide Hits, Lookup, Enumerates, AllHits;
    var orders, alls :| |alls| == 1 && Listed(sessions, orders, alls)
                        && results == SearchResult(env, pid, [criteria], range, source, options, alls);
    all := alls[0];
    assert alls == [all];
    FoundByOne(env, pid, criteria, range, source, options, all);
  }

  /** The results for one wish come in the order that it selects. */
  lemma SearchIsOrdered(env: Env, sessions: map<nat, Gathering>, pid: PID, wish: Wish, r: UInt32, range: ResultRange,
                        source: Option<MatchmakeSession>, options: SearchOptions, results: seq<Gathering>, i: nat,
                        j: nat)
    requires Searched(env, sessions, pid, [Written(wish)], range, source, options, results) && i < j < |results|
    requires |wish.attributes| > 1 && wish.reference == Format(r)
    ensures |results[i].info.attributes| > 1 && |results[j].info.attributes| > 1
    ensures Precedes(wish, source, r, results[i], results[j])
  {
    hide Searched, Hits, NoWorse, Precedes, Written, Format;
    var all := ResultsAreHits(env, sessions, pid, Written(wish), range, source, options, results);
    HitsAreOrdered(env, pid, Written(wish), range, source, options, all);
    ResultsHaveAttributes(env, sessions, pid, wish, range, source, options, results);
    assert results[i] in results && results[j] in results;
    NoWorsePrecedes(wish, source, options, r, results[i], results[j]);
  }

  lemma ResultsHaveAttributes(env: Env, sessions: map<nat, Gathering>, pid: PID, wish: Wish, range: ResultRange,
                              source: Option<MatchmakeSession>, options: SearchOptions, results: seq<Gathering>)
    requires Searched(env, sessions, pid, [Written(wish)], range, source, options, results)
    ensures forall g :: g in results ==> |g.info.attributes| == |wish.attributes|
  {
    hide Searched;
    assert WrittenAll([wish]) == [Written(wish)];
    SearchGrantsWishes(env, sessions, pid, [wish], range, source, options, results);
  }

  // ---- Which part of it -------------------------------------------------------------------------

  /** A range cuts a search's whole result: it skips offset results, none if the offset is 2^32 - 1, and then gives
      length of them, all if the length is 0. */
  lemma RangeCuts(env: Env, pid: PID, criteria: Criteria, range: ResultRange, source: Option<MatchmakeSession>,
                  options: SearchOptions, all: seq<Gathering>)
    requires |all| < 0x1_0000_0000
    ensures var whole := SearchResult(env, pid, [criteria], ResultRange(0, 0), source, options, [all]);
            var part := SearchResult(env, pid, [criteria], range, source, options, [all]);
            var skipped := if range.offset == 0xFFFF_FFFF then 0 else range.offset;
            && |part| == (if skipped >= |whole| then 0
                          else if 0 < range.length < |whole| - skipped then range.length
                          else |whole| - skipped)
            && forall k :: 0 <= k < |part| ==> part[k] == whole[skipped + k]
  {
    hide AllHits, Hits;
    FoundByOne(env, pid, criteria, range, source, options, all);
    FoundByOne(env, pid, criteria, ResultRange(0, 0), source, options, all);
    HitsFromOffset(env, pid, criteria, range, source, options, all);
  }

  lemma HitsFromOffset(env: Env, pid: PID, criteria: Criteria, range: ResultRange, source: Option<MatchmakeSession>,
                       options: SearchOptions, all: seq<Gathering>)
    ensures var whole := Hits(env, pid, criteria, ResultRange(0, 0), source, options, all);
            && |whole| <= |all|
            && Hits(env, pid, criteria, range, source, options, all) == DropUpTo(whole, EffectiveOffset(range))
  {
    var restricted := Restrict(criteria, options);
    FilterLength(all, Keep(env, pid, restricted, options));
    StableSortMembers(Matches(env, pid, restricted, options, all), SelectionKey(restricted, source));
    HitsOf(env, pid, criteria, range, source, options, all);
    HitsOf(env, pid, criteria, ResultRange(0, 0), source, options, all);
    hide Hits, Restrict, StableSort, SelectionKey, WellFormed;
  }
}
