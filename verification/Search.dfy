/** Session discovery: criteria, filters, ordering, and what a search must return. */
module Search {
  import opened Common
  import opened Decimal
  import opened Gatherings
  import opened Sorting

  const MAX_UINT32: nat := TWO32 - 1

  /** A criteria string: malformed, no constraint, or an inclusive range. */
  datatype Constraint = Malformed | Absent | Range(min: nat, max: nat) {
    predicate Allows(value: nat) { Absent? || (Range? && min <= value <= max) }
  }

  /** The index of the first comma, or the length of value when there is none. */
  function CommaIndex(value: string): (i: nat)
    ensures i <= |value| && ',' !in value[..i]
    ensures i < |value| ==> value[i] == ','
  {
    if value == "" || value[0] == ',' then 0
    else
      var i := 1 + CommaIndex(value[1..]);
      assert value[..i] == [value[0]] + value[1..][..i - 1];
      i
  }

  function ParseConstraint(value: string): Constraint {
    if value == "" then Absent
    else
      var cut := CommaIndex(value);
      match ParseUint(value[..cut], TWO32)
      case None => Malformed
      case Some(minimum) =>
        if cut == |value| then Range(minimum, minimum)
        else
          match ParseUint(value[cut + 1..], TWO32)
          case None => Malformed
          case Some(maximum) => Range(minimum, maximum)
  }

  lemma {:induction false} CommaIndexOf(before: string, rest: string)
    requires ',' !in before && (rest == "" || rest[0] == ',')
    ensures CommaIndex(before + rest) == |before|
  {
    if before == "" {
      assert before + rest == rest;
    } else {
      assert (before + rest)[1..] == before[1..] + rest;
      assert before[0] in before;
      CommaIndexOf(before[1..], rest);
    }
  }

  /** A number or a pair of numbers, written in decimal, means exactly itself. */
  lemma ParseConstraintReadsNumbers(min: UInt32, max: UInt32)
    ensures ParseConstraint(Format(min)) == Range(min, min)
    ensures ParseConstraint(Format(min) + "," + Format(max)) == Range(min, max)
  {
    FormatParses(min, TWO32);
    FormatParses(max, TWO32);
    CommaIndexOf(Format(min), "");
    assert Format(min) + "" == Format(min);
    var value := Format(min) + "," + Format(max);
    assert value == Format(min) + ("," + Format(max));
    CommaIndexOf(Format(min), "," + Format(max));
    assert value[..|Format(min)|] == Format(min) && value[|Format(min)| + 1..] == Format(max);
  }

  datatype SelectionMethod =
    | Random | NearestNeighbor | BroadenRange | ProgressScore | BroadenRangeWithProgressScore

  datatype Criteria = Criteria(
    attribs: seq<string>,
    gameMode: string,
    minParticipants: string,
    maxParticipants: string,
    matchmakeSystemType: string,
    vacantOnly: bool,
    excludeLocked: bool,
    excludeNonHostPID: bool,
    selectionMethod: SelectionMethod,
    vacantParticipants: UInt16)

  datatype SearchOptions = SearchOptions(autoMatchmake: bool, excludeOwnerPID: PID, allowPublic: bool)

  datatype ResultRange = ResultRange(offset: UInt32, length: UInt32)

  /** Automatic matchmaking forces the restrictive filters on. */
  function Restrict(criteria: Criteria, options: SearchOptions): Criteria {
    if options.autoMatchmake
    then criteria.(vacantOnly := true, excludeLocked := true, excludeNonHostPID := true)
    else criteria
  }

  /** Attribute 1 carries the selection method's reference value and is never a filter. */
  predicate WellFormed(criteria: Criteria) {
    && (forall i :: 0 <= i < |criteria.attribs| && i != 1 ==> !ParseConstraint(criteria.attribs[i]).Malformed?)
    && !ParseConstraint(criteria.maxParticipants).Malformed?
    && !ParseConstraint(criteria.minParticipants).Malformed?
    && !ParseConstraint(criteria.gameMode).Malformed?
    && !ParseConstraint(criteria.matchmakeSystemType).Malformed?
  }

  function FriendsOf(env: Env, pid: PID): seq<nat> {
    if env.friendLookup then env.friendPIDs(U32(pid)) else []
  }

  /** Policy 98 shows a gathering to its owner's friends only. */
  predicate PolicyAdmits(env: Env, pid: PID, info: MatchmakeSession) {
    info.participationPolicy == 98 ==> U32(info.ownerPID) in FriendsOf(env, pid)
  }

  predicate AttributesMatch(criteria: Criteria, attributes: seq<UInt32>) {
    && |attributes| == |criteria.attribs|
    && forall i :: 0 <= i < |attributes| && i != 1 ==> ParseConstraint(criteria.attribs[i]).Allows(attributes[i])
  }

  /** Whether a gathering survives every filter of one criteria. */
  predicate Passes(env: Env, pid: PID, criteria: Criteria, options: SearchOptions, g: Gathering) {
    && !(options.excludeOwnerPID != 0 && g.info.ownerPID == options.excludeOwnerPID)
    && AttributesMatch(criteria, g.info.attributes)
    && ParseConstraint(criteria.maxParticipants).Allows(g.info.maximumParticipants)
    && ParseConstraint(criteria.minParticipants).Allows(g.info.minimumParticipants)
    && ParseConstraint(criteria.gameMode).Allows(g.info.gameMode)
    && ParseConstraint(criteria.matchmakeSystemType).Allows(g.info.matchmakeSystemType)
    && PolicyAdmits(env, pid, g.info)
    && (criteria.excludeLocked ==> g.info.openParticipation)
    && (criteria.excludeNonHostPID ==> g.info.hostPID != 0)
    && (criteria.vacantOnly ==> !Full(g, Heads(criteria.vacantParticipants)))
  }

  function Keep(env: Env, pid: PID, criteria: Criteria, options: SearchOptions): Gathering -> bool {
    (g: Gathering) => Passes(env, pid, criteria, options, g)
  }

  /** matchCriteria over the gatherings in the order the store listed them. */
  function Matches(env: Env, pid: PID, criteria: Criteria, options: SearchOptions,
                   all: seq<Gathering>): seq<Gathering> {
    Filter(all, Keep(env, pid, criteria, options))
  }

  // ---- Ordering ---------------------------------------------------------------------------------

  function Distance(target: nat, value: nat): nat {
    if value > target then value - target else target - value
  }

  function Attribute1(g: Gathering): nat {
    if |g.info.attributes| > 1 then g.info.attributes[1] else 0
  }

  function ReferenceAttribute(criteria: Criteria): nat {
    if |criteria.attribs| > 1 && ParseUint(criteria.attribs[1], TWO32).Some?
    then ParseUint(criteria.attribs[1], TWO32).value
    else 0
  }

  /** The ascending sort key a selection method stands for; smaller comes first. */
  function SelectionKey(criteria: Criteria, source: Option<MatchmakeSession>): Gathering -> int {
    match criteria.selectionMethod
    case NearestNeighbor => NearestKey(ReferenceAttribute(criteria))
    case BroadenRange => NearestKey(ReferenceAttribute(criteria))
    case ProgressScore =>
      if source.None? then UnsortedKey()
      else ProgressKey(source.value.progressScore)
    case BroadenRangeWithProgressScore =>
      if source.None? then UnsortedKey()
      else NearestProgressKey(ReferenceAttribute(criteria), source.value.progressScore)
    case Random => FullestKey()
  }

  function NearestKey(reference: nat): Gathering -> int { (g: Gathering) => Distance(reference, Attribute1(g)) }
  function ProgressKey(target: nat): Gathering -> int { (g: Gathering) => Distance(target, g.info.progressScore) }
  function NearestProgressKey(reference: nat, target: nat): Gathering -> int {
    (g: Gathering) => Distance(reference, Attribute1(g)) + Distance(target, g.info.progressScore)
  }
  function FullestKey(): Gathering -> int { (g: Gathering) => 0 - g.HeadCount() as int }
  function UnsortedKey(): Gathering -> int { (g: Gathering) => 0 }

  // ---- Search -----------------------------------------------------------------------------------

  function EffectiveOffset(range: ResultRange): nat { if range.offset == MAX_UINT32 then 0 else range.offset }

  function EffectiveLength(range: ResultRange): nat { if range.length == 0 then MAX_UINT32 else range.length }

  /** One criteria's contribution before the shared limit; all is the listing its scan saw. */
  function Hits(env: Env, pid: PID, criteria: Criteria, range: ResultRange,
                source: Option<MatchmakeSession>, options: SearchOptions, all: seq<Gathering>): seq<Gathering>
  {
    var restricted := Restrict(criteria, options);
    if !WellFormed(restricted) then []
    else DropUpTo(StableSort(Matches(env, pid, restricted, options, all), SelectionKey(restricted, source)),
                  EffectiveOffset(range))
  }

  /** How a selection method ranks one gathering against another, in its own terms. */
  predicate NoWorse(criteria: Criteria, source: Option<MatchmakeSession>, a: Gathering, b: Gathering) {
    var reference := ReferenceAttribute(criteria);
    match criteria.selectionMethod
    case NearestNeighbor => Distance(reference, Attribute1(a)) <= Distance(reference, Attribute1(b))
    case BroadenRange => Distance(reference, Attribute1(a)) <= Distance(reference, Attribute1(b))
    case ProgressScore =>
      source.Some? ==>
        Distance(source.value.progressScore, a.info.progressScore)
        <= Distance(source.value.progressScore, b.info.progressScore)
    case BroadenRangeWithProgressScore =>
      source.Some? ==>
        Distance(reference, Attribute1(a)) + Distance(source.value.progressScore, a.info.progressScore)
        <= Distance(reference, Attribute1(b)) + Distance(source.value.progressScore, b.info.progressScore)
    case Random => a.HeadCount() >= b.HeadCount()
  }

  /** One criteria's hits come in the order of its selection method, and without an offset they are
      all of its matches. */
  lemma HitsAreOrdered(env: Env, pid: PID, criteria: Criteria, range: ResultRange,
                       source: Option<MatchmakeSession>, options: SearchOptions, all: seq<Gathering>)
    ensures var hits := Hits(env, pid, criteria, range, source, options, all);
            && (forall i, j :: 0 <= i < j < |hits| ==> NoWorse(Restrict(criteria, options), source, hits[i], hits[j]))
            && (WellFormed(Restrict(criteria, options)) && EffectiveOffset(range) == 0 ==>
                  multiset(hits) == multiset(Matches(env, pid, Restrict(criteria, options), options, all)))
  {
    var restricted := Restrict(criteria, options);
    var matched := Matches(env, pid, restricted, options, all);
    var key := SelectionKey(restricted, source);
    StableSortCorrect(matched, key);
    var sorted := StableSort(matched, key);
    hide StableSort, Matches;
    forall i, j | 0 <= i < j < |sorted| ensures NoWorse(restricted, source, sorted[i], sorted[j]) {
      assert key(sorted[i]) <= key(sorted[j]);
    }
    assert sorted[0..] == sorted;
  }

  function AllHits(env: Env, pid: PID, criterias: seq<Criteria>, range: ResultRange,
                   source: Option<MatchmakeSession>, options: SearchOptions, alls: seq<seq<Gathering>>): seq<Gathering>
    requires |alls| == |criterias|
  {
    if criterias == [] then []
    else AllHits(env, pid, Init(criterias), range, source, options, Init(alls))
         + Hits(env, pid, Last(criterias), range, source, options, Last(alls))
  }

  /** The closed form of Search: the first length hits of all criteria in order, offset applied to each. */
  function SearchResult(env: Env, pid: PID, criterias: seq<Criteria>, range: ResultRange,
                        source: Option<MatchmakeSession>, options: SearchOptions,
                        alls: seq<seq<Gathering>>): seq<Gathering>
    requires |alls| == |criterias|
  {
    if !options.allowPublic then []
    else TakeUpTo(AllHits(env, pid, criterias, range, source, options, alls), EffectiveLength(range))
  }

  lemma {:induction false} HitsMembers(env: Env, pid: PID, criterias: seq<Criteria>, range: ResultRange,
                                       source: Option<MatchmakeSession>, options: SearchOptions,
                                       alls: seq<seq<Gathering>>, g: Gathering)
    requires |alls| == |criterias|
    requires g in AllHits(env, pid, criterias, range, source, options, alls)
    ensures exists i :: 0 <= i < |criterias| && WellFormed(Restrict(criterias[i], options)) && g in alls[i]
                        && Passes(env, pid, Restrict(criterias[i], options), options, g)
  {
    var n := |criterias| - 1;
    if g in Hits(env, pid, Last(criterias), range, source, options, Last(alls)) {
      var restricted := Restrict(criterias[n], options);
      var matched := Matches(env, pid, restricted, options, alls[n]);
      StableSortMembers(matched, SelectionKey(restricted, source));
      assert g in StableSort(matched, SelectionKey(restricted, source));
      FilterMembers(alls[n], Keep(env, pid, restricted, options));
      assert WellFormed(restricted);
    } else {
      HitsMembers(env, pid, Init(criterias), range, source, options, Init(alls), g);
    }
  }

  /** With offset 0, nothing that passes a well-formed criteria is lost before the limit. */
  lemma {:induction false} HitsComplete(env: Env, pid: PID, criterias: seq<Criteria>, range: ResultRange,
                                        source: Option<MatchmakeSession>, options: SearchOptions,
                                        alls: seq<seq<Gathering>>, i: nat, g: Gathering)
    requires |alls| == |criterias| && i < |criterias| && EffectiveOffset(range) == 0
    requires WellFormed(Restrict(criterias[i], options)) && g in alls[i]
    requires Passes(env, pid, Restrict(criterias[i], options), options, g)
    ensures g in AllHits(env, pid, criterias, range, source, options, alls)
  {
    if i == |criterias| - 1 {
      var restricted := Restrict(criterias[i], options);
      var matched := Matches(env, pid, restricted, options, alls[i]);
      FilterMembers(alls[i], Keep(env, pid, restricted, options));
      assert g in matched;
      StableSortMembers(matched, SelectionKey(restricted, source));
      assert g in Hits(env, pid, criterias[i], range, source, options, alls[i]);
    } else {
      HitsComplete(env, pid, Init(criterias), range, source, options, Init(alls), i, g);
    }
  }

  // ---- FindSession ------------------------------------------------------------------------------

  /** The described session matches field for field, except attribute 1, and has room for one more. */
  predicate Equivalent(env: Env, pid: PID, wanted: MatchmakeSession, g: Gathering) {
    && g.info.hostPID != 0
    && g.info.openParticipation
    && !g.info.userPasswordEnabled && !g.info.systemPasswordEnabled
    && !(g.info.maximumParticipants != 0 && g.HeadCount() >= g.info.maximumParticipants)
    && g.info.maximumParticipants == wanted.maximumParticipants
    && g.info.minimumParticipants == wanted.minimumParticipants
    && g.info.gameMode == wanted.gameMode
    && g.info.matchmakeSystemType == wanted.matchmakeSystemType
    && |g.info.attributes| == |wanted.attributes|
    && (forall i :: 0 <= i < |wanted.attributes| && i != 1 ==> g.info.attributes[i] == wanted.attributes[i])
    && PolicyAdmits(env, pid, g.info)
  }

  function KeepEquivalent(env: Env, pid: PID, wanted: MatchmakeSession): Gathering -> bool {
    (g: Gathering) => Equivalent(env, pid, wanted, g)
  }

  function WantedAttribute1(wanted: MatchmakeSession): nat {
    if |wanted.attributes| > 1 then wanted.attributes[1] else 0
  }

  function FindSession(env: Env, pid: PID, wanted: MatchmakeSession, all: seq<Gathering>): Option<Gathering> {
    var sorted := StableSort(Filter(all, KeepEquivalent(env, pid, wanted)), NearestKey(WantedAttribute1(wanted)));
    if !env.allowPublic || sorted == [] then None else Some(sorted[0])
  }

  /** FindSession returns a nearest match, and none exactly when discovery is off or nothing matches. */
  lemma FindSessionOptimal(env: Env, pid: PID, wanted: MatchmakeSession, all: seq<Gathering>)
    ensures FindSession(env, pid, wanted, all).None? <==>
            !env.allowPublic || forall g :: g in all ==> !Equivalent(env, pid, wanted, g)
    ensures FindSession(env, pid, wanted, all).Some? ==>
              var found := FindSession(env, pid, wanted, all).value;
              && found in all && Equivalent(env, pid, wanted, found)
              && forall g :: g in all && Equivalent(env, pid, wanted, g) ==>
                   Distance(WantedAttribute1(wanted), Attribute1(found))
                     <= Distance(WantedAttribute1(wanted), Attribute1(g))
  {
    hide Equivalent, Distance, Attribute1, StableSort, Filter;
    var candidates := Filter(all, KeepEquivalent(env, pid, wanted));
    var key := NearestKey(WantedAttribute1(wanted));
    FilterMembers(all, KeepEquivalent(env, pid, wanted));
    StableSortCorrect(candidates, key);
    StableSortMembers(candidates, key);
    var sorted := StableSort(candidates, key);
    if sorted != [] {
      assert sorted[0] in candidates;
      forall g | g in all && Equivalent(env, pid, wanted, g) ensures key(sorted[0]) <= key(g) {
        assert g in candidates && g in sorted;
        var i :| 0 <= i < |sorted| && sorted[i] == g;
        assert i == 0 || key(sorted[0]) <= key(sorted[i]);
      }
    } else {
      assert candidates == [];
      forall g | g in all ensures !Equivalent(env, pid, wanted, g) {
        assert g !in candidates;
      }
    }
  }

  /** Among equally near matches the one listed first wins. */
  lemma FindSessionFirstAmongEquals(env: Env, pid: PID, wanted: MatchmakeSession, before: seq<Gathering>, g: Gathering,
                                    rest: seq<Gathering>)
    requires env.allowPublic && Equivalent(env, pid, wanted, g)
    requires forall x :: x in before && Equivalent(env, pid, wanted, x) ==>
               Distance(WantedAttribute1(wanted), Attribute1(g)) < Distance(WantedAttribute1(wanted), Attribute1(x))
    requires forall x :: x in rest && Equivalent(env, pid, wanted, x) ==>
               Distance(WantedAttribute1(wanted), Attribute1(g)) <= Distance(WantedAttribute1(wanted), Attribute1(x))
    ensures FindSession(env, pid, wanted, before + [g] + rest) == Some(g)
  {
    hide Equivalent, Distance, Attribute1;
    var keep := KeepEquivalent(env, pid, wanted);
    FilterConcat(before + [g], rest, keep);
    FilterConcat(before, [g], keep);
    assert Init([g]) == [] && Filter([g], keep) == [g];
    FilterMembers(before, keep);
    FilterMembers(rest, keep);
    StableSortHead(Filter(before, keep), g, Filter(rest, keep), NearestKey(WantedAttribute1(wanted)));
  }
}
