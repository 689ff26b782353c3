/** Session discovery as the server runs it: loops over the live sessions, an in-place sort, and slices. */
module Discovery {
  import opened Common
  import opened Gatherings
  import opened Search
  import opened Sorting
  import opened GatheringStore

  /** Snapshots of sessions, in order. */
  ghost function Snapshots(all: seq<Session>): seq<Gathering>
    reads all
  {
    if all == [] then [] else Snapshots(Init(all)) + [Last(all).Snapshot()]
  }

  /** Listing the sessions is looking up their IDs. */
  lemma {:induction false} SnapshotsAreLookups(store: Store, all: seq<Session>, order: seq<nat>)
    requires |all| == |order|
    requires forall i :: 0 <= i < |all| ==> order[i] in store.sessions && all[i] == store.sessions[order[i]]
    ensures Snapshots(all) == Lookup(store.Abs().sessions, order)
  {
    if all == [] {
    } else {
      SnapshotsAreLookups(store, Init(all), Init(order));
    }
  }

  /** The attribute constraints of a criteria, parsed once; index 1 is left unconstrained. */
  method ParseAttributes(attribs: seq<string>) returns (constraints: seq<Constraint>, ok: bool)
    ensures ok <==> forall i :: 0 <= i < |attribs| && i != 1 ==> !ParseConstraint(attribs[i]).Malformed?
    ensures ok ==> |constraints| == |attribs|
    ensures ok ==> forall i :: 0 <= i < |attribs| ==>
              constraints[i] == if i == 1 then Absent else ParseConstraint(attribs[i])
  {
    constraints, ok := [], true;
    for i := 0 to |attribs|
      invariant |constraints| == i && ok
      invariant forall k :: 0 <= k < i ==> constraints[k] == if k == 1 then Absent else ParseConstraint(attribs[k])
      invariant forall k :: 0 <= k < i && k != 1 ==> !ParseConstraint(attribs[k]).Malformed?
    {
      var constraint := if i == 1 then Absent else ParseConstraint(attribs[i]);
      if constraint.Malformed? {
        ok := false;
        return;
      }
      constraints := constraints + [constraint];
    }
  }

  method AttributesAllowed(constraints: seq<Constraint>, attribs: seq<string>, attributes: seq<UInt32>)
    returns (matches: bool)
    requires |constraints| == |attribs|
    requires forall i :: 0 <= i < |attribs| ==> constraints[i] == if i == 1 then Absent else ParseConstraint(attribs[i])
    requires |attributes| == |attribs|
    ensures matches <==> forall i :: 0 <= i < |attributes| && i != 1 ==>
              ParseConstraint(attribs[i]).Allows(attributes[i])
  {
    for i := 0 to |attribs|
      invariant forall k :: 0 <= k < i && k != 1 ==> ParseConstraint(attribs[k]).Allows(attributes[k])
    {
      if !constraints[i].Allows(attributes[i]) {
        assert i != 1 && !ParseConstraint(attribs[i]).Allows(attributes[i]);
        return false;
      }
    }
    return true;
  }

  /** The filters of one criteria against one session. */
  method Survives(env: Env, pid: PID, criteria: Criteria, constraints: seq<Constraint>, friendList: seq<nat>,
                  options: SearchOptions, g: Gathering) returns (survives: bool)
    requires |constraints| == |criteria.attribs| && friendList == FriendsOf(env, pid)
    requires forall i :: 0 <= i < |criteria.attribs| ==>
               constraints[i] == if i == 1 then Absent else ParseConstraint(criteria.attribs[i])
    ensures survives <==> Passes(env, pid, criteria, options, g)
  {
    hide ParseConstraint, FriendsOf, U32;
    if options.excludeOwnerPID != 0 && g.info.ownerPID == options.excludeOwnerPID { return false; }
    if |g.info.attributes| != |criteria.attribs| { return false; }
    var attributesMatch := AttributesAllowed(constraints, criteria.attribs, g.info.attributes);
    if !attributesMatch { return false; }
    if !ParseConstraint(criteria.maxParticipants).Allows(g.info.maximumParticipants) { return false; }
    if !ParseConstraint(criteria.minParticipants).Allows(g.info.minimumParticipants) { return false; }
    if !ParseConstraint(criteria.gameMode).Allows(g.info.gameMode) { return false; }
    if !ParseConstraint(criteria.matchmakeSystemType).Allows(g.info.matchmakeSystemType) { return false; }
    if g.info.participationPolicy == 98 && U32(g.info.ownerPID) !in friendList { return false; }
    if criteria.excludeLocked && !g.info.openParticipation { return false; }
    if criteria.excludeNonHostPID && g.info.hostPID == 0 { return false; }
    if criteria.vacantOnly {
      var vacant := if criteria.vacantParticipants == 0 then 1 else criteria.vacantParticipants;
      var maximum := g.info.maximumParticipants;
      if maximum != 0 && U32(g.HeadCount() + vacant) > maximum { return false; }
    }
    return true;
  }

  /** matchCriteria: every live session that passes, in the order the map yielded them. */
  method MatchCriteria(store: Store, pid: PID, criteria: Criteria, friendList: seq<nat>, options: SearchOptions)
    returns (matched: seq<Gathering>, ok: bool, ghost order: seq<nat>)
    requires store.Valid() && friendList == FriendsOf(store.env, pid)
    ensures Enumerates(order, store.sessions.Keys)
    ensures ok <==> WellFormed(criteria)
    ensures ok ==> matched == Matches(store.env, pid, criteria, options, Lookup(store.Abs().sessions, order))
  {
    hide ParseConstraint, Matches, Lookup, Snapshots, Enumerates, FriendsOf;
    var all;
    all, order := store.AllLocked();
    matched := [];
    var constraints;
    constraints, ok := ParseAttributes(criteria.attribs);
    ok := ok
          && !ParseConstraint(criteria.maxParticipants).Malformed?
          && !ParseConstraint(criteria.minParticipants).Malformed?
          && !ParseConstraint(criteria.gameMode).Malformed?
          && !ParseConstraint(criteria.matchmakeSystemType).Malformed?;
    if !ok { return; }
    matched := Passing(store.env, pid, criteria, friendList, options, constraints, all);
    SnapshotsAreLookups(store, all, order);
  }

  /** What a filter keeps of the first n sessions of a listing. */
  ghost function Kept(all: seq<Session>, n: nat, keep: Gathering -> bool): seq<Gathering>
    requires n <= |all|
    reads all
  {
    Filter(Snapshots(all[..n]), keep)
  }

  lemma KeptNext(all: seq<Session>, n: nat, keep: Gathering -> bool)
    requires n < |all|
    ensures Kept(all, n + 1, keep)
            == Kept(all, n, keep) + if keep(all[n].Snapshot()) then [all[n].Snapshot()] else []
  {
    assert Init(all[..n + 1]) == all[..n] && Last(all[..n + 1]) == all[n];
    assert Init(Snapshots(all[..n]) + [all[n].Snapshot()]) == Snapshots(all[..n]);
  }

  lemma KeptEnds(all: seq<Session>, keep: Gathering -> bool)
    ensures Kept(all, 0, keep) == [] && Kept(all, |all|, keep) == Filter(Snapshots(all), keep)
  {
    assert all[..|all|] == all;
  }

  /** The sessions of a listing that pass, in order. */
  method Passing(env: Env, pid: PID, criteria: Criteria, friendList: seq<nat>, options: SearchOptions,
                 constraints: seq<Constraint>, all: seq<Session>) returns (matched: seq<Gathering>)
    requires friendList == FriendsOf(env, pid) && |constraints| == |criteria.attribs|
    requires forall i :: 0 <= i < |criteria.attribs| ==>
               constraints[i] == if i == 1 then Absent else ParseConstraint(criteria.attribs[i])
    ensures matched == Matches(env, pid, criteria, options, Snapshots(all))
  {
    hide Passes, ParseConstraint, FriendsOf, Kept, Filter, Snapshots;
    matched := [];
    KeptEnds(all, Keep(env, pid, criteria, options));
    for i := 0 to |all|
      invariant matched == Kept(all, i, Keep(env, pid, criteria, options))
    {
      KeptNext(all, i, Keep(env, pid, criteria, options));
      var candidate := all[i].Snapshot();
      var survives := Survives(env, pid, criteria, constraints, friendList, options, candidate);
      if survives { matched := matched + [candidate]; }
    }
  }

  /** sortSessions: a stable sort by the selection method's key, or nothing without a reference session. */
  method SortSessions(sessions: array<Gathering>, criteria: Criteria, source: Option<MatchmakeSession>)
    modifies sessions
    ensures sessions[..] == StableSort(old(sessions[..]), SelectionKey(criteria, source))
  {
    match criteria.selectionMethod
    case NearestNeighbor => SliceStable(sessions, NearestKey(ReferenceAttribute(criteria)));
    case BroadenRange => SliceStable(sessions, NearestKey(ReferenceAttribute(criteria)));
    case ProgressScore =>
      if source.None? {
        StableSortConstant(sessions[..], UnsortedKey(), 0);
        return;
      }
      SliceStable(sessions, ProgressKey(source.value.progressScore));
    case BroadenRangeWithProgressScore =>
      if source.None? {
        StableSortConstant(sessions[..], UnsortedKey(), 0);
        return;
      }
      SliceStable(sessions, NearestProgressKey(ReferenceAttribute(criteria), source.value.progressScore));
    case Random => SliceStable(sessions, FullestKey());
  }

  /** A fresh slice of the matches, sorted in place. */
  method Sorted(found: seq<Gathering>, criteria: Criteria, source: Option<MatchmakeSession>)
    returns (sorted: seq<Gathering>)
    ensures sorted == StableSort(found, SelectionKey(criteria, source))
  {
    var slice := new Gathering[|found|](i requires 0 <= i < |found| => found[i]);
    assert slice[..] == found;
    SortSessions(slice, criteria, source);
    return slice[..];
  }

  /** What the scans saw, one listing per criteria. */
  ghost predicate Listed(sessions: map<nat, Gathering>, orders: seq<seq<nat>>, alls: seq<seq<Gathering>>) {
    && |alls| == |orders|
    && forall i :: 0 <= i < |orders| ==> Enumerates(orders[i], sessions.Keys) && alls[i] == Lookup(sessions, orders[i])
  }

  lemma ListedOne(sessions: map<nat, Gathering>, order: seq<nat>)
    requires Enumerates(order, sessions.Keys)
    ensures Listed(sessions, [order], [Lookup(sessions, order)])
  {
    hide Enumerates, Lookup;
  }

  /** The hits, from the criteria as restricted. */
  lemma HitsOf(env: Env, pid: PID, criteria: Criteria, range: ResultRange, source: Option<MatchmakeSession>,
               options: SearchOptions, all: seq<Gathering>)
    ensures var restricted := Restrict(criteria, options);
            Hits(env, pid, criteria, range, source, options, all)
            == if !WellFormed(restricted) then []
               else DropUpTo(StableSort(Matches(env, pid, restricted, options, all), SelectionKey(restricted, source)),
                             EffectiveOffset(range))
  {
    hide WellFormed, Matches, SelectionKey, StableSort, DropUpTo, Restrict;
  }

  /** One criteria's matches, sorted and with the shared offset applied. */
  method SearchOne(store: Store, pid: PID, criteria: Criteria, friendList: seq<nat>, range: ResultRange,
                   source: Option<MatchmakeSession>, options: SearchOptions)
    returns (matched: seq<Gathering>, ghost order: seq<nat>)
    requires store.Valid() && friendList == FriendsOf(store.env, pid) && |store.sessions| < TWO32
    ensures store.Valid() && store.Abs() == old(store.Abs())
    ensures Listed(store.Abs().sessions, [order], [Lookup(store.Abs().sessions, order)])
    ensures matched == Hits(store.env, pid, criteria, range, source, options, Lookup(store.Abs().sessions, order))
  {
    hide WellFormed, Matches, SelectionKey, Enumerates, Lookup, StableSort, FriendsOf, Hits, Listed, DropUpTo;
    ghost var sessions := store.Abs().sessions;
    var restricted := if options.autoMatchmake
                      then criteria.(vacantOnly := true, excludeLocked := true, excludeNonHostPID := true)
                      else criteria;
    var found, ok;
    found, ok, order := MatchCriteria(store, pid, restricted, friendList, options);
    assert sessions.Keys == store.sessions.Keys;
    ListedOne(sessions, order);
    HitsOf(store.env, pid, criteria, range, source, options, Lookup(sessions, order));
    if !ok { return [], order; }
    MatchesFit(store, order, pid, restricted, options);
    assert restricted == Restrict(criteria, options);
    hide *;
    StableSortMembers(found, SelectionKey(restricted, source));
    var sorted := Sorted(found, restricted, source);
    matched := FromOffset(sorted, range);
  }

  /** The matches from the range's offset on. */
  method FromOffset(sorted: seq<Gathering>, range: ResultRange) returns (matched: seq<Gathering>)
    requires |sorted| < TWO32
    ensures matched == DropUpTo(sorted, EffectiveOffset(range))
  {
    var offset: nat := if range.offset == MAX_UINT32 then 0 else range.offset;
    assert U32(|sorted|) == |sorted|;
    if offset >= U32(|sorted|) { return []; }
    return sorted[offset..];
  }

  /** Fewer than 2^32 sessions give fewer than 2^32 matches, so the 32-bit length is exact. */
  lemma MatchesFit(store: Store, order: seq<nat>, pid: PID, criteria: Criteria, options: SearchOptions)
    requires Enumerates(order, store.sessions.Keys) && |store.sessions| < TWO32
    ensures |Matches(store.env, pid, criteria, options, Lookup(store.Abs().sessions, order))| < TWO32
  {
    FilterLength(Lookup(store.Abs().sessions, order), Keep(store.env, pid, criteria, options));
    LookupLength(store.Abs().sessions, order);
    EnumerationLength(order, store.sessions.Keys);
  }

  lemma {:induction false} FilterLength<T>(s: seq<T>, keep: T -> bool)
    ensures |Filter(s, keep)| <= |s|
  {
    if s == [] {
    } else {
      FilterLength(Init(s), keep);
    }
  }

  lemma {:induction false} LookupLength(sessions: map<nat, Gathering>, order: seq<nat>)
    ensures |Lookup(sessions, order)| <= |order|
  {
    if order == [] {
    } else {
      LookupLength(sessions, Init(order));
    }
  }

  lemma {:induction false} EnumerationLength(order: seq<nat>, keys: set<nat>)
    requires Enumerates(order, keys)
    ensures |order| == |keys|
  {
    if order == [] {
    } else {
      assert order == Init(order) + [Last(order)];
      assert SetOf(Init(order)) == keys - {Last(order)};
      EnumerationLength(Init(order), keys - {Last(order)});
    }
  }

  lemma TakeMore<T>(a: seq<T>, b: seq<T>, n: nat)
    ensures TakeUpTo(a + b, n) ==
            if |TakeUpTo(a, n)| >= n then TakeUpTo(a, n) else TakeUpTo(a, n) + TakeUpTo(b, n - |TakeUpTo(a, n)|)
  {
  }

  /** Listings for the criteria that were never scanned. */
  lemma Unscanned(sessions: map<nat, Gathering>, n: nat) returns (orders: seq<seq<nat>>, alls: seq<seq<Gathering>>)
    ensures Listed(sessions, orders, alls) && |alls| == n
  {
    var order := EnumerationExists(sessions.Keys);
    orders := seq(n, _ => order);
    var all := Lookup(sessions, order);
    alls := seq(n, _ => all);
  }

  lemma ListedConcat(sessions: map<nat, Gathering>, orders: seq<seq<nat>>, alls: seq<seq<Gathering>>,
                     moreOrders: seq<seq<nat>>, moreAlls: seq<seq<Gathering>>)
    requires Listed(sessions, orders, alls) && Listed(sessions, moreOrders, moreAlls)
    ensures Listed(sessions, orders + moreOrders, alls + moreAlls)
  {
  }

  /** What the criteria scanned so far contributed is a prefix of what all of them contribute. */
  lemma {:induction false} HitsGrow(env: Env, pid: PID, criterias: seq<Criteria>, range: ResultRange,
                                    source: Option<MatchmakeSession>,
                                    options: SearchOptions, alls: seq<seq<Gathering>>, i: nat)
    requires |alls| == |criterias| && i <= |criterias|
    ensures AllHits(env, pid, criterias[..i], range, source, options, alls[..i])
            <= AllHits(env, pid, criterias, range, source, options, alls)
  {
    hide Hits;
    if i == |criterias| {
      assert criterias[..i] == criterias && alls[..i] == alls;
    } else {
      HitsGrow(env, pid, Init(criterias), range, source, options, Init(alls), i);
      assert Init(criterias)[..i] == criterias[..i] && Init(alls)[..i] == alls[..i];
    }
  }

  lemma ScanOne(env: Env, pid: PID, criterias: seq<Criteria>, range: ResultRange, source: Option<MatchmakeSession>,
                options: SearchOptions, alls: seq<seq<Gathering>>, all: seq<Gathering>, i: nat)
    requires |alls| == i < |criterias|
    ensures AllHits(env, pid, criterias[..i + 1], range, source, options, alls + [all])
            == AllHits(env, pid, criterias[..i], range, source, options, alls)
               + Hits(env, pid, criterias[i], range, source, options, all)
  {
    hide Hits;
    assert Init(criterias[..i + 1]) == criterias[..i] && Init(alls + [all]) == alls;
  }

  /** Once the limit is reached, further criteria cannot add anything. */
  lemma Saturated(env: Env, pid: PID, criterias: seq<Criteria>, range: ResultRange, source: Option<MatchmakeSession>,
                  options: SearchOptions, alls: seq<seq<Gathering>>, more: seq<seq<Gathering>>, i: nat, length: nat)
    requires |alls| == i <= |criterias| && |alls| + |more| == |criterias|
    requires |TakeUpTo(AllHits(env, pid, criterias[..i], range, source, options, alls), length)| >= length
    ensures TakeUpTo(AllHits(env, pid, criterias, range, source, options, alls + more), length)
            == TakeUpTo(AllHits(env, pid, criterias[..i], range, source, options, alls), length)
  {
    hide AllHits, Hits;
    assert (alls + more)[..i] == alls;
    HitsGrow(env, pid, criterias, range, source, options, alls + more, i);
    var prefix := AllHits(env, pid, criterias[..i], range, source, options, alls);
    var whole := AllHits(env, pid, criterias, range, source, options, alls + more);
    assert whole == prefix + whole[|prefix|..];
    TakeMore(prefix, whole[|prefix|..], length);
  }

  /** The results when the first criteria have been scanned. */
  ghost function Scanned(env: Env, pid: PID, criterias: seq<Criteria>, range: ResultRange,
                         source: Option<MatchmakeSession>, options: SearchOptions, alls: seq<seq<Gathering>>,
                         length: nat): seq<Gathering>
    requires |alls| <= |criterias|
  {
    TakeUpTo(AllHits(env, pid, criterias[..|alls|], range, source, options, alls), length)
  }

  /** Before the first scan there are none, and after the last one they are all. */
  lemma ScanEnds(env: Env, pid: PID, criterias: seq<Criteria>, range: ResultRange, source: Option<MatchmakeSession>,
                 options: SearchOptions, alls: seq<seq<Gathering>>, length: nat)
    requires |alls| <= |criterias|
    ensures alls == [] ==> Scanned(env, pid, criterias, range, source, options, alls, length) == []
    ensures |alls| == |criterias| ==> Scanned(env, pid, criterias, range, source, options, alls, length)
                                      == TakeUpTo(AllHits(env, pid, criterias, range, source, options, alls), length)
  {
    hide Hits;
    assert |alls| == |criterias| ==> criterias[..|alls|] == criterias;
  }

  /** The listings of a search that stops early because the limit is reached. */
  lemma StopEarly(sessions: map<nat, Gathering>, env: Env, pid: PID, criterias: seq<Criteria>, range: ResultRange,
                  source: Option<MatchmakeSession>, options: SearchOptions, orders: seq<seq<nat>>,
                  alls: seq<seq<Gathering>>, length: nat)
    returns (allOrders: seq<seq<nat>>, allListings: seq<seq<Gathering>>)
    requires Listed(sessions, orders, alls) && |alls| <= |criterias|
    requires |Scanned(env, pid, criterias, range, source, options, alls, length)| >= length
    ensures Listed(sessions, allOrders, allListings) && |allListings| == |criterias|
    ensures TakeUpTo(AllHits(env, pid, criterias, range, source, options, allListings), length)
            == Scanned(env, pid, criterias, range, source, options, alls, length)
  {
    hide AllHits, Listed;
    var moreOrders, moreAlls := Unscanned(sessions, |criterias| - |alls|);
    ListedConcat(sessions, orders, alls, moreOrders, moreAlls);
    Saturated(env, pid, criterias, range, source, options, alls, moreAlls, |alls|, length);
    allOrders, allListings := orders + moreOrders, alls + moreAlls;
  }

  /** The results are the closed form for some listing of the live gatherings per criteria. */
  ghost predicate Searched(env: Env, sessions: map<nat, Gathering>, pid: PID, criterias: seq<Criteria>,
                           range: ResultRange,
                           source: Option<MatchmakeSession>, options: SearchOptions, results: seq<Gathering>)
  {
    exists orders, alls ::
      |alls| == |criterias| && Listed(sessions, orders, alls)
      && results == SearchResult(env, pid, criterias, range, source, options, alls)
  }

  /** Every result of a search is live and passes some well-formed criteria; there are never more than asked for. */
  lemma SearchedResultsPass(env: Env, sessions: map<nat, Gathering>, pid: PID, criterias: seq<Criteria>,
                            range: ResultRange,
                            source: Option<MatchmakeSession>, options: SearchOptions, results: seq<Gathering>)
    requires Searched(env, sessions, pid, criterias, range, source, options, results)
    ensures |results| <= EffectiveLength(range) && (!options.allowPublic ==> results == [])
    ensures forall g :: g in results ==> g in sessions.Values && PassesOne(env, pid, criterias, options, g)
  {
    hide Passes, WellFormed;
    var orders, alls :| |alls| == |criterias| && Listed(sessions, orders, alls)
                        && results == SearchResult(env, pid, criterias, range, source, options, alls);
    forall g | g in results ensures g in sessions.Values && PassesOne(env, pid, criterias, options, g) {
      HitsMembers(env, pid, criterias, range, source, options, alls, g);
      var i :| 0 <= i < |criterias| && WellFormed(Restrict(criterias[i], options)) && g in alls[i]
               && Passes(env, pid, Restrict(criterias[i], options), options, g);
      LookedUpIsLive(sessions, orders[i], g);
    }
  }

  ghost predicate PassesOne(env: Env, pid: PID, criterias: seq<Criteria>, options: SearchOptions, g: Gathering) {
    exists i :: 0 <= i < |criterias| && WellFormed(Restrict(criterias[i], options))
                && Passes(env, pid, Restrict(criterias[i], options), options, g)
  }

  lemma {:induction false} LookedUpIsLive(sessions: map<nat, Gathering>, order: seq<nat>, g: Gathering)
    requires g in Lookup(sessions, order)
    ensures g in sessions.Values
  {
    if g in Lookup(sessions, Init(order)) { LookedUpIsLive(sessions, Init(order), g); }
  }

  /** One more scan adds what still fits of its criteria's matches. */
  lemma AddScan(env: Env, sessions: map<nat, Gathering>, pid: PID, criterias: seq<Criteria>, range: ResultRange,
                source: Option<MatchmakeSession>, options: SearchOptions, orders: seq<seq<nat>>,
                alls: seq<seq<Gathering>>,
                order: seq<nat>, results: seq<Gathering>, length: nat)
    requires |alls| < |criterias| && Listed(sessions, orders, alls)
             && Listed(sessions, [order], [Lookup(sessions, order)])
    requires results == Scanned(env, pid, criterias, range, source, options, alls, length)
    ensures Listed(sessions, orders + [order], alls + [Lookup(sessions, order)])
    ensures var matched := Hits(env, pid, criterias[|alls|], range, source, options, Lookup(sessions, order));
            Scanned(env, pid, criterias, range, source, options, alls + [Lookup(sessions, order)], length)
            == if |results| >= length then results
               else results + if |matched| > length - |results| then matched[..length - |results|] else matched
  {
    hide Hits, AllHits, Lookup, Listed;
    var all := Lookup(sessions, order);
    ListedConcat(sessions, orders, alls, [order], [all]);
    ScanOne(env, pid, criterias, range, source, options, alls, all, |alls|);
    TakeMore(AllHits(env, pid, criterias[..|alls|], range, source, options, alls),
             Hits(env, pid, criterias[|alls|], range, source, options, all), length);
    hide TakeUpTo;
  }

  /** Search: the closed form, whatever order each scan saw the sessions in. */
  method SearchLocked(store: Store, pid: PID, criterias: seq<Criteria>, range: ResultRange,
                      source: Option<MatchmakeSession>, options: SearchOptions)
    returns (results: seq<Gathering>, ghost orders: seq<seq<nat>>, ghost alls: seq<seq<Gathering>>)
    requires store.Valid() && |store.sessions| < TWO32
    ensures |alls| == |criterias| && Listed(store.Abs().sessions, orders, alls)
    ensures results == SearchResult(store.env, pid, criterias, range, source, options, alls)
    ensures Searched(store.env, store.Abs().sessions, pid, criterias, range, source, options, results)
  {
    hide AllHits, TakeUpTo, Lookup, Listed, Store.Abs, FriendsOf;
    if !options.allowPublic {
      results := [];
      orders, alls := Unscanned(store.Abs().sessions, |criterias|);
      return;
    }
    var friendList := Friends(store.env, pid);
    var length: nat := if range.length == 0 then MAX_UINT32 else range.length;
    results, orders, alls := ScanCriterias(store, pid, criterias, friendList, range, source, options, length);
  }

  /** The loop of Search over the criteria. */
  method ScanCriterias(store: Store, pid: PID, criterias: seq<Criteria>, friendList: seq<nat>, range: ResultRange,
                       source: Option<MatchmakeSession>, options: SearchOptions, length: nat)
    returns (results: seq<Gathering>, ghost orders: seq<seq<nat>>, ghost alls: seq<seq<Gathering>>)
    requires store.Valid() && |store.sessions| < TWO32 && friendList == FriendsOf(store.env, pid)
    ensures |alls| == |criterias| && Listed(store.Abs().sessions, orders, alls)
    ensures results == TakeUpTo(AllHits(store.env, pid, criterias, range, source, options, alls), length)
  {
    hide Hits, AllHits, TakeUpTo, Scanned, Lookup, Listed, Store.Abs, FriendsOf, Store.Valid;
    ghost var sessions := store.Abs().sessions;
    results := [];
    orders, alls := Unscanned(sessions, 0);
    ScanEnds(store.env, pid, criterias, range, source, options, alls, length);
    for i := 0 to |criterias|
      invariant store.Valid() && store.Abs().sessions == sessions
      invariant |alls| == i && Listed(sessions, orders, alls)
      invariant results == Scanned(store.env, pid, criterias, range, source, options, alls, length)
    {
      var matched, order := SearchOne(store, pid, criterias[i], friendList, range, source, options);
      AddScan(store.env, sessions, pid, criterias, range, source, options, orders, alls, order, results, length);
      orders, alls := orders + [order], alls + [Lookup(sessions, order)];
      if |matched| == 0 { continue; }
      var remaining := length - |results|;
      if remaining <= 0 {
        orders, alls := StopEarly(sessions, store.env, pid, criterias, range, source, options, orders, alls, length);
        return;
      }
      if |matched| > remaining { matched := matched[..remaining]; }
      results := results + matched;
    }
    ScanEnds(store.env, pid, criterias, range, source, options, alls, length);
  }

  method Friends(env: Env, pid: PID) returns (friendList: seq<nat>)
    ensures friendList == FriendsOf(env, pid)
  {
    return if env.friendLookup then env.friendPIDs(U32(pid)) else [];
  }

  /** The live sessions equivalent to the one described, in listing order. */
  method EquivalentSessions(env: Env, pid: PID, wanted: MatchmakeSession, all: seq<Session>)
    returns (candidates: seq<Gathering>)
    ensures candidates == Filter(Snapshots(all), KeepEquivalent(env, pid, wanted))
  {
    hide Equivalent, FriendsOf, Kept, Filter, Snapshots;
    var friendList := Friends(env, pid);
    candidates := [];
    KeptEnds(all, KeepEquivalent(env, pid, wanted));
    for i := 0 to |all|
      invariant candidates == Kept(all, i, KeepEquivalent(env, pid, wanted))
    {
      KeptNext(all, i, KeepEquivalent(env, pid, wanted));
      var candidate := all[i].Snapshot();
      var matches := IsEquivalent(env, pid, wanted, friendList, candidate);
      if matches { candidates := candidates + [candidate]; }
    }
  }

  /** FindSession: the nearest session equivalent to the one described. */
  method FindSessionLocked(store: Store, pid: PID, wanted: MatchmakeSession)
    returns (found: Option<Gathering>, ghost order: seq<nat>)
    requires store.Valid()
    ensures Enumerates(order, store.sessions.Keys)
    ensures found == FindSession(store.env, pid, wanted, Lookup(store.Abs().sessions, order))
    ensures found.Some? ==>
              found.value in store.Abs().sessions.Values && Equivalent(store.env, pid, wanted, found.value)
  {
    hide Enumerates, Lookup, Snapshots, StableSort, Filter, NearestKey;
    var all;
    all, order := store.AllLocked();
    SnapshotsAreLookups(store, all, order);
    if !store.env.allowPublic { return None, order; }
    var candidates := EquivalentSessions(store.env, pid, wanted, all);
    var reference: nat := if |wanted.attributes| > 1 then wanted.attributes[1] else 0;
    StableSortMembers(candidates, NearestKey(reference));
    if |candidates| == 0 { return None, order; }
    var nearest := Nearest(candidates, reference);
    FindSessionOptimal(store.env, pid, wanted, Lookup(store.Abs().sessions, order));
    LookedUpIsLive(store.Abs().sessions, order, nearest);
    return Some(nearest), order;
  }

  /** The first candidate once they are sorted by distance. */
  method Nearest(candidates: seq<Gathering>, reference: nat) returns (nearest: Gathering)
    requires candidates != []
    ensures |StableSort(candidates, NearestKey(reference))| == |candidates|
    ensures nearest == StableSort(candidates, NearestKey(reference))[0]
  {
    var slice := new Gathering[|candidates|](i requires 0 <= i < |candidates| => candidates[i]);
    assert slice[..] == candidates;
    SliceStable(slice, NearestKey(reference));
    StableSortMembers(candidates, NearestKey(reference));
    return slice[..][0];
  }

  method IsEquivalent(env: Env, pid: PID, wanted: MatchmakeSession, friendList: seq<nat>, g: Gathering)
    returns (matches: bool)
    requires friendList == FriendsOf(env, pid)
    ensures matches <==> Equivalent(env, pid, wanted, g)
  {
    if g.info.hostPID == 0 { return false; }
    if !g.info.openParticipation { return false; }
    if g.info.userPasswordEnabled || g.info.systemPasswordEnabled { return false; }
    var maximum := g.info.maximumParticipants;
    if maximum != 0 && g.HeadCount() >= maximum { return false; }
    if g.info.maximumParticipants != wanted.maximumParticipants { return false; }
    if g.info.minimumParticipants != wanted.minimumParticipants { return false; }
    if g.info.gameMode != wanted.gameMode { return false; }
    if g.info.matchmakeSystemType != wanted.matchmakeSystemType { return false; }
    if |g.info.attributes| != |wanted.attributes| { return false; }
    for i := 0 to |wanted.attributes|
      invariant forall k :: 0 <= k < i && k != 1 ==> g.info.attributes[k] == wanted.attributes[k]
    {
      if i == 1 { continue; }
      if g.info.attributes[i] != wanted.attributes[i] { return false; }
    }
    if g.info.participationPolicy == 98 && U32(g.info.ownerPID) !in friendList { return false; }
    return true;
  }
}
