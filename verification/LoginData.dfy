/** Finding the login data inside a login-style request, and what its shape decides for both servers. */
module LoginData {
  import opened Common
  import opened StructureHeader

  const TICKET_GRANTING: UInt16 := 0x0A
  const LOGIN_EX: UInt32 := 0x02
  const SECURE_CONNECTION: UInt16 := 0x0B
  const REGISTER_EX: UInt32 := 0x04
  const MAX_STATION_URLS: nat := 64

  // ---- The grammar of the requests --------------------------------------------------------------

  /** A length-prefixed String as the server reads it; it does not look at the terminator. */
  function Prefixed(content: Bytes): Bytes
    requires |content| < TWO16
  {
    Uint16Bytes(|content|) + content
  }

  predicate Fit(contents: seq<Bytes>) { forall c :: c in contents ==> |c| < TWO16 }

  function AllPrefixed(contents: seq<Bytes>): Bytes
    requires Fit(contents)
  {
    if contents == [] then [] else Prefixed(contents[0]) + AllPrefixed(contents[1..])
  }

  /** A list of Strings: their number, then each of them. */
  function ListBytes(contents: seq<Bytes>): Bytes
    requires Fit(contents) && |contents| < TWO32
  {
    Uint32Bytes(|contents|) + AllPrefixed(contents)
  }

  /** A DataHolder: a type name, an outer length that nothing checks, the object's length, the object. */
  function HolderBytes(name: Bytes, outer: UInt32, content: Bytes): Bytes
    requires |name| < TWO16 && |content| < TWO32
  {
    Prefixed(name) + Uint32Bytes(outer) + Uint32Bytes(|content|) + content
  }

  // ---- Reading it, on the bytes that are left ---------------------------------------------------

  /** What follows the String that the bytes start with. */
  function AfterString(data: Bytes): (r: Option<Bytes>)
    ensures r.Some? ==> |r.value| < |data|
  {
    if |data| < 2 || 2 + ReadUint16(data, 0) > |data| then None
    else Some(data[2 + ReadUint16(data, 0)..])
  }

  function AfterStrings(data: Bytes, count: nat): Option<Bytes> {
    if count == 0 then Some(data)
    else
      var rest := AfterString(data);
      if rest.None? then None else AfterStrings(rest.value, count - 1)
  }

  function AfterStationURLs(data: Bytes): Option<Bytes> {
    if |data| < 4 || ReadUint32(data, 0) > MAX_STATION_URLS then None
    else AfterStrings(data[4..], ReadUint32(data, 0))
  }

  datatype Held = Held(content: Bytes, rest: Bytes)

  /** The object of the DataHolder that the bytes start with, and what follows it. */
  function HeldObject(data: Bytes): Option<Held> {
    var after := AfterString(data);
    if after.None? || |after.value| < 8 || 8 + ReadUint32(after.value, 4) > |after.value| then None
    else
      var n: nat := ReadUint32(after.value, 4);
      Some(Held(after.value[8..8 + n], after.value[8 + n..]))
  }

  function Prologue(protocolID: UInt16, methodID: UInt32, parameters: Bytes): Option<Bytes> {
    if protocolID == TICKET_GRANTING && methodID == LOGIN_EX then AfterString(parameters)
    else if protocolID == SECURE_CONNECTION && methodID == REGISTER_EX then AfterStationURLs(parameters)
    else None
  }

  function Located(protocolID: UInt16, methodID: UInt32, parameters: Bytes): Option<Held> {
    var after := Prologue(protocolID, methodID, parameters);
    if after.None? then None else HeldObject(after.value)
  }

  // ---- The parsers, with their cursor -----------------------------------------------------------

  method SkipString(data: Bytes, start: nat) returns (cursor: nat, ok: bool)
    requires start <= |data|
    ensures cursor <= |data|
    ensures ok <==> AfterString(data[start..]).Some?
    ensures ok ==> AfterString(data[start..]) == Some(data[cursor..])
  {
    cursor := start;
    if cursor + 2 > |data| { return cursor, false; }
    ReadShift(data, cursor, 0);
    var length := ReadUint16(data, cursor);
    cursor := cursor + 2;
    if cursor + length > |data| { return cursor, false; }
    assert data[start..][2 + length..] == data[cursor + length..];
    return cursor + length, true;
  }

  method SkipStationURLList(data: Bytes, start: nat) returns (cursor: nat, ok: bool)
    requires start <= |data|
    ensures cursor <= |data|
    ensures ok <==> AfterStationURLs(data[start..]).Some?
    ensures ok ==> AfterStationURLs(data[start..]) == Some(data[cursor..])
  {
    cursor := start;
    if cursor + 4 > |data| { return cursor, false; }
    ReadShift(data, cursor, 0);
    var count := ReadUint32(data, cursor);
    cursor := cursor + 4;
    if count > MAX_STATION_URLS { return cursor, false; }
    assert data[start..][4..] == data[cursor..];
    var i := 0;
    while i < count
      invariant i <= count && cursor <= |data|
      invariant AfterStationURLs(data[start..]) == AfterStrings(data[cursor..], count - i)
    {
      cursor, ok := SkipString(data, cursor);
      if !ok { return cursor, false; }
      i := i + 1;
    }
    return cursor, true;
  }

  method LoginDataObject(protocolID: UInt16, methodID: UInt32, parameters: Bytes) returns (content: Bytes, ok: bool)
    ensures ok <==> Located(protocolID, methodID, parameters).Some?
    ensures ok ==> content == Located(protocolID, methodID, parameters).value.content
  {
    var cursor := 0;
    assert parameters[0..] == parameters;
    if protocolID == TICKET_GRANTING && methodID == LOGIN_EX {
      cursor, ok := SkipString(parameters, cursor);
      if !ok { return [], false; }
    } else if protocolID == SECURE_CONNECTION && methodID == REGISTER_EX {
      cursor, ok := SkipStationURLList(parameters, cursor);
      if !ok { return [], false; }
    } else {
      return [], false;
    }
    ghost var rest := parameters[cursor..];
    cursor, ok := SkipString(parameters, cursor);
    if !ok { return [], false; }
    ghost var held := parameters[cursor..];
    assert AfterString(rest) == Some(held);
    if cursor + 8 > |parameters| { return [], false; }
    ReadShift(parameters, cursor, 4);
    cursor := cursor + 4;
    var contentLength := ReadUint32(parameters, cursor);
    cursor := cursor + 4;
    if cursor + contentLength > |parameters| { return [], false; }
    assert held[8..8 + contentLength] == parameters[cursor..cursor + contentLength];
    return parameters[cursor..cursor + contentLength], true;
  }

  // ---- What is accepted -------------------------------------------------------------------------

  /** A String is read off exactly the bytes that start with one. */
  lemma AfterStringExactly(data: Bytes, rest: Bytes)
    ensures AfterString(data) == Some(rest) <==>
              exists content: Bytes :: |content| < TWO16 && data == Prefixed(content) + rest
  {
    if AfterString(data) == Some(rest) {
      var n: nat := ReadUint16(data, 0);
      var content := data[2..2 + n];
      var low: nat, high: nat := data[0], data[1];
      assert n / 0x100 == high && n % 0x100 == low;
      assert data == [data[0], data[1]] + content + rest;
      assert data == Prefixed(content) + rest;
    }
    forall content: Bytes | |content| < TWO16 && data == Prefixed(content) + rest
      ensures AfterString(data) == Some(rest)
    {
      PrefixedReads(content, rest);
    }
  }

  lemma PrefixedReads(content: Bytes, rest: Bytes)
    requires |content| < TWO16
    ensures AfterString(Prefixed(content) + rest) == Some(rest)
  {
    var data := Prefixed(content) + rest;
    Uint16RoundTrip(|content|, [], content + rest);
    assert data == [] + Uint16Bytes(|content|) + (content + rest);
  }

  lemma {:induction false} StringsRead(data: Bytes, count: nat, rest: Bytes) returns (contents: seq<Bytes>)
    requires AfterStrings(data, count) == Some(rest)
    ensures |contents| == count && Fit(contents) && data == AllPrefixed(contents) + rest
  {
    if count == 0 {
      contents := [];
    } else {
      var next := AfterString(data).value;
      AfterStringExactly(data, next);
      hide AfterString, Prefixed;
      var content: Bytes :| |content| < TWO16 && data == Prefixed(content) + next;
      var others := StringsRead(next, count - 1, rest);
      contents := [content] + others;
      PrefixedAgain(content, others, rest);
    }
  }

  lemma PrefixedAgain(content: Bytes, others: seq<Bytes>, rest: Bytes)
    requires |content| < TWO16 && Fit(others)
    ensures Fit([content] + others)
    ensures AllPrefixed([content] + others) + rest == Prefixed(content) + (AllPrefixed(others) + rest)
  {
    hide Prefixed;
    assert ([content] + others)[1..] == others;
  }

  lemma {:induction false} AllPrefixedReads(contents: seq<Bytes>, rest: Bytes)
    requires Fit(contents)
    ensures AfterStrings(AllPrefixed(contents) + rest, |contents|) == Some(rest)
  {
    if contents == [] {
      assert AllPrefixed(contents) + rest == rest;
    } else {
      var others := AllPrefixed(contents[1..]) + rest;
      assert AllPrefixed(contents) + rest == Prefixed(contents[0]) + others;
      PrefixedReads(contents[0], others);
      AllPrefixedReads(contents[1..], rest);
    }
  }

  lemma AfterStationURLsExactly(data: Bytes, rest: Bytes)
    ensures AfterStationURLs(data) == Some(rest)
            <==> exists urls: seq<Bytes> :: |urls| <= MAX_STATION_URLS && Fit(urls) && data == ListBytes(urls) + rest
  {
    hide AfterStationURLs, ListBytes;
    if AfterStationURLs(data) == Some(rest) {
      var urls := StationURLsRead(data, rest);
    }
    forall urls: seq<Bytes> | |urls| <= MAX_STATION_URLS && Fit(urls) && data == ListBytes(urls) + rest
      ensures AfterStationURLs(data) == Some(rest)
    {
      ListReads(urls, rest);
    }
  }

  lemma StationURLsRead(data: Bytes, rest: Bytes) returns (urls: seq<Bytes>)
    requires AfterStationURLs(data) == Some(rest)
    ensures |urls| <= MAX_STATION_URLS && Fit(urls) && data == ListBytes(urls) + rest
  {
    hide ReadUint32, Uint32Bytes, AllPrefixed, AfterStrings, Prefixed, Fit;
    var n: nat := ReadUint32(data, 0);
    urls := StringsRead(data[4..], n, rest);
    Uint32BytesRead(data, 0);
    assert data[0..4] == Uint32Bytes(|urls|);
    assert data == data[0..4] + data[4..];
    assert data == ListBytes(urls) + rest;
  }

  lemma ListReads(urls: seq<Bytes>, rest: Bytes)
    requires |urls| <= MAX_STATION_URLS && Fit(urls)
    ensures AfterStationURLs(ListBytes(urls) + rest) == Some(rest)
  {
    var data := ListBytes(urls) + rest;
    Uint32RoundTrip(|urls|, [], AllPrefixed(urls) + rest);
    assert data == [] + Uint32Bytes(|urls|) + (AllPrefixed(urls) + rest);
    assert data[4..] == AllPrefixed(urls) + rest;
    AllPrefixedReads(urls, rest);
  }

  lemma HeldObjectExactly(data: Bytes, held: Held)
    ensures HeldObject(data) == Some(held)
            <==> exists name: Bytes, outer: UInt32 ::
                   |name| < TWO16 && |held.content| < TWO32
                     && data == HolderBytes(name, outer, held.content) + held.rest
  {
    if HeldObject(data) == Some(held) {
      HeldObjectRead(data, held);
    }
    forall name: Bytes, outer: UInt32
      | |name| < TWO16 && |held.content| < TWO32 && data == HolderBytes(name, outer, held.content) + held.rest
      ensures HeldObject(data) == Some(held)
    {
      HolderReads(name, outer, held.content, held.rest);
    }
  }

  lemma HeldObjectRead(data: Bytes, held: Held)
    requires HeldObject(data) == Some(held)
    ensures exists name: Bytes, outer: UInt32 ::
              |name| < TWO16 && |held.content| < TWO32 && data == HolderBytes(name, outer, held.content) + held.rest
  {
    var after := AfterString(data).value;
    AfterStringExactly(data, after);
    var name: Bytes :| |name| < TWO16 && data == Prefixed(name) + after;
    var outer := LengthsRead(after, held);
    HolderFolds(data, name, outer, held);
  }

  lemma HolderFolds(data: Bytes, name: Bytes, outer: UInt32, held: Held)
    requires |name| < TWO16 && |held.content| < TWO32
    requires data == Prefixed(name) + (Uint32Bytes(outer) + Uint32Bytes(|held.content|) + held.content + held.rest)
    ensures data == HolderBytes(name, outer, held.content) + held.rest
  {
    hide Prefixed, Uint32Bytes;
  }

  lemma LengthsRead(after: Bytes, held: Held) returns (outer: UInt32)
    requires |after| >= 8 && 8 + ReadUint32(after, 4) <= |after|
    requires held == Held(after[8..8 + ReadUint32(after, 4)], after[8 + ReadUint32(after, 4)..])
    ensures |held.content| < TWO32
            && after == Uint32Bytes(outer) + Uint32Bytes(|held.content|) + held.content + held.rest
  {
    Uint32BytesRead(after, 0);
    Uint32BytesRead(after, 4);
    hide ReadUint32, Uint32Bytes;
    outer := ReadUint32(after, 0);
    assert |held.content| == ReadUint32(after, 4);
    assert after == after[0..4] + after[4..8] + held.content + held.rest;
  }

  lemma HolderReads(name: Bytes, outer: UInt32, content: Bytes, rest: Bytes)
    requires |name| < TWO16 && |content| < TWO32
    ensures HeldObject(HolderBytes(name, outer, content) + rest) == Some(Held(content, rest))
  {
    var after := Uint32Bytes(outer) + Uint32Bytes(|content|) + content + rest;
    assert HolderBytes(name, outer, content) + rest == Prefixed(name) + after;
    PrefixedReads(name, after);
    assert after == Uint32Bytes(outer) + Uint32Bytes(|content|) + (content + rest);
    Uint32RoundTrip(|content|, Uint32Bytes(outer), content + rest);
    assert after[8..8 + |content|] == content && after[8 + |content|..] == rest;
  }

  /** A LoginEx request yields an object exactly when it is a String and a DataHolder of that object. */
  lemma LoginExExactly(parameters: Bytes, held: Held)
    ensures Located(TICKET_GRANTING, LOGIN_EX, parameters) == Some(held)
            <==> exists user: Bytes, name: Bytes, outer: UInt32 ::
                   && |user| < TWO16 && |name| < TWO16 && |held.content| < TWO32
                   && parameters == Prefixed(user) + HolderBytes(name, outer, held.content) + held.rest
  {
    hide HeldObject, AfterString, HolderBytes, Prefixed;
    if Located(TICKET_GRANTING, LOGIN_EX, parameters) == Some(held) {
      var after := AfterString(parameters).value;
      AfterStringExactly(parameters, after);
      HeldObjectExactly(after, held);
      var user: Bytes :| |user| < TWO16 && parameters == Prefixed(user) + after;
      var name: Bytes, outer: UInt32 :|
        |name| < TWO16 && |held.content| < TWO32 && after == HolderBytes(name, outer, held.content) + held.rest;
      assert parameters == Prefixed(user) + HolderBytes(name, outer, held.content) + held.rest;
    }
    forall user: Bytes, name: Bytes, outer: UInt32
      | && |user| < TWO16 && |name| < TWO16 && |held.content| < TWO32
        && parameters == Prefixed(user) + HolderBytes(name, outer, held.content) + held.rest
      ensures Located(TICKET_GRANTING, LOGIN_EX, parameters) == Some(held)
    {
      var after := HolderBytes(name, outer, held.content) + held.rest;
      assert parameters == Prefixed(user) + after;
      PrefixedReads(user, after);
      HolderReads(name, outer, held.content, held.rest);
    }
  }

  /** A RegisterEx request yields an object exactly when it is at most 64 Strings and a DataHolder of it. */
  lemma RegisterExExactly(parameters: Bytes, held: Held)
    ensures Located(SECURE_CONNECTION, REGISTER_EX, parameters) == Some(held)
            <==> exists urls: seq<Bytes>, name: Bytes, outer: UInt32 ::
                   && |urls| <= MAX_STATION_URLS && Fit(urls) && |name| < TWO16 && |held.content| < TWO32
                   && parameters == ListBytes(urls) + HolderBytes(name, outer, held.content) + held.rest
  {
    hide HeldObject, AfterStationURLs, HolderBytes, ListBytes;
    if Located(SECURE_CONNECTION, REGISTER_EX, parameters) == Some(held) {
      var after := AfterStationURLs(parameters).value;
      AfterStationURLsExactly(parameters, after);
      HeldObjectExactly(after, held);
      var urls: seq<Bytes> :| |urls| <= MAX_STATION_URLS && Fit(urls) && parameters == ListBytes(urls) + after;
      var name: Bytes, outer: UInt32 :|
        |name| < TWO16 && |held.content| < TWO32 && after == HolderBytes(name, outer, held.content) + held.rest;
      assert parameters == ListBytes(urls) + HolderBytes(name, outer, held.content) + held.rest;
    }
    forall urls: seq<Bytes>, name: Bytes, outer: UInt32
      | && |urls| <= MAX_STATION_URLS && Fit(urls) && |name| < TWO16 && |held.content| < TWO32
        && parameters == ListBytes(urls) + HolderBytes(name, outer, held.content) + held.rest
      ensures Located(SECURE_CONNECTION, REGISTER_EX, parameters) == Some(held)
    {
      var after := HolderBytes(name, outer, held.content) + held.rest;
      assert parameters == ListBytes(urls) + after;
      ListReads(urls, after);
      HolderReads(name, outer, held.content, held.rest);
    }
  }

  // ---- Round trips and truncation ---------------------------------------------------------------

  /** A DataHolder as a console sends it. */
  function DataHolder(typeName: Bytes, content: Bytes): Bytes
    requires |typeName| < TWO16 - 1 && |content| + 4 < TWO32
  {
    StringBytes(typeName) + Uint32Bytes(|content| + 4) + Uint32Bytes(|content|) + content
  }

  function LoginEx(user: Bytes, typeName: Bytes, content: Bytes): Bytes
    requires |user| < TWO16 - 1 && |typeName| < TWO16 - 1 && |content| + 4 < TWO32
  {
    StringBytes(user) + DataHolder(typeName, content)
  }

  function Terminated(values: seq<Bytes>): (t: seq<Bytes>)
    requires forall v :: v in values ==> |v| < TWO16 - 1
    ensures |t| == |values| && Fit(t)
  {
    seq(|values|, i requires 0 <= i < |values| => values[i] + [0])
  }

  function RegisterEx(urls: seq<Bytes>, typeName: Bytes, content: Bytes): Bytes
    requires |urls| <= MAX_STATION_URLS && forall u :: u in urls ==> |u| < TWO16 - 1
    requires |typeName| < TWO16 - 1 && |content| + 4 < TWO32
  {
    ListBytes(Terminated(urls)) + DataHolder(typeName, content)
  }

  lemma StringIsPrefixed(value: Bytes)
    requires |value| < TWO16 - 1
    ensures StringBytes(value) == Prefixed(value + [0])
  {
  }

  lemma DataHolderIsHolder(typeName: Bytes, content: Bytes)
    requires |typeName| < TWO16 - 1 && |content| + 4 < TWO32
    ensures DataHolder(typeName, content) == HolderBytes(typeName + [0], |content| + 4, content)
  {
    StringIsPrefixed(typeName);
  }

  lemma LoginExRoundTrip(user: Bytes, typeName: Bytes, content: Bytes, extra: Bytes)
    requires |user| < TWO16 - 1 && |typeName| < TWO16 - 1 && |content| + 4 < TWO32
    ensures Located(TICKET_GRANTING, LOGIN_EX, LoginEx(user, typeName, content) + extra) == Some(Held(content, extra))
  {
    StringIsPrefixed(user);
    DataHolderIsHolder(typeName, content);
    hide Located, DataHolder, HolderBytes;
    LoginExExactly(LoginEx(user, typeName, content) + extra, Held(content, extra));
  }

  lemma RegisterExRoundTrip(urls: seq<Bytes>, typeName: Bytes, content: Bytes, extra: Bytes)
    requires |urls| <= 64 && forall u :: u in urls ==> |u| < TWO16 - 1
    requires |typeName| < TWO16 - 1 && |content| + 4 < TWO32
    ensures Located(SECURE_CONNECTION, REGISTER_EX, RegisterEx(urls, typeName, content) + extra)
            == Some(Held(content, extra))
  {
    DataHolderIsHolder(typeName, content);
    RegisterExExactly(RegisterEx(urls, typeName, content) + extra, Held(content, extra));
  }

  /** An accepted request is a front that alone decides the object, and bytes that play no part. */
  lemma Consumed(protocolID: UInt16, methodID: UInt32, parameters: Bytes, held: Held) returns (front: Bytes)
    requires Located(protocolID, methodID, parameters) == Some(held)
    ensures parameters == front + held.rest
    ensures forall rest: Bytes :: Located(protocolID, methodID, front + rest) == Some(Held(held.content, rest))
  {
    hide HolderBytes, ListBytes, Prefixed, HeldObject, AfterString, AfterStationURLs;
    if protocolID == TICKET_GRANTING && methodID == LOGIN_EX {
      LoginExExactly(parameters, held);
      var user: Bytes, name: Bytes, outer: UInt32 :|
        && |user| < TWO16 && |name| < TWO16 && |held.content| < TWO32
        && parameters == Prefixed(user) + HolderBytes(name, outer, held.content) + held.rest;
      front := Prefixed(user) + HolderBytes(name, outer, held.content);
      forall rest: Bytes ensures Located(protocolID, methodID, front + rest) == Some(Held(held.content, rest)) {
        LoginExExactly(front + rest, Held(held.content, rest));
      }
    } else {
      RegisterExExactly(parameters, held);
      var urls: seq<Bytes>, name: Bytes, outer: UInt32 :|
        && |urls| <= MAX_STATION_URLS && Fit(urls) && |name| < TWO16 && |held.content| < TWO32
        && parameters == ListBytes(urls) + HolderBytes(name, outer, held.content) + held.rest;
      front := ListBytes(urls) + HolderBytes(name, outer, held.content);
      forall rest: Bytes ensures Located(protocolID, methodID, front + rest) == Some(Held(held.content, rest)) {
        RegisterExExactly(front + rest, Held(held.content, rest));
      }
    }
  }

  /** A request may be cut only within the bytes behind its object. */
  lemma TruncatedExactly(protocolID: UInt16, methodID: UInt32, parameters: Bytes, held: Held, k: nat)
    requires Located(protocolID, methodID, parameters) == Some(held) && k <= |parameters|
    ensures Located(protocolID, methodID, parameters[..k]).Some? <==> |parameters| - |held.rest| <= k
  {
    hide Located;
    var front := Consumed(protocolID, methodID, parameters, held);
    var cut := parameters[..k];
    if |front| <= k {
      assert cut == front + held.rest[..k - |front|];
    }
    if Located(protocolID, methodID, cut).Some? {
      var short := Located(protocolID, methodID, cut).value;
      var part := Consumed(protocolID, methodID, cut, short);
      assert parameters == part + (short.rest + parameters[k..]);
      assert held.rest == short.rest + parameters[k..];
    }
  }

  /** No strict prefix of what a console sends yields an object. */
  lemma TruncatedRequests(user: Bytes, urls: seq<Bytes>, typeName: Bytes, content: Bytes, k: nat)
    requires |user| < TWO16 - 1 && |urls| <= MAX_STATION_URLS && forall u :: u in urls ==> |u| < TWO16 - 1
    requires |typeName| < TWO16 - 1 && |content| + 4 < TWO32
    ensures k < |LoginEx(user, typeName, content)| ==>
              Located(TICKET_GRANTING, LOGIN_EX, LoginEx(user, typeName, content)[..k]).None?
    ensures k < |RegisterEx(urls, typeName, content)| ==>
              Located(SECURE_CONNECTION, REGISTER_EX, RegisterEx(urls, typeName, content)[..k]).None?
  {
    hide Located, LoginEx, RegisterEx;
    var login, register := LoginEx(user, typeName, content), RegisterEx(urls, typeName, content);
    LoginExRoundTrip(user, typeName, content, []);
    RegisterExRoundTrip(urls, typeName, content, []);
    assert login + [] == login && register + [] == register;
    if k < |login| { TruncatedExactly(TICKET_GRANTING, LOGIN_EX, login, Held(content, []), k); }
    if k < |register| { TruncatedExactly(SECURE_CONNECTION, REGISTER_EX, register, Held(content, []), k); }
  }

  /** A list longer than 64 Strings is refused, however well formed the rest is. */
  lemma LongListsAreRefused(urls: seq<Bytes>, rest: Bytes)
    requires 64 < |urls| < TWO32 && Fit(urls)
    ensures Located(SECURE_CONNECTION, REGISTER_EX, ListBytes(urls) + rest).None?
  {
    var data := ListBytes(urls) + rest;
    Uint32RoundTrip(|urls|, [], AllPrefixed(urls) + rest);
    assert data == [] + Uint32Bytes(|urls|) + (AllPrefixed(urls) + rest);
  }
}
