/** Telling from the first login whether a console frames its structures with version/length headers. */
module StructureHeader {
  import opened Common

  type Byte = UInt8
  type Bytes = seq<Byte>

  // ---- Little-endian numbers --------------------------------------------------------------------

  function ReadUint16(b: Bytes, at: nat): UInt16
    requires at + 2 <= |b|
  {
    var low: nat, high: nat := b[at], b[at + 1];
    low + 0x100 * high
  }

  function ReadUint32(b: Bytes, at: nat): UInt32
    requires at + 4 <= |b|
  {
    var x0: nat, x1: nat, x2: nat, x3: nat := b[at], b[at + 1], b[at + 2], b[at + 3];
    x0 + 0x100 * x1 + 0x1_0000 * x2 + 0x100_0000 * x3
  }

  function Uint16Bytes(n: UInt16): Bytes { [n % 0x100, n / 0x100] }

  function Uint32Bytes(n: UInt32): Bytes {
    [n % 0x100, n / 0x100 % 0x100, n / 0x1_0000 % 0x100, n / 0x100_0000]
  }

  lemma Uint16RoundTrip(n: UInt16, before: Bytes, after: Bytes)
    ensures ReadUint16(before + Uint16Bytes(n) + after, |before|) == n
  {
    var b := before + Uint16Bytes(n) + after;
    assert b[|before|] == Uint16Bytes(n)[0] && b[|before| + 1] == Uint16Bytes(n)[1];
  }

  lemma Digits(n: UInt32)
    ensures n == n % 0x100 + 0x100 * (n / 0x100 % 0x100) + 0x1_0000 * (n / 0x1_0000 % 0x100)
                 + 0x100_0000 * (n / 0x100_0000)
  {
    var a, b, c := n / 0x100, n / 0x1_0000, n / 0x100_0000;
    assert n == 0x100 * a + n % 0x100;
    assert a == 0x100 * (a / 0x100) + a % 0x100;
    assert a / 0x100 == b;
    assert b == 0x100 * (b / 0x100) + b % 0x100;
    assert b / 0x100 == c;
  }

  lemma Uint32RoundTrip(n: UInt32, before: Bytes, after: Bytes)
    ensures ReadUint32(before + Uint32Bytes(n) + after, |before|) == n
  {
    var b := before + Uint32Bytes(n) + after;
    Digits(n);
    forall i | 0 <= i < 4 ensures b[|before| + i] == Uint32Bytes(n)[i] {
    }
  }

  /** The four bytes at a position are the encoding of the number read there. */
  lemma Uint32BytesRead(b: Bytes, at: nat)
    requires at + 4 <= |b|
    ensures b[at..at + 4] == Uint32Bytes(ReadUint32(b, at))
  {
    var x0: nat, x1: nat, x2: nat, x3: nat := b[at], b[at + 1], b[at + 2], b[at + 3];
    var n: nat := ReadUint32(b, at);
    var y2 := x2 + 0x100 * x3;
    var y1 := x1 + 0x100 * y2;
    assert n == x0 + 0x100 * y1;
    assert n / 0x100 == y1 && n % 0x100 == x0;
    assert y1 / 0x100 == y2 && y1 % 0x100 == x1;
    assert y2 / 0x100 == x3 && y2 % 0x100 == x2;
    assert n / 0x1_0000 == y2 && n / 0x100_0000 == x3;
    assert b[at..at + 4] == [x0, x1, x2, x3];
  }

  // ---- The detector -----------------------------------------------------------------------------

  const MAX_STRUCTURE_VERSION: nat := 8

  /** One class of an inheritance chain: a version and its fields. */
  datatype Frame = Frame(version: Byte, content: Bytes)

  predicate FrameOk(frame: Frame) { frame.version <= MAX_STRUCTURE_VERSION && |frame.content| < TWO32 }

  function FrameBytes(frame: Frame): Bytes
    requires FrameOk(frame)
  {
    [frame.version] + Uint32Bytes(|frame.content|) + frame.content
  }

  function ChainBytes(frames: seq<Frame>): Bytes
    requires forall f :: f in frames ==> FrameOk(f)
  {
    if frames == [] then [] else FrameBytes(frames[0]) + ChainBytes(frames[1..])
  }

  /** The object is a nonempty concatenation of frames. */
  ghost predicate IsChain(data: Bytes) {
    exists frames: seq<Frame> :: frames != [] && (forall f :: f in frames ==> FrameOk(f)) && ChainBytes(frames) == data
  }

  /** The bytes start with a header whose content fits. */
  predicate HeaderFirst(data: Bytes) {
    5 <= |data| && data[0] <= MAX_STRUCTURE_VERSION && 5 + ReadUint32(data, 1) <= |data|
  }

  /** What the greedy walk over frames leaves unread. */
  function Unwalked(data: Bytes): (rest: Bytes)
    ensures |rest| <= |data|
    decreases |data|
  {
    if HeaderFirst(data) then Unwalked(data[5 + ReadUint32(data, 1)..]) else data
  }

  /** The header-less reading: a nonempty String comes first and fits. */
  predicate StartsWithString(data: Bytes) {
    |data| >= 2 && ReadUint16(data, 0) > 0 && 2 + ReadUint16(data, 0) <= |data|
  }

  /** objectHasStructureHeader: the walk as the server runs it. */
  method ObjectHasStructureHeader(data: Bytes) returns (header: bool, ok: bool)
    ensures header <==> IsChain(data)
    ensures ok <==> IsChain(data) || StartsWithString(data)
  {
    if |data| == 0 {
      EmptyIsNoChain(data);
      return false, false;
    }
    var cursor, chain := 0, 0;
    assert data[0..] == data;
    while cursor + 5 <= |data|
      invariant cursor <= |data| && Unwalked(data) == Unwalked(data[cursor..])
      invariant chain == 0 <==> cursor == 0
      decreases |data| - cursor
    {
      HeaderShift(data, cursor);
      var version, length := data[cursor], ReadUint32(data, cursor + 1);
      if version > MAX_STRUCTURE_VERSION || cursor + 5 + length > |data| { break; }
      assert data[cursor..][5 + length..] == data[cursor + 5 + length..];
      cursor := cursor + 5 + length;
      chain := chain + 1;
    }
    assert Unwalked(data) == data[cursor..];
    ChainExactlyWhenWalked(data);
    if chain > 0 && cursor == |data| { return true, true; }
    if |data| >= 2 {
      var stringLength := ReadUint16(data, 0);
      if stringLength > 0 && 2 + stringLength <= |data| { return false, true; }
    }
    return false, false;
  }

  lemma EmptyIsNoChain(data: Bytes)
    requires data == []
    ensures !IsChain(data) && !StartsWithString(data)
  {
    forall frames: seq<Frame> | frames != [] && (forall f :: f in frames ==> FrameOk(f))
      ensures ChainBytes(frames) != data
    {
      assert |FrameBytes(frames[0])| >= 5;
    }
  }

  /** The bytes of one frame, read back. */
  lemma FrameReads(frame: Frame, rest: Bytes)
    requires FrameOk(frame)
    ensures var b := FrameBytes(frame) + rest;
            && HeaderFirst(b) && 5 + ReadUint32(b, 1) == |FrameBytes(frame)|
            && b[|FrameBytes(frame)|..] == rest
  {
    var b := FrameBytes(frame) + rest;
    assert b == [frame.version] + Uint32Bytes(|frame.content|) + (frame.content + rest);
    Uint32RoundTrip(|frame.content|, [frame.version], frame.content + rest);
  }

  /** A header that fits is a frame. */
  lemma HeaderIsFrame(b: Bytes)
    requires HeaderFirst(b)
    ensures var n := ReadUint32(b, 1);
            var frame := Frame(b[0], b[5..5 + n]);
            FrameOk(frame) && b == FrameBytes(frame) + b[5 + n..]
  {
    var n := ReadUint32(b, 1);
    Uint32BytesRead(b, 1);
    assert b == [b[0]] + b[1..5] + b[5..5 + n] + b[5 + n..];
  }

  /** Reading at a cursor is reading at the start of the bytes from the cursor on. */
  lemma ReadShift(data: Bytes, cursor: nat, at: nat)
    requires cursor <= |data|
    ensures cursor + at + 2 <= |data| ==> ReadUint16(data[cursor..], at) == ReadUint16(data, cursor + at)
    ensures cursor + at + 4 <= |data| ==> ReadUint32(data[cursor..], at) == ReadUint32(data, cursor + at)
  {
    var rest := data[cursor..];
    forall i | at <= i < |rest| ensures rest[i] == data[cursor + i] {
    }
    if cursor + at + 4 <= |data| {
      assert rest[at] == data[cursor + at] && rest[at + 1] == data[cursor + at + 1];
      assert rest[at + 2] == data[cursor + at + 2] && rest[at + 3] == data[cursor + at + 3];
    } else if cursor + at + 2 <= |data| {
      assert rest[at] == data[cursor + at] && rest[at + 1] == data[cursor + at + 1];
    }
  }

  lemma HeaderShift(data: Bytes, cursor: nat)
    requires cursor + 5 <= |data|
    ensures ReadUint32(data[cursor..], 1) == ReadUint32(data, cursor + 1)
    ensures HeaderFirst(data[cursor..]) <==> data[cursor] <= MAX_STRUCTURE_VERSION
                                             && cursor + 5 + ReadUint32(data, cursor + 1) <= |data|
  {
    ReadShift(data, cursor, 1);
  }

  /** Sound: a walk that ends at the end went over frames. */
  lemma {:induction false} WalkedIsChain(data: Bytes) returns (frames: seq<Frame>)
    requires Unwalked(data) == []
    ensures forall f :: f in frames ==> FrameOk(f)
    ensures ChainBytes(frames) == data && (data != [] ==> frames != [])
    decreases |data|
  {
    if data == [] {
      frames := [];
    } else {
      var n: nat := ReadUint32(data, 1);
      HeaderIsFrame(data);
      var rest := WalkedIsChain(data[5 + n..]);
      frames := [Frame(data[0], data[5..5 + n])] + rest;
      assert frames[1..] == rest;
    }
  }

  /** Complete: the walk over frames ends at the end, for there is no other way to read them. */
  lemma {:induction false} ChainIsWalked(frames: seq<Frame>)
    requires forall f :: f in frames ==> FrameOk(f)
    ensures Unwalked(ChainBytes(frames)) == []
  {
    if frames == [] {
    } else {
      FrameReads(frames[0], ChainBytes(frames[1..]));
      ChainIsWalked(frames[1..]);
    }
  }

  lemma ChainExactlyWhenWalked(data: Bytes)
    requires data != []
    ensures IsChain(data) <==> Unwalked(data) == []
  {
    if Unwalked(data) == [] {
      var frames := WalkedIsChain(data);
    }
    if IsChain(data) {
      var frames: seq<Frame> :| frames != [] && (forall f :: f in frames ==> FrameOk(f)) && ChainBytes(frames) == data;
      ChainIsWalked(frames);
    }
  }

  /** The bytes are a nonempty String, its length in two bytes before it, and a rest. */
  predicate BeginsWith(data: Bytes, value: Bytes, rest: Bytes) {
    0 < |value| < TWO16 && data == [|value| % 0x100, |value| / 0x100] + value + rest
  }

  /** The header-less reading takes exactly the objects that begin with such a String. */
  lemma StringFirstExactly(data: Bytes)
    ensures StartsWithString(data) <==>
              exists value: Bytes, rest: Bytes :: BeginsWith(data, value, rest)
  {
    if StartsWithString(data) {
      var n: nat := ReadUint16(data, 0);
      var value, rest := data[2..2 + n], data[2 + n..];
      var low: nat, high: nat := data[0], data[1];
      assert n == low + 0x100 * high && n / 0x100 == high && n % 0x100 == low;
      assert data == [n % 0x100, n / 0x100] + value + rest;
      assert BeginsWith(data, value, rest);
    }
    forall value: Bytes, rest: Bytes | BeginsWith(data, value, rest) ensures StartsWithString(data) {
      assert data[0] == |value| % 0x100 && data[1] == |value| / 0x100;
    }
  }

  // ---- The encoders a console uses --------------------------------------------------------------

  /** A NEX String: the length with its terminator, the bytes, a null. */
  function StringBytes(value: Bytes): Bytes
    requires |value| < TWO16 - 1
  {
    Uint16Bytes(|value| + 1) + value + [0]
  }

  /** The wrapping of a structure derived from Data: an empty frame, then a frame of its own fields. */
  function WithHeaders(content: Bytes): Bytes
    requires |content| < TWO32
  {
    [0] + Uint32Bytes(0) + ([0] + Uint32Bytes(|content|) + content)
  }

  /** A login structure without headers: its token, then its other fields. */
  function LoginInfo(token: Bytes, fields: Bytes): Bytes
    requires |token| < TWO16 - 1
  {
    StringBytes(token) + fields
  }

  predicate Printable(token: Bytes) {
    forall i :: 0 <= i < |token| ==> 0x20 <= token[i] <= 0x7E
  }

  lemma WrappedIsChain(content: Bytes)
    requires |content| < TWO32
    ensures IsChain(WithHeaders(content))
  {
    var frames := [Frame(0, []), Frame(0, content)];
    assert frames[1..] == [Frame(0, content)] && frames[1..][1..] == [];
    assert ChainBytes(frames[1..]) == FrameBytes(Frame(0, content)) + [];
    assert ChainBytes(frames) == WithHeaders(content);
  }

  /** Read as a length, the second byte of the String's length and the token's first characters overshoot. */
  lemma BareOvershoots(token: Bytes, fields: Bytes)
    requires 0 < |token| < TWO16 - 1 && Printable(token) && |fields| <= 8192
    ensures !HeaderFirst(LoginInfo(token, fields))
  {
    var data := LoginInfo(token, fields);
    if |data| >= 5 {
      assert data[2] == token[0] && data[3] == (token + [0])[1];
      if |token| > 1 { assert data[3] == token[1]; }
    }
  }

  /** Both formats of a login structure are told apart, whatever its other fields hold. */
  lemma FormatsAreToldApart(token: Bytes, fields: Bytes)
    requires 0 < |token| < TWO16 - 1 && Printable(token) && |fields| <= 8192
    ensures !IsChain(LoginInfo(token, fields)) && StartsWithString(LoginInfo(token, fields))
    ensures IsChain(WithHeaders(LoginInfo(token, fields)))
  {
    var data := LoginInfo(token, fields);
    BareOvershoots(token, fields);
    ChainExactlyWhenWalked(data);
    Uint16RoundTrip(|token| + 1, [], token + [0] + fields);
    assert data == [] + Uint16Bytes(|token| + 1) + (token + [0] + fields);
    WrappedIsChain(data);
  }

  /** The bound is sharp: with one more byte of fields, a one-character token is taken for a header. */
  lemma LongFieldsAreMistaken()
    ensures exists fields: Bytes :: |fields| == 8193 && IsChain(LoginInfo([0x20], fields))
  {
    var fields: Bytes := seq(8193, _ => 0);
    var data := LoginInfo([0x20], fields);
    assert data == [2, 0, 0x20, 0] + fields;
    assert ReadUint32(data, 1) == 8192;
    OneFrame(data);
  }

  lemma OneFrame(data: Bytes)
    requires |data| >= 5 && data[0] <= MAX_STRUCTURE_VERSION && |data| == 5 + ReadUint32(data, 1)
    ensures IsChain(data)
  {
    assert HeaderFirst(data) && data[|data|..] == [];
    assert Unwalked(data) == Unwalked([]);
    ChainExactlyWhenWalked(data);
  }

  /** The length that the bytes of the token ask for when they are read as a header; a null takes the place of
      the field's first byte behind a token of one character. */
  function TokenLength(token: Bytes): UInt32
    requires 0 < |token| < TWO16 - 1
  {
    ReadUint32(StringBytes(token) + [0], 1)
  }

  /** The shortest other fields behind which the token is the header of one frame. */
  function ShortestMistaken(token: Bytes): nat
    requires 0 < |token| < TWO16 - 1 && Printable(token)
  {
    TokenIsLong(token);
    TokenLength(token) + 2 - |token|
  }

  lemma TokenIsLong(token: Bytes)
    requires 0 < |token| < TWO16 - 1 && Printable(token)
    ensures TokenLength(token) + 2 > |token|
  {
    var head := StringBytes(token) + [0];
    assert head[2] == token[0];
    if |token| > 1 { assert head[3] == token[1]; }
  }

  /** Only behind a token of one character do the other fields reach into the length. */
  lemma HeaderOfToken(token: Bytes, fields: Bytes)
    requires 0 < |token| < TWO16 - 1 && fields != []
    ensures var data := LoginInfo(token, fields);
            && data[0] == (|token| + 1) % 0x100
            && ReadUint32(data, 1) == TokenLength(token) + if |token| == 1 then 0x100_0000 * (fields[0] as nat) else 0
  {
    var data, head := LoginInfo(token, fields), StringBytes(token) + [0];
    assert data[1] == head[1] && data[2] == head[2] && data[3] == head[3];
    assert data[4] == if |token| == 1 then fields[0] else head[4];
  }

  /** A chain of any length from five bytes on. */
  function ChainOf(n: nat): Bytes
    requires n >= 5
  {
    if n < 10 then [0, n - 5, 0, 0, 0] + seq(n - 5, _ => 0) else [0, 0, 0, 0, 0] + ChainOf(n - 5)
  }

  lemma {:induction false} ChainOfFits(n: nat)
    requires n >= 5
    ensures |ChainOf(n)| == n && Unwalked(ChainOf(n)) == []
  {
    var b := ChainOf(n);
    if n < 10 {
      assert ReadUint32(b, 1) == n - 5 && b[n..] == [];
    } else {
      ChainOfFits(n - 5);
      assert ReadUint32(b, 1) == 0 && b[5..] == ChainOf(n - 5);
    }
  }

  /** Fields of a length at which they can be mistaken. */
  lemma MistakenFields(token: Bytes, n: nat) returns (fields: Bytes)
    requires 0 < |token| < TWO16 - 1 && Printable(token) && (|token| + 1) % 0x100 <= MAX_STRUCTURE_VERSION
    requires n == ShortestMistaken(token) || n >= ShortestMistaken(token) + 5
    ensures |fields| == n && IsChain(LoginInfo(token, fields))
  {
    hide ChainOf, LoginInfo, IsChain, HeaderFirst, TokenLength;
    var shortest := ShortestMistaken(token);
    var rest := if n == shortest then [] else ChainOf(n - shortest);
    if n != shortest { ChainOfFits(n - shortest); }
    fields := seq(shortest, _ => 0) + rest;
    TokenThenChain(token, fields, rest);
  }

  lemma TokenThenChain(token: Bytes, fields: Bytes, rest: Bytes)
    requires 0 < |token| < TWO16 - 1 && Printable(token) && (|token| + 1) % 0x100 <= MAX_STRUCTURE_VERSION
    requires fields == seq(ShortestMistaken(token), _ => 0) + rest && Unwalked(rest) == []
    ensures IsChain(LoginInfo(token, fields))
  {
    TokenIsLong(token);
    HeaderOfToken(token, fields);
    var data := LoginInfo(token, fields);
    assert data == StringBytes(token) + seq(ShortestMistaken(token), _ => 0) + rest;
    hide LoginInfo, TokenLength;
    assert data[5 + ReadUint32(data, 1)..] == rest;
    ChainExactlyWhenWalked(data);
  }

  /** The frames that the token begins end in it and the fields, whole: with them, or at least a header before. */
  lemma MistakenLength(token: Bytes, fields: Bytes)
    requires 0 < |token| < TWO16 - 1 && Printable(token) && IsChain(LoginInfo(token, fields))
    ensures (|token| + 1) % 0x100 <= MAX_STRUCTURE_VERSION
    ensures |fields| == ShortestMistaken(token) || |fields| >= ShortestMistaken(token) + 5
  {
    var data := LoginInfo(token, fields);
    ChainExactlyWhenWalked(data);
    TokenIsLong(token);
    assert fields != [] by {
      assert data[2] == token[0];
      if |token| > 1 { assert data[3] == token[1]; }
    }
    HeaderOfToken(token, fields);
    var rest := data[5 + ReadUint32(data, 1)..];
    assert rest != [] ==> HeaderFirst(rest);
  }

  /** How long the other fields must be for some of them to make the two formats look the same, exactly. */
  lemma MistakenLengthsExactly(token: Bytes, n: nat)
    requires 0 < |token| < TWO16 - 1 && Printable(token)
    ensures (exists fields: Bytes :: |fields| == n && IsChain(LoginInfo(token, fields))) <==>
              && (|token| + 1) % 0x100 <= MAX_STRUCTURE_VERSION
              && (n == ShortestMistaken(token) || n >= ShortestMistaken(token) + 5)
  {
    hide IsChain, ShortestMistaken;
    if && (|token| + 1) % 0x100 <= MAX_STRUCTURE_VERSION
       && (n == ShortestMistaken(token) || n >= ShortestMistaken(token) + 5) {
      var fields := MistakenFields(token, n);
    }
    forall fields: Bytes | |fields| == n && IsChain(LoginInfo(token, fields))
      ensures (|token| + 1) % 0x100 <= MAX_STRUCTURE_VERSION
      ensures n == ShortestMistaken(token) || n >= ShortestMistaken(token) + 5
    {
      MistakenLength(token, fields);
    }
  }

  /** Without a bound on the other fields, the length of the token alone decides whether some of
      them make it look framed: only its low byte is read as a version. */
  lemma MistakenExactly(token: Bytes)
    requires 0 < |token| < TWO16 - 1 && Printable(token)
    ensures (exists fields: Bytes :: IsChain(LoginInfo(token, fields))) <==>
              (|token| + 1) % 0x100 <= 8
  {
    hide IsChain, ShortestMistaken;
    if (|token| + 1) % 0x100 <= MAX_STRUCTURE_VERSION {
      var fields := MistakenFields(token, ShortestMistaken(token));
    }
    forall fields: Bytes | IsChain(LoginInfo(token, fields)) ensures (|token| + 1) % 0x100 <= MAX_STRUCTURE_VERSION {
      MistakenLength(token, fields);
    }
  }
}
