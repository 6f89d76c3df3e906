/** The stored swap contracts and events (loopdb/loopin.go, loopdb/loopout.go,
    loopdb/loop.go) and the migrations that rewrite their bytes. */
module Contracts {
  import opened Options
  import opened Codec

  const KEY_LENGTH := 33

  function Zeros(n: nat): (s: Bytes)
    ensures |s| == n && forall i :: 0 <= i < n ==> s[i] == 0
  {
    seq(n, _ => 0)
  }

  // ----- Loop-in contracts -----

  datatype LoopIn = LoopIn(
    initiationTime: int, preimage: Bytes, amount: int, senderKey: Bytes, receiverKey: Bytes, cltvExpiry: int,
    maxMinerFee: int, maxSwapFee: int, initiationHeight: int, htlcConfTarget: int,
    lastHop: Option<Bytes>, externalHtlc: bool)

  /** The fields that precede the last hop. */
  const IN_HEAD: seq<Kind> :=
    [Int(8), Raw(32), Int(8), Raw(33), Raw(33), Int(4), Int(8), Int(8), Int(4), Int(4)]
  const IN_TAIL: seq<Kind> := [Raw(33), Flag]
  const LOOP_IN: seq<Kind> := IN_HEAD + IN_TAIL

  function HeadValues(c: LoopIn): seq<Value> {
    [IntValue(c.initiationTime), RawValue(c.preimage), IntValue(c.amount), RawValue(c.senderKey),
     RawValue(c.receiverKey),
     IntValue(c.cltvExpiry), IntValue(c.maxMinerFee), IntValue(c.maxSwapFee), IntValue(c.initiationHeight),
     IntValue(c.htlcConfTarget)]
  }

  /** No last hop is written as zeros. */
  function LoopInValues(c: LoopIn): seq<Value> {
    HeadValues(c)
    + [RawValue(if c.lastHop.Some? then c.lastHop.value else Zeros(KEY_LENGTH)), FlagValue(c.externalHtlc)]
  }

  /** The widths of the fields. */
  predicate StorableIn(c: LoopIn) {
    OfKinds(LOOP_IN, LoopInValues(c))
  }

  function SerializeLoopIn(c: LoopIn): Bytes
    requires StorableIn(c)
  {
    Encode(LOOP_IN, LoopInValues(c))
  }

  function LoopInOf(vs: seq<Value>): LoopIn
    requires HasForms(LOOP_IN, vs)
  {
    LoopInForms(vs);
    LoopIn(vs[0].number, vs[1].bytes, vs[2].number, vs[3].bytes, vs[4].bytes, vs[5].number, vs[6].number, vs[7].number,
           vs[8].number, vs[9].number,
           if vs[10].bytes == Zeros(KEY_LENGTH) then None else Some(vs[10].bytes), vs[11].flag)
  }

  lemma LoopInForms(vs: seq<Value>)
    requires HasForms(LOOP_IN, vs)
    ensures |vs| == 12
    ensures vs[0].IntValue? && vs[1].RawValue? && vs[2].IntValue? && vs[3].RawValue?
    ensures vs[4].RawValue? && vs[5].IntValue?
    ensures vs[6].IntValue? && vs[7].IntValue? && vs[8].IntValue? && vs[9].IntValue?
    ensures vs[10].RawValue? && vs[11].FlagValue?
  {
  }

  function DeserializeLoopIn(s: Bytes): Option<LoopIn> {
    match Decode(LOOP_IN, s)
    case None => None
    case Some((vs, _)) =>
      DecodeForms(LOOP_IN, s);
      Some(LoopInOf(vs))
  }

  lemma NoTexts(ks: seq<Kind>, vs: seq<Value>)
    requires |ks| == |vs| && Fixed(ks)
    ensures AllReadable(ks, vs)
  {
  }

  lemma KindsHaveForms(ks: seq<Kind>, vs: seq<Value>)
    requires OfKinds(ks, vs)
    ensures HasForms(ks, vs)
  {
  }

  lemma LoopInFields(c: LoopIn)
    requires StorableIn(c)
    ensures HasForms(LOOP_IN, LoopInValues(c))
    ensures LoopInOf(LoopInValues(c)) == c.(lastHop := if c.lastHop == Some(Zeros(KEY_LENGTH)) then None else c.lastHop)
  {
    KindsHaveForms(LOOP_IN, LoopInValues(c));
  }

  /** A loop-in contract reads back with all its fields, unless its last hop is the
      zero key: that one reads as none. */
  lemma LoopInRoundTrip(c: LoopIn)
    requires StorableIn(c)
    ensures DeserializeLoopIn(SerializeLoopIn(c))
         == Some(c.(lastHop := if c.lastHop == Some(Zeros(KEY_LENGTH)) then None else c.lastHop))
    ensures DeserializeLoopIn(SerializeLoopIn(c)) == Some(c) <==> c.lastHop != Some(Zeros(KEY_LENGTH))
  {
    var vs := LoopInValues(c);
    NoTexts(LOOP_IN, vs);
    RecordRoundTrip(LOOP_IN, vs, []);
    assert Encode(LOOP_IN, vs) + [] == Encode(LOOP_IN, vs);
    LoopInFields(c);
  }

  // ----- Loop-out contracts -----

  /** Texts are bytes; the destination is the text form of an address. */
  datatype LoopOut = LoopOut(
    initiationTime: int, preimage: Bytes, amount: int, prepayInvoice: Bytes, senderKey: Bytes, receiverKey: Bytes,
    cltvExpiry: int, maxMinerFee: int, maxSwapFee: int, maxPrepayRoutingFee: int, initiationHeight: int,
    destAddr: Bytes, swapInvoice: Bytes, sweepConfTarget: int, maxSwapRoutingFee: int,
    outgoingChans: seq<int>, publicationDeadline: int)

  /** The fields before the publication deadline was added. */
  const OUT_HEAD: seq<Kind> :=
    [Int(8), Raw(32), Int(8), Text, Raw(33), Raw(33), Int(4), Int(8), Int(8), Int(8), Int(4),
     Text, Text, Int(4), Int(8), Uint(8)]
  const DEADLINE: seq<Kind> := [Int(8)]
  const LOOP_OUT: seq<Kind> := OUT_HEAD + DEADLINE

  /** The outgoing channel is always written as none. */
  function LoopOutValues(c: LoopOut): seq<Value> {
    [IntValue(c.initiationTime), RawValue(c.preimage), IntValue(c.amount), RawValue(c.prepayInvoice),
     RawValue(c.senderKey), RawValue(c.receiverKey), IntValue(c.cltvExpiry), IntValue(c.maxMinerFee),
     IntValue(c.maxSwapFee), IntValue(c.maxPrepayRoutingFee), IntValue(c.initiationHeight), RawValue(c.destAddr),
     RawValue(c.swapInvoice), IntValue(c.sweepConfTarget), IntValue(c.maxSwapRoutingFee), IntValue(0),
     IntValue(c.publicationDeadline)]
  }

  predicate StorableOut(c: LoopOut) {
    OfKinds(LOOP_OUT, LoopOutValues(c))
  }

  function SerializeLoopOut(c: LoopOut): Bytes
    requires StorableOut(c)
  {
    Encode(LOOP_OUT, LoopOutValues(c))
  }

  lemma LoopOutForms(vs: seq<Value>)
    requires HasForms(LOOP_OUT, vs)
    ensures |vs| == 17
    ensures vs[0].IntValue? && vs[1].RawValue? && vs[2].IntValue? && vs[3].RawValue?
    ensures vs[4].RawValue? && vs[5].RawValue?
    ensures vs[6].IntValue? && vs[7].IntValue? && vs[8].IntValue? && vs[9].IntValue?
    ensures vs[10].IntValue? && vs[11].RawValue?
    ensures vs[12].RawValue? && vs[13].IntValue? && vs[14].IntValue? && vs[15].IntValue? && vs[16].IntValue?
  {
  }

  function LoopOutOf(vs: seq<Value>): LoopOut
    requires HasForms(LOOP_OUT, vs)
  {
    LoopOutForms(vs);
    LoopOut(vs[0].number, vs[1].bytes, vs[2].number, vs[3].bytes, vs[4].bytes, vs[5].bytes, vs[6].number, vs[7].number,
            vs[8].number, vs[9].number, vs[10].number, vs[11].bytes, vs[12].bytes, vs[13].number, vs[14].number,
            if vs[15].number != 0 then [vs[15].number] else [], vs[16].number)
  }

  /** Whether a text is an address is decided elsewhere. */
  function DeserializeLoopOut(s: Bytes, isAddress: Bytes -> bool): Option<LoopOut> {
    match Decode(LOOP_OUT, s)
    case None => None
    case Some((vs, _)) =>
      DecodeForms(LOOP_OUT, s);
      var c := LoopOutOf(vs);
      if isAddress(c.destAddr) then Some(c) else None
  }

  predicate ReadableTexts(c: LoopOut) {
    && |c.prepayInvoice| <= MAX_MESSAGE_PAYLOAD && |c.destAddr| <= MAX_MESSAGE_PAYLOAD
    && |c.swapInvoice| <= MAX_MESSAGE_PAYLOAD
  }

  lemma LoopOutReadable(c: LoopOut)
    requires StorableOut(c)
    ensures AllReadable(LOOP_OUT, LoopOutValues(c)) <==> ReadableTexts(c)
  {
    var vs := LoopOutValues(c);
    assert LOOP_OUT[3] == LOOP_OUT[11] == LOOP_OUT[12] == Text;
    assert Readable(LOOP_OUT[3], vs[3]) <==> |c.prepayInvoice| <= MAX_MESSAGE_PAYLOAD;
    assert Readable(LOOP_OUT[11], vs[11]) <==> |c.destAddr| <= MAX_MESSAGE_PAYLOAD;
    assert Readable(LOOP_OUT[12], vs[12]) <==> |c.swapInvoice| <= MAX_MESSAGE_PAYLOAD;
    forall i | 0 <= i < |LOOP_OUT| && i != 3 && i != 11 && i != 12
      ensures Readable(LOOP_OUT[i], vs[i])
    {
    }
  }

  lemma LoopOutFields(c: LoopOut)
    requires StorableOut(c)
    ensures HasForms(LOOP_OUT, LoopOutValues(c))
    ensures LoopOutOf(LoopOutValues(c)) == c.(outgoingChans := [])
  {
    KindsHaveForms(LOOP_OUT, LoopOutValues(c));
  }

  /** A loop-out contract reads back with all its fields but the outgoing channels,
      which are stored elsewhere, if and only if its texts are short enough to be
      read and its destination is an address; otherwise it cannot be read at all. */
  lemma LoopOutRoundTrip(c: LoopOut, isAddress: Bytes -> bool)
    requires StorableOut(c)
    ensures DeserializeLoopOut(SerializeLoopOut(c), isAddress)
         == if ReadableTexts(c) && isAddress(c.destAddr) then Some(c.(outgoingChans := [])) else None
  {
    var vs := LoopOutValues(c);
    RecordRoundTrip(LOOP_OUT, vs, []);
    assert Encode(LOOP_OUT, vs) + [] == Encode(LOOP_OUT, vs);
    LoopOutReadable(c);
    LoopOutFields(c);
  }

  // ----- Events -----

  datatype Event = Event(time: int, state: int, server: int, onchain: int, offchain: int)

  /** An event before costs were added. */
  const EVENT_HEAD: seq<Kind> := [Int(8), Uint(1)]
  const COSTS: seq<Kind> := [Int(8), Int(8), Int(8)]
  const EVENT: seq<Kind> := EVENT_HEAD + COSTS

  function EventValues(e: Event): seq<Value> {
    [IntValue(e.time), IntValue(e.state), IntValue(e.server), IntValue(e.onchain), IntValue(e.offchain)]
  }

  lemma EventForms(vs: seq<Value>)
    requires HasForms(EVENT, vs)
    ensures |vs| == 5 && vs[0].IntValue? && vs[1].IntValue? && vs[2].IntValue? && vs[3].IntValue? && vs[4].IntValue?
  {
  }

  function EventOf(vs: seq<Value>): Event
    requires HasForms(EVENT, vs)
  {
    EventForms(vs);
    Event(vs[0].number, vs[1].number, vs[2].number, vs[3].number, vs[4].number)
  }

  function DeserializeEvent(s: Bytes): Option<Event> {
    match Decode(EVENT, s)
    case None => None
    case Some((vs, _)) =>
      DecodeForms(EVENT, s);
      Some(EventOf(vs))
  }

  lemma EventRoundTrip(e: Event)
    requires OfKinds(EVENT, EventValues(e))
    ensures DeserializeEvent(Encode(EVENT, EventValues(e))) == Some(e)
  {
    var vs := EventValues(e);
    NoTexts(EVENT, vs);
    RecordRoundTrip(EVENT, vs, []);
    assert Encode(EVENT, vs) + [] == Encode(EVENT, vs);
    KindsHaveForms(EVENT, vs);
  }

  // ----- Migrations -----

  /** Migration 1 appends three zero costs. */
  function MigrateCosts(record: Bytes): Bytes {
    record + Zeros(24)
  }

  lemma {:induction false} ZeroIsZero(n: nat)
    ensures FromBigEndian(Zeros(n)) == 0
  {
    if n > 0 {
      ZeroIsZero(n - 1);
      assert Zeros(n)[..n - 1] == Zeros(n - 1);
    }
  }

  lemma ZeroField(rest: Bytes)
    ensures ReadField(Int(8), Zeros(8) + rest) == Some((IntValue(0), rest))
  {
    ZeroIsZero(8);
    TakeAppended(Zeros(8), rest);
  }

  lemma ZeroCosts()
    ensures Decode(COSTS, Zeros(24)) == Some(([IntValue(0), IntValue(0), IntValue(0)], []))
  {
    var zero := IntValue(0);
    assert Zeros(24) == Zeros(8) + Zeros(16) && Zeros(16) == Zeros(8) + Zeros(8) && Zeros(8) == Zeros(8) + [];
    ZeroField(Zeros(16));
    ZeroField(Zeros(8));
    ZeroField([]);
    DecodeSingle(Int(8), Zeros(24));
    DecodeNext([Int(8)], Int(8), Zeros(24));
    DecodeNext([Int(8)] + [Int(8)], Int(8), Zeros(24));
    assert COSTS == [Int(8)] + [Int(8)] + [Int(8)];
    assert [zero] + [zero] + [zero] == [zero, zero, zero];
  }

  /** Every event of the old format reads, after the migration, as the same event
      without costs. */
  lemma CostsMigrated(record: Bytes)
    requires |record| == 9
    ensures Decode(EVENT_HEAD, record).Some? && Decode(EVENT_HEAD, record).value.1 == []
    ensures var head := Decode(EVENT_HEAD, record).value.0;
            Decode(EVENT, MigrateCosts(record)) == Some((head + [IntValue(0), IntValue(0), IntValue(0)], []))
  {
    EventHeadSize();
    FixedPrefix(EVENT_HEAD, record, Zeros(24));
    DecodeSplits(EVENT_HEAD, COSTS, MigrateCosts(record));
    ZeroCosts();
  }

  lemma EventHeadSize()
    ensures Size(EVENT_HEAD) == 9 && Fixed(EVENT_HEAD)
  {
    assert EVENT_HEAD[..1] == [Int(8)];
  }

  /** Migration 2 appends the first eight bytes. */
  function MigrateDeadline(record: Bytes): Bytes
    requires |record| >= 8
  {
    record + record[..8]
  }

  lemma DeadlineField(record: Bytes)
    requires |record| >= 8
    ensures Decode(DEADLINE, record[..8]) == Some(([IntValue(ToSigned(FromBigEndian(record[..8]), 8))], []))
  {
    assert record[..8][..8] == record[..8] && record[..8][8..] == [];
    DecodeSingle(Int(8), record[..8]);
  }

  lemma FirstAgain(head: seq<Kind>, record: Bytes, vs: seq<Value>)
    requires head != [] && head[0] == Int(8) && Decode(head, record) == Some((vs, []))
    ensures |record| >= 8 && |vs| == |head|
    ensures Decode(head + DEADLINE, MigrateDeadline(record)) == Some((vs + [vs[0]], []))
  {
    FirstField(head, record);
    RecordExtends(head, record, record[..8]);
    assert [] + record[..8] == record[..8];
    DecodeSplits(head, DEADLINE, MigrateDeadline(record));
    DeadlineField(record);
  }

  /** Every loop-out contract of the old format reads, after the migration, with the
      same fields and its initiation time as publication deadline. */
  lemma DeadlineMigrated(record: Bytes, vs: seq<Value>)
    requires Decode(OUT_HEAD, record) == Some((vs, []))
    ensures |record| >= 8 && |vs| == 16
    ensures Decode(LOOP_OUT, MigrateDeadline(record)) == Some((vs + [vs[0]], []))
  {
    FirstAgain(OUT_HEAD, record, vs);
  }

  /** The tail of a loop-in contract when it named a channel instead of a peer. */
  const OLD_IN_TAIL: seq<Kind> := [Uint(8), Flag]
  const OLD_LOOP_IN: seq<Kind> := IN_HEAD + OLD_IN_TAIL

  const LAST_HOP_START := 142
  const OLD_IN_LENGTH := LAST_HOP_START + 9

  /** Migration 3 replaces the channel by the zero key, in contracts of the expected
      length only. */
  function MigrateLastHop(record: Bytes): Option<Bytes> {
    if |record| != OLD_IN_LENGTH then None
    else Some(record[..LAST_HOP_START] + Zeros(KEY_LENGTH) + record[LAST_HOP_START + 8..])
  }

  lemma InHeadSize()
    ensures Size(IN_HEAD) == LAST_HOP_START && Fixed(IN_HEAD)
  {
    var keys := [Int(8)] + [Raw(32)] + [Int(8)] + [Raw(33)] + [Raw(33)];
    KeysSize();
    SizeNext(keys, Int(4));
    SizeNext(keys + [Int(4)], Int(8));
    SizeNext(keys + [Int(4)] + [Int(8)], Int(8));
    SizeNext(keys + [Int(4)] + [Int(8)] + [Int(8)], Int(4));
    SizeNext(keys + [Int(4)] + [Int(8)] + [Int(8)] + [Int(4)], Int(4));
    assert IN_HEAD == keys + [Int(4)] + [Int(8)] + [Int(8)] + [Int(4)] + [Int(4)];
  }

  lemma KeysSize()
    ensures Size([Int(8)] + [Raw(32)] + [Int(8)] + [Raw(33)] + [Raw(33)]) == 114
  {
    SizeNext([], Int(8));
    assert [] + [Int(8)] == [Int(8)];
    SizeNext([Int(8)], Raw(32));
    SizeNext([Int(8)] + [Raw(32)], Int(8));
    SizeNext([Int(8)] + [Raw(32)] + [Int(8)], Raw(33));
    SizeNext([Int(8)] + [Raw(32)] + [Int(8)] + [Raw(33)], Raw(33));
  }

  lemma TailFields(record: Bytes, flag: Byte)
    requires |record| == 9 && record[8] == flag
    ensures Decode(OLD_IN_TAIL, record) == Some(([IntValue(FromBigEndian(record[..8])), FlagValue(flag != 0)], []))
    ensures Decode(IN_TAIL, Zeros(KEY_LENGTH) + [flag])
         == Some(([RawValue(Zeros(KEY_LENGTH)), FlagValue(flag != 0)], []))
  {
    assert record[8..] == [flag] && [flag][1..] == [];
    DecodeSingle(Uint(8), record);
    DecodeNext([Uint(8)], Flag, record);
    assert OLD_IN_TAIL == [Uint(8)] + [Flag];
    var channel, external := IntValue(FromBigEndian(record[..8])), FlagValue(flag != 0);
    assert [channel] + [external] == [channel, external];
    var zeros := Zeros(KEY_LENGTH);
    TakeAppended(zeros, [flag]);
    DecodeSingle(Raw(33), zeros + [flag]);
    DecodeNext([Raw(33)], Flag, zeros + [flag]);
    assert IN_TAIL == [Raw(33)] + [Flag];
    assert [RawValue(zeros)] + [external] == [RawValue(zeros), external];
  }

  /** Every loop-in contract of the old format, that is, any bytes of the expected
      length, reads after the migration with the same fields, and the zero key in
      place of the channel. */
  lemma LastHopMigrated(record: Bytes)
    requires |record| == OLD_IN_LENGTH
    ensures var head := Decode(IN_HEAD, record[..LAST_HOP_START]);
            var channel := IntValue(FromBigEndian(record[LAST_HOP_START..LAST_HOP_START + 8]));
            var external := FlagValue(record[OLD_IN_LENGTH - 1] != 0);
            && head.Some?
            && Decode(OLD_LOOP_IN, record) == Some((head.value.0 + [channel, external], []))
            && Decode(LOOP_IN, MigrateLastHop(record).value)
               == Some((head.value.0 + [RawValue(Zeros(KEY_LENGTH)), external], []))
  {
    var first, tail := record[..LAST_HOP_START], record[LAST_HOP_START..];
    var flag: Byte := record[OLD_IN_LENGTH - 1];
    assert record == first + tail && tail[8..] == [flag] && tail[..8] == record[LAST_HOP_START..LAST_HOP_START + 8];
    assert record[LAST_HOP_START + 8..] == [flag];
    var migrated := Zeros(KEY_LENGTH) + [flag];
    assert MigrateLastHop(record).value == first + migrated;
    InHeadSize();
    FixedPrefix(IN_HEAD, first, tail);
    FixedPrefix(IN_HEAD, first, migrated);
    DecodeSplits(IN_HEAD, OLD_IN_TAIL, record);
    DecodeSplits(IN_HEAD, IN_TAIL, first + migrated);
    TailFields(tail, flag);
  }

  /** After the migration every contract has no last hop. */
  lemma MigratedHasNoLastHop(record: Bytes)
    requires |record| == OLD_IN_LENGTH
    ensures var c := DeserializeLoopIn(MigrateLastHop(record).value);
            c.Some? && c.value.lastHop.None? && c.value.externalHtlc == (record[OLD_IN_LENGTH - 1] != 0)
  {
    LastHopMigrated(record);
    DecodeForms(LOOP_IN, MigrateLastHop(record).value);
  }
}
