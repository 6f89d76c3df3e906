/** Contracts and events written to a buffer and read from a reader, one field
    after the other, as the stores do. */
module ContractBuffers {
  import opened Options
  import opened Codec
  import opened Contracts

  class Buffer {
    var bytes: Bytes
    /** The record being written, and how many of its fields are there. */
    ghost const kinds: seq<Kind>
    ghost const values: seq<Value>
    ghost var written: nat

    ghost predicate Valid()
      reads this
    {
      OfKinds(kinds, values) && written <= |kinds| && bytes == Encode(kinds[..written], values[..written])
    }

    constructor (ghost kinds: seq<Kind>, ghost values: seq<Value>)
      requires OfKinds(kinds, values)
      ensures Valid() && this.kinds == kinds && this.values == values && written == 0
    {
      bytes := [];
      this.kinds, this.values, this.written := kinds, values, 0;
    }

    method Put(k: Kind, v: Value)
      requires Valid() && written < |kinds| && kinds[written] == k && values[written] == v
      modifies this
      ensures Valid() && written == old(written) + 1
    {
      ghost var n := written;
      assert kinds[..n + 1][..n] == kinds[..n] && values[..n + 1][..n] == values[..n];
      bytes := bytes + WriteField(k, v);
      written := n + 1;
    }
  }

  class Reader {
    var rest: Bytes
    /** The record being read, the bytes it began with, and the fields read so far. */
    ghost const kinds: seq<Kind>
    ghost const record: Bytes
    ghost var values: seq<Value>

    ghost predicate Valid()
      reads this
    {
      |values| <= |kinds| && Decode(kinds[..|values|], record) == Some((values, rest))
    }

    constructor (ghost kinds: seq<Kind>, record: Bytes)
      ensures Valid() && this.kinds == kinds && this.record == record && values == []
    {
      rest := record;
      this.kinds, this.record, this.values := kinds, record, [];
    }

    /** The next field; without it the record cannot be read. */
    method Get(k: Kind) returns (v: Option<Value>)
      requires Valid() && |values| < |kinds| && kinds[|values|] == k
      modifies this
      ensures v.None? ==> Decode(kinds, record).None?
      ensures v.Some? ==> Valid() && values == old(values) + [v.value] && HasForm(k, v.value)
    {
      ghost var n := |values|;
      assert kinds[..n + 1] == kinds[..n] + [k];
      DecodeNext(kinds[..n], k, record);
      var field := ReadField(k, rest);
      if field.None? {
        PrefixFails(kinds, n + 1, record);
        return None;
      }
      values := values + [field.value.0];
      rest := field.value.1;
      return Some(field.value.0);
    }
  }

  lemma Whole<X>(s: seq<X>, n: nat)
    requires n == |s|
    ensures s[..n] == s
  {
  }

  /** Writes the fields of a record in order. */
  method WriteRecord(kinds: seq<Kind>, values: seq<Value>) returns (bytes: Bytes)
    requires OfKinds(kinds, values)
    ensures bytes == Encode(kinds, values)
  {
    var b := new Buffer(kinds, values);
    for i := 0 to |kinds|
      invariant b.Valid() && b.kinds == kinds && b.values == values && b.written == i
      invariant fresh(b)
    {
      b.Put(kinds[i], values[i]);
    }
    Whole(kinds, b.written);
    Whole(values, b.written);
    return b.bytes;
  }

  /** Reads the fields of a record in order, up to the first that is missing. */
  method ReadRecord(kinds: seq<Kind>, record: Bytes) returns (values: Option<seq<Value>>)
    ensures values == match Decode(kinds, record)
                      case None => None
                      case Some((vs, _)) => Some(vs)
  {
    var r := new Reader(kinds, record);
    var fields := [];
    for i := 0 to |kinds|
      invariant r.Valid() && r.kinds == kinds && r.record == record && r.values == fields && |fields| == i
      invariant fresh(r)
    {
      var v := r.Get(kinds[i]);
      if v.None? {
        return None;
      }
      fields := fields + [v.value];
    }
    Whole(kinds, |fields|);
    return Some(fields);
  }

  method WriteLoopIn(c: LoopIn) returns (bytes: Bytes)
    requires StorableIn(c)
    ensures bytes == SerializeLoopIn(c)
  {
    bytes := WriteRecord(LOOP_IN, LoopInValues(c));
  }

  method ReadLoopIn(record: Bytes) returns (c: Option<LoopIn>)
    ensures c == DeserializeLoopIn(record)
  {
    DecodeForms(LOOP_IN, record);
    var values := ReadRecord(LOOP_IN, record);
    c := if values.None? then None else Some(LoopInOf(values.value));
  }

  method WriteLoopOut(c: LoopOut) returns (bytes: Bytes)
    requires StorableOut(c)
    ensures bytes == SerializeLoopOut(c)
  {
    bytes := WriteRecord(LOOP_OUT, LoopOutValues(c));
  }

  method ReadLoopOut(record: Bytes, isAddress: Bytes -> bool) returns (c: Option<LoopOut>)
    ensures c == DeserializeLoopOut(record, isAddress)
  {
    DecodeForms(LOOP_OUT, record);
    var values := ReadRecord(LOOP_OUT, record);
    if values.None? {
      return None;
    }
    var contract := LoopOutOf(values.value);
    c := if isAddress(contract.destAddr) then Some(contract) else None;
  }

  /** Migration 1 rewrites the updates of a swap one by one. */
  method MigrateUpdates(updates: seq<Bytes>) returns (migrated: seq<Bytes>)
    ensures |migrated| == |updates|
    ensures forall i :: 0 <= i < |updates| ==> migrated[i] == MigrateCosts(updates[i])
    ensures forall i :: 0 <= i < |updates| && |updates[i]| == 9 ==>
              match DeserializeEvent(migrated[i])
              case None => false
              case Some(e) => e.server == 0 && e.onchain == 0 && e.offchain == 0
  {
    migrated := [];
    for i := 0 to |updates|
      invariant |migrated| == i && forall j :: 0 <= j < i ==> migrated[j] == MigrateCosts(updates[j])
    {
      migrated := migrated + [MigrateCosts(updates[i])];
    }
    forall i | 0 <= i < |updates| && |updates[i]| == 9
      ensures match DeserializeEvent(migrated[i])
              case None => false
              case Some(e) => e.server == 0 && e.onchain == 0 && e.offchain == 0
    {
      NoCosts(updates[i]);
    }
  }

  lemma NoCosts(record: Bytes)
    requires |record| == 9
    ensures match DeserializeEvent(MigrateCosts(record))
            case None => false
            case Some(e) => e.server == 0 && e.onchain == 0 && e.offchain == 0
  {
    CostsMigrated(record);
    DecodeForms(EVENT, MigrateCosts(record));
  }
}
