/**
 * Upgrading pre-1.13 block entries (server/world/chunk/conversion.go): the
 * table built from the embedded mapping stream and the two-probe lookup.
 */
module Conversion {
  import opened Wrappers
  import opened Nbt

  /** legacyBlockEntry: a name and a meta value. */
  datatype LegacyEntry = LegacyEntry(name: string, meta: int)

  /** blockEntry (its definition is not part of this model): a name and its state. */
  datatype BlockEntry = BlockEntry(name: string, state: map<string, Value>)

  /** One decoded mapping of the stream. */
  datatype Mapping = Mapping(legacy: LegacyEntry, updated: BlockEntry)

  type Table = map<LegacyEntry, BlockEntry>

  /** upgradeLegacyEntry: the exact entry, or else the entry for meta 0, if either is present. */
  function Upgrade(table: Table, name: string, meta: int): (r: Option<BlockEntry>)
    ensures r.Some? <==> LegacyEntry(name, meta) in table || LegacyEntry(name, 0) in table
    ensures LegacyEntry(name, meta) in table ==> r == Some(table[LegacyEntry(name, meta)])
    ensures LegacyEntry(name, meta) !in table && LegacyEntry(name, 0) in table ==>
      r == Some(table[LegacyEntry(name, 0)])
  {
    if LegacyEntry(name, meta) in table then Some(table[LegacyEntry(name, meta)])
    else if LegacyEntry(name, 0) in table then Some(table[LegacyEntry(name, 0)])
    else None
  }

  /** The mappings read before the first decode failure (None marks a failed Decode). */
  function Decoded(stream: seq<Option<Mapping>>): (ms: seq<Mapping>)
    ensures |ms| <= |stream|
    ensures forall i :: 0 <= i < |ms| ==> stream[i] == Some(ms[i])
    ensures |ms| < |stream| ==> stream[|ms|].None?
  {
    if stream == [] || stream[0].None? then []
    else [stream[0].value] + Decoded(stream[1..])
  }

  /** The table holding the mappings in order, each overwriting any earlier one for its key. */
  function TableOf(ms: seq<Mapping>): Table
    decreases |ms|
  {
    if ms == [] then map[]
    else TableOf(ms[..|ms| - 1])[ms[|ms| - 1].legacy := ms[|ms| - 1].updated]
  }

  /** A key is in the table exactly when some mapping has it. */
  lemma {:induction false} InTableIffMapped(ms: seq<Mapping>, k: LegacyEntry)
    ensures k in TableOf(ms) <==> exists i :: 0 <= i < |ms| && ms[i].legacy == k
    decreases |ms|
  {
    if ms != [] {
      var n := |ms| - 1;
      InTableIffMapped(ms[..n], k);
      if exists i :: 0 <= i < n && ms[..n][i].legacy == k {
        var i :| 0 <= i < n && ms[..n][i].legacy == k;
        assert ms[i] == ms[..n][i];
      }
      if exists i :: 0 <= i < |ms| && ms[i].legacy == k {
        var i :| 0 <= i < |ms| && ms[i].legacy == k;
        if i < n {
          assert ms[..n][i] == ms[i];
        }
      }
    }
  }

  /** The table maps a key to the entry of the last mapping that has it. */
  lemma {:induction false} LastMappingWins(ms: seq<Mapping>, k: LegacyEntry, i: int)
    requires 0 <= i < |ms| && ms[i].legacy == k
    requires forall j :: i < j < |ms| ==> ms[j].legacy != k
    ensures k in TableOf(ms) && TableOf(ms)[k] == ms[i].updated
    decreases |ms|
  {
    var n := |ms| - 1;
    if i < n {
      assert ms[n].legacy != k;
      assert forall j :: i < j < n ==> ms[..n][j] == ms[j];
      LastMappingWins(ms[..n], k, i);
    }
  }

  /** init: decode mappings into the table until the first failure. */
  method BuildTable(stream: seq<Option<Mapping>>) returns (table: Table)
    ensures table == TableOf(Decoded(stream))
  {
    table := map[];
    var i := 0;
    while i < |stream|
      invariant 0 <= i <= |Decoded(stream)|
      invariant table == TableOf(Decoded(stream)[..i])
      decreases |stream| - i
    {
      var next := stream[i];
      if next.None? {
        break;
      }
      ghost var ms := Decoded(stream);
      DecodedPrefix(stream, i);
      assert ms[..i + 1][..i] == ms[..i];
      table := table[next.value.legacy := next.value.updated];
      i := i + 1;
    }
    DecodedStops(stream, i);
  }

  lemma DecodedPrefix(stream: seq<Option<Mapping>>, i: nat)
    requires i <= |Decoded(stream)| && i < |stream| && stream[i].Some?
    ensures i < |Decoded(stream)| && Decoded(stream)[i] == stream[i].value
  {
  }

  lemma DecodedStops(stream: seq<Option<Mapping>>, i: nat)
    requires i <= |Decoded(stream)|
    requires i == |stream| || stream[i].None?
    ensures Decoded(stream)[..i] == Decoded(stream)
  {
  }
}
