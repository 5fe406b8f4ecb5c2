/** The keyword <-> category table of the ETW export: the sixteen categories that
    can be exported individually, the two reserved buckets for every other
    category, and the decoding of a 64-bit ETW keyword into per-category flags. */
module CategoryTable {

  /** Categories exported individually; the one at index i is governed by keyword bit i. */
  const FilteredEventGroupNames: seq<string> := [
    "benchmark",                             // 0x1
    "blink",                                 // 0x2
    "browser",                               // 0x4
    "cc",                                    // 0x8
    "evdev",                                 // 0x10
    "gpu",                                   // 0x20
    "input",                                 // 0x40
    "netlog",                                // 0x80
    "sequence_manager",                      // 0x100
    "toplevel",                              // 0x200
    "v8",                                    // 0x400
    "disabled-by-default-cc.debug",          // 0x800
    "disabled-by-default-cc.debug.picture",  // 0x1000
    "disabled-by-default-toplevel.flow",     // 0x2000
    "startup",                               // 0x4000
    "latency"                                // 0x8000
  ]

  /** Bucket for unlisted categories that are not disabled by default (bit 61). */
  const OtherEventsGroupName: string := "__OTHER_EVENTS"
  /** Bucket for unlisted categories that are disabled by default (bit 62). */
  const DisabledOtherEventsGroupName: string := "__DISABLED_OTHER_EVENTS"

  const OtherEventsBit: nat := 61
  const DisabledOtherEventsBit: nat := 62
  const OtherEventsKeywordBit: bv64 := 1 << 61
  const DisabledOtherEventsKeywordBit: bv64 := 1 << 62

  const NumberOfCategories: nat := |FilteredEventGroupNames| + 2

  /** Naming convention of categories that are off unless asked for explicitly. */
  const DisabledByDefaultPrefix: string := "disabled-by-default"

  /** Every bit of a keyword that the table looks at: bits 0..15, 61 and 62. */
  const UsedKeywordBits: bv64 := 0x6000_0000_0000_FFFF

  /** Every key of the status table, in the order the constructor inserts them. */
  const KnownCategoryNames: seq<string> :=
    FilteredEventGroupNames + [OtherEventsGroupName, DisabledOtherEventsGroupName]

  const KnownCategorySet: set<string> := set name | name in KnownCategoryNames

  /** The key set is the listed names and the two bucket names. */
  lemma KnownSetSplit()
    ensures KnownCategorySet
         == (set name | name in FilteredEventGroupNames) + {OtherEventsGroupName, DisabledOtherEventsGroupName}
  {
  }

  predicate StartsWith(s: string, prefix: string)
  {
    |prefix| <= |s| && s[..|prefix|] == prefix
  }

  /** `keyword & (1ULL << bit)` is non-zero (never, for a bit beyond the 64). */
  predicate KeywordBitSet(keyword: bv64, bit: nat)
  {
    bit < 64 && keyword & (1 << bit) != 0
  }

  /** The two bucket masks are the bucket bits. */
  lemma ReservedKeywordBits(keyword: bv64)
    ensures (keyword & OtherEventsKeywordBit != 0) == KeywordBitSet(keyword, OtherEventsBit)
    ensures (keyword & DisabledOtherEventsKeywordBit != 0) == KeywordBitSet(keyword, DisabledOtherEventsBit)
  {
  }

  predicate Distinct(names: seq<string>)
  {
    forall i, j :: 0 <= i < j < |names| ==> names[i] != names[j]
  }

  /** Bit i of the keyword governs KnownCategoryNames[i]. */
  const KnownBits: seq<nat> := [0, 1, 2, 3, 4, 5, 6, 7, 8, 9, 10, 11, 12, 13, 14, 15,
                                OtherEventsBit, DisabledOtherEventsBit]

  /** The bucket a name outside the table falls into. */
  function BucketBit(name: string): (bit: nat)
  {
    if StartsWith(name, DisabledByDefaultPrefix) then DisabledOtherEventsBit else OtherEventsBit
  }

  /** The bit paired with the first occurrence of `name` in `names`, or the
      bucket bit when `name` is not there. */
  function BitAmong(names: seq<string>, bits: seq<nat>, name: string): (bit: nat)
    requires |names| == |bits|
  {
    if names == [] then BucketBit(name)
    else if names[0] == name then bits[0]
    else BitAmong(names[1..], bits[1..], name)
  }

  /** The keyword bit that decides whether events of category `name` are
      exported: a table entry has its own bit (the two bucket names included),
      and any other name falls into one of the two buckets. */
  function KeywordBit(name: string): (bit: nat)
  {
    BitAmong(KnownCategoryNames, KnownBits, name)
  }

  lemma KnownBitsInRange()
    ensures forall b :: b in KnownBits ==> b < |FilteredEventGroupNames| || b == OtherEventsBit || b == DisabledOtherEventsBit
  {
    forall b | b in KnownBits
      ensures b < |FilteredEventGroupNames| || b == OtherEventsBit || b == DisabledOtherEventsBit
    {
      var i :| 0 <= i < |KnownBits| && KnownBits[i] == b;
      assert i < 16 ==> b == i;
    }
  }

  /** Only a listed category is governed by a bit below 16, and by its own. */
  lemma KeywordBitBelow16(name: string)
    requires KeywordBit(name) < |FilteredEventGroupNames|
    ensures FilteredEventGroupNames[KeywordBit(name)] == name
  {
    if name in KnownCategorySet {
      var i :| 0 <= i < |KnownCategoryNames| && KnownCategoryNames[i] == name;
      KeywordBitOfKnown(i);
      if i < |FilteredEventGroupNames| {
        KeywordBitOfListed(i);
        assert KnownCategoryNames[i] == FilteredEventGroupNames[i];
      }
    } else {
      KeywordBitOfUnknown(name);
    }
  }

  /** Whether events of category `name` are exported under `keyword`: the
      bit that governs the name is set. */
  predicate CategoryEnabledBy(keyword: bv64, name: string)
  {
    KeywordBitSet(keyword, KeywordBit(name))
  }

  /** Every name is governed by one of bits 0..15, 61 and 62. */
  lemma KeywordBitRange(name: string)
    ensures KeywordBit(name) < |FilteredEventGroupNames| || KeywordBit(name) == OtherEventsBit
         || KeywordBit(name) == DisabledOtherEventsBit
  {
    if name in KnownCategorySet {
      var i :| 0 <= i < |KnownCategoryNames| && KnownCategoryNames[i] == name;
      KeywordBitOfKnown(i);
      KnownBitsInRange();
      assert KnownBits[i] in KnownBits;
    } else {
      KeywordBitOfUnknown(name);
    }
  }

  /** The table names no category twice, so each has a bit of its own. */
  lemma KnownNamesDistinct()
    ensures Distinct(KnownCategoryNames)
    ensures |KnownCategoryNames| == |KnownBits| == NumberOfCategories
  {
    assert |KnownCategoryNames| == 18;
  }

  lemma ReservedNamesNotListed()
    ensures OtherEventsGroupName !in FilteredEventGroupNames
    ensures DisabledOtherEventsGroupName !in FilteredEventGroupNames
    ensures OtherEventsGroupName != DisabledOtherEventsGroupName
    ensures OtherEventsGroupName in KnownCategorySet && DisabledOtherEventsGroupName in KnownCategorySet
  {
    KnownNamesDistinct();
    assert OtherEventsGroupName == KnownCategoryNames[16];
    assert DisabledOtherEventsGroupName == KnownCategoryNames[17];
    forall i | 0 <= i < |FilteredEventGroupNames|
      ensures FilteredEventGroupNames[i] != OtherEventsGroupName
      ensures FilteredEventGroupNames[i] != DisabledOtherEventsGroupName
    {
      assert FilteredEventGroupNames[i] == KnownCategoryNames[i];
    }
  }

  lemma {:induction false} BitAmongAt(names: seq<string>, bits: seq<nat>, i: nat)
    requires |names| == |bits| && Distinct(names) && i < |names|
    ensures BitAmong(names, bits, names[i]) == bits[i]
  {
    if i > 0 {
      assert names[0] != names[i];
      assert names[1..][i - 1] == names[i];
      assert Distinct(names[1..]) by {
        forall p, q | 0 <= p < q < |names[1..]| ensures names[1..][p] != names[1..][q] {
          assert names[1..][p] == names[p + 1] && names[1..][q] == names[q + 1];
        }
      }
      BitAmongAt(names[1..], bits[1..], i - 1);
    }
  }

  lemma {:induction false} BitAmongAbsent(names: seq<string>, bits: seq<nat>, name: string)
    requires |names| == |bits| && name !in names
    ensures BitAmong(names, bits, name) == BucketBit(name)
  {
    if names != [] {
      assert names[0] != name;
      assert name !in names[1..];
      BitAmongAbsent(names[1..], bits[1..], name);
    }
  }

  /** Entry i of the table is governed by bit KnownBits[i]: a listed category
      by its position, a bucket name by the bucket bit. */
  lemma KeywordBitOfKnown(i: nat)
    requires i < |KnownCategoryNames|
    ensures KeywordBit(KnownCategoryNames[i]) == KnownBits[i]
  {
    KnownNamesDistinct();
    BitAmongAt(KnownCategoryNames, KnownBits, i);
  }

  lemma KeywordBitOfListed(i: nat)
    requires i < |FilteredEventGroupNames|
    ensures KeywordBit(FilteredEventGroupNames[i]) == i
  {
    KeywordBitOfKnown(i);
    assert KnownCategoryNames[i] == FilteredEventGroupNames[i];
  }

  /** A name outside the table goes to the disabled-by-default bucket exactly
      when it carries the disabled-by-default prefix, otherwise to the other one. */
  lemma KeywordBitOfUnknown(name: string)
    requires name !in KnownCategorySet
    ensures KeywordBit(name) == DisabledOtherEventsBit <==> StartsWith(name, DisabledByDefaultPrefix)
    ensures KeywordBit(name) == OtherEventsBit <==> !StartsWith(name, DisabledByDefaultPrefix)
  {
    BitAmongAbsent(KnownCategoryNames, KnownBits, name);
  }

  /** A sequence without repetitions has as many distinct elements as positions. */
  lemma {:induction false} DistinctCardinality(names: seq<string>)
    requires Distinct(names)
    ensures |set name | name in names| == |names|
  {
    if names != [] {
      var tail := names[1..];
      assert Distinct(tail) by {
        forall i, j | 0 <= i < j < |tail| ensures tail[i] != tail[j] {
          assert tail[i] == names[i + 1] && tail[j] == names[j + 1];
        }
      }
      DistinctCardinality(tail);
      assert names[0] !in tail by {
        forall j | 0 <= j < |tail| ensures tail[j] != names[0] {
          assert tail[j] == names[j + 1];
        }
      }
      assert (set name | name in names) == {names[0]} + (set name | name in tail) by {
        assert names == [names[0]] + tail;
      }
    }
  }

  /** The table built from parallel lists of names and bits, later entries
      first so that the first occurrence of a name wins. */
  function DecodeFrom(keyword: bv64, names: seq<string>, bits: seq<nat>): (status: map<string, bool>)
    requires |names| == |bits| && forall b :: b in bits ==> b < 64
    ensures status.Keys == set name | name in names
  {
    if names == [] then map[]
    else
      assert bits[0] in bits && forall b :: b in bits[1..] ==> b in bits;
      var rest := DecodeFrom(keyword, names[1..], bits[1..]);
      assert (set name | name in names) == {names[0]} + (set name | name in names[1..]) by {
        assert names == [names[0]] + names[1..];
      }
      rest[names[0] := KeywordBitSet(keyword, bits[0])]
  }

  lemma {:induction false} DecodeFromAt(keyword: bv64, names: seq<string>, bits: seq<nat>, i: nat)
    requires |names| == |bits| && forall b :: b in bits ==> b < 64
    requires i < |names|
    ensures bits[i] < 64
    ensures DecodeFrom(keyword, names, bits)[names[i]] == KeywordBitSet(keyword, BitAmong(names, bits, names[i]))
  {
    assert bits[i] in bits;
    if i > 0 && names[0] != names[i] {
      assert names[1..][i - 1] == names[i];
      assert forall b :: b in bits[1..] ==> b in bits;
      DecodeFromAt(keyword, names[1..], bits[1..], i - 1);
    }
  }

  /** The flags the table holds for a keyword: one entry per table name, each
      the keyword bit governing that name. */
  function Decode(keyword: bv64): (status: map<string, bool>)
    ensures status.Keys == KnownCategorySet
  {
    DecodeFrom(keyword, KnownCategoryNames, KnownBits)
  }

  /** Every entry of the decoded table is the bit that governs its name. */
  lemma DecodeEntry(keyword: bv64, name: string)
    requires name in KnownCategorySet
    ensures Decode(keyword)[name] == KeywordBitSet(keyword, KeywordBit(name))
  {
    var i :| 0 <= i < |KnownCategoryNames| && KnownCategoryNames[i] == name;
    DecodeFromAt(keyword, KnownCategoryNames, KnownBits, i);
  }

  /** Listed category i has flag i; the buckets have flags 61 and 62. */
  lemma DecodeListed(keyword: bv64)
    ensures forall i :: 0 <= i < |FilteredEventGroupNames| ==>
              Decode(keyword)[FilteredEventGroupNames[i]] == KeywordBitSet(keyword, i)
    ensures Decode(keyword)[OtherEventsGroupName] == KeywordBitSet(keyword, OtherEventsBit)
    ensures Decode(keyword)[DisabledOtherEventsGroupName] == KeywordBitSet(keyword, DisabledOtherEventsBit)
  {
    forall i | 0 <= i < |FilteredEventGroupNames|
      ensures Decode(keyword)[FilteredEventGroupNames[i]] == KeywordBitSet(keyword, i)
    {
      assert KnownCategoryNames[i] == FilteredEventGroupNames[i];
      DecodeEntry(keyword, FilteredEventGroupNames[i]);
      KeywordBitOfListed(i);
    }
    ReservedNamesNotListed();
    DecodeEntry(keyword, OtherEventsGroupName);
    DecodeEntry(keyword, DisabledOtherEventsGroupName);
    KeywordBitOfKnown(16);
    KeywordBitOfKnown(17);
  }

  /** A table with every known key whose first n listed entries follow the
      keyword: the state of an update part way through the listed names. */
  predicate ListedFlagsFollow(status: map<string, bool>, keyword: bv64, n: nat)
  {
    && status.Keys == KnownCategorySet
    && n <= |FilteredEventGroupNames|
    && forall j :: 0 <= j < n ==> status[FilteredEventGroupNames[j]] == KeywordBitSet(keyword, j)
  }

  /** Setting listed entry n from its bit extends the agreement by one entry. */
  lemma SetListedFlag(status: map<string, bool>, keyword: bv64, n: nat)
    requires ListedFlagsFollow(status, keyword, n) && n < |FilteredEventGroupNames|
    ensures ListedFlagsFollow(status[FilteredEventGroupNames[n] := KeywordBitSet(keyword, n)], keyword, n + 1)
  {
    KnownNamesDistinct();
    var name := FilteredEventGroupNames[n];
    assert name == KnownCategoryNames[n];
    var updated := status[name := KeywordBitSet(keyword, n)];
    forall j | 0 <= j < n + 1
      ensures updated[FilteredEventGroupNames[j]] == KeywordBitSet(keyword, j)
    {
      assert FilteredEventGroupNames[j] == KnownCategoryNames[j];
    }
  }

  /** Entry i of a table whose listed and bucket entries follow the keyword
      is the decoded entry. */
  lemma FollowingEntry(table: map<string, bool>, keyword: bv64, i: nat)
    requires ListedFlagsFollow(table, keyword, |FilteredEventGroupNames|)
    requires table[OtherEventsGroupName] == KeywordBitSet(keyword, OtherEventsBit)
    requires table[DisabledOtherEventsGroupName] == KeywordBitSet(keyword, DisabledOtherEventsBit)
    requires i < |KnownCategoryNames|
    ensures table[KnownCategoryNames[i]] == Decode(keyword)[KnownCategoryNames[i]]
  {
    var name := KnownCategoryNames[i];
    DecodeEntry(keyword, name);
    if i < |FilteredEventGroupNames| {
      assert name == FilteredEventGroupNames[i];
      KeywordBitOfListed(i);
    } else if i == |FilteredEventGroupNames| {
      assert name == OtherEventsGroupName;
      KeywordBitOfKnown(i);
    } else {
      assert name == DisabledOtherEventsGroupName;
      KeywordBitOfKnown(i);
    }
  }

  /** A table with the known keys whose listed entries and two bucket entries
      follow the keyword bits is the decoded keyword: nothing else is stored. */
  lemma FollowingTableIsDecode(table: map<string, bool>, keyword: bv64)
    requires ListedFlagsFollow(table, keyword, |FilteredEventGroupNames|)
    requires table[OtherEventsGroupName] == KeywordBitSet(keyword, OtherEventsBit)
    requires table[DisabledOtherEventsGroupName] == KeywordBitSet(keyword, DisabledOtherEventsBit)
    ensures table == Decode(keyword)
  {
    forall name | name in KnownCategorySet ensures table[name] == Decode(keyword)[name] {
      var i :| 0 <= i < |KnownCategoryNames| && KnownCategoryNames[i] == name;
      FollowingEntry(table, keyword, i);
    }
  }

  /** Once every listed entry follows the keyword, setting the two bucket
      entries from bits 61 and 62 gives the decoded table. */
  lemma SetBucketFlags(status: map<string, bool>, keyword: bv64)
    requires ListedFlagsFollow(status, keyword, |FilteredEventGroupNames|)
    ensures status[OtherEventsGroupName := KeywordBitSet(keyword, OtherEventsBit)]
                  [DisabledOtherEventsGroupName := KeywordBitSet(keyword, DisabledOtherEventsBit)]
            == Decode(keyword)
  {
    var table := status[OtherEventsGroupName := KeywordBitSet(keyword, OtherEventsBit)]
                       [DisabledOtherEventsGroupName := KeywordBitSet(keyword, DisabledOtherEventsBit)];
    ReservedNamesNotListed();
    assert ListedFlagsFollow(table, keyword, |FilteredEventGroupNames|);
    FollowingTableIsDecode(table, keyword);
  }

  /** The table always has exactly the eighteen keys. */
  lemma DecodeSize(keyword: bv64)
    ensures |Decode(keyword)| == NumberOfCategories
  {
    KnownNamesDistinct();
    DistinctCardinality(KnownCategoryNames);
    assert Decode(keyword).Keys == KnownCategorySet;
  }

  lemma ZeroKeywordBitClear(bit: nat)
    ensures !KeywordBitSet(0, bit)
  {
  }

  /** The all-zero keyword (the value before any update) turns every flag off. */
  lemma DecodeZero()
    ensures forall name :: name in Decode(0) ==> !Decode(0)[name]
  {
    forall name | name in Decode(0) ensures !Decode(0)[name] {
      DecodeEntry(0, name);
      ZeroKeywordBitClear(KeywordBit(name));
    }
  }

  /** A table holding every name of `names`, each off, inserted in order. */
  function AllOff(names: seq<string>): (status: map<string, bool>)
    ensures status.Keys == set name | name in names
    ensures forall name :: name in status ==> !status[name]
  {
    if names == [] then map[]
    else
      var init := names[..|names| - 1];
      assert (set name | name in names) == (set name | name in init) + {names[|names| - 1]} by {
        assert names == init + [names[|names| - 1]];
      }
      AllOff(init)[names[|names| - 1] := false]
  }

  /** The table the exporter starts with (every listed name, then the two
      buckets, all off) is the decoding of the all-zero keyword. */
  lemma InitialTableIsDecodeZero()
    ensures AllOff(FilteredEventGroupNames)[OtherEventsGroupName := false][DisabledOtherEventsGroupName := false]
            == Decode(0)
  {
    var table := AllOff(FilteredEventGroupNames)[OtherEventsGroupName := false][DisabledOtherEventsGroupName := false];
    KnownSetSplit();
    DecodeZero();
    assert table.Keys == Decode(0).Keys;
  }

  /** A bit that some name is governed by lies in `UsedKeywordBits`. */
  lemma UsedBitsCoverKeywordBit(keyword: bv64, bit: nat)
    requires bit < 16 || bit == 61 || bit == 62
    ensures KeywordBitSet(keyword, bit) == KeywordBitSet(keyword & UsedKeywordBits, bit)
  {
    assert (1 as bv64) << bit == ((1 as bv64) << bit) & UsedKeywordBits;
  }

  /** Only bits 0..15, 61 and 62 matter: keywords that agree on those bits
      give the same table, whatever the other bits (bit 63 included) hold. */
  lemma DecodeDependsOnlyOnUsedBits(k1: bv64, k2: bv64)
    requires k1 & UsedKeywordBits == k2 & UsedKeywordBits
    ensures Decode(k1) == Decode(k2)
  {
    forall name | name in KnownCategorySet ensures Decode(k1)[name] == Decode(k2)[name] {
      var bit := KeywordBit(name);
      KeywordBitRange(name);
      DecodeEntry(k1, name);
      DecodeEntry(k2, name);
      UsedBitsCoverKeywordBit(k1, bit);
      UsedBitsCoverKeywordBit(k2, bit);
    }
  }
}
