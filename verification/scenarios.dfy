/** The keyword examples given with the exporter, worked through the model:
    which categories a keyword passed to xperf turns on. */
module Scenarios {
  import opened CategoryTable
  import opened CategoryTokens
  import opened EtwExport

  /** "xperf -on Chrome:0x8000000000000009" (bit 63, which ETW requires, plus
      bits 0 and 3). */
  const BenchmarkAndCcKeyword: bv64 := 0x8000_0000_0000_0009

  /** "xperf -on Chrome:0xA0000000000000A0" (bit 63, bits 5 and 7, and the
      bucket bit 61). */
  const GpuNetlogAndOthersKeyword: bv64 := 0xA000_0000_0000_00A0

  lemma BenchmarkAndCcBits(bit: nat)
    requires bit < 16 || bit == OtherEventsBit || bit == DisabledOtherEventsBit
    ensures KeywordBitSet(BenchmarkAndCcKeyword, bit) <==> bit == 0 || bit == 3
  {
  }

  lemma GpuNetlogAndOthersBits(bit: nat)
    requires bit < 16 || bit == OtherEventsBit || bit == DisabledOtherEventsBit
    ensures KeywordBitSet(GpuNetlogAndOthersKeyword, bit) <==> bit == 5 || bit == 7 || bit == OtherEventsBit
  {
  }

  /** The first example exports "benchmark" and "cc" events and nothing else. */
  lemma BenchmarkAndCcExample(name: string)
    ensures CategoryEnabledBy(BenchmarkAndCcKeyword, name) <==> name == "benchmark" || name == "cc"
  {
    KeywordBitRange(name);
    BenchmarkAndCcBits(KeywordBit(name));
    if KeywordBit(name) < |FilteredEventGroupNames| {
      KeywordBitBelow16(name);
    }
    KeywordBitOfListed(0);
    KeywordBitOfListed(3);
  }

  /** The second example exports "gpu" and "netlog" among the listed
      categories ... */
  lemma GpuNetlogAndOthersListed(i: nat)
    requires i < |FilteredEventGroupNames|
    ensures CategoryEnabledBy(GpuNetlogAndOthersKeyword, FilteredEventGroupNames[i]) <==> i == 5 || i == 7
  {
    KeywordBitOfListed(i);
    GpuNetlogAndOthersBits(i);
  }

  /** ... every category outside the table that is not disabled by default ... */
  lemma GpuNetlogAndOthersUnlisted(name: string)
    requires name !in KnownCategorySet
    ensures CategoryEnabledBy(GpuNetlogAndOthersKeyword, name) <==> !StartsWith(name, DisabledByDefaultPrefix)
  {
    KeywordBitOfUnknown(name);
    GpuNetlogAndOthersBits(KeywordBit(name));
  }

  /** ... and, of the two bucket names, "__OTHER_EVENTS" only. */
  lemma GpuNetlogAndOthersBuckets()
    ensures CategoryEnabledBy(GpuNetlogAndOthersKeyword, OtherEventsGroupName)
    ensures !CategoryEnabledBy(GpuNetlogAndOthersKeyword, DisabledOtherEventsGroupName)
  {
    KeywordBitOfKnown(16);
    KeywordBitOfKnown(17);
    GpuNetlogAndOthersBits(OtherEventsBit);
    GpuNetlogAndOthersBits(DisabledOtherEventsBit);
  }

  /** "madeup" is not a name of the table. */
  lemma MadeupIsUnlisted()
    ensures "madeup" !in KnownCategorySet
    ensures !StartsWith("madeup", DisabledByDefaultPrefix)
  {
    forall i | 0 <= i < |KnownCategoryNames| ensures KnownCategoryNames[i] != "madeup" {
      assert |KnownCategoryNames[i]| != 6 || KnownCategoryNames[i][0] != 'm';
    }
  }

  /** A group is exported when any of its categories is: "cc,madeup" follows
      the bit of "cc" (3) and the bucket bit of the unlisted "madeup" (61). */
  lemma ListedAndUnlistedGroup(keyword: bv64)
    ensures GroupEnabledBy(keyword, "cc,madeup")
            <==> KeywordBitSet(keyword, 3) || KeywordBitSet(keyword, OtherEventsBit)
  {
    assert GroupEnabledBy(keyword, "cc,madeup")
           <==> CategoryEnabledBy(keyword, "cc") || CategoryEnabledBy(keyword, "madeup") by {
      assert "cc,madeup" == "cc" + [Separator] + "madeup";
      JoinedGroups(keyword, "cc", "madeup");
      SingleCategoryGroup(keyword, "cc");
      SingleCategoryGroup(keyword, "madeup");
    }
    assert KeywordBit("cc") == 3 by {
      KeywordBitOfListed(3);
    }
    assert KeywordBit("madeup") == OtherEventsBit by {
      MadeupIsUnlisted();
      KeywordBitOfUnknown("madeup");
    }
  }

  /** A session that enabled the provider with the first example keyword
      before the exporter existed: creating the exporter registers the
      provider, and the enable callback ETW sends from inside the registration
      is dropped, so "cc" is still off; enabling the export re-reads the
      keyword and turns it on. */
  method SessionStartedBeforeExporter() returns (ccBefore: bool, ccAfter: bool)
    ensures !ccBefore && ccAfter
  {
    var process := new ExportProcess(true, BenchmarkAndCcKeyword);
    var e := process.GetInstance();
    ccBefore := process.IsCategoryGroupEnabled("cc");
    process.EnableEtwExport();
    ccAfter := process.IsCategoryGroupEnabled("cc");
    assert "cc" == FilteredEventGroupNames[3];
    SingleCategoryGroup(0, "cc");
    SingleCategoryGroup(BenchmarkAndCcKeyword, "cc");
    KeywordBitOfListed(3);
    ZeroKeywordBitClear(3);
    BenchmarkAndCcExample("cc");
  }
}
