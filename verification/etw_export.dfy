/** The ETW export of trace events: the exporter object that keeps the
    per-category flags in step with the ETW keyword, and the process-wide
    state around it (the singleton slot, the registration-complete flag and an
    abstract ETW provider). */
module EtwExport {
  import opened CategoryTable
  import opened CategoryTokens
  import opened EventFormat

  /** The exporter object: the last keyword it saw and the on/off table of
      categories derived from it. */
  class TraceEventEtwExport {
    var etwMatchAnyKeyword: bv64
    var categoriesStatus: map<string, bool>
    /** Times the trace log was asked to refresh its per-category enabled flags. */
    ghost var categoryFlagRefreshes: nat

    /** The table always holds what the stored keyword says. */
    ghost predicate Valid()
      reads this
    {
      categoriesStatus == Decode(etwMatchAnyKeyword)
    }

    /** Fills the table with every known name, all off. */
    constructor ()
      ensures Valid()
      ensures etwMatchAnyKeyword == 0 && categoryFlagRefreshes == 0
      ensures categoriesStatus.Keys == KnownCategorySet
      ensures |categoriesStatus| == NumberOfCategories
      ensures forall name :: name in categoriesStatus ==> !categoriesStatus[name]
    {
      etwMatchAnyKeyword := 0;
      categoryFlagRefreshes := 0;
      var status: map<string, bool> := map[];
      for i := 0 to |FilteredEventGroupNames|
        invariant status == AllOff(FilteredEventGroupNames[..i])
      {
        assert FilteredEventGroupNames[..i + 1][..i] == FilteredEventGroupNames[..i];
        status := status[FilteredEventGroupNames[i] := false];
      }
      status := status[OtherEventsGroupName := false];
      status := status[DisabledOtherEventsGroupName := false];
      assert status == Decode(0) by {
        assert FilteredEventGroupNames[..|FilteredEventGroupNames|] == FilteredEventGroupNames;
        InitialTableIsDecodeZero();
      }
      assert |status| == NumberOfCategories by {
        DecodeSize(0);
      }
      categoriesStatus := status;
    }

    /** Re-reads the provider's keyword. Nothing happens when it is the keyword
        already stored; otherwise every flag is rewritten from it and the trace
        log is told to refresh. Keys are never added or removed. */
    method UpdateEnabledCategories(contextKeyword: bv64) returns (changed: bool)
      requires Valid()
      modifies this
      ensures Valid()
      ensures changed <==> old(etwMatchAnyKeyword) != contextKeyword
      ensures etwMatchAnyKeyword == contextKeyword
      ensures categoriesStatus.Keys == old(categoriesStatus).Keys
      ensures forall i :: 0 <= i < |FilteredEventGroupNames| ==>
                categoriesStatus[FilteredEventGroupNames[i]] == KeywordBitSet(contextKeyword, i)
      ensures categoriesStatus[OtherEventsGroupName] == KeywordBitSet(contextKeyword, OtherEventsBit)
      ensures categoriesStatus[DisabledOtherEventsGroupName] == KeywordBitSet(contextKeyword, DisabledOtherEventsBit)
      ensures !changed ==> categoriesStatus == old(categoriesStatus)
      ensures categoryFlagRefreshes == old(categoryFlagRefreshes) + (if changed then 1 else 0)
    {
      if etwMatchAnyKeyword == contextKeyword {
        DecodeListed(contextKeyword);
        return false;
      }
      etwMatchAnyKeyword := contextKeyword;
      for i := 0 to |FilteredEventGroupNames|
        invariant etwMatchAnyKeyword == contextKeyword
        invariant categoryFlagRefreshes == old(categoryFlagRefreshes)
        invariant ListedFlagsFollow(categoriesStatus, etwMatchAnyKeyword, i)
      {
        SetListedFlag(categoriesStatus, etwMatchAnyKeyword, i);
        if etwMatchAnyKeyword & (1 << i) != 0 {
          categoriesStatus := categoriesStatus[FilteredEventGroupNames[i] := true];
        } else {
          categoriesStatus := categoriesStatus[FilteredEventGroupNames[i] := false];
        }
      }
      SetBucketFlags(categoriesStatus, etwMatchAnyKeyword);
      ReservedKeywordBits(etwMatchAnyKeyword);
      if etwMatchAnyKeyword & OtherEventsKeywordBit != 0 {
        categoriesStatus := categoriesStatus[OtherEventsGroupName := true];
      } else {
        categoriesStatus := categoriesStatus[OtherEventsGroupName := false];
      }
      if etwMatchAnyKeyword & DisabledOtherEventsKeywordBit != 0 {
        categoriesStatus := categoriesStatus[DisabledOtherEventsGroupName := true];
      } else {
        categoriesStatus := categoriesStatus[DisabledOtherEventsGroupName := false];
      }
      DecodeListed(contextKeyword);
      categoryFlagRefreshes := categoryFlagRefreshes + 1;
      changed := true;
    }

    /** Whether events of one category are exported: the stored flag of a
        known name, otherwise the flag of the bucket the name falls into.
        This is bit KeywordBit(categoryName) of the stored keyword. */
    method IsCategoryEnabled(categoryName: string) returns (enabled: bool)
      requires Valid()
      ensures enabled == CategoryEnabledBy(etwMatchAnyKeyword, categoryName)
    {
      if categoryName in categoriesStatus {
        DecodeEntry(etwMatchAnyKeyword, categoryName);
        enabled := categoriesStatus[categoryName];
      } else {
        KeywordBitOfUnknown(categoryName);
        DecodeListed(etwMatchAnyKeyword);
        ReservedNamesNotListed();
        if StartsWith(categoryName, DisabledByDefaultPrefix) {
          enabled := categoriesStatus[DisabledOtherEventsGroupName];
        } else {
          enabled := categoriesStatus[OtherEventsGroupName];
        }
      }
    }
  }

  /** Whether events of a comma-separated category group are exported under
      `keyword`: some category of the group is. */
  predicate GroupEnabledBy(keyword: bv64, categoryGroupName: string)
  {
    exists t :: t in Tokens(categoryGroupName) && CategoryEnabledBy(keyword, t)
  }

  /** A group of one category is exported exactly when that category is. */
  lemma SingleCategoryGroup(keyword: bv64, name: string)
    requires name != "" && Separator !in name
    ensures GroupEnabledBy(keyword, name) <==> CategoryEnabledBy(keyword, name)
  {
    TokensOfCategoryName(name);
  }

  /** The group "a,b" is exported exactly when group a or group b is. */
  lemma JoinedGroups(keyword: bv64, a: string, b: string)
    ensures GroupEnabledBy(keyword, a + [Separator] + b) <==> GroupEnabledBy(keyword, a) || GroupEnabledBy(keyword, b)
  {
    TokensAround(a, b);
  }

  /** The lifecycle of the process-wide exporter instance. */
  datatype Lifecycle = Uninitialized | Ready | Destroyed

  /** Process-wide state: the singleton slot (constructed at most once, absent
      again after its destruction), the registration-complete flag, the
      abstract ETW provider (registered or not, whether a session enables it,
      the keyword the session asks for) and the records written to it. */
  class ExportProcess {
    var lifecycle: Lifecycle
    var instance: TraceEventEtwExport?
    var registrationComplete: bool
    var providerRegistered: bool
    var sinkEnabled: bool
    var sinkKeyword: bv64
    var written: seq<EventRecord>

    ghost predicate Valid()
      reads this, instance
    {
      && (lifecycle == Ready <==> instance != null)
      && (registrationComplete <==> lifecycle == Ready)
      && (providerRegistered <==> lifecycle == Ready)
      && (instance != null ==> instance.Valid())
    }

    /** A process before any use of the exporter; the provider's session state
        is whatever the trace controller has set up. */
    constructor (enabled: bool, keyword: bv64)
      ensures Valid() && lifecycle == Uninitialized
      ensures sinkEnabled == enabled && sinkKeyword == keyword && written == []
    {
      lifecycle := Uninitialized;
      instance := null;
      registrationComplete := false;
      providerRegistered := false;
      sinkEnabled := enabled;
      sinkKeyword := keyword;
      written := [];
    }

    /** Get-or-create access to the singleton. Creating it registers the
        provider; when a session is already enabled, ETW calls the enable
        callback synchronously from inside the registration, before the
        registration-complete flag is set. Null once destroyed. */
    method GetInstance() returns (e: TraceEventEtwExport?)
      requires Valid()
      modifies this, instance
      decreases 2
      ensures Valid() && e == instance
      ensures sinkEnabled == old(sinkEnabled) && sinkKeyword == old(sinkKeyword) && written == old(written)
      ensures old(lifecycle) == Uninitialized ==>
                lifecycle == Ready && fresh(e) && e.etwMatchAnyKeyword == 0 && e.categoryFlagRefreshes == 0
      ensures old(lifecycle) != Uninitialized ==> unchanged(this) && (e != null ==> unchanged(e))
      ensures old(lifecycle) == Destroyed ==> e == null
    {
      if lifecycle == Uninitialized {
        providerRegistered := true;
        if sinkEnabled {
          EtwEnableCallback(sinkEnabled, sinkKeyword);
        }
        registrationComplete := true;
        var created := new TraceEventEtwExport();
        instance := created;
        lifecycle := Ready;
      }
      e := instance;
    }

    /** The provider's enable callback: the context takes the session's new
        state, then the exporter is told about it. */
    method EtwEnableCallback(isEnabled: bool, matchAnyKeyword: bv64)
      requires if registrationComplete then Valid() else instance == null && lifecycle != Ready
      modifies this, instance
      decreases if registrationComplete then 5 else 1
      ensures sinkEnabled == isEnabled && sinkKeyword == matchAnyKeyword
      ensures lifecycle == old(lifecycle) && instance == old(instance) && written == old(written)
      ensures registrationComplete == old(registrationComplete)
      ensures providerRegistered == old(providerRegistered)
      ensures old(registrationComplete) ==> Valid() && instance.etwMatchAnyKeyword == matchAnyKeyword
      ensures old(registrationComplete) ==>
                instance.categoryFlagRefreshes ==
                old(instance.categoryFlagRefreshes) + (if old(instance.etwMatchAnyKeyword) != matchAnyKeyword then 1 else 0)
    {
      sinkEnabled := isEnabled;
      sinkKeyword := matchAnyKeyword;
      OnEtwEnableUpdate();
    }

    /** Reacts to an enable/keyword change, but only once registration is
        complete: during the instance's own construction the notification is
        dropped (asking for the instance there would re-enter its
        construction), and after destruction it is a no-op. */
    method OnEtwEnableUpdate()
      requires if registrationComplete then Valid() else instance == null && lifecycle != Ready
      modifies this, instance
      decreases if registrationComplete then 4 else 0
      ensures unchanged(this)
      ensures old(registrationComplete) ==> Valid() && instance.etwMatchAnyKeyword == sinkKeyword
      ensures old(registrationComplete) ==>
                instance.categoryFlagRefreshes ==
                old(instance.categoryFlagRefreshes) + (if old(instance.etwMatchAnyKeyword) != sinkKeyword then 1 else 0)
    {
      if registrationComplete {
        var e := GetInstance();
        if e != null {
          var changed := e.UpdateEnabledCategories(sinkKeyword);
        }
      }
    }

    /** Brings the flags in step with the provider's current keyword, creating
        the instance if need be: the callback that a session enabled before
        registration sends is dropped, so this resynchronises. */
    method EnableEtwExport()
      requires Valid()
      modifies this, instance
      ensures Valid()
      ensures sinkEnabled == old(sinkEnabled) && sinkKeyword == old(sinkKeyword) && written == old(written)
      ensures lifecycle == (if old(lifecycle) == Uninitialized then Ready else old(lifecycle))
      ensures instance != null ==> instance.etwMatchAnyKeyword == sinkKeyword
      ensures old(lifecycle) == Uninitialized ==> fresh(instance)
      ensures old(lifecycle) != Uninitialized ==> instance == old(instance)
      // The trace log is notified only when the keyword actually changes.
      ensures old(lifecycle) == Uninitialized ==>
                instance.categoryFlagRefreshes == (if sinkKeyword != 0 then 1 else 0)
      ensures old(lifecycle) == Ready ==>
                instance.categoryFlagRefreshes == old(instance.categoryFlagRefreshes)
                  + (if old(instance.etwMatchAnyKeyword) != sinkKeyword then 1 else 0)
    {
      var e := GetInstance();
      if e != null {
        var changed := e.UpdateEnabledCategories(sinkKeyword);
      }
    }

    /** Exports one event when an instance exists and the provider is enabled.
        The category of the event is not looked at here. */
    method AddEvent(phase: char, name: string, args: seq<TraceArg>)
      requires Valid()
      requires |args| <= ArgValueSlots
      modifies this, instance
      ensures Valid()
      ensures sinkEnabled == old(sinkEnabled) && sinkKeyword == old(sinkKeyword)
      ensures lifecycle == (if old(lifecycle) == Uninitialized then Ready else old(lifecycle))
      ensures old(lifecycle) != Uninitialized ==> instance == old(instance) && (instance != null ==> unchanged(instance))
      ensures old(lifecycle) == Uninitialized ==>
                fresh(instance) && instance.etwMatchAnyKeyword == 0 && instance.categoryFlagRefreshes == 0
      ensures written == old(written) + (if lifecycle == Ready && sinkEnabled then [ExportedEvent(name, phase, args)] else [])
    {
      var e := GetInstance();
      if e == null || !sinkEnabled {
        return;
      }
      var phaseString := PhaseString(phase);
      var values := FormatArgValues(args);
      written := written + [EventRecord(name, phaseString,
                                        if |args| > 0 then args[0].name else "", values[0],
                                        if |args| > 1 then args[1].name else "", values[1],
                                        "", "")];
    }

    /** Exports the record that closes a "Complete" span, under the same
        conditions as AddEvent. */
    method AddCompleteEndEvent(name: string)
      requires Valid()
      modifies this, instance
      ensures Valid()
      ensures sinkEnabled == old(sinkEnabled) && sinkKeyword == old(sinkKeyword)
      ensures lifecycle == (if old(lifecycle) == Uninitialized then Ready else old(lifecycle))
      ensures old(lifecycle) != Uninitialized ==> instance == old(instance) && (instance != null ==> unchanged(instance))
      ensures old(lifecycle) == Uninitialized ==>
                fresh(instance) && instance.etwMatchAnyKeyword == 0 && instance.categoryFlagRefreshes == 0
      ensures written == old(written) + (if lifecycle == Ready && sinkEnabled then [CompleteEndEvent(name)] else [])
    {
      var e := GetInstance();
      if e == null || !sinkEnabled {
        return;
      }
      written := written + [CompleteEndEvent(name)];
    }

    /** Whether any category of a comma-separated group is exported. Never
        creates the instance: without one, or with the provider disabled, the
        answer is no. Tokens are tried in order and the first enabled one
        decides. */
    method IsCategoryGroupEnabled(categoryGroupName: string) returns (enabled: bool)
      requires Valid()
      requires categoryGroupName != ""
      ensures enabled <==>
                && instance != null
                && sinkEnabled
                && GroupEnabledBy(instance.etwMatchAnyKeyword, categoryGroupName)
    {
      var e := instance;
      if e == null {
        return false;
      }
      if !sinkEnabled {
        return false;
      }
      var tokens := Tokens(categoryGroupName);
      for k := 0 to |tokens|
        invariant forall j :: 0 <= j < k ==> !CategoryEnabledBy(e.etwMatchAnyKeyword, tokens[j])
      {
        var tokenEnabled := e.IsCategoryEnabled(tokens[k]);
        if tokenEnabled {
          return true;
        }
      }
      return false;
    }

    /** The instance's destructor: unregisters the provider and clears the
        registration-complete flag, so that a late callback does nothing. */
    method DestroyInstance()
      requires Valid() && lifecycle == Ready
      modifies this
      ensures Valid() && lifecycle == Destroyed && instance == null
      ensures !registrationComplete && !providerRegistered
      ensures sinkEnabled == old(sinkEnabled) && sinkKeyword == old(sinkKeyword) && written == old(written)
    {
      providerRegistered := false;
      registrationComplete := false;
      instance := null;
      lifecycle := Destroyed;
    }
  }
}
