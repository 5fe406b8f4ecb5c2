/** Formatting of a trace event into the string fields of the ETW "ChromeEvent"
    record: the phase code becomes a display string and the argument values go
    into a small fixed set of slots, of which the first two are exported. */
module EventFormat {

  // Phase codes, as defined by the trace event macros.
  const PhaseBegin: char := 'B'
  const PhaseEnd: char := 'E'
  const PhaseComplete: char := 'X'
  const PhaseInstant: char := 'I'
  const PhaseAsyncBegin: char := 'S'
  const PhaseAsyncStepInto: char := 'T'
  const PhaseAsyncStepPast: char := 'p'
  const PhaseAsyncEnd: char := 'F'
  const PhaseNestableAsyncBegin: char := 'b'
  const PhaseNestableAsyncEnd: char := 'e'
  const PhaseNestableAsyncInstant: char := 'n'
  const PhaseFlowBegin: char := 's'
  const PhaseFlowStep: char := 't'
  const PhaseFlowEnd: char := 'f'
  const PhaseMetadata: char := 'M'
  const PhaseCounter: char := 'C'
  const PhaseSample: char := 'P'
  const PhaseCreateObject: char := 'N'
  const PhaseSnapshotObject: char := 'O'
  const PhaseDeleteObject: char := 'D'

  /** The phase codes that have a display name of their own. */
  const NamedPhases: set<char> := {
    PhaseBegin, PhaseEnd, PhaseComplete, PhaseInstant,
    PhaseAsyncBegin, PhaseAsyncStepInto, PhaseAsyncStepPast, PhaseAsyncEnd,
    PhaseNestableAsyncBegin, PhaseNestableAsyncEnd, PhaseNestableAsyncInstant,
    PhaseFlowBegin, PhaseFlowStep, PhaseFlowEnd,
    PhaseMetadata, PhaseCounter, PhaseSample,
    PhaseCreateObject, PhaseSnapshotObject, PhaseDeleteObject
  }

  /** Phase string of the record that closes a "Complete" span. */
  const CompleteEndPhaseString: string := "Complete End"

  /** Number of argument value slots the formatter fills. */
  const ArgValueSlots: nat := 3

  /** The display string of a phase. An unnamed phase is shown as the
      one-character C string {phase, NUL}, which is empty when the phase
      itself is NUL. */
  function PhaseString(phase: char): (s: string)
    ensures phase in NamedPhases <==> |s| > 1
    ensures phase !in NamedPhases && phase != '\0' ==> s == [phase]
    ensures phase == '\0' ==> s == ""
  {
    if phase == PhaseBegin then "Begin"
    else if phase == PhaseEnd then "End"
    else if phase == PhaseComplete then "Complete"
    else if phase == PhaseInstant then "Instant"
    else if phase == PhaseAsyncBegin then "Async Begin"
    else if phase == PhaseAsyncStepInto then "Async Step Into"
    else if phase == PhaseAsyncStepPast then "Async Step Past"
    else if phase == PhaseAsyncEnd then "Async End"
    else if phase == PhaseNestableAsyncBegin then "Nestable Async Begin"
    else if phase == PhaseNestableAsyncEnd then "Nestable Async End"
    else if phase == PhaseNestableAsyncInstant then "Nestable Async Instant"
    else if phase == PhaseFlowBegin then "Phase Flow Begin"
    else if phase == PhaseFlowStep then "Phase Flow Step"
    else if phase == PhaseFlowEnd then "Phase Flow End"
    else if phase == PhaseMetadata then "Phase Metadata"
    else if phase == PhaseCounter then "Phase Counter"
    else if phase == PhaseSample then "Phase Sample"
    else if phase == PhaseCreateObject then "Phase Create Object"
    else if phase == PhaseSnapshotObject then "Phase Snapshot Object"
    else if phase == PhaseDeleteObject then "Phase Delete Object"
    else if phase == '\0' then ""
    else [phase]
  }

  /** A left inverse of PhaseString, used to prove that display strings
      identify their phase: the length of a display name, and for three
      lengths one character of it, tell the named phases apart. */
  function ParsePhase(s: string): (phase: char)
    ensures |s| == 1 ==> phase == s[0]
  {
    if |s| == 0 then '\0'
    else if |s| == 1 then s[0]
    else if |s| == 3 then PhaseEnd
    else if |s| == 5 then PhaseBegin
    else if |s| == 7 then PhaseInstant
    else if |s| == 8 then PhaseComplete
    else if |s| == 9 then PhaseAsyncEnd
    else if |s| == 11 then PhaseAsyncBegin
    else if |s| == 12 then PhaseSample
    else if |s| == 13 then PhaseCounter
    else if |s| == 14 then (if s[6] == 'F' then PhaseFlowEnd else PhaseMetadata)
    else if |s| == 15 then
      (if s[11] == 'I' then PhaseAsyncStepInto
       else if s[11] == 'P' then PhaseAsyncStepPast
       else PhaseFlowStep)
    else if |s| == 16 then PhaseFlowBegin
    else if |s| == 18 then PhaseNestableAsyncEnd
    else if |s| == 19 then (if s[6] == 'C' then PhaseCreateObject else PhaseDeleteObject)
    else if |s| == 20 then PhaseNestableAsyncBegin
    else if |s| == 21 then PhaseSnapshotObject
    else PhaseNestableAsyncInstant
  }

  /** Every phase code, named or not, is recovered from its display string. */
  lemma ParsePhaseString(phase: char)
    ensures ParsePhase(PhaseString(phase)) == phase
  {
  }

  /** A consumer of the exported records can tell every phase apart: no two
      phase codes share a display string. */
  lemma PhaseStringInjective(p: char, q: char)
    requires PhaseString(p) == PhaseString(q)
    ensures p == q
  {
    ParsePhaseString(p);
    ParsePhaseString(q);
  }

  /** The end-of-span record is never mistaken for an event of some phase. */
  lemma CompleteEndIsNotAPhase(phase: char)
    ensures PhaseString(phase) != CompleteEndPhaseString
  {
    ParsePhaseString(phase);
  }

  /** The argument value types of a trace event. */
  datatype ValueType =
    | Bool | Uint | Int | Double | Pointer | String | CopyString
    | Convertable  // an object that serialises itself, expensive to format

  /** One argument of a trace event: its name, its type, and the text the
      argument-value serialiser produces for its value (that serialiser's
      formatting is not part of this model). */
  datatype TraceArg = TraceArg(name: string, valueType: ValueType, json: string)

  /** The eight string fields of one ETW ChromeEvent record, in order. */
  datatype EventRecord = EventRecord(
    name: string, phase: string,
    arg1Name: string, arg1Value: string,
    arg2Name: string, arg2Value: string,
    arg3Name: string, arg3Value: string)

  /** The value text the formatter puts in slot i: empty when there is no
      argument i or when it is convertible. */
  function SlotValue(args: seq<TraceArg>, i: nat): (text: string)
    ensures i < |args| && args[i].valueType != Convertable ==> text == args[i].json
    ensures i >= |args| || args[i].valueType == Convertable ==> text == ""
  {
    if i < |args| && args[i].valueType != Convertable then args[i].json else ""
  }

  /** The name forwarded for argument i: empty when there is no argument i. */
  function SlotName(args: seq<TraceArg>, i: nat): (name: string)
    ensures i < |args| ==> name == args[i].name
    ensures i >= |args| ==> name == ""
  {
    if i < |args| then args[i].name else ""
  }

  /** Fills the value slots one argument at a time. Convertible arguments are
      skipped, which leaves their slot empty. */
  method FormatArgValues(args: seq<TraceArg>) returns (values: seq<string>)
    requires |args| <= ArgValueSlots
    ensures |values| == ArgValueSlots
    ensures forall i :: 0 <= i < |args| && args[i].valueType != Convertable ==> values[i] == args[i].json
    ensures forall i :: 0 <= i < |args| && args[i].valueType == Convertable ==> values[i] == ""
    ensures forall i :: |args| <= i < ArgValueSlots ==> values[i] == ""
  {
    var buffer := new string[ArgValueSlots](_ => "");
    for i := 0 to |args|
      invariant forall j :: 0 <= j < i && args[j].valueType != Convertable ==> buffer[j] == args[j].json
      invariant forall j :: 0 <= j < i && args[j].valueType == Convertable ==> buffer[j] == ""
      invariant forall j :: i <= j < ArgValueSlots ==> buffer[j] == ""
    {
      if args[i].valueType != Convertable {
        buffer[i] := args[i].json;
      }
    }
    values := buffer[..];
  }

  /** The record an event is exported as: its name, its phase string, and the
      names and value texts of its first two arguments. Later arguments and the
      third name/value pair of the record are never filled. */
  function ExportedEvent(name: string, phase: char, args: seq<TraceArg>): (r: EventRecord)
    ensures r.name == name
    ensures |args| == 0 ==> r.arg1Name == "" && r.arg1Value == ""
    ensures |args| <= 1 ==> r.arg2Name == "" && r.arg2Value == ""
    ensures |args| >= 1 ==> r.arg1Name == args[0].name
    ensures |args| >= 2 ==> r.arg2Name == args[1].name
    ensures |args| >= 1 && args[0].valueType == Convertable ==> r.arg1Value == ""
    ensures |args| >= 2 && args[1].valueType == Convertable ==> r.arg2Value == ""
    ensures |args| >= 1 && args[0].valueType != Convertable ==> r.arg1Value == args[0].json
    ensures |args| >= 2 && args[1].valueType != Convertable ==> r.arg2Value == args[1].json
    ensures r.phase == PhaseString(phase)
    // Corollaries of the clause above, by ParsePhaseString and CompleteEndIsNotAPhase.
    ensures ParsePhase(r.phase) == phase
    ensures r.phase != CompleteEndPhaseString
    ensures r.arg3Name == "" && r.arg3Value == ""
  {
    CompleteEndIsNotAPhase(phase);
    ParsePhaseString(phase);
    EventRecord(name, PhaseString(phase),
                SlotName(args, 0), SlotValue(args, 0),
                SlotName(args, 1), SlotValue(args, 1),
                "", "")
  }

  /** The record that closes a "Complete" span: only a name. */
  function CompleteEndEvent(name: string): (r: EventRecord)
    ensures r.name == name && r.phase == CompleteEndPhaseString
    ensures r.arg1Name == r.arg1Value == r.arg2Name == r.arg2Value == r.arg3Name == r.arg3Value == ""
  {
    EventRecord(name, CompleteEndPhaseString, "", "", "", "", "", "")
  }
}
