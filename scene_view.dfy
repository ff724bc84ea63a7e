/** The roster controls of the scene view: one field per die that takes a
    face value from the keyboard, a remove button per die, and an add
    button. Each handler copies the roster, edits the copy and passes it to
    the hook's `setTargetValues`; the functions here return that copy. */
module SceneView {
  import opened Types
  import opened UseSceneProvider

  /** `Number(key)` for the keys a keyboard reports: a digit string reads
      as its decimal value, a blank key as 0, anything else is NaN. */
  datatype KeyNumber = NaN | Num(value: nat)

  predicate IsDigit(c: char) { '0' <= c <= '9' }

  predicate IsBlank(c: char) { c == ' ' || c == '\t' || c == '\n' || c == '\r' }

  /** The value of a string of decimal digits. */
  function DecimalValue(s: string): nat
    requires forall k :: 0 <= k < |s| ==> IsDigit(s[k])
  {
    if s == [] then 0
    else
      assert IsDigit(s[|s| - 1]);
      DecimalValue(s[..|s| - 1]) * 10 + (s[|s| - 1] as int - '0' as int)
  }

  function KeyToNumber(key: string): KeyNumber
  {
    if forall k :: 0 <= k < |key| ==> IsBlank(key[k]) then Num(0)
    else if forall k :: 0 <= k < |key| ==> IsDigit(key[k]) then Num(DecimalValue(key))
    else NaN
  }

  /** What a key press in a die's field leads to: a new roster for
      `setTargetValues`, or the alert. */
  datatype KeyOutcome = Replaced(values: seq<FaceIndex>) | Alert

  /** `onKeyDown` of slot `i`: a key reading as a number from 1 to 6
      replaces that slot's value; any other key raises the alert. */
  function OnKeyDown(roster: seq<FaceIndex>, i: nat, key: string): (r: KeyOutcome)
    requires i < |roster|
    ensures r.Replaced? <==> KeyToNumber(key).Num? && 1 <= KeyToNumber(key).value <= 6
    ensures r.Replaced? ==>
      && |r.values| == |roster| && r.values[i] == KeyToNumber(key).value
      && forall j :: 0 <= j < |roster| && j != i ==> r.values[j] == roster[j]
  {
    var value := KeyToNumber(key);
    if value.Num? && value.value > 0 && value.value <= 6 then Replaced(roster[i := value.value])
    else Alert
  }

  /** For a single-character key, the field takes exactly the digits 1 to
      6. */
  lemma SingleKeyAcceptedIff(roster: seq<FaceIndex>, i: nat, key: string)
    requires i < |roster| && |key| == 1
    ensures OnKeyDown(roster, i, key).Replaced? <==> '1' <= key[0] <= '6'
  {
    if IsDigit(key[0]) {
      assert key[..0] == [];
      assert DecimalValue(key) == key[0] as int - '0' as int;
    }
  }

  /** The remove button of slot `i`: the roster without that slot, the
      others in their order. */
  function RemoveSlot(roster: seq<FaceIndex>, i: nat): (r: seq<FaceIndex>)
    requires i < |roster|
    ensures |r| == |roster| - 1
    ensures forall j :: 0 <= j < i ==> r[j] == roster[j]
    ensures forall j :: i <= j < |r| ==> r[j] == roster[j + 1]
  {
    roster[..i] + roster[i + 1..]
  }

  /** The add button: a die showing 1 appended. */
  function AddSlot(roster: seq<FaceIndex>): (r: seq<FaceIndex>)
    ensures |r| == |roster| + 1 && r[..|roster|] == roster && r[|roster|] == 1
  {
    roster + [1]
  }

  /** The fields take keys only in CONFIG. */
  predicate FieldsEnabled(stage: HookStage)
  {
    stage == Reported(CONFIG)
  }

  /** The remove buttons are shown only in CONFIG and when more than one die
      is left. */
  predicate RemoveShown(stage: HookStage, roster: seq<FaceIndex>)
  {
    stage == Reported(CONFIG) && |roster| > 1
  }

  /** The add button is shown, once the scene is up, while fewer than six
      dice are on the roster, and is enabled only in CONFIG. */
  predicate AddShown(stage: HookStage, roster: seq<FaceIndex>)
  {
    stage != START && |roster| < 6
  }

  predicate AddEnabled(stage: HookStage, roster: seq<FaceIndex>)
  {
    AddShown(stage, roster) && stage == Reported(CONFIG)
  }

  /** A user action on the roster controls. */
  datatype RosterEvent = KeyDown(slot: nat, key: string) | RemoveClick(slot: nat) | AddClick

  /** The roster an action hands to `setTargetValues`, or `None` when the
      control is absent or disabled, or the key is refused. */
  function Handle(stage: HookStage, roster: seq<FaceIndex>, e: RosterEvent): (r: Option<seq<FaceIndex>>)
    ensures r.Some? ==> stage == Reported(CONFIG)
    ensures e.RemoveClick? && r.Some? ==> |roster| > 1 && |r.value| == |roster| - 1
    ensures e.AddClick? && r.Some? ==> |roster| < 6 && |r.value| == |roster| + 1
    ensures e.KeyDown? && r.Some? ==> |r.value| == |roster|
  {
    match e
    case KeyDown(i, key) =>
      if FieldsEnabled(stage) && i < |roster| then
        match OnKeyDown(roster, i, key)
        case Replaced(values) => Some(values)
        case Alert => None
      else None
    case RemoveClick(i) =>
      if RemoveShown(stage, roster) && i < |roster| then Some(RemoveSlot(roster, i)) else None
    case AddClick =>
      if AddEnabled(stage, roster) then Some(AddSlot(roster)) else None
  }

  /** The roster the store holds after each action's new roster is published
      back by the provider. */
  function AfterEvents(stage: HookStage, roster: seq<FaceIndex>, events: seq<RosterEvent>): seq<FaceIndex>
  {
    if events == [] then roster
    else
      var before := AfterEvents(stage, roster, events[..|events| - 1]);
      var next := Handle(stage, before, events[|events| - 1]);
      if next.Some? then next.value else before
  }

  predicate RosterInRange(roster: seq<FaceIndex>)
  {
    1 <= |roster| <= 6
  }

  /** Whatever the user does, a roster of one to six dice stays one of one
      to six dice, and outside CONFIG it does not change at all. */
  lemma {:induction false} EventsKeepRosterInRange(stage: HookStage, roster: seq<FaceIndex>, events: seq<RosterEvent>)
    requires RosterInRange(roster)
    ensures RosterInRange(AfterEvents(stage, roster, events))
    ensures stage != Reported(CONFIG) ==> AfterEvents(stage, roster, events) == roster
  {
    if events != [] {
      EventsKeepRosterInRange(stage, roster, events[..|events| - 1]);
    }
  }
}
