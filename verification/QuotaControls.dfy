/** The create form's resource controls: number inputs bounded by what the active device has left, as
    it is reported by one quota refresh after another. */
module QuotaControls {
  import opened Prelude
  import opened Binary
  import opened Digits
  import opened Floats
  import opened Conversions

  /** An input element: parseInt of its value, min and max attributes (None is NaN). */
  datatype Control = Control(value: Option<int>, min: Option<int>, max: Option<int>, disabled: bool)

  /** parseInt(x) || fallback: NaN and 0 both fall back. */
  function ParsedOr(x: Option<int>, fallback: int): int {
    if x.None? || x.value == 0 then fallback else x.value
  }

  function MinOf(c: Control): int {
    ParsedOr(c.min, 1)
  }

  function Smaller(a: int, b: int): int { if a <= b then a else b }

  /** configureResourceControl: an insufficient quota only disables the control. */
  function Configured(c: Control, available: int): Control {
    if available >= MinOf(c) then
      c.(max := Some(available), value := Some(Smaller(ParsedOr(c.value, MinOf(c)), available)), disabled := false)
    else c.(disabled := true)
  }

  /** adjustNumber, from a button that is not disabled. */
  function Adjusted(c: Control, change: int): Control {
    var v := ParsedOr(c.value, MinOf(c)) + change;
    if v >= MinOf(c) && (c.max.None? || v <= c.max.value) then c.(value := Some(v)) else c
  }

  /** isWithinDeviceQuota */
  predicate Within(c: Control, value: Option<int>) {
    value.Some? && value.value >= MinOf(c) && (c.max.None? || value.value <= c.max.value)
  }

  datatype Action = Refresh(available: int) | Click(change: int) | Type(value: Option<int>)

  /** A disabled control takes no input from its user. */
  function Act(c: Control, a: Action): Control {
    match a
    case Refresh(available) => Configured(c, available)
    case Click(change) => if c.disabled then c else Adjusted(c, change)
    case Type(value) => if c.disabled then c else c.(value := value)
  }

  function ActAll(c: Control, actions: seq<Action>): Control {
    if actions == [] then c else Act(ActAll(c, actions[..|actions| - 1]), actions[|actions| - 1])
  }

  /** What the last refresh reported. */
  function LastReported(actions: seq<Action>, before: Option<int>): Option<int> {
    if actions == [] then before
    else
      var a := actions[|actions| - 1];
      if a.Refresh? then Some(a.available) else LastReported(actions[..|actions| - 1], before)
  }

  predicate NoTyping(actions: seq<Action>) {
    forall i :: 0 <= i < |actions| ==> !actions[i].Type?
  }

  predicate AlwaysEnough(actions: seq<Action>, min: int) {
    forall i :: 0 <= i < |actions| && actions[i].Refresh? ==> actions[i].available >= min
  }

  /** Enabled, in bounds, and bounded by what was last reported. */
  predicate InBounds(c: Control, reported: int) {
    !c.disabled && c.max == Some(reported) && c.value.Some? && MinOf(c) <= c.value.value <= reported
  }

  /** Main result: while every refresh reports at least the minimum, refreshes and clicks in any order
      keep a value that is in bounds between the minimum and what was last reported. */
  lemma {:induction false} RefreshesAndClicksStayInBounds(c: Control, reported: int, actions: seq<Action>)
    requires InBounds(c, reported) && MinOf(c) >= 1
    requires NoTyping(actions) && AlwaysEnough(actions, MinOf(c))
    ensures LastReported(actions, Some(reported)).Some?
    ensures MinOf(ActAll(c, actions)) == MinOf(c)
    ensures InBounds(ActAll(c, actions), LastReported(actions, Some(reported)).value)
    decreases |actions|
  {
    if actions != [] { RefreshesAndClicksStayInBounds(c, reported, actions[..|actions| - 1]); }
  }

  /** Main result: a click moves the value by exactly its amount if that keeps it in bounds, and does
      nothing otherwise. */
  lemma ClickMovesByItsAmount(c: Control, reported: int, change: int)
    requires InBounds(c, reported) && MinOf(c) >= 1
    ensures var moved := c.value.value + change;
            Act(c, Click(change)) == if MinOf(c) <= moved <= reported then c.(value := Some(moved)) else c
  {
  }

  /** Main result: a refresh that finds the minimum keeps a value that still fits, lowers one that does not
      to what is available, and puts in the minimum for what is no number; one that does not find it
      changes no number. */
  lemma RefreshKeepsWhatFits(c: Control, available: int)
    requires c.value.Some? ==> c.value.value != 0
    ensures var d := Configured(c, available);
            && d.min == c.min
            && (d.disabled <==> available < MinOf(c))
            && if available < MinOf(c) then d.value == c.value && d.max == c.max
               else
                 && d.max == Some(available) && d.value.Some?
                 && d.value.value == if c.value.None? then MinOf(c)
                                     else if c.value.value <= available then c.value.value
                                     else available
  {
  }

  /** The check behind the Create button means what it says: a value it lets through is available. */
  predicate Honest(c: Control, available: int) {
    Within(c, c.value) ==> c.value.value <= available
  }

  /** Main result: after a refresh the check is honest exactly when the device still has the minimum, or
      the value was already out of the old bounds: a refresh that reports less leaves the old maximum
      standing. */
  lemma CheckIsHonestIff(c: Control, available: int)
    ensures Honest(Configured(c, available), available) <==> available >= MinOf(c) || !Within(c, c.value)
  {
  }

  const FRESH_FORM := Control(Some(1), Some(1), Some(30), false)

  /** On the form as it is served, a device without any quota still passes the check. */
  lemma NoQuotaPassesTheCheck()
    ensures !Honest(Configured(FRESH_FORM, 0), 0)
  {
  }

  /** Anything typed keeps the check honest until the next refresh that reports too little. */
  lemma {:induction false} TypedValuesAreChecked(c: Control, reported: int, actions: seq<Action>)
    requires c.max == Some(reported) && AlwaysEnough(actions, MinOf(c))
    ensures MinOf(ActAll(c, actions)) == MinOf(c)
    ensures LastReported(actions, Some(reported)).Some?
    ensures ActAll(c, actions).max == LastReported(actions, Some(reported))
    ensures Honest(ActAll(c, actions), LastReported(actions, Some(reported)).value)
    decreases |actions|
  {
    if actions != [] { TypedValuesAreChecked(c, reported, actions[..|actions| - 1]); }
  }

  // What the form submits.

  /** The number handleFormSubmit reads: a disabled control is missing from the form's data, so the
      default stands in for it, as it does for what is no number, or 0. */
  function Submitted(c: Control, default_: int): int {
    if c.disabled then default_ else ParsedOr(c.value, default_)
  }

  /** The form's last check before it submits. */
  predicate Passes(c: Control, default_: int) {
    Within(c, Some(Submitted(c, default_)))
  }

  /** Main result: after a refresh, a value that is submitted is available, exactly when the device still
      has the minimum, or the default was already out of the old bounds. */
  lemma SubmissionIsHonestIff(c: Control, available: int, default_: int)
    ensures var d := Configured(c, available);
            (Passes(d, default_) ==> Submitted(d, default_) <= available)
            <==> available >= MinOf(c) || !Within(c, Some(default_))
  {
  }

  /** loadDeviceQuota: whole GiB, never negative. */
  function WholeGb(bytes: int): nat {
    if bytes < 0 then 0 else InGi(bytes)
  }

  /** Main result: that is the largest whole number of GiB the device has left. */
  lemma WholeGbIsTheLargest(bytes: int, n: nat)
    ensures bytes >= 0 ==> (n <= WholeGb(bytes) <==> n * 1_073_741_824 <= bytes)
    ensures bytes < 0 ==> WholeGb(bytes) == 0
  {
    if bytes >= 0 { GiDivides(bytes); }
  }

  /** The limit the form submits for memory and storage. */
  function SubmittedLimit(value: nat): string {
    Decimal(value) + "Gi"
  }

  /** The first refresh that finds the minimum brings a control into bounds. */
  lemma RefreshBringsInBounds(c: Control, available: int)
    requires available >= MinOf(c) && ParsedOr(c.value, MinOf(c)) >= MinOf(c)
    ensures InBounds(Configured(c, available), available)
  {
  }

  /** Main result: a control kept in bounds by the quota of a device is submitted as it stands, passes
      the last check, and gives a limit that reads, on the server, as at most the bytes the device had. */
  lemma SubmittedLimitFitsTheDevice(
      f: Rounding, c: Control, actions: seq<Action>, reported: nat, bytes: int, default_: int)
    requires InBounds(c, reported) && MinOf(c) >= 1
    requires NoTyping(actions) && AlwaysEnough(actions, MinOf(c))
    requires LastReported(actions, Some(reported)) == Some(WholeGb(bytes)) && bytes < EXACT_FLOAT_LIMIT
    ensures var d := ActAll(c, actions);
            && Passes(d, default_) && Some(Submitted(d, default_)) == d.value && Submitted(d, default_) >= 1
            && ParseMemory(f, SubmittedLimit(Submitted(d, default_))).Some?
            && ParseMemory(f, SubmittedLimit(Submitted(d, default_))).value <= bytes
  {
    RefreshesAndClicksStayInBounds(c, reported, actions);
    var v := ActAll(c, actions).value.value;
    GbFits(v, bytes);
    ParseGi(f, v);
  }

  lemma GbFits(v: nat, bytes: int)
    requires 1 <= v <= WholeGb(bytes)
    ensures Gi(v) <= bytes && v <= bytes
  {
    GiDivides(bytes);
  }

  /** The page's object: three controls and the Create button. */
  class CreateForm {
    var cpu: Control
    var memory: Control
    var storage: Control
    var submitDisabled: bool

    constructor (cpu: Control, memory: Control, storage: Control)
      ensures this.cpu == cpu && this.memory == memory && this.storage == storage && submitDisabled
    {
      this.cpu, this.memory, this.storage, submitDisabled := cpu, memory, storage, true;
    }

    predicate AllWithin()
      reads this
    {
      Within(cpu, cpu.value) && Within(memory, memory.value) && Within(storage, storage.value)
    }

    method UpdateSubmitButtonState()
      modifies this`submitDisabled
      ensures submitDisabled == !AllWithin()
    {
      submitDisabled := !(Within(cpu, cpu.value) && Within(memory, memory.value) && Within(storage, storage.value));
    }

    /** loadDeviceQuota and configureResourceControls; no device counts as nothing left. The button tells
        the truth about all three resources unless one of them was left with its old bounds. */
    method RefreshDeviceQuota(hasDevice: bool, cpuLeft: int, memoryBytes: int, storageBytes: int)
      modifies this
      ensures var quota := if !hasDevice then (0, 0, 0)
                           else (if cpuLeft < 0 then 0 else cpuLeft, WholeGb(memoryBytes), WholeGb(storageBytes));
              && cpu == Configured(old(cpu), quota.0)
              && memory == Configured(old(memory), quota.1)
              && storage == Configured(old(storage), quota.2)
              && (quota.0 >= MinOf(cpu) && quota.1 >= MinOf(memory) && quota.2 >= MinOf(storage) && !submitDisabled ==>
                    cpu.value.value <= quota.0 && memory.value.value <= quota.1 && storage.value.value <= quota.2)
      ensures submitDisabled == !AllWithin()
    {
      var cores, memoryGb, storageGb := 0, 0, 0;
      if hasDevice {
        cores := if cpuLeft < 0 then 0 else cpuLeft;
        memoryGb, storageGb := WholeGb(memoryBytes), WholeGb(storageBytes);
      }
      cpu := Configure(cpu, cores);
      memory := Configure(memory, memoryGb);
      storage := Configure(storage, storageGb);
      UpdateSubmitButtonState();
    }

    static method Configure(c: Control, available: int) returns (d: Control)
      ensures d == Configured(c, available)
      ensures Honest(d, available) <==> available >= MinOf(c) || !Within(c, c.value)
    {
      d := c;
      var min := ParsedOr(d.min, 1);
      if available >= min {
        d := d.(max := Some(available));
        d := d.(value := Some(Smaller(ParsedOr(d.value, min), available)));
        d := d.(disabled := false);
      } else {
        d := d.(disabled := true);
      }
    }

    /** A +/- click on the cpu control, and the input event it dispatches. */
    method AdjustCpu(change: int)
      requires !cpu.disabled
      modifies this`cpu, this`submitDisabled
      ensures cpu == Act(old(cpu), Click(change))
      ensures cpu != old(cpu) ==> submitDisabled == !AllWithin()
    {
      var min := ParsedOr(cpu.min, 1);
      var newValue := ParsedOr(cpu.value, min) + change;
      if newValue >= min && (cpu.max.None? || newValue <= cpu.max.value) {
        cpu := cpu.(value := Some(newValue));
        UpdateSubmitButtonState();
      }
    }
  }
}
