/**
 * The offset settings form of the control page: two text inputs (motor
 * dead-zone offset and steering trim) and an update button. Each input's
 * `keyup input` handler re-evaluates both values and enables or disables the
 * button; the button's click handler sends the motor offset and then the
 * steering offset as settings changes, unless it is disabled.
 */
module SettingsForm {
  import opened Strings

  const MaxMotorOffset := 250
  const MaxSteerOffset := 100

  /** JavaScript's `Number(v)` for a string the pattern `/^[0-9]+$/` accepted. */
  function JsNumber(v: string): int
    requires IsDigits(v)
  {
    DigitsValue(v)
  }

  /**
   * The handlers' condition for disabling the button, term by term as the
   * page writes it; the numeric comparisons are only reached once both
   * values matched the pattern.
   */
  function UpdateDisabled(val1: string, val2: string): (disabled: bool)
    ensures !disabled <==> IsDigits(val1) && IsDigits(val2) &&
                           DigitsValue(val1) <= MaxMotorOffset && DigitsValue(val2) <= MaxSteerOffset
  {
    !IsDigits(val1) || !IsDigits(val2) ||
    JsNumber(val1) > MaxMotorOffset || JsNumber(val1) < 0 ||
    JsNumber(val2) > MaxSteerOffset || JsNumber(val2) < -MaxSteerOffset
  }

  /** An empty field disables the button: the pattern needs at least one digit. */
  lemma EmptyFieldDisables(val: string)
    ensures UpdateDisabled("", val) && UpdateDisabled(val, "")
  {
  }

  /** A negative steering trim is always refused, because the pattern has no '-'. */
  lemma NegativeSteerDisables(val1: string, n: nat)
    ensures UpdateDisabled(val1, "-" + NatToString(n))
  {
    assert !IsDigit(("-" + NatToString(n))[0]);
  }

  /** Every offset within range written in plain digits is accepted, the trim from 0 to 100 only. */
  lemma InRangeAccepted(motor: nat, steer: nat)
    requires motor <= MaxMotorOffset && steer <= MaxSteerOffset
    ensures !UpdateDisabled(NatToString(motor), NatToString(steer))
  {
    NatToStringRoundTrip(motor);
    NatToStringRoundTrip(steer);
  }

  /** One settings change sent to `/settings`. */
  datatype SettingsRequest = SettingsRequest(kind: string, value: string)

  class OffsetForm {
    /** Text of the motor-offset input. */
    var motorOffset: string
    /** Text of the steering-offset input. */
    var steerOffset: string
    /** Whether the update button carries the `disabled` class. */
    var updateDisabled: bool

    /** The button state agrees with the current inputs, as every handler leaves it. */
    ghost predicate Synced()
      reads this
    {
      updateDisabled == UpdateDisabled(motorOffset, steerOffset)
    }

    /** The page as loaded: input texts and button state come from the HTML. */
    constructor (motor: string, steer: string, disabled: bool)
      ensures motorOffset == motor && steerOffset == steer && updateDisabled == disabled
    {
      motorOffset := motor;
      steerOffset := steer;
      updateDisabled := disabled;
    }

    /** The motor-offset input's handler, run after its text became `text`. */
    method MotorOffsetInput(text: string)
      modifies this
      ensures motorOffset == text && steerOffset == old(steerOffset)
      ensures Synced()
    {
      motorOffset := text;
      var val1 := motorOffset;
      var val2 := steerOffset;
      updateDisabled := UpdateDisabled(val1, val2);
    }

    /** The steering-offset input's handler: the same check as the motor-offset one. */
    method SteerOffsetInput(text: string)
      modifies this
      ensures steerOffset == text && motorOffset == old(motorOffset)
      ensures Synced()
    {
      steerOffset := text;
      var val1 := motorOffset;
      var val2 := steerOffset;
      updateDisabled := UpdateDisabled(val1, val2);
    }

    /**
     * The update button's click handler: nothing while disabled, otherwise
     * the motor offset and then the steering offset. After a handler has
     * run, only values passing the check are sent.
     */
    method UpdateClicked() returns (sent: seq<SettingsRequest>)
      ensures updateDisabled ==> sent == []
      ensures !updateDisabled ==>
                sent == [SettingsRequest("motorOff", motorOffset), SettingsRequest("steerOff", steerOffset)]
      ensures Synced() && sent != [] ==>
                IsDigits(motorOffset) && IsDigits(steerOffset) &&
                DigitsValue(motorOffset) <= MaxMotorOffset && DigitsValue(steerOffset) <= MaxSteerOffset
    {
      sent := [];
      if !updateDisabled {
        var val1 := motorOffset;
        var val2 := steerOffset;
        sent := sent + [SettingsRequest("motorOff", val1)];
        sent := sent + [SettingsRequest("steerOff", val2)];
      }
    }
  }
}
