/**
 * One drive-motor channel of the firmware: a direction pin, a PWM pin and a
 * brake pin. `setSpeed` clamps the requested duty cycle, switches direction
 * when the sign asks for the other one (releasing the brake), and otherwise
 * engages the brake when braking is enabled. Pin levels and the last PWM
 * duty written are kept as fields; HIGH is `true`.
 */
module Motor {

  /** An 8-bit pin number (`uint8_t`). */
  type PinNumber = x: int | 0 <= x < 256

  const MaxPwm := 255

  /** The mutable part of a channel: direction and brake flags and what the pins output. */
  datatype Channel = Channel(reverse: bool, brake: bool, dirHigh: bool, brakeHigh: bool, pwm: nat)

  /** What holds of every channel the constructor or setSpeed leaves behind. */
  predicate Consistent(c: Channel, brakeEnabled: bool) {
    (c.brake ==> brakeEnabled) &&
    (c.dirHigh <==> !c.reverse) &&
    (c.brakeHigh <==> c.brake) &&
    c.pwm <= MaxPwm
  }

  /** The requested duty cycle bounded to `[-255, 255]`. */
  function Clamp(v: int): (r: int)
    ensures -MaxPwm <= r <= MaxPwm
    ensures -MaxPwm <= v <= MaxPwm ==> r == v
    ensures v > MaxPwm ==> r == MaxPwm
    ensures v < -MaxPwm ==> r == -MaxPwm
  {
    if v > MaxPwm then MaxPwm else if v < -MaxPwm then -MaxPwm else v
  }

  function Abs(v: int): nat {
    if v < 0 then -v else v
  }

  /** The channel state right after the four-argument constructor. */
  function Initial(brakeEnabled: bool): (c: Channel)
    ensures Consistent(c, brakeEnabled)
    ensures !c.reverse && c.dirHigh
    ensures c.brake <==> brakeEnabled
  {
    Channel(false, brakeEnabled, true, brakeEnabled, 0)
  }

  /** The effect of `setSpeed(v)` on a channel, branch by branch as the firmware takes them. */
  function SpeedUpdate(c: Channel, brakeEnabled: bool, v: int): (r: Channel)
    ensures Consistent(c, brakeEnabled) ==> Consistent(r, brakeEnabled)
    ensures r.pwm == Abs(Clamp(v))
  {
    var p := Clamp(v);
    if p > 0 && c.reverse then
      c.(dirHigh := true, reverse := false,
         brakeHigh := if c.brake then false else c.brakeHigh,
         brake := false, pwm := Abs(p))
    else if p < 0 && !c.reverse then
      c.(dirHigh := false, reverse := true,
         brakeHigh := if c.brake then false else c.brakeHigh,
         brake := false, pwm := Abs(p))
    else if brakeEnabled && !c.brake then
      c.(brakeHigh := true, brake := true, pwm := Abs(p))
    else
      c.(pwm := Abs(p))
  }

  /** A positive speed while reversed turns the motor forward and releases the brake. */
  lemma ForwardSwitch(c: Channel, brakeEnabled: bool, v: int)
    requires Consistent(c, brakeEnabled)
    requires v > 0 && c.reverse
    ensures var r := SpeedUpdate(c, brakeEnabled, v);
            !r.reverse && r.dirHigh && !r.brake && !r.brakeHigh && r.pwm == Abs(Clamp(v))
  {
  }

  /** A negative speed while going forward turns the motor round and releases the brake. */
  lemma ReverseSwitch(c: Channel, brakeEnabled: bool, v: int)
    requires Consistent(c, brakeEnabled)
    requires v < 0 && !c.reverse
    ensures var r := SpeedUpdate(c, brakeEnabled, v);
            r.reverse && !r.dirHigh && !r.brake && !r.brakeHigh && r.pwm == Abs(Clamp(v))
  {
  }

  /**
   * Every call that does not change direction (zero, or a repeat of the
   * current direction) keeps the direction and leaves the brake engaged
   * exactly when braking is enabled or it already was.
   */
  lemma NoSwitchBrakes(c: Channel, brakeEnabled: bool, v: int)
    requires Consistent(c, brakeEnabled)
    requires !(v > 0 && c.reverse) && !(v < 0 && !c.reverse)
    ensures var r := SpeedUpdate(c, brakeEnabled, v);
            r.reverse == c.reverse && r.dirHigh == c.dirHigh &&
            (r.brake <==> brakeEnabled) && r.brakeHigh == r.brake
  {
  }

  /** Driving forward straight after construction leaves the brake on while PWM is applied. */
  lemma FirstForwardKeepsBrake(v: int)
    requires v > 0
    ensures var r := SpeedUpdate(Initial(true), true, v);
            r.brake && r.brakeHigh && !r.reverse && r.pwm == Abs(Clamp(v)) && r.pwm > 0
  {
  }

  /** Repeating a reverse command engages the brake although the motor is being driven. */
  lemma RepeatedReverseBrakes(v: int)
    requires v < 0
    ensures var once := SpeedUpdate(Initial(true), true, v);
            var twice := SpeedUpdate(once, true, v);
            !once.brake && twice.brake && twice.reverse && twice.pwm == Abs(Clamp(v)) && twice.pwm > 0
  {
  }

  /**
   * The three-argument constructor as written: its body constructs a
   * temporary four-argument controller and discards it. The temporary does
   * drive the given direction pin HIGH and the brake pin HIGH, but the
   * object's own members keep whatever indeterminate values they held
   * (`leftover`).
   */
  function ThreeArgStateAsWritten(leftover: Channel): Channel {
    leftover
  }

  /** Leftover values need not describe any consistent channel. */
  lemma ThreeArgMayBeInconsistent()
    ensures var c := ThreeArgStateAsWritten(Channel(true, false, true, false, 0));
            !Consistent(c, true) && !Consistent(c, false) && c != Initial(true)
  {
  }

  class MotorController {
    const dirPin: PinNumber
    const pwmPin: PinNumber
    const brkPin: PinNumber
    const brakeEnabled: bool

    var reverse: bool
    var brake: bool
    /** Level written to the direction pin. */
    var dirHigh: bool
    /** Level written to the brake pin. */
    var brakeHigh: bool
    /** Last duty cycle written to the PWM pin; 0 before the first setSpeed. */
    var pwm: nat

    function State(): Channel
      reads this
    {
      Channel(reverse, brake, dirHigh, brakeHigh, pwm)
    }

    ghost predicate Valid()
      reads this
    {
      Consistent(State(), brakeEnabled)
    }

    /** The four-argument constructor: forward direction, brake engaged exactly when braking is enabled. */
    constructor (dir: PinNumber, pwmOut: PinNumber, brk: PinNumber, brkEnabled: bool)
      ensures Valid()
      ensures dirPin == dir && pwmPin == pwmOut && brkPin == brk && brakeEnabled == brkEnabled
      ensures State() == Initial(brkEnabled)
    {
      dirPin := dir;
      pwmPin := pwmOut;
      brkPin := brk;
      brakeEnabled := brkEnabled;
      dirHigh := true;
      reverse := false;
      if brkEnabled {
        brakeHigh := true;
        brake := true;
      } else {
        brakeHigh := false;
        brake := false;
      }
      pwm := 0;
    }

    /** The three-argument constructor as intended: the four-argument one with braking enabled. */
    constructor WithBrake(dir: PinNumber, pwmOut: PinNumber, brk: PinNumber)
      ensures Valid() && brakeEnabled
      ensures dirPin == dir && pwmPin == pwmOut && brkPin == brk
      ensures State() == Initial(true) && brake && brakeHigh && !reverse
    {
      dirPin := dir;
      pwmPin := pwmOut;
      brkPin := brk;
      brakeEnabled := true;
      dirHigh := true;
      reverse := false;
      brakeHigh := true;
      brake := true;
      pwm := 0;
    }

    method SetSpeed(pwmValue: int)
      requires Valid()
      modifies this
      ensures Valid()
      ensures State() == SpeedUpdate(old(State()), brakeEnabled, pwmValue)
    {
      var p := pwmValue;
      if p > MaxPwm {
        p := MaxPwm;
      } else if p < -MaxPwm {
        p := -MaxPwm;
      }

      if p > 0 && reverse {
        dirHigh := true;
        reverse := false;
        if brake {
          brakeHigh := false;
          brake := false;
        }
      } else if p < 0 && !reverse {
        dirHigh := false;
        reverse := true;
        if brake {
          brakeHigh := false;
          brake := false;
        }
      } else if brakeEnabled && !brake {
        brakeHigh := true;
        brake := true;
      }

      pwm := Abs(p);
    }
  }
}
