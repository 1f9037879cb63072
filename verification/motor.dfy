/** The motor command translator of joycar.ts: drive/turn/stop/bias/drivePwm
    turn abstract intents into four PWM channel values, `driveJoyCar` applies the
    side bias and the dead-zone remap, and the result is four I2C writes to the
    PWM controller. The writes are returned, not performed. */
module Motor {
  import opened Scaling
  import opened Car

  /** I2C address of the motor PWM controller, and its first and last channel register. */
  const MotorAddress := 112
  const FirstRegister := 2
  const LastRegister := 5
  /** Full PWM scale, and the smallest value a nonzero channel is remapped to. */
  const PwmMax: real := 255.0
  const DeadZone: real := 80.0

  /** The four raw channel values handed to `driveJoyCar`. Channels 2 and 3 drive
      the right motor (reverse, forward); channels 4 and 5 the left motor. */
  datatype Frame = Frame(ch2: real, ch3: real, ch4: real, ch5: real) {
    function At(reg: int): real
      requires FirstRegister <= reg <= LastRegister
    {
      if reg == 2 then ch2 else if reg == 3 then ch3 else if reg == 4 then ch4 else ch5
    }
  }

  /** One `i2cWriteBuffer` call: the value written to a register of a device. */
  datatype Write = Write(address: int, register: int, value: real)

  /** The register that drives wheel `side` in direction `o`. */
  function RegisterFor(side: LRDirection, o: FRDirection): int
  {
    match (side, o)
    case (Right, Reverse) => 2
    case (Right, Forward) => 3
    case (Left, Reverse) => 4
    case (Left, Forward) => 5
  }

  function Flip(o: FRDirection): FRDirection
  {
    if o == Forward then Reverse else Forward
  }

  function Opposite(side: LRDirection): LRDirection
  {
    if side == LRDirection.Left then LRDirection.Right else LRDirection.Left
  }

  /** The frame drives the left wheel at `left` and the right wheel at `right`
      in direction `o`, and leaves both opposite-direction channels at 0. */
  predicate Routes(f: Frame, o: FRDirection, left: real, right: real)
  {
    && f.At(RegisterFor(LRDirection.Left, o)) == left
    && f.At(RegisterFor(LRDirection.Right, o)) == right
    && f.At(RegisterFor(LRDirection.Left, Flip(o))) == 0.0
    && f.At(RegisterFor(LRDirection.Right, Flip(o))) == 0.0
  }

  /** At most one of the two channels of each wheel is nonzero. */
  predicate Complementary(f: Frame)
  {
    (f.ch2 == 0.0 || f.ch3 == 0.0) && (f.ch4 == 0.0 || f.ch5 == 0.0)
  }

  predicate BiasInRange(s: State)
  {
    0.0 <= s.biasL <= 100.0 && 0.0 <= s.biasR <= 100.0
  }

  /** The bias applying to a register: the right bias for 2 and 3, the left bias for 4 and 5. */
  function BiasOf(reg: int, biasL: real, biasR: real): real
  {
    if reg <= 3 then biasR else biasL
  }

  // ---------------------------------------------------------------------------
  // driveJoyCar: bias and dead-zone remap, then four register writes

  /** One channel of `driveJoyCar`: a positive value is scaled by bias/100 and
      remapped from [0, 255] onto [80, 255]; zero and negative values pass unchanged. */
  function Remap(v: real, bias: real): (r: real)
    ensures v <= 0.0 ==> r == v
    ensures v > 0.0 && bias >= 0.0 ==> r >= DeadZone
    ensures v > 0.0 && bias > 0.0 ==> r > DeadZone
    ensures 0.0 < v <= PwmMax && 0.0 <= bias <= 100.0 ==> r <= PwmMax
    ensures v == PwmMax && bias == 100.0 ==> r == PwmMax
  {
    if v > 0.0 then
      var attenuated := v * (bias / 100.0);
      assert 0.0 < v && 0.0 <= bias ==> attenuated >= 0.0;
      assert 0.0 < v && 0.0 < bias ==> attenuated > 0.0;
      assert 0.0 < v <= PwmMax && 0.0 <= bias <= 100.0 ==> attenuated <= PwmMax by {
        if 0.0 < v <= PwmMax && 0.0 <= bias <= 100.0 {
          assert v * bias <= PwmMax * bias <= PwmMax * 100.0;
        }
      }
      Scale(attenuated, 0.0, PwmMax, DeadZone, PwmMax)
    else
      v
  }

  /** Inverse of `Remap` for a positive bias: recovers the raw channel value from the written one. */
  function Unremap(w: real, bias: real): real
    requires bias != 0.0
  {
    if w > 0.0 then Scale(w, DeadZone, PwmMax, 0.0, PwmMax) * 100.0 / bias else w
  }

  lemma RemapRoundTrip(v: real, bias: real)
    requires bias > 0.0
    ensures Unremap(Remap(v, bias), bias) == v
  {
    if v > 0.0 {
      var attenuated := v * (bias / 100.0);
      ScaleInverse(attenuated, 0.0, PwmMax, DeadZone, PwmMax);
      assert (bias / 100.0) * 100.0 == bias;
      assert attenuated * 100.0 == v * bias;
      Cancel(v, bias);
    }
  }

  /** With a positive bias a larger raw value is written as a strictly larger value. */
  lemma RemapMonotone(a: real, b: real, bias: real)
    requires bias > 0.0 && 0.0 < a < b
    ensures Remap(a, bias) < Remap(b, bias)
  {
    assert a * (bias / 100.0) < b * (bias / 100.0);
    ScaleMonotone(a * (bias / 100.0), b * (bias / 100.0), 0.0, PwmMax, DeadZone, PwmMax);
  }

  /** A side biased by 100 % (stored bias 0) still drives every nonzero channel at the dead-zone floor. */
  lemma FullBiasKeepsFloor(v: real)
    requires v > 0.0
    ensures Remap(v, 0.0) == DeadZone
  {
  }

  /** Four writes to the PWM controller, for registers 2, 3, 4, 5 in that order. */
  predicate WellFormed(w: seq<Write>)
  {
    |w| == 4 && forall i :: 0 <= i < 4 ==> w[i].address == MotorAddress && w[i].register == FirstRegister + i
  }

  /** The value written for wheel `side` in direction `o`. */
  function Written(w: seq<Write>, side: LRDirection, o: FRDirection): real
    requires WellFormed(w)
  {
    w[RegisterFor(side, o) - FirstRegister].value
  }

  function DriveJoyCar(f: Frame, biasL: real, biasR: real): (w: seq<Write>)
    ensures WellFormed(w)
    ensures forall reg :: FirstRegister <= reg <= LastRegister ==>
      w[reg - FirstRegister].value == Remap(f.At(reg), BiasOf(reg, biasL, biasR))
    ensures forall reg :: FirstRegister <= reg <= LastRegister && f.At(reg) == 0.0 ==>
      w[reg - FirstRegister].value == 0.0
    ensures 0.0 <= biasL <= 100.0 && 0.0 <= biasR <= 100.0 ==>
      forall reg :: FirstRegister <= reg <= LastRegister && 0.0 < f.At(reg) <= PwmMax ==>
        DeadZone <= w[reg - FirstRegister].value <= PwmMax
  {
    [ Write(MotorAddress, 2, Remap(f.ch2, biasR)),
      Write(MotorAddress, 3, Remap(f.ch3, biasR)),
      Write(MotorAddress, 4, Remap(f.ch4, biasL)),
      Write(MotorAddress, 5, Remap(f.ch5, biasL)) ]
  }

  /** Reads the raw frame back out of four writes, given the biases in force. */
  function ChannelsOf(w: seq<Write>, biasL: real, biasR: real): Frame
    requires |w| == 4 && biasL != 0.0 && biasR != 0.0
  {
    Frame(Unremap(w[0].value, biasR), Unremap(w[1].value, biasR),
          Unremap(w[2].value, biasL), Unremap(w[3].value, biasL))
  }

  /** With positive biases the writes determine the raw frame: nothing is lost by the remap. */
  lemma DriveJoyCarRoundTrip(f: Frame, biasL: real, biasR: real)
    requires biasL > 0.0 && biasR > 0.0
    ensures ChannelsOf(DriveJoyCar(f, biasL, biasR), biasL, biasR) == f
  {
    RemapRoundTrip(f.ch2, biasR);
    RemapRoundTrip(f.ch3, biasR);
    RemapRoundTrip(f.ch4, biasL);
    RemapRoundTrip(f.ch5, biasL);
  }

  /** A channel left at 0 is written as 0, so a complementary frame stays complementary on the wire. */
  lemma ComplementaryWrites(f: Frame, biasL: real, biasR: real)
    requires Complementary(f)
    ensures var w := DriveJoyCar(f, biasL, biasR);
      (w[0].value == 0.0 || w[1].value == 0.0) && (w[2].value == 0.0 || w[3].value == 0.0)
  {
  }

  // ---------------------------------------------------------------------------
  // The public commands

  /** A speed percentage as a PWM value: 255 * speed / 100, rounded. */
  function Pwm(speed: real): (p: int)
    ensures p as real - 0.5 <= PwmMax * (speed / 100.0) < p as real + 0.5
    ensures 0.0 <= speed <= 100.0 ==> 0 <= p <= 255
  {
    Round(PwmMax * (speed / 100.0))
  }

  /** The frame `drive` hands to `driveJoyCar`: both wheels at the same speed in one direction. */
  function DriveFrame(direction: FRDirection, speed: real): (f: Frame)
    ensures Routes(f, direction, Pwm(speed) as real, Pwm(speed) as real)
    ensures Complementary(f)
  {
    var pwm := Pwm(speed) as real;
    if direction == Forward then Frame(0.0, pwm, 0.0, pwm) else Frame(pwm, 0.0, pwm, 0.0)
  }

  function Drive(s: State, direction: FRDirection, speed: real): (w: seq<Write>)
    ensures WellFormed(w)
    ensures Written(w, LRDirection.Left, Flip(direction)) == 0.0
    ensures Written(w, LRDirection.Right, Flip(direction)) == 0.0
    ensures Pwm(speed) == 0 ==> Written(w, LRDirection.Left, direction) == 0.0
    ensures Pwm(speed) == 0 ==> Written(w, LRDirection.Right, direction) == 0.0
    ensures speed <= 100.0 && Pwm(speed) > 0 && BiasInRange(s) ==>
      DeadZone <= Written(w, LRDirection.Left, direction) <= PwmMax &&
      DeadZone <= Written(w, LRDirection.Right, direction) <= PwmMax
  {
    DriveJoyCar(DriveFrame(direction, speed), s.biasL, s.biasR)
  }

  /** The inner wheel's speed in a turn: 0 for radius level 0 (a pivot), otherwise
      70 % of the outer speed scaled by radius/5. */
  function InnerSpeed(pwm: int, radius: real): (v: real)
    ensures radius <= 0.0 ==> v == 0.0
    ensures 0.0 < radius <= 5.0 && pwm > 0 ==> 0.0 < v < pwm as real
    ensures 0.0 < radius <= 5.0 && pwm >= 0 ==> v <= 0.7 * pwm as real
  {
    if radius > 0.0 then
      var v := (pwm as real * 0.7) * (radius / 5.0);
      // The bounds on this product are nonlinear; the solver needs them stated as a lemma.
      InnerBounds(pwm as real, radius);
      v
    else
      0.0
  }

  lemma InnerBounds(p: real, radius: real)
    requires radius > 0.0
    ensures radius <= 5.0 && p >= 0.0 ==> 0.0 <= (p * 0.7) * (radius / 5.0) <= 0.7 * p
    ensures radius <= 5.0 && p > 0.0 ==> 0.0 < (p * 0.7) * (radius / 5.0) < p
  {
  }

  /** A larger radius level gives a faster inner wheel, so a wider curve. */
  lemma InnerSpeedMonotone(pwm: int, r1: real, r2: real)
    requires pwm > 0 && 0.0 <= r1 < r2
    ensures InnerSpeed(pwm, r1) < InnerSpeed(pwm, r2)
  {
    var k := pwm as real * 0.7;
    ScaleUp(k, r1 / 5.0, r2 / 5.0);
    if r1 == 0.0 {
      assert InnerSpeed(pwm, r1) == 0.0 == k * (r1 / 5.0);
    }
  }

  /** Multiplying by a positive factor preserves strict order. */
  lemma ScaleUp(k: real, x: real, y: real)
    requires k > 0.0 && x < y
    ensures k * x < k * y
  {
    assert k * y - k * x == k * (y - x);
    assert y - x > 0.0;
  }

  /** The frame `turn` hands to `driveJoyCar`: the outer wheel at full speed, the
      wheel on the turning side at the inner speed, both in direction `orientation`. */
  function TurnFrame(orientation: FRDirection, direction: LRDirection, speed: real, radius: real): (f: Frame)
    ensures var pwm := Pwm(speed);
      if direction == LRDirection.Left then Routes(f, orientation, InnerSpeed(pwm, radius), pwm as real)
      else Routes(f, orientation, pwm as real, InnerSpeed(pwm, radius))
  {
    var pwm := Pwm(speed);
    var inner := InnerSpeed(pwm, radius);
    if orientation == Forward then
      if direction == LRDirection.Left then Frame(0.0, pwm as real, 0.0, inner)
      else Frame(0.0, inner, 0.0, pwm as real)
    else
      if direction == LRDirection.Left then Frame(pwm as real, 0.0, inner, 0.0)
      else Frame(inner, 0.0, pwm as real, 0.0)
  }

  function Turn(s: State, orientation: FRDirection, direction: LRDirection, speed: real, radius: real): (w: seq<Write>)
    ensures WellFormed(w)
    ensures Written(w, LRDirection.Left, Flip(orientation)) == 0.0
    ensures Written(w, LRDirection.Right, Flip(orientation)) == 0.0
    ensures radius <= 0.0 ==> Written(w, direction, orientation) == 0.0
    ensures 0.0 < speed <= 100.0 && Pwm(speed) > 0 && BiasInRange(s) ==>
      DeadZone <= Written(w, Opposite(direction), orientation) <= PwmMax
  {
    DriveJoyCar(TurnFrame(orientation, direction, speed, radius), s.biasL, s.biasR)
  }

  /** With equal positive biases, a turn with radius level in (0, 5] writes a
      strictly smaller value for the inner wheel than for the outer wheel. */
  lemma TurnInnerSlower(s: State, orientation: FRDirection, direction: LRDirection, speed: real, radius: real)
    requires s.biasL == s.biasR > 0.0 && Pwm(speed) > 0 && 0.0 < radius <= 5.0
    ensures var w := Turn(s, orientation, direction, speed, radius);
      Written(w, direction, orientation) < Written(w, Opposite(direction), orientation)
  {
    var pwm := Pwm(speed);
    var w := Turn(s, orientation, direction, speed, radius);
    var f := TurnFrame(orientation, direction, speed, radius);
    RemapMonotone(InnerSpeed(pwm, radius), pwm as real, s.biasL);
    assert Written(w, direction, orientation) == Remap(f.At(RegisterFor(direction, orientation)), s.biasL);
    assert Written(w, Opposite(direction), orientation) == Remap(f.At(RegisterFor(Opposite(direction), orientation)), s.biasL);
  }

  /** With positive biases, a turn with a larger radius level writes a strictly
      larger value for the inner wheel: the higher the radius, the wider the curve. */
  lemma TurnWiderWithRadius(s: State, orientation: FRDirection, direction: LRDirection, speed: real, r1: real, r2: real)
    requires s.biasL > 0.0 && s.biasR > 0.0 && Pwm(speed) > 0 && 0.0 <= r1 < r2
    ensures Written(Turn(s, orientation, direction, speed, r1), direction, orientation)
          < Written(Turn(s, orientation, direction, speed, r2), direction, orientation)
  {
    var pwm := Pwm(speed);
    var reg := RegisterFor(direction, orientation);
    var bias := BiasOf(reg, s.biasL, s.biasR);
    InnerSpeedMonotone(pwm, r1, r2);
    var f1 := TurnFrame(orientation, direction, speed, r1);
    var f2 := TurnFrame(orientation, direction, speed, r2);
    assert f1.At(reg) == InnerSpeed(pwm, r1) && f2.At(reg) == InnerSpeed(pwm, r2);
    if InnerSpeed(pwm, r1) > 0.0 {
      RemapMonotone(InnerSpeed(pwm, r1), InnerSpeed(pwm, r2), bias);
    } else {
      assert InnerSpeed(pwm, r2) > 0.0;
    }
  }

  /** The frame `stop` hands to `driveJoyCar`: all zero (intense) or all 255 (soft). */
  function StopFrame(intensity: StopIntensity): (f: Frame)
    ensures intensity == Intense ==> forall reg :: FirstRegister <= reg <= LastRegister ==> f.At(reg) == 0.0
    ensures intensity == Soft ==> forall reg :: FirstRegister <= reg <= LastRegister ==> f.At(reg) == PwmMax
    ensures Complementary(f) <==> intensity == Intense
  {
    if intensity == Intense then Frame(0.0, 0.0, 0.0, 0.0) else Frame(PwmMax, PwmMax, PwmMax, PwmMax)
  }

  function Stop(s: State, intensity: StopIntensity): (w: seq<Write>)
    ensures WellFormed(w)
    ensures intensity == Intense ==> forall i :: 0 <= i < 4 ==> w[i].value == 0.0
    ensures intensity == Soft && BiasInRange(s) ==> forall i :: 0 <= i < 4 ==> DeadZone <= w[i].value <= PwmMax
    ensures intensity == Soft && s.biasL == 100.0 && s.biasR == 100.0 ==> forall i :: 0 <= i < 4 ==> w[i].value == PwmMax
  {
    DriveJoyCar(StopFrame(intensity), s.biasL, s.biasR)
  }

  /** `bias`: the stored multiplier is the inverted percentage, scale(percent, 0, 100, 100, 0). */
  function Bias(s: State, direction: LRDirection, percent: real): (r: State)
    ensures direction == LRDirection.Left ==> r == s.(biasL := 100.0 - percent)
    ensures direction == LRDirection.Right ==> r == s.(biasR := 100.0 - percent)
    ensures BiasInRange(s) && 0.0 <= percent <= 100.0 ==> BiasInRange(r)
  {
    if direction == LRDirection.Left then s.(biasL := Scale(percent, 0.0, 100.0, 100.0, 0.0))
    else s.(biasR := Scale(percent, 0.0, 100.0, 100.0, 0.0))
  }

  /** `drivePwm`: the raw channels go straight to `driveJoyCar`. */
  function DrivePwm(s: State, ch2: real, ch3: real, ch4: real, ch5: real): (w: seq<Write>)
    ensures WellFormed(w)
    ensures w[0].value == Remap(ch2, s.biasR) && w[1].value == Remap(ch3, s.biasR)
    ensures w[2].value == Remap(ch4, s.biasL) && w[3].value == Remap(ch5, s.biasL)
    ensures forall i :: 0 <= i < 4 && Frame(ch2, ch3, ch4, ch5).At(FirstRegister + i) == 0.0 ==> w[i].value == 0.0
    ensures BiasInRange(s) ==> forall i :: 0 <= i < 4 && 0.0 < Frame(ch2, ch3, ch4, ch5).At(FirstRegister + i) <= PwmMax ==>
      DeadZone <= w[i].value <= PwmMax
  {
    DriveJoyCar(Frame(ch2, ch3, ch4, ch5), s.biasL, s.biasR)
  }

  /** The biases a freshly loaded driver starts with are in range, so a soft stop writes 255 everywhere. */
  lemma InitialBias()
    ensures Initial.biasL == 100.0 && Initial.biasR == 100.0 && BiasInRange(Initial)
    ensures forall i :: 0 <= i < 4 ==> Stop(Initial, Soft)[i].value == PwmMax
  {
  }
}
