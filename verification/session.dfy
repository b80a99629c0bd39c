/** The operations of a keyboard session. Each one builds its frames and hands
    them, one after another, to the USB control write; the first failing write
    ends the operation with its error, and otherwise the byte counts add up.
    The control write itself is an oracle: a function from the frame to the
    number of bytes the USB stack reports written, or its error. */
module Session {
  import opened Results
  import opened Codes
  import opened Frames

  /** An error reported by the USB stack (a libusb error code). */
  datatype UsbError = UsbError(code: int)

  type WriteResult = Result<nat, UsbError>

  /** One control write of a frame to the keyboard's interface. */
  type Oracle = Frame -> WriteResult

  /** The frames an operation handed to the oracle, in order, and what the
      operation returned. */
  datatype Outcome = Outcome(attempted: seq<Frame>, result: WriteResult)

  /** The bytes reported written by every write of `frames` that succeeds. */
  function Written(write: Oracle, frames: seq<Frame>): nat
  {
    if |frames| == 0 then 0
    else
      (match write(frames[0]) case Ok(n) => n case Err(_) => 0) + Written(write, frames[1..])
  }

  /** Writes `frames` in order, stopping at the first error, and adds up the
      counts of the writes. */
  function Transmit(write: Oracle, frames: seq<Frame>): (o: Outcome)
    ensures o.attempted <= frames
    ensures forall i | 0 <= i < |o.attempted| - 1 :: write(o.attempted[i]).Ok?
    ensures o.result.Ok? <==> forall i | 0 <= i < |frames| :: write(frames[i]).Ok?
    ensures o.result.Ok? ==> o.attempted == frames && o.result.value == Written(write, frames)
    ensures o.result.Err? ==> 0 < |o.attempted| && o.result == write(o.attempted[|o.attempted| - 1])
    decreases |frames|
  {
    if |frames| == 0 then Outcome([], Ok(0))
    else
      match write(frames[0])
      case Err(e) => Outcome([frames[0]], Err(e))
      case Ok(n) =>
        var rest := Transmit(write, frames[1..]);
        Outcome([frames[0]] + rest.attempted,
                match rest.result case Ok(m) => Ok(n + m) case Err(e) => Err(e))
  }

  /** Runs `second` after `first` unless `first` failed, as the `?` operator
      does, adding the byte counts. */
  function Then(first: Outcome, second: Outcome): (o: Outcome)
    ensures first.result.Err? ==> o == first
    ensures first.result.Ok? ==> o.attempted == first.attempted + second.attempted
    ensures o.result.Ok? <==> first.result.Ok? && second.result.Ok?
    ensures o.result.Ok? ==> o.result.value == first.result.value + second.result.value
    ensures first.result.Ok? && second.result.Err? ==> o.result == second.result
  {
    match first.result
    case Err(_) => first
    case Ok(n) =>
      Outcome(first.attempted + second.attempted,
              match second.result case Ok(m) => Ok(n + m) case Err(e) => Err(e))
  }

  /** Writing a list of frames is writing its first part, then its second. */
  lemma {:induction false} TransmitAppend(write: Oracle, xs: seq<Frame>, ys: seq<Frame>)
    ensures Transmit(write, xs + ys) == Then(Transmit(write, xs), Transmit(write, ys))
    decreases |xs|
  {
    if |xs| == 0 {
      assert xs + ys == ys;
    } else {
      var zs := xs + ys;
      assert zs[0] == xs[0] && zs[1..] == xs[1..] + ys;
      match write(xs[0])
      case Err(_) =>
      case Ok(n) =>
        TransmitAppend(write, xs[1..], ys);
        var rest, tail := Transmit(write, xs[1..]), Transmit(write, ys);
        assert Transmit(write, zs[1..]) == Then(rest, tail);
        match rest.result
        case Err(_) =>
        case Ok(m) =>
          assert [xs[0]] + (rest.attempted + tail.attempted)
              == ([xs[0]] + rest.attempted) + tail.attempted;
    }
  }

  /** Two writes chained by `?`: the second is attempted only when the first
      succeeds; an error is returned as it is; otherwise the counts add up. */
  ghost predicate WrittenInTurn(write: Oracle, first: Frame, second: Frame, o: Outcome)
  {
    match write(first)
    case Err(e) => o == Outcome([first], Err(e))
    case Ok(n) =>
      match write(second)
      case Err(e) => o == Outcome([first, second], Err(e))
      case Ok(m) => o == Outcome([first, second], Ok(n + m))
  }

  /** Two frames handed to `Transmit` are written as two `?`-chained writes. */
  lemma TransmitTwo(write: Oracle, first: Frame, second: Frame)
    ensures WrittenInTurn(write, first, second, Transmit(write, [first, second]))
  {
  }

  // ------------------------------------------------------------ operations

  /** Switches to `profile`, then gives it the colour `color`. */
  function SetColor(write: Oracle, color: Color, profile: Profile): (o: Outcome)
    ensures WrittenInTurn(write, SwitchProfile(ProfileCode(profile)), ColorPayload(color, profile), o)
    ensures forall f <- o.attempted :: WellFormed(f) && f[2] == ProfileCode(profile)
  {
    var p := ProfileCode(profile);
    TransmitTwo(write, SwitchProfile(p), ColorPayload(color, profile));
    Transmit(write, [SwitchProfile(p), ColorPayload(color, profile)])
  }

  function SetProfile(write: Oracle, profile: Profile): (o: Outcome)
    ensures o == Outcome([SwitchProfile(ProfileCode(profile))], write(SwitchProfile(ProfileCode(profile))))
  {
    Transmit(write, [SwitchProfile(ProfileCode(profile))])
  }

  /** Switches to `profile`, then gives it the lighting mode `brightness`. */
  function SetBrightness(write: Oracle, brightness: Brightness, profile: Profile): (o: Outcome)
    ensures WrittenInTurn(write, SwitchProfile(ProfileCode(profile)), BrightnessPayload(brightness, profile), o)
    ensures forall f <- o.attempted :: WellFormed(f) && f[2] == ProfileCode(profile)
  {
    var p := ProfileCode(profile);
    TransmitTwo(write, SwitchProfile(p), BrightnessPayload(brightness, profile));
    Transmit(write, [SwitchProfile(p), BrightnessPayload(brightness, profile)])
  }

  function SetPollingRate(write: Oracle, rate: PollingRate): (o: Outcome)
    ensures o == Outcome([PollingRateFrame(rate)], write(PollingRateFrame(rate)))
  {
    Transmit(write, [PollingRateFrame(rate)])
  }

  function SetWinKey(write: Oracle, enable: bool, profile: Profile): (o: Outcome)
    ensures o == Outcome([WinKeyFrame(enable, profile)], write(WinKeyFrame(enable, profile)))
  {
    Transmit(write, [WinKeyFrame(enable, profile)])
  }

  // ----------------------------------------------------- operation lemmas

  /** Setting a colour begins with exactly what selecting its profile does. */
  lemma SetColorExtendsSetProfile(write: Oracle, color: Color, profile: Profile)
    ensures SetColor(write, color, profile)
            == Then(SetProfile(write, profile), Transmit(write, [ColorPayload(color, profile)]))
  {
  }

  lemma SetBrightnessExtendsSetProfile(write: Oracle, brightness: Brightness, profile: Profile)
    ensures SetBrightness(write, brightness, profile)
            == Then(SetProfile(write, profile), Transmit(write, [BrightnessPayload(brightness, profile)]))
  {
  }

  /** When every write succeeds, `set_color(Blue, P2)` sends these two frames. */
  lemma SetColorBlueP2(write: Oracle)
    requires forall f: Frame :: write(f).Ok?
    ensures SetColor(write, Blue, P2).attempted
            == [[7, 2, 2, 0, 0, 0, 0, 0], [7, 10, 2, 10, 4, 0, 2, 0]]
  {
  }

  /** A red `Static` mode at level 50 on profile 1 sends this lighting frame. */
  lemma SetBrightnessStaticRed50P1(write: Oracle)
    requires forall f: Frame :: write(f).Ok?
    ensures SetBrightness(write, Static(50, Red), P1).attempted[1] == [7, 10, 1, 50, 4, 0, 0, 0]
  {
  }

  /** The two frames of a two-frame operation are distinct, so the oracle
      answers each write independently. */
  lemma TwoFrameOperationsWriteDistinctFrames(color: Color, brightness: Brightness, profile: Profile)
    ensures SwitchProfile(ProfileCode(profile)) != ColorPayload(color, profile)
    ensures SwitchProfile(ProfileCode(profile)) != BrightnessPayload(brightness, profile)
  {
  }
}
