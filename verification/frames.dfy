/** The fixed 8-byte command frames of the keyboard protocol: the builders the
    driver uses, a decoder that reads a frame back as the command it carries,
    and what the decoder reveals about the builders. */
module Frames {
  import opened Results
  import opened Codes

  /** A command frame as handed to the USB stack. */
  type Frame = seq<Byte>

  const FrameLen: nat := 8

  /** Byte 0 of every frame. */
  const Header: Byte := 0x07

  /** Byte 1 of a frame: the command type. */
  const CmdPollingRate: Byte := 0x01
  const CmdSwitchProfile: Byte := 0x02
  const CmdLighting: Byte := 0x0a
  const CmdWinKey: Byte := 0x0b

  /** Byte 3 of a lighting frame for the fixed-level modes. */
  const ColorLevel: Byte := 0x0a
  const PulsatingLevel: Byte := 11
  const CycleLevel: Byte := 12

  /** Byte 4 of every lighting frame. */
  const LightingMarker: Byte := 0x04

  predicate WellFormed(f: Frame)
  {
    |f| == FrameLen && f[0] == Header
  }

  /** What a frame asks the keyboard to do, at the level of the wire: a
      lighting frame carries a raw level byte and a colour, whichever
      `Brightness` it was built from. */
  datatype Command =
    | ProfileSwitch(profile: Profile)
    | Lighting(profile: Profile, level: Byte, color: Color)
    | Polling(rate: PollingRate)
    | WinKey(profile: Profile, enabled: bool)

  function CommandType(c: Command): Byte
  {
    match c
    case ProfileSwitch(_) => CmdSwitchProfile
    case Lighting(_, _, _) => CmdLighting
    case Polling(_) => CmdPollingRate
    case WinKey(_, _) => CmdWinKey
  }

  predicate ZeroFrom(f: Frame, from: nat)
  {
    forall i | from <= i < |f| :: f[i] == 0
  }

  /** Reads a frame as a command, field by field. Frames that no operation of
      the driver builds (wrong length, header, type, unknown codes, non-zero
      padding) read as `None`. */
  function Decode(f: Frame): (r: Option<Command>)
    ensures r.Some? ==> WellFormed(f) && f[1] == CommandType(r.value)
  {
    if |f| != FrameLen || f[0] != Header then None
    else
      var profile, color, rate, flag :=
        ProfileOfCode(f[2]), ColorOfCode(f[6]), RateOfCode(f[2]), FlagOfCode(f[3]);
      if f[1] == CmdSwitchProfile && profile.Some? && ZeroFrom(f, 3) then
        Some(ProfileSwitch(profile.value))
      else if f[1] == CmdLighting && profile.Some? && color.Some?
              && f[4] == LightingMarker && f[5] == 0 && f[7] == 0 then
        Some(Lighting(profile.value, f[3], color.value))
      else if f[1] == CmdPollingRate && rate.Some? && ZeroFrom(f, 3) then
        Some(Polling(rate.value))
      else if f[1] == CmdWinKey && profile.Some? && flag.Some? && ZeroFrom(f, 4) then
        Some(WinKey(profile.value, flag.value))
      else None
  }

  // -------------------------------------------------------------- builders

  /** The profile-switch frame for a raw profile byte. */
  function SwitchProfile(profile: Byte): (f: Frame)
    ensures WellFormed(f) && f[1] == CmdSwitchProfile && f[2] == profile
    ensures Decode(f).Some? <==> ProfileOfCode(profile).Some?
    ensures Decode(f).Some? ==> Decode(f).value == ProfileSwitch(ProfileOfCode(profile).value)
  {
    [Header, CmdSwitchProfile, profile, 0x00, 0x00, 0x00, 0x00, 0x00]
  }

  /** The frame that gives `profile` the colour `color`. */
  function ColorPayload(color: Color, profile: Profile): (f: Frame)
    ensures WellFormed(f) && f[1] == CmdLighting && f[2] == ProfileCode(profile)
    ensures Decode(f) == Some(Lighting(profile, ColorLevel, color))
  {
    [Header, CmdLighting, ProfileCode(profile), ColorLevel, LightingMarker, 0x00, ColorCode(color), 0x00]
  }

  /** The frame that gives `profile` the lighting mode `b`. */
  function BrightnessPayload(b: Brightness, profile: Profile): (f: Frame)
    ensures WellFormed(f) && f[1] == CmdLighting && f[2] == ProfileCode(profile)
    ensures b.Static? ==> Decode(f) == Some(Lighting(profile, b.level, b.color))
    ensures b.Pulsating? ==> Decode(f) == Some(Lighting(profile, PulsatingLevel, b.color))
    ensures b.Cycle? ==> f[6] == 0 && Decode(f) == Some(Lighting(profile, CycleLevel, Red))
  {
    var p := ProfileCode(profile);
    match b
    case Static(level, color) =>
      [Header, CmdLighting, p, level, LightingMarker, 0x00, ColorCode(color), 0x00]
    case Pulsating(color) =>
      [Header, CmdLighting, p, PulsatingLevel, LightingMarker, 0x00, ColorCode(color), 0x00]
    case Cycle =>
      [Header, CmdLighting, p, CycleLevel, LightingMarker, 0x00, 0x00, 0x00]
  }

  function PollingRateFrame(rate: PollingRate): (f: Frame)
    ensures WellFormed(f) && f[1] == CmdPollingRate && f[2] == RateCode(rate)
    ensures Decode(f) == Some(Polling(rate))
  {
    [Header, CmdPollingRate, RateCode(rate), 0x00, 0x00, 0x00, 0x00, 0x00]
  }

  function WinKeyFrame(enable: bool, profile: Profile): (f: Frame)
    ensures WellFormed(f) && f[1] == CmdWinKey && f[2] == ProfileCode(profile)
    ensures f[3] == 0 <==> enable
    ensures Decode(f) == Some(WinKey(profile, enable))
  {
    [Header, CmdWinKey, ProfileCode(profile), FlagCode(enable), 0x00, 0x00, 0x00, 0x00]
  }

  // ------------------------------------------------- decoding and encoding

  /** The frame the driver sends for a wire-level command. */
  function Encode(c: Command): (f: Frame)
    ensures WellFormed(f) && f[1] == CommandType(c)
    ensures Decode(f) == Some(c)
  {
    match c
    case ProfileSwitch(p) => SwitchProfile(ProfileCode(p))
    case Lighting(p, level, color) => BrightnessPayload(Static(level, color), p)
    case Polling(r) => PollingRateFrame(r)
    case WinKey(p, enabled) => WinKeyFrame(enabled, p)
  }

  /** The decoder accepts exactly the frames the driver builds: whatever it
      reads as a command is the frame that command encodes to. */
  lemma DecodeOnlyEncoded(f: Frame, c: Command)
    ensures Decode(f) == Some(c) <==> f == Encode(c)
  {
  }


  lemma EncodeInjective(c: Command, d: Command)
    ensures Encode(c) == Encode(d) <==> c == d
  {
  }

  // ------------------------------------------- what a lighting frame keeps

  /** The `Static` mode that produces the same lighting frame as `b`. */
  function Canonical(b: Brightness): (s: Brightness)
    ensures s.Static?
    ensures b.Static? ==> s == b
    ensures forall p: Profile :: BrightnessPayload(s, p) == BrightnessPayload(b, p)
  {
    match b
    case Static(_, _) => b
    case Pulsating(color) => Static(PulsatingLevel, color)
    case Cycle => Static(CycleLevel, Red)
  }

  /** Two lighting frames are equal exactly when they are for the same
      profile and their modes have the same `Static` form, so the brightness
      encoding is not injective. */
  lemma BrightnessPayloadKernel(a: Brightness, p: Profile, b: Brightness, q: Profile)
    ensures BrightnessPayload(a, p) == BrightnessPayload(b, q) <==> p == q && Canonical(a) == Canonical(b)
  {
  }

  lemma BrightnessPayloadCollisions(c: Color, p: Profile)
    ensures BrightnessPayload(Pulsating(c), p) == BrightnessPayload(Static(PulsatingLevel, c), p)
    ensures BrightnessPayload(Cycle, p) == BrightnessPayload(Static(CycleLevel, Red), p)
    ensures BrightnessPayload(Cycle, p) != BrightnessPayload(Pulsating(c), p)
  {
  }

  /** Setting a colour sends the same frame as a `Static` mode at level 10. */
  lemma ColorPayloadIsStaticLevel(c: Color, p: Profile)
    ensures ColorPayload(c, p) == BrightnessPayload(Static(ColorLevel, c), p)
  {
  }
}
