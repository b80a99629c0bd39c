# libskiller frame encoder, in Dafny

A model of the frame encoder of `libskiller`, a Rust library that changes
settings on the Skiller Pro+ keyboard over USB. Every setting goes to the
keyboard as one or two fixed 8-byte command frames, sent as USB control writes.

- `codes.dfy` (module `Codes`) holds the settings: `Color`, `Profile`, `Brightness`
  and `PollingRate`. It also holds the `to_skiller_bytes` tables that turn a
  setting into its protocol byte, with the inverse lookups that read a byte back.
- `frames.dfy` (module `Frames`) holds the frame builders. These are
  `switch_profile` and the payloads of `set_color`, `set_brightness`,
  `set_polling_rate` and `set_win_key`. A decoder `Decode` reads any frame back
  as a wire-level `Command`. It is the reference each builder's contract is
  stated against: each builder's frame decodes to the command it was built for, and
  `Decode` accepts only frames some builder produces.
- `session.dfy` (module `Session`) holds the public operations of
  `SkillerProPlus`. Each is a pure function of an oracle `write` that stands
  for `skiller_write`: given a frame, the oracle returns the byte count the USB
  stack reports, or a `UsbError`. An operation returns an `Outcome`: the frames
  it handed to the oracle, in order, and its `Result`. `Transmit` models the
  `?`-chained writes. Writing stops at the first error and returns that error.
  Otherwise the counts are added.
- `results.dfy` (module `Results`) holds `Option` and `Result`.

Two facts stand out. The polling-rate byte is the polling interval in
milliseconds (code × frequency = 1000), which is why the table runs backwards.
The brightness encoding is not injective: `Pulsating{c}` sends the same frame
as `Static{11, c}`, `Cycle` the same as `Static{12, Red}`, and `set_color(c, p)`
the same lighting frame as `Static{10, c}`. `BrightnessPayloadKernel` states
exactly when two lighting frames agree. So no round trip is claimed from
frames back to `Brightness`, only back to the wire-level `Command`.

## Model

| member | source | states |
|---|---|---|
| `Codes.ColorCode` | src/lib.rs:61-73 | every colour byte lies in 0..6 |
| `Codes.ColorOfCode` | src/lib.rs:61-73 | a byte names a colour exactly when it is in 0..6, and the colour it names encodes back to that byte |
| `Codes.ColorCodeBijective` | src/lib.rs:61-73 | the colour table is a bijection: reading byte b gives colour c exactly when c encodes to b |
| `Codes.ColorCodeInjective` | src/lib.rs:61-73 | distinct colours get distinct bytes |
| `Codes.ProfileCode` | src/lib.rs:84-92 | every profile byte lies in 1..3 |
| `Codes.ProfileOfCode` | src/lib.rs:84-92 | a byte names a profile exactly when it is in 1..3, and that profile encodes back to the byte |
| `Codes.ProfileCodeBijective` | src/lib.rs:84-92 | the profile table is a bijection onto 1..3 |
| `Codes.ProfileCodeInjective` | src/lib.rs:84-92 | distinct profiles get distinct bytes |
| `Codes.RateCode` | src/lib.rs:118-127 | the rate byte times the rate's frequency is 1000, so 125→8, 250→4, 500→2 and 1000→1 |
| `Codes.RateOfCode` | src/lib.rs:118-127 | a byte names a rate exactly when it is 1, 2, 4 or 8, and that rate encodes back to the byte |
| `Codes.RateCodeBijective` | src/lib.rs:118-127 | the rate table is a bijection onto {8, 4, 2, 1} |
| `Codes.RateCodeAntitone` | src/lib.rs:118-127 | a higher frequency always gets a strictly smaller byte, so the table is not monotone in frequency |
| `Codes.FlagCode` | src/lib.rs:129-136 | the win-key flag is 0 or 1, and it is 0 exactly when the key is enabled |
| `Codes.FlagOfCode` | src/lib.rs:129-136 | only 0 and 1 read back as a flag, and the flag encodes back to the byte |
| `Codes.FlagCodeBijective` | src/lib.rs:129-136 | the flag encoding is a bijection between booleans and {0, 1} |
| `Frames.Decode` | src/lib.rs:178-287 | a reference reader of the four frame layouts (178-187, 212-233, 248-257, 267, 285-287), with no counterpart in the source: any frame that reads as a command is 8 bytes long, starts with 0x07, and carries that command's type at byte 1 |
| `Frames.SwitchProfile` | src/lib.rs:285-287 | the frame is well formed, of type 0x02, with the given byte at byte 2; it reads as a switch to profile q exactly when the byte is q's code |
| `Frames.ColorPayload` | src/lib.rs:178-187 | the frame is well formed, of type 0x0a, with the profile code at byte 2, and reads as a lighting command for that profile at level 10 with that colour |
| `Frames.BrightnessPayload` | src/lib.rs:212-234 | the frame is well formed, of type 0x0a, with the profile code at byte 2; it reads as Static's own level and colour, as level 11 with the colour for Pulsating, and as level 12 with colour byte 0 for Cycle |
| `Frames.PollingRateFrame` | src/lib.rs:248-257 | the frame is well formed, of type 0x01, carries the rate code at byte 2, and reads back as that rate |
| `Frames.WinKeyFrame` | src/lib.rs:263-269 | the frame is well formed, of type 0x0b, carries the profile code; byte 3 is 0 exactly when the key is enabled; it reads back as that profile and setting |
| `Frames.Encode` | src/lib.rs:178-287 | the frame built for any wire-level command reads back as that same command |
| `Frames.DecodeOnlyEncoded` | src/lib.rs:178-287 | a frame reads as command c exactly when it is the frame built for c, so the decoder accepts nothing the builders do not produce |
| `Frames.EncodeInjective` | src/lib.rs:178-287 | distinct wire-level commands are sent as distinct frames |
| `Frames.Canonical` | src/lib.rs:212-233 | every lighting mode has a Static form that sends the same lighting frame on every profile (Pulsating{c} as Static{11, c}, Cycle as Static{12, Red}), and a Static mode is its own form |
| `Frames.BrightnessPayloadKernel` | src/lib.rs:212-233 | two lighting frames are equal exactly when the profiles are equal and the modes have the same Static form |
| `Frames.BrightnessPayloadCollisions` | src/lib.rs:213-233 | Pulsating{c} sends the frame of Static{11, c}; Cycle sends the frame of Static{12, Red}; Cycle and Pulsating frames never agree |
| `Frames.ColorPayloadIsStaticLevel` | src/lib.rs:178-187 | the set_color payload is the Static{10, c} lighting frame |
| `Session.Transmit` | src/lib.rs:189-194 | frames are written in order and only a prefix is attempted. The result is Ok exactly when every write succeeds, and then all frames were attempted and the counts add up. On an error, the error is the last attempted write's and all earlier writes succeeded |
| `Session.Then` | src/lib.rs:189-194 | a failed first step is returned unchanged; otherwise the attempts are joined and a failed second step's error is returned; the result is Ok exactly when both are, and the counts add |
| `Session.TransmitAppend` | src/lib.rs:236-241 | writing xs then ys is writing xs, then ys only if xs succeeded |
| `Session.TransmitTwo` | src/lib.rs:189-194 | two frames are written as two chained writes: the second is attempted only after the first succeeds, errors pass through, and success returns the sum |
| `Session.SetColor` | src/lib.rs:175-195 | the profile switch is written first, then the colour payload, as two chained writes; every attempted frame is well formed and carries the profile code at byte 2 |
| `Session.SetProfile` | src/lib.rs:200-202 | one write of the profile-switch frame, whose result is returned as is |
| `Session.SetBrightness` | src/lib.rs:209-242 | the profile switch is written first, then the brightness payload, as two chained writes; every attempted frame carries the profile code at byte 2 |
| `Session.SetPollingRate` | src/lib.rs:247-258 | one write of the polling-rate frame, whose result is returned as is |
| `Session.SetWinKey` | src/lib.rs:263-270 | one write of the win-key frame, whose result is returned as is |
| `Session.SetColorExtendsSetProfile` | src/lib.rs:189-192 | set_color behaves as set_profile followed, if that succeeded, by one write of the colour payload |
| `Session.SetBrightnessExtendsSetProfile` | src/lib.rs:236-241 | set_brightness behaves as set_profile followed, if that succeeded, by one write of the brightness payload |
| `Session.SetColorBlueP2` | src/lib.rs:175-195 | when all writes succeed, set_color(Blue, P2) writes [7,2,2,0,0,0,0,0] and then [7,10,2,10,4,0,2,0] |
| `Session.SetBrightnessStaticRed50P1` | src/lib.rs:212-222 | set_brightness(Static{50, Red}, P1) writes [7,10,1,50,4,0,0,0] as its second frame |
| `Session.TwoFrameOperationsWriteDistinctFrames` | src/lib.rs:191-192 | within set_color and set_brightness, the two frames differ |

## Left out

- `SkillerProPlus::new` (src/lib.rs:146-171) is not modelled. It enumerates the USB bus, matches vendor 0x04d9 and product 0xa096, opens the device and detaches the kernel driver from interface 1. All of that is libusb I/O.
- The body of `skiller_write` (src/lib.rs:275-282) is not modelled. It makes a class, interface-recipient, host-to-device control transfer with request 9, value 0x0307, index 1 and the session timeout. The model replaces it with the oracle `write`.
- Session.Oracle is a function of the frame alone. The device's answer to a write can also depend on time and history, and the model does not say how. Within one operation the two frames always differ (`TwoFrameOperationsWriteDistinctFrames`), so the model still lets each write in an operation succeed or fail independently.
- Session.Transmit counts bytes as unbounded naturals, not `usize`. `write_control` reports at most the 8 bytes it was given, so the sum of two counts cannot overflow.
- The `clap` derive attributes, the `Debug`/`PartialOrd`/`Ord` derives, and the commented-out `begin_handshake_profile` and `footer` (src/lib.rs:289-299) are not modelled. The first two only connect the library to other code, and the last two are dead code.
- Nothing is said about concurrent use. The library is single-threaded and does not promise that multi-frame operations are atomic. A failure of the second write leaves the profile switched; the model records this in `attempted`, and the source makes no rollback.
