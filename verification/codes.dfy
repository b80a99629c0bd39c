/** The settings the keyboard understands and the single protocol byte each one
    is sent as (the `ToSkillerBytes` tables of the driver), together with the
    inverse lookups that read a byte back as a setting. */
module Codes {
  import opened Results

  /** One byte of a command frame. */
  type Byte = bv8

  /** The seven LED colours. */
  datatype Color = Red | Green | Blue | Purple | Cyan | Yellow | White

  /** The three on-board profiles. */
  datatype Profile = P1 | P2 | P3

  /** The lighting modes: a fixed colour at a chosen level, a pulsating
      colour, or a cycle through all colours. */
  datatype Brightness =
    | Static(level: Byte, color: Color)
    | Pulsating(color: Color)
    | Cycle

  /** The four polling rates the keyboard accepts. */
  datatype PollingRate = Hz125 | Hz250 | Hz500 | Hz1000

  // ---------------------------------------------------------------- colour

  function ColorCode(c: Color): (b: Byte)
    ensures b < 7
  {
    match c
    case Red => 0
    case Green => 1
    case Blue => 2
    case Purple => 3
    case Cyan => 4
    case Yellow => 5
    case White => 6
  }

  /** Reads a colour byte back; only the seven codes name a colour. */
  function ColorOfCode(b: Byte): (c: Option<Color>)
    ensures c.Some? <==> b < 7
    ensures c.Some? ==> ColorCode(c.value) == b
  {
    if b == 0 then Some(Red)
    else if b == 1 then Some(Green)
    else if b == 2 then Some(Blue)
    else if b == 3 then Some(Purple)
    else if b == 4 then Some(Cyan)
    else if b == 5 then Some(Yellow)
    else if b == 6 then Some(White)
    else None
  }

  /** The colour table is a bijection between the colours and the bytes 0..6. */
  lemma ColorCodeBijective(c: Color, b: Byte)
    ensures ColorOfCode(b) == Some(c) <==> ColorCode(c) == b
  {
  }

  lemma ColorCodeInjective(c: Color, d: Color)
    ensures ColorCode(c) == ColorCode(d) <==> c == d
  {
  }

  // --------------------------------------------------------------- profile

  function ProfileCode(p: Profile): (b: Byte)
    ensures 1 <= b <= 3
  {
    match p
    case P1 => 1
    case P2 => 2
    case P3 => 3
  }

  /** Reads a profile byte back; only 1, 2 and 3 name a profile. */
  function ProfileOfCode(b: Byte): (p: Option<Profile>)
    ensures p.Some? <==> 1 <= b <= 3
    ensures p.Some? ==> ProfileCode(p.value) == b
  {
    if b == 1 then Some(P1)
    else if b == 2 then Some(P2)
    else if b == 3 then Some(P3)
    else None
  }

  lemma ProfileCodeBijective(p: Profile, b: Byte)
    ensures ProfileOfCode(b) == Some(p) <==> ProfileCode(p) == b
  {
  }

  lemma ProfileCodeInjective(p: Profile, q: Profile)
    ensures ProfileCode(p) == ProfileCode(q) <==> p == q
  {
  }

  // ---------------------------------------------------------- polling rate

  /** The nominal frequency of a polling rate, in hertz. */
  function Frequency(r: PollingRate): (hz: nat)
  {
    match r
    case Hz125 => 125
    case Hz250 => 250
    case Hz500 => 500
    case Hz1000 => 1000
  }

  /** The byte the keyboard expects for a polling rate is the polling
      interval in milliseconds, not the frequency. */
  function RateCode(r: PollingRate): (b: Byte)
    ensures b as int * Frequency(r) == 1000
  {
    match r
    case Hz125 => 8
    case Hz250 => 4
    case Hz500 => 2
    case Hz1000 => 1
  }

  /** Reads a polling-rate byte back; only 8, 4, 2 and 1 name a rate. */
  function RateOfCode(b: Byte): (r: Option<PollingRate>)
    ensures r.Some? <==> b in {1, 2, 4, 8}
    ensures r.Some? ==> RateCode(r.value) == b
  {
    if b == 8 then Some(Hz125)
    else if b == 4 then Some(Hz250)
    else if b == 2 then Some(Hz500)
    else if b == 1 then Some(Hz1000)
    else None
  }

  lemma RateCodeBijective(r: PollingRate, b: Byte)
    ensures RateOfCode(b) == Some(r) <==> RateCode(r) == b
  {
  }

  /** A faster rate always gets a smaller code: the table is strictly
      decreasing in frequency, so in particular it is not monotone. */
  lemma RateCodeAntitone(r: PollingRate, s: PollingRate)
    ensures Frequency(r) < Frequency(s) <==> RateCode(s) < RateCode(r)
  {
  }

  // -------------------------------------------------------- win-key flag

  /** The Windows-key flag is inverted: enabling it sends 0. */
  function FlagCode(enable: bool): (b: Byte)
    ensures b <= 1
    ensures b == 0 <==> enable
  {
    match enable
    case true => 0
    case false => 1
  }

  function FlagOfCode(b: Byte): (enable: Option<bool>)
    ensures enable.Some? <==> b <= 1
    ensures enable.Some? ==> FlagCode(enable.value) == b
  {
    if b == 0 then Some(true)
    else if b == 1 then Some(false)
    else None
  }

  lemma FlagCodeBijective(enable: bool, b: Byte)
    ensures FlagOfCode(b) == Some(enable) <==> FlagCode(enable) == b
  {
  }
}
