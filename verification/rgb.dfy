/** The addressable-LED driver of main/rgb.c and main/rgb.h: the packed colour
    union, the colour-morph state machine and the bit encoder that turns a
    colour into the 24 pulse items the SK6805 LED expects.  The RMT
    peripheral itself is not modelled; the encoder returns the items it would
    transmit, and the clock is the `now` parameter (microseconds). */
module Rgb {
  import opened Wrappers

  // ---------------------------------------------------------------------------
  // Pulse timing
  // ---------------------------------------------------------------------------

  /** The RMT source clock (the 80 MHz APB clock) and its divider. */
  const ApbClockMHz: real := 80.0
  const RmtClockDivider: real := 2.0

  /** A duration in microseconds as a count of RMT ticks, truncated as the
      cast to `uint32_t` does. */
  function DurationTicks(us: real): int {
    (us * ApbClockMHz / RmtClockDivider).Floor
  }

  const T0H: int := DurationTicks(0.3)
  const T0L: int := DurationTicks(0.8)
  const T1H: int := DurationTicks(0.6)
  const T1L: int := DurationTicks(0.2)
  const ResetTicks: int := DurationTicks(80.0)

  const BitsPerChannel: nat := 8
  const ChannelsPerLed: nat := 3
  const BitsPerLed: nat := 24

  /** The timing constants in ticks of the 40 MHz divided clock; a 1 bit has
      a longer high phase than a 0 bit, which is what a receiver samples. */
  lemma PulseTimings()
    ensures BitsPerLed == ChannelsPerLed * BitsPerChannel
    ensures T0H == 12 && T0L == 32 && T1H == 24 && T1L == 8 && ResetTicks == 3200
    ensures T0H < T1H
  {
  }

  // ---------------------------------------------------------------------------
  // The RGB union
  // ---------------------------------------------------------------------------

  /** The `RGB` union on the little-endian target: the 32-bit word `hex`
      whose byte 0 is blue, byte 1 green and byte 2 red; byte 3 belongs to
      no channel. */
  datatype RGB = RGB(hex: bv32) {

    function Blue(): bv8 {
      (hex & 0xFF) as bv8
    }

    function Green(): bv8 {
      ((hex >> 8) & 0xFF) as bv8
    }

    function Red(): bv8 {
      ((hex >> 16) & 0xFF) as bv8
    }

    /** The unused top byte of `hex`. */
    function Top(): bv8 {
      (hex >> 24) as bv8
    }

    /** Writing the `red` member of the union. */
    function WithRed(v: bv8): (c: RGB)
      ensures c.Red() == v && c.Green() == Green() && c.Blue() == Blue() && c.Top() == Top()
    {
      RGB((hex & 0xFF00_FFFF) | ((v as bv32) << 16))
    }

    /** Writing the `green` member of the union. */
    function WithGreen(v: bv8): (c: RGB)
      ensures c.Green() == v && c.Red() == Red() && c.Blue() == Blue() && c.Top() == Top()
    {
      RGB((hex & 0xFFFF_00FF) | ((v as bv32) << 8))
    }

    /** Writing the `blue` member of the union. */
    function WithBlue(v: bv8): (c: RGB)
      ensures c.Blue() == v && c.Red() == Red() && c.Green() == Green() && c.Top() == Top()
    {
      RGB((hex & 0xFFFF_FF00) | (v as bv32))
    }
  }

  /** The word whose channels are the given bytes and whose top byte is 0. */
  function FromChannels(red: bv8, green: bv8, blue: bv8): (c: RGB)
    ensures c.Red() == red && c.Green() == green && c.Blue() == blue && c.Top() == 0
  {
    RGB(((red as bv32) << 16) | ((green as bv32) << 8) | (blue as bv32))
  }

  /** A colour written as a 24-bit HTML constant. */
  predicate Displayable(c: RGB) {
    c.Top() == 0
  }

  /** With zero top bytes, comparing the whole words (as `morph_tick` does)
      is the same as comparing the three channels. */
  lemma HexEqualityIsChannelEquality(a: RGB, b: RGB)
    requires Displayable(a) && Displayable(b)
    ensures a == b <==> a.Red() == b.Red() && a.Green() == b.Green() && a.Blue() == b.Blue()
  {
  }

  /** Decoding a word into channels and packing them again is the identity
      when the top byte is zero. */
  lemma ChannelsRoundTrip(c: RGB)
    requires Displayable(c)
    ensures FromChannels(c.Red(), c.Green(), c.Blue()) == c
  {
  }

  const HotPink: RGB := RGB(0xff2e5b)
  const KuromiPurple: RGB := RGB(0xad31f5)
  const SoraBlue: RGB := RGB(0x34b2fa)
  const EvaGreen: RGB := RGB(0x2ef29d)
  const PikachuYellow: RGB := RGB(0xf2c01b)
  const SunsetOrange: RGB := RGB(0xeb3b00)
  const PlainRed: RGB := RGB(0xff0000)
  const SosoBlack: RGB := RGB(0x000000)

  /** Every named colour has a zero top byte and decodes as its HTML code
      reads: red is the high pair of hex digits, blue the low pair. */
  lemma NamedColours()
    ensures HotPink == FromChannels(0xff, 0x2e, 0x5b)
    ensures KuromiPurple == FromChannels(0xad, 0x31, 0xf5)
    ensures SoraBlue == FromChannels(0x34, 0xb2, 0xfa)
    ensures EvaGreen == FromChannels(0x2e, 0xf2, 0x9d)
    ensures PikachuYellow == FromChannels(0xf2, 0xc0, 0x1b)
    ensures SunsetOrange == FromChannels(0xeb, 0x3b, 0x00)
    ensures PlainRed == FromChannels(0xff, 0x00, 0x00)
    ensures SosoBlack == FromChannels(0x00, 0x00, 0x00)
  {
  }

  // ---------------------------------------------------------------------------
  // Bit encoder
  // ---------------------------------------------------------------------------

  /** One `rmt_item32_t`: a level and a duration for each half of a pulse. */
  datatype Item = Item(level0: nat, duration0: int, level1: nat, duration1: int)

  /** `encode_bit`: a high phase then a low phase; the high phase is the
      longer one exactly when the bit is 1. */
  function EncodeBit(bit: bv8): (r: Item)
    ensures r.level0 == 1 && r.level1 == 0
    ensures bit == 1 <==> r.duration0 > r.duration1
  {
    PulseTimings();
    if bit == 1 then Item(1, T1H, 0, T1L) else Item(1, T0H, 0, T0L)
  }

  /** What a receiver reads from an item: the bit, or None for a pulse that
      is neither shape. */
  function DecodeBit(item: Item): (r: Option<bv8>)
    ensures r.Some? ==> r.value <= 1 && EncodeBit(r.value) == item
  {
    if item == Item(1, T1H, 0, T1L) then Some(1)
    else if item == Item(1, T0H, 0, T0L) then Some(0)
    else None
  }

  /** A receiver reads back the bit an item was encoded from, any byte
      value other than 1 being sent as a 0. */
  lemma EncodeDecodeBit(bit: bv8)
    ensures DecodeBit(EncodeBit(bit)) == Some(if bit == 1 then 1 else 0)
  {
    PulseTimings();
  }

  /** Bit `i` of `b` counting from the most significant one, as the encoder
      extracts it. */
  function MsbBit(b: bv8, i: nat): (r: bv8)
    requires i < 8
    ensures r <= 1
  {
    (b >> (7 - i)) & 1
  }

  /** The eight items of one channel byte, most significant bit first. */
  function ByteItems(b: bv8): (r: seq<Item>)
    ensures |r| == BitsPerChannel
  {
    seq(8, i requires 0 <= i < 8 => EncodeBit(MsbBit(b, i)))
  }

  /** Eight bits, most significant first, packed into a byte. */
  function PackMsbFirst(bits: seq<bv8>): bv8
    requires |bits| == 8
  {
    (bits[0] << 7) | (bits[1] << 6) | (bits[2] << 5) | (bits[3] << 4)
    | (bits[4] << 3) | (bits[5] << 2) | (bits[6] << 1) | bits[7]
  }

  /** The byte eight items carry, or None if some item is not a bit. */
  function DecodeByte(items: seq<Item>): Option<bv8>
    requires |items| == 8
  {
    if forall i :: 0 <= i < 8 ==> DecodeBit(items[i]).Some? then
      Some(PackMsbFirst(seq(8, i requires 0 <= i < 8 => DecodeBit(items[i]).value)))
    else None
  }

  /** Decoding the items of a byte gives the byte back. */
  lemma ByteRoundTrip(b: bv8)
    ensures DecodeByte(ByteItems(b)) == Some(b)
  {
    var items := ByteItems(b);
    var bits := seq(8, i requires 0 <= i < 8 => DecodeBit(items[i]).value);
    forall i | 0 <= i < 8
      ensures DecodeBit(items[i]) == Some(MsbBit(b, i))
    {
      PulseTimings();
    }
    assert bits == seq(8, i requires 0 <= i < 8 => MsbBit(b, i));
  }

  /** A frame of 24 items decoded in the LED's green, red, blue order,
      returned as (red, green, blue). */
  function DecodeFrame(items: seq<Item>): Option<(bv8, bv8, bv8)>
    requires |items| == BitsPerLed
  {
    var green :- DecodeByte(items[..8]);
    var red :- DecodeByte(items[8..16]);
    var blue :- DecodeByte(items[16..]);
    Some((red, green, blue))
  }

  /** The items of a sequence of channel bytes, one byte after the other. */
  function ChannelItems(bytes: seq<bv8>): (r: seq<Item>)
    ensures |r| == 8 * |bytes|
  {
    if |bytes| == 0 then [] else ChannelItems(bytes[..|bytes| - 1]) + ByteItems(bytes[|bytes| - 1])
  }

  /** Three channel bytes give their items one after the other. */
  lemma ThreeChannels(a: bv8, b: bv8, c: bv8)
    ensures ChannelItems([a, b, c]) == ByteItems(a) + ByteItems(b) + ByteItems(c)
  {
    assert [a, b, c][..2] == [a, b];
    assert [a, b][..1] == [a];
    assert [a][..0] == [];
    assert ChannelItems([a]) == ByteItems(a);
    assert ChannelItems([a, b]) == ByteItems(a) + ByteItems(b);
  }

  /** The 24 items of a colour, green byte then red then blue, decode back
      to the colour. */
  lemma FrameRoundTrip(red: bv8, green: bv8, blue: bv8)
    ensures var items := ChannelItems([green, red, blue]);
      && |items| == BitsPerLed
      && items[..8] == ByteItems(green) && items[8..16] == ByteItems(red) && items[16..] == ByteItems(blue)
      && DecodeFrame(items) == Some((red, green, blue))
  {
    var items := ChannelItems([green, red, blue]);
    ThreeChannels(green, red, blue);
    assert items[..8] == ByteItems(green);
    assert items[8..16] == ByteItems(red);
    assert items[16..] == ByteItems(blue);
    ByteRoundTrip(green);
    ByteRoundTrip(red);
    ByteRoundTrip(blue);
  }

  /** One more bit of a byte extends its items by that bit's item. */
  lemma ByteItemsGrow(b: bv8, k: nat)
    requires k < 8
    ensures ByteItems(b)[..k + 1] == ByteItems(b)[..k] + [EncodeBit(MsbBit(b, k))]
  {
  }

  /** The inner loop of `set_led_channels`: the eight items of one channel
      byte appended, most significant bit first. */
  method AppendByte(prefix: seq<Item>, b: bv8) returns (items: seq<Item>)
    ensures items == prefix + ByteItems(b)
  {
    items := prefix;
    var bit := 0;
    while bit < 8
      invariant 0 <= bit <= 8
      invariant items == prefix + ByteItems(b)[..bit]
    {
      var item := EncodeBit(MsbBit(b, bit));
      ByteItemsGrow(b, bit);
      items := items + [item];
      bit := bit + 1;
    }
    assert ByteItems(b)[..8] == ByteItems(b);
  }

  /** The item buffer `set_led_channels` fills before it transmits: 24
      items, green byte then red then blue, each most significant bit
      first.  Decoding the buffer gives the colour back. */
  method LedItems(red: bv8, green: bv8, blue: bv8) returns (items: seq<Item>)
    ensures |items| == BitsPerLed
    ensures items[..8] == ByteItems(green) && items[8..16] == ByteItems(red) && items[16..] == ByteItems(blue)
    ensures DecodeFrame(items) == Some((red, green, blue))
  {
    var colors := [green, red, blue];
    items := [];
    var channel := 0;
    while channel < 3
      invariant 0 <= channel <= 3
      invariant items == ChannelItems(colors[..channel])
    {
      items := AppendByte(items, colors[channel]);
      assert colors[..channel + 1][..channel] == colors[..channel];
      channel := channel + 1;
    }
    assert colors[..3] == colors;
    FrameRoundTrip(red, green, blue);
  }

  // ---------------------------------------------------------------------------
  // Colour morph
  // ---------------------------------------------------------------------------

  /** The `Morph` record; `colors` stands for the caller's colour array,
      `index` and `size` are `uint8_t`. */
  datatype Morph = Morph(
    current: RGB,
    target: RGB,
    step: int,
    lastTick: int,
    colors: seq<RGB>,
    index: nat,
    size: nat)

  /** What `morph_set_sequence` establishes and `morph_tick` relies on. */
  predicate Valid(m: Morph) {
    && 0 < m.size < 256
    && m.size <= |m.colors|
    && m.index < m.size
    && m.step >= 0
  }

  /** All colours the morph holds or can pick are 24-bit codes. */
  predicate AllDisplayable(m: Morph) {
    && Displayable(m.current)
    && Displayable(m.target)
    && forall i :: 0 <= i < |m.colors| ==> Displayable(m.colors[i])
  }

  datatype SetResult = SetResult(code: nat, morph: Option<Morph>)

  /** `morph_set_sequence`: a missing list, a missing morph or an empty list
      is refused with status 1 and nothing changes; otherwise the morph
      starts at the first colour, standing still, with a non-negative step,
      and the status is 0. */
  function SetSequence(m: Option<Morph>, list: Option<seq<RGB>>, size: nat, stepUs: int, now: int): (r: SetResult)
    requires size < 256
    requires list.Some? ==> size <= |list.value|
    ensures list.None? || m.None? || size == 0 ==> r == SetResult(1, m)
    ensures list.Some? && m.Some? && size > 0 ==>
      && r.code == 0
      && r.morph.Some?
      && Valid(r.morph.value)
      && r.morph.value.index == 0
      && r.morph.value.current == r.morph.value.target == list.value[0]
      && r.morph.value.step == (if stepUs < 0 then 0 else stepUs)
      && r.morph.value.lastTick == now
      && r.morph.value.colors == list.value
      && r.morph.value.size == size
  {
    if list.None? || m.None? || size == 0 then SetResult(1, m)
    else
      var step := if stepUs < 0 then 0 else stepUs;
      SetResult(0, Some(Morph(list.value[0], list.value[0], step, now, list.value, 0, size)))
  }

  /** The distance between two channel values. */
  function Dist(a: bv8, b: bv8): nat {
    if a >= b then a as int - b as int else b as int - a as int
  }

  /** Two channel values are at distance zero exactly when they are equal. */
  lemma DistZero(a: bv8, b: bv8)
    ensures Dist(a, b) == 0 <==> a == b
  {
    if a > b {
      assert a as int > b as int;
    } else if a < b {
      assert a as int < b as int;
    }
  }

  /** A distance after one unit of progress, stopping at zero. */
  function Shrink(d: nat): nat {
    if d == 0 then 0 else d - 1
  }

  /** The largest of three distances. */
  function Max3(a: nat, b: nat, c: nat): (r: nat)
    ensures a <= r && b <= r && c <= r
    ensures r == a || r == b || r == c
  {
    var d := if a >= b then a else b;
    if d >= c then d else c
  }

  /** One channel of the blend: a decrement if above the target, then an
      increment if below it.  It stays at the target, and otherwise moves
      toward it without passing it. */
  function StepChannel(c: bv8, t: bv8): (r: bv8)
    ensures c == t ==> r == t
    ensures c != t ==> r != c
    ensures c <= t ==> c <= r <= t
    ensures t <= c ==> t <= r <= c
  {
    var lowered := if c > t then c - 1 else c;
    if lowered < t then lowered + 1 else lowered
  }

  lemma StepDown(c: bv8, t: bv8)
    requires c > t
    ensures Dist(StepChannel(c, t), t) == Dist(c, t) - 1
  {
    assert StepChannel(c, t) == c - 1;
    assert (c - 1) as int == c as int - 1;
  }

  lemma StepUp(c: bv8, t: bv8)
    requires c < t
    ensures Dist(StepChannel(c, t), t) == Dist(c, t) - 1
  {
    assert StepChannel(c, t) == c + 1;
    assert (c + 1) as int == c as int + 1;
  }

  /** A blend step takes exactly one unit off a channel's distance to the
      target, unless it is already there. */
  lemma StepChannelShrinks(c: bv8, t: bv8)
    ensures Dist(StepChannel(c, t), t) == Shrink(Dist(c, t))
  {
    if c > t {
      StepDown(c, t);
    } else if c < t {
      StepUp(c, t);
    }
  }

  /** The blend of `morph_tick`: each channel stepped toward the target,
      the unused top byte kept. */
  function Blend(c: RGB, t: RGB): (r: RGB)
    ensures r.Red() == StepChannel(c.Red(), t.Red())
    ensures r.Green() == StepChannel(c.Green(), t.Green())
    ensures r.Blue() == StepChannel(c.Blue(), t.Blue())
    ensures r.Top() == c.Top()
  {
    c.WithRed(StepChannel(c.Red(), t.Red()))
     .WithGreen(StepChannel(c.Green(), t.Green()))
     .WithBlue(StepChannel(c.Blue(), t.Blue()))
  }

  /** The largest channel distance between the current and target colours. */
  function MaxDist(m: Morph): nat {
    Max3(Dist(m.current.Red(), m.target.Red()),
         Dist(m.current.Green(), m.target.Green()),
         Dist(m.current.Blue(), m.target.Blue()))
  }

  datatype TickResult = TickResult(morph: Morph, led: Option<RGB>)

  /** The target reached: move to the next colour of the list, wrapping
      after the last one. */
  function Advance(m: Morph, now: int): (r: Morph)
    requires Valid(m)
    ensures Valid(r)
    ensures AllDisplayable(m) ==> AllDisplayable(r)
    ensures r.step == m.step && r.colors == m.colors && r.size == m.size
    ensures r.index == m.index + 1 || (r.index == 0 && m.index + 1 == m.size)
    ensures r.target == m.colors[r.index]
    ensures r.current == m.current && r.lastTick == now
  {
    var next := if m.index + 1 >= m.size then 0 else m.index + 1;
    m.(index := next, target := m.colors[next], lastTick := now)
  }

  /** The target not reached: blend one unit toward it. */
  function Approach(m: Morph, now: int): (r: Morph)
    requires Valid(m)
    ensures Valid(r)
    ensures AllDisplayable(m) ==> AllDisplayable(r)
    ensures r.index == m.index && r.target == m.target && r.lastTick == now
    ensures r.step == m.step && r.colors == m.colors && r.size == m.size
    ensures r.current.Top() == m.current.Top()
    ensures r.current.Red() == StepChannel(m.current.Red(), m.target.Red())
    ensures r.current.Green() == StepChannel(m.current.Green(), m.target.Green())
    ensures r.current.Blue() == StepChannel(m.current.Blue(), m.target.Blue())
  {
    m.(current := Blend(m.current, m.target), lastTick := now)
  }

  /** `morph_tick`: nothing before the step time has elapsed; then either
      pick the next colour of the list (when the target is reached) or blend
      every channel one unit toward the target and show the result. */
  function Tick(m: Morph, now: int): (r: TickResult)
    requires Valid(m)
    ensures Valid(r.morph)
    ensures AllDisplayable(m) ==> AllDisplayable(r.morph)
    ensures now - m.lastTick < m.step ==> r == TickResult(m, None)
    ensures now - m.lastTick >= m.step && m.current == m.target ==> r == TickResult(Advance(m, now), None)
    ensures now - m.lastTick >= m.step && m.current != m.target ==>
      r.morph == Approach(m, now) && r.led == Some(r.morph.current)
  {
    if now - m.lastTick < m.step then TickResult(m, None)
    else if m.current.hex == m.target.hex then TickResult(Advance(m, now), None)
    else
      var next := Approach(m, now);
      TickResult(next, Some(next.current))
  }

  /** `now` values at which the step time has elapsed at every call. */
  predicate Elapsing(lastTick: int, step: int, nows: seq<int>) {
    && (|nows| > 0 ==> nows[0] - lastTick >= step)
    && forall i :: 0 < i < |nows| ==> nows[i] - nows[i - 1] >= step
  }

  /** Successive ticks of the LED loop. */
  function Run(m: Morph, nows: seq<int>): (r: Morph)
    requires Valid(m)
    ensures Valid(r)
    decreases |nows|
  {
    if |nows| == 0 then m else Run(Tick(m, nows[0]).morph, nows[1..])
  }

  /** Displayable colours differ exactly when some channel distance is
      non-zero. */
  lemma DistinctHasDistance(c: RGB, t: RGB)
    requires Displayable(c) && Displayable(t)
    ensures c != t <==> Max3(Dist(c.Red(), t.Red()), Dist(c.Green(), t.Green()), Dist(c.Blue(), t.Blue())) > 0
  {
    HexEqualityIsChannelEquality(c, t);
    DistZero(c.Red(), t.Red());
    DistZero(c.Green(), t.Green());
    DistZero(c.Blue(), t.Blue());
  }

  /** Shrinking every distance by one shrinks the largest by one. */
  lemma MaxShrinks(a: nat, b: nat, c: nat)
    ensures Max3(Shrink(a), Shrink(b), Shrink(c)) == Shrink(Max3(a, b, c))
  {
  }

  /** One blend step shrinks the largest channel distance by one. */
  lemma ApproachShrinks(m: Morph, now: int)
    requires Valid(m)
    ensures MaxDist(Approach(m, now)) == Shrink(MaxDist(m))
  {
    var r := Approach(m, now);
    var c := m.current;
    var t := m.target;
    var dr, dg, db := Dist(c.Red(), t.Red()), Dist(c.Green(), t.Green()), Dist(c.Blue(), t.Blue());
    StepChannelShrinks(c.Red(), t.Red());
    StepChannelShrinks(c.Green(), t.Green());
    StepChannelShrinks(c.Blue(), t.Blue());
    MaxShrinks(dr, dg, db);
    assert r.target == t;
  }

  /** One elapsed tick with the target not reached shrinks the largest
      channel distance, which was non-zero, by one. */
  lemma BlendShrinksDistance(m: Morph, now: int)
    requires Valid(m) && AllDisplayable(m)
    requires now - m.lastTick >= m.step && m.current != m.target
    ensures MaxDist(m) > 0
    ensures MaxDist(Tick(m, now).morph) == MaxDist(m) - 1
  {
    DistinctHasDistance(m.current, m.target);
    ApproachShrinks(m, now);
  }

  /** Blending toward a target takes exactly the largest channel distance
      in elapsed ticks: after `k` of them the distance left is `MaxDist - k`,
      the target and list position are unchanged, and the colour reaches
      the target when `k` equals the distance. */
  lemma {:induction false} BlendConverges(m: Morph, nows: seq<int>)
    requires Valid(m) && AllDisplayable(m)
    requires Elapsing(m.lastTick, m.step, nows)
    requires |nows| <= MaxDist(m)
    ensures Run(m, nows).target == m.target && Run(m, nows).index == m.index
    ensures MaxDist(Run(m, nows)) == MaxDist(m) - |nows|
    ensures |nows| == MaxDist(m) ==> Run(m, nows).current == m.target
    decreases |nows|
  {
    if |nows| == 0 {
      DistinctHasDistance(m.current, m.target);
    } else {
      var d := MaxDist(m);
      DistinctHasDistance(m.current, m.target);
      assert m.current != m.target;
      assert nows[0] - m.lastTick >= m.step;
      BlendShrinksDistance(m, nows[0]);
      var next := Tick(m, nows[0]).morph;
      assert MaxDist(next) == d - 1;
      assert Elapsing(next.lastTick, next.step, nows[1..]) by {
        if |nows| > 1 {
          assert nows[1..][0] - next.lastTick == nows[1] - nows[0];
        }
        forall i | 0 < i < |nows[1..]|
          ensures nows[1..][i] - nows[1..][i - 1] >= next.step
        {
          assert nows[1..][i] - nows[1..][i - 1] == nows[i + 1] - nows[i];
        }
      }
      BlendConverges(next, nows[1..]);
    }
  }
}
