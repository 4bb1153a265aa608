/** The wireless tuning channel of main/ble.c: the activation toggle, the
    proportional-gain payload parser, the GATT characteristic table and the
    re-advertising decision of the GAP event handler.

    The attribute buffer is a sequence of characters.  `update_kp` reads the
    first `WindowSize` bytes whatever the received length is, so its callers
    must provide at least that many. */
module Ble {
  import opened Wrappers

  /** SIZEOF_RDATA: the number of payload bytes `update_kp` inspects. */
  const WindowSize: nat := 12
  /** PKT_DELIMETER */
  const Delimiter: char := ';'
  const Nul: char := '\0'

  /** The process-wide globals of main/globals.h that the tuning task writes
      and the control loop reads: the three gains and the activation flag. */
  datatype Tuning = Tuning(kp: real, kd: real, ki: real, controlActive: bool)

  // ---------------------------------------------------------------------------
  // Activation toggle
  // ---------------------------------------------------------------------------

  /** `toggle_control`: only the first byte is compared; `'1'` switches the
      control loop on, `'0'` switches it off, anything else is ignored. */
  function ToggleControl(t: Tuning, data: seq<char>): (r: Tuning)
    requires |data| >= 1
    ensures data[0] == '1' ==> r.controlActive
    ensures data[0] == '0' ==> !r.controlActive
    ensures data[0] != '1' && data[0] != '0' ==> r == t
    ensures r.kp == t.kp && r.kd == t.kd && r.ki == t.ki
  {
    if data[0] == '1' then t.(controlActive := true)
    else if data[0] == '0' then t.(controlActive := false)
    else t
  }

  // ---------------------------------------------------------------------------
  // Proportional-gain payload
  // ---------------------------------------------------------------------------

  predicate IsDigit(c: char) {
    '0' <= c <= '9'
  }

  predicate AllDigits(s: seq<char>) {
    forall i :: 0 <= i < |s| ==> IsDigit(s[i])
  }

  /** The value of a run of decimal digits, most significant first. */
  function Decimal(s: seq<char>): nat
    requires AllDigits(s)
  {
    if |s| == 0 then 0
    else Decimal(s[..|s| - 1]) * 10 + ((s[|s| - 1] as int) - ('0' as int))
  }

  /** `k` is the position of the first delimiter inside the window. */
  predicate FirstDelimiterAt(data: seq<char>, k: nat) {
    && k < WindowSize <= |data|
    && data[k] == Delimiter
    && forall j :: 0 <= j < k ==> data[j] != Delimiter
  }

  /** The first scan of `update_kp`: the position of the first delimiter at
      or after `from` inside the window, if any. */
  function FindDelimiter(data: seq<char>, from: nat): (r: Option<nat>)
    requires WindowSize <= |data| && from <= WindowSize
    ensures r.Some? ==> from <= r.value < WindowSize && data[r.value] == Delimiter
    ensures r.Some? ==> forall j :: from <= j < r.value ==> data[j] != Delimiter
    ensures r.None? ==> forall j :: from <= j < WindowSize ==> data[j] != Delimiter
    decreases WindowSize - from
  {
    if from == WindowSize then None
    else if data[from] == Delimiter then Some(from)
    else FindDelimiter(data, from + 1)
  }

  /** The longest prefix of `s` without a NUL: what `strtof` and the digit
      check see of a NUL-terminated buffer. */
  function UntilNul(s: seq<char>): (r: seq<char>)
    ensures |r| <= |s| && r == s[..|r|]
    ensures forall j :: 0 <= j < |r| ==> r[j] != Nul
    ensures |r| < |s| ==> s[|r|] == Nul
    ensures forall j :: 0 <= j < |s| && s[j] == Nul ==> |r| <= j
  {
    if |s| == 0 || s[0] == Nul then []
    else [s[0]] + UntilNul(s[1..])
  }

  /** The gain an accepted payload carries, or None when `update_kp`
      returns without writing: no delimiter in the window, empty content, or
      a non-digit before the first NUL. */
  function ParseKp(data: seq<char>): Option<real>
    requires WindowSize <= |data|
  {
    match FindDelimiter(data, 0)
    case None => None
    case Some(k) =>
      var digits := UntilNul(data[..k]);
      if |digits| == 0 || !AllDigits(digits) then None
      else Some(Decimal(digits) as real)
  }

  /** The shared state after a kp write, as a declarative reference. */
  function ApplyKp(t: Tuning, data: seq<char>): Tuning
    requires WindowSize <= |data|
  {
    match ParseKp(data)
    case Some(v) => t.(kp := v)
    case None => t
  }

  /** The first loop of `update_kp`: the bytes before the first delimiter
      copied into a zeroed buffer of `WindowSize` bytes. */
  method CopyPayload(data: seq<char>) returns (parsed: seq<char>, found: Option<nat>)
    requires WindowSize <= |data|
    ensures found == FindDelimiter(data, 0)
    ensures |parsed| == WindowSize
    ensures found.Some? ==> parsed[..found.value] == data[..found.value]
    ensures found.Some? ==> forall j :: found.value <= j < WindowSize ==> parsed[j] == Nul
  {
    parsed := seq(WindowSize, _ => Nul);
    var i := 0;
    while i < WindowSize
      invariant 0 <= i <= WindowSize && |parsed| == WindowSize
      invariant forall j :: 0 <= j < i ==> data[j] != Delimiter && parsed[j] == data[j]
      invariant forall j :: i <= j < WindowSize ==> parsed[j] == Nul
      invariant FindDelimiter(data, 0) == FindDelimiter(data, i)
    {
      if data[i] == Delimiter {
        assert parsed[..i] == data[..i];
        return parsed, Some(i);
      }
      parsed := parsed[i := data[i]];
      i := i + 1;
    }
    found := None;
  }

  /** `update_kp`, step for step: copy the bytes before the delimiter into a
      zeroed buffer, give up without a delimiter, then validate the buffer up
      to its first NUL and convert it. */
  method UpdateKp(t: Tuning, data: seq<char>) returns (r: Tuning)
    requires WindowSize <= |data|
    ensures r == ApplyKp(t, data)
    ensures r.kd == t.kd && r.ki == t.ki && r.controlActive == t.controlActive
  {
    var parsed, found := CopyPayload(data);
    if found.None? {
      return t;
    }
    var k := found.value;
    var i := 0;
    while i < WindowSize
      invariant 0 <= i <= k
      invariant forall j :: 0 <= j < i ==> parsed[j] != Nul && IsDigit(parsed[j])
    {
      if i == 0 && parsed[i] == Nul {
        assert UntilNul(data[..k]) == [];
        return t;
      }
      if parsed[i] == Nul {
        break;
      }
      if !IsDigit(parsed[i]) {
        assert UntilNul(data[..k])[i] == data[i];
        return t;
      }
      i := i + 1;
    }
    assert parsed[i] == Nul;
    ghost var digits := UntilNul(data[..k]);
    if i < k {
      assert data[..k][i] == parsed[i] == Nul;
    }
    assert digits == data[..i];
    assert parsed[..i] == digits;
    r := t.(kp := Decimal(parsed[..i]) as real);
  }

  /** A payload with no delimiter among the first `WindowSize` bytes never
      changes the gain. */
  lemma NoDelimiterRejected(t: Tuning, data: seq<char>)
    requires WindowSize <= |data|
    requires forall j :: 0 <= j < WindowSize ==> data[j] != Delimiter
    ensures ApplyKp(t, data) == t
  {
    assert FindDelimiter(data, 0).None?;
  }

  /** Empty content: a payload whose first byte is the delimiter or NUL is
      rejected. */
  lemma EmptyContentRejected(t: Tuning, data: seq<char>)
    requires WindowSize <= |data|
    requires data[0] == Delimiter || data[0] == Nul
    ensures ApplyKp(t, data) == t
  {
    match FindDelimiter(data, 0)
    case None =>
    case Some(k) =>
      if k > 0 {
        assert data[..k][0] == Nul;
      }
  }

  /** A non-digit (`.`, `-` and `+` included) before the first NUL of the
      content rejects the payload. */
  lemma NonDigitRejected(t: Tuning, data: seq<char>, k: nat, i: nat)
    requires FirstDelimiterAt(data, k)
    requires i < k && !IsDigit(data[i]) && data[i] != Nul
    requires forall j :: 0 <= j < i ==> data[j] != Nul
    ensures ApplyKp(t, data) == t
  {
    assert FindDelimiter(data, 0) == Some(k);
    var digits := UntilNul(data[..k]);
    assert digits[i] == data[i];
  }

  /** An accepted payload: content of `n` digits (at most 11, since the
      delimiter sits inside the window) ended by the delimiter or a NUL sets
      the gain to their decimal value; nothing else is written. */
  lemma DigitsAccepted(t: Tuning, data: seq<char>, k: nat, n: nat)
    requires FirstDelimiterAt(data, k)
    requires 0 < n <= k && AllDigits(data[..n])
    requires n == k || data[n] == Nul
    ensures n <= WindowSize - 1
    ensures ApplyKp(t, data) == t.(kp := Decimal(data[..n]) as real)
  {
    assert FindDelimiter(data, 0) == Some(k);
    var digits := UntilNul(data[..k]);
    forall j | 0 <= j < n
      ensures data[..k][j] != Nul
    {
      assert IsDigit(data[..n][j]);
    }
    if n < k {
      assert data[..k][n] == Nul;
    }
    assert digits == data[..n];
  }

  /** Worked payload: `"123;"` gives 123. */
  lemma AcceptExample(t: Tuning)
    ensures ApplyKp(t, "123;xxxxxxxx") == t.(kp := 123.0)
  {
    var data := "123;xxxxxxxx";
    DigitsAccepted(t, data, 3, 3);
    assert data[..3] == "123";
    assert Decimal("123") == 123 by {
      assert "123"[..2] == "12" && "12"[..1] == "1" && "1"[..0] == "";
    }
  }

  /** Worked payload: `"1\0x;"` gives 1, the bytes after the NUL are ignored. */
  lemma NulEndsDigitsExample(t: Tuning)
    ensures ApplyKp(t, "1\0x;xxxxxxxx") == t.(kp := 1.0)
  {
    var data := "1\0x;xxxxxxxx";
    DigitsAccepted(t, data, 3, 1);
    assert data[..1] == "1";
    assert Decimal("1") == 1 by {
      assert "1"[..0] == "";
    }
  }

  /** Worked payloads: `"12a;"` (a non-digit) and `"12"` (no delimiter)
      leave the gain alone. */
  lemma RejectExamples(t: Tuning)
    ensures ApplyKp(t, "12a;xxxxxxxx") == t
    ensures ApplyKp(t, "12\0\0\0\0\0\0\0\0\0\0") == t
  {
    NonDigitRejected(t, "12a;xxxxxxxx", 3, 2);
    NoDelimiterRejected(t, "12\0\0\0\0\0\0\0\0\0\0");
  }

  // ---------------------------------------------------------------------------
  // GATT service table
  // ---------------------------------------------------------------------------

  const ServiceUuid: bv16 := 0xB00B
  const ToggleUuid: bv16 := 0xC0C0
  const ReadKpUuid: bv16 := 0xAAAA
  const WriteKpUuid: bv16 := 0xAAA1
  /** Declared in main/ble.h but never registered. */
  const ReadKdUuid: bv16 := 0xBBBB
  const WriteKdUuid: bv16 := 0xBBB1
  const ReadKiUuid: bv16 := 0xCCCC
  const WriteKiUuid: bv16 := 0xCCC1

  datatype Access = Read | Write
  datatype Handler = ToggleHandler | ReadKpHandler | UpdateKpHandler
  datatype Characteristic = Characteristic(uuid: bv16, access: Access, handler: Handler)

  /** `gatt_svcs`: the one primary service and its characteristics. */
  const Characteristics: seq<Characteristic> := [
    Characteristic(ToggleUuid, Write, ToggleHandler),
    Characteristic(ReadKpUuid, Read, ReadKpHandler),
    Characteristic(WriteKpUuid, Write, UpdateKpHandler)
  ]

  /** The handler registered for `uuid` with the given access, if any. */
  function Lookup(table: seq<Characteristic>, uuid: bv16, access: Access): (r: Option<Handler>)
    ensures r.Some? ==> exists i :: 0 <= i < |table| && table[i] == Characteristic(uuid, access, r.value)
    ensures r.None? ==> forall i :: 0 <= i < |table| ==> table[i].uuid != uuid || table[i].access != access
  {
    if |table| == 0 then None
    else if table[0].uuid == uuid && table[0].access == access then Some(table[0].handler)
    else
      var r := Lookup(table[1..], uuid, access);
      assert r.Some? ==> table[1..][0] == table[1];
      if r.Some? then
        (var i :| 0 <= i < |table[1..]| && table[1..][i] == Characteristic(uuid, access, r.value);
         assert table[i + 1] == table[1..][i];
         r)
      else r
  }

  /** A client write to characteristic `uuid`: None when the service has no
      writable characteristic with that UUID, else the globals after its
      handler ran.  No write reaches the derivative or integral gain. */
  function WriteCharacteristic(t: Tuning, uuid: bv16, data: seq<char>): (r: Option<Tuning>)
    requires WindowSize <= |data|
    ensures r.None? <==> uuid != ToggleUuid && uuid != WriteKpUuid
    ensures uuid == ToggleUuid ==> r == Some(ToggleControl(t, data))
    ensures uuid == WriteKpUuid ==> r == Some(ApplyKp(t, data))
    ensures r.Some? ==> r.value.kd == t.kd && r.value.ki == t.ki
  {
    assert Characteristics[0].uuid == ToggleUuid && Characteristics[0].access == Write;
    assert Characteristics[2].uuid == WriteKpUuid && Characteristics[2].access == Write;
    match Lookup(Characteristics, uuid, Write)
    case None => None
    case Some(ToggleHandler) => Some(ToggleControl(t, data))
    case Some(UpdateKpHandler) => Some(ApplyKp(t, data))
    case Some(ReadKpHandler) => None
  }

  // ---------------------------------------------------------------------------
  // GAP events
  // ---------------------------------------------------------------------------

  datatype GapEvent =
    | Connect(status: int)
    | Disconnect
    | AdvertisingComplete
    | OtherEvent(code: int)

  /** `ble_gap_event`: whether the handler starts advertising again. */
  function Readvertises(e: GapEvent): (r: bool)
    ensures r <==> e.Disconnect? || e.AdvertisingComplete? || (e.Connect? && e.status != 0)
    ensures e.Connect? && e.status == 0 ==> !r
    ensures e.OtherEvent? ==> !r
  {
    match e
    case Connect(status) => status != 0
    case Disconnect => true
    case AdvertisingComplete => true
    case OtherEvent(_) => false
  }
}
