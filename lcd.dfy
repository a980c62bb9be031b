/** Model of the character-display driver (main/src/lcd.c).

    The display is an HD44780-compatible controller run in 4-bit mode behind
    an I2C port expander. Every byte the driver sends (a command or a
    character) becomes one I2C write of four expander bytes:

      bit 7..4  one nibble of the byte (D7..D4 of the controller)
      bit 3     backlight, always on
      bit 2     EN, the strobe: high in the first copy of a nibble, low in the second
      bit 1     RW, always 0 (write)
      bit 0     RS, 0 for a command, 1 for character data

    high nibble first, each nibble sent twice. The bus is modelled as a log of
    the payloads handed to i2c_write. */
module Lcd {

  /** The expander's control bits. */
  const RS: bv8 := 0x01
  const RW: bv8 := 0x02
  const EN: bv8 := 0x04
  const BACKLIGHT: bv8 := 0x08

  /** Controller instructions the driver issues. */
  const CLEAR_DISPLAY: bv8 := 0x01
  const SET_CGRAM_ADDRESS: bv8 := 0x40

  /** The fixed power-up sequence of lcd_init: three "8-bit mode" wake-ups,
      switch to 4-bit mode, 2 lines with 5x8 font, display off, clear,
      entry mode "increment", display on. */
  const INIT_COMMANDS: seq<bv8> := [0x30, 0x30, 0x30, 0x20, 0x28, 0x08, 0x01, 0x06, 0x0C]

  /** The I2C device handle: the sequence of payloads written to it. */
  class I2cDevice {
    var transactions: seq<seq<bv8>>

    constructor ()
      ensures transactions == []
    {
      transactions := [];
    }

    /** i2c_write: a write of size 0 is refused and puts nothing on the bus;
        any other payload is transmitted as one transaction. */
    method Write(data: array<bv8>)
      modifies this
      ensures transactions == if data.Length == 0 then old(transactions) else old(transactions) + [data[..]]
    {
      if data.Length == 0 {
        return;
      }
      transactions := transactions + [data[..]];
    }
  }

  /** What the controller latches from a 4-byte frame: the upper nibble of
      byte 0 and the upper nibble of byte 2, reassembled into one byte. */
  function Decode(f: seq<bv8>): bv8
    requires |f| == 4
  {
    (f[0] & 0xF0) | (f[2] >> 4)
  }

  /** The four expander bytes that carry `b`; `rs` selects data (true) or
      command (false). */
  function Frame(b: bv8, rs: bool): (f: seq<bv8>)
    ensures |f| == 4
    ensures f[0] & 0xF0 == b & 0xF0 && f[1] & 0xF0 == b & 0xF0
    ensures f[2] & 0xF0 == (b << 4) & 0xF0 && f[3] & 0xF0 == (b << 4) & 0xF0
    ensures forall k :: 0 <= k < 4 ==> f[k] & BACKLIGHT != 0 && f[k] & RW == 0 && (f[k] & RS != 0 <==> rs)
    ensures f[0] & EN != 0 && f[1] & EN == 0 && f[2] & EN != 0 && f[3] & EN == 0
    ensures Decode(f) == b
  {
    var strobeHigh: bv8 := if rs then 0x0D else 0x0C;
    var strobeLow: bv8 := if rs then 0x09 else 0x08;
    var upper := b & 0xF0;
    var lower := (b << 4) & 0xF0;
    [upper | strobeHigh, upper | strobeLow, lower | strobeHigh, lower | strobeLow]
  }

  /** One frame per byte of `s`, in order. */
  function Frames(s: seq<bv8>, rs: bool): seq<seq<bv8>>
  {
    seq(|s|, k requires 0 <= k < |s| => Frame(s[k], rs))
  }

  lemma FramesAppend(a: seq<bv8>, b: seq<bv8>, rs: bool)
    ensures Frames(a + b, rs) == Frames(a, rs) + Frames(b, rs)
  {
    assert forall k | 0 <= k < |a + b| :: Frames(a + b, rs)[k] == (Frames(a, rs) + Frames(b, rs))[k];
  }

  /** The bytes that go over the wire, transaction after transaction. */
  function Bytes(ts: seq<seq<bv8>>): seq<bv8>
  {
    if ts == [] then [] else ts[0] + Bytes(ts[1..])
  }

  /** The controller's view of a byte stream: every four bytes are one byte
      of the sender. */
  function Unframe(bytes: seq<bv8>): seq<bv8>
    requires |bytes| % 4 == 0
    decreases |bytes|
  {
    if bytes == [] then [] else [Decode(bytes[..4])] + Unframe(bytes[4..])
  }

  /** Sending the bytes of `s` puts exactly 4 * |s| bytes on the bus, every
      one of them with RS equal to `rs`, and the controller reads back
      exactly `s`. */
  lemma {:induction false} FramesRoundTrip(s: seq<bv8>, rs: bool)
    ensures |Bytes(Frames(s, rs))| == 4 * |s|
    ensures forall j :: 0 <= j < |Bytes(Frames(s, rs))| ==> (Bytes(Frames(s, rs))[j] & RS != 0 <==> rs)
    ensures Unframe(Bytes(Frames(s, rs))) == s
  {
    if s != [] {
      FramesRoundTrip(s[1..], rs);
      var f := Frame(s[0], rs);
      var rest := Bytes(Frames(s[1..], rs));
      assert Frames(s, rs) == [f] + Frames(s[1..], rs);
      assert Bytes(Frames(s, rs)) == f + rest;
      assert (f + rest)[..4] == f;
      assert (f + rest)[4..] == rest;
      forall j | 0 <= j < |f + rest|
        ensures ((f + rest)[j] & RS != 0 <==> rs)
      {
        if j >= 4 {
          assert (f + rest)[j] == rest[j - 4];
        }
      }
      assert s == [s[0]] + s[1..];
    }
  }

  /** The characters of a C string: everything before the first NUL. */
  function CString(s: seq<bv8>): (r: seq<bv8>)
    ensures |r| <= |s| && r == s[..|r|]
    ensures 0 !in r
    ensures |r| < |s| ==> s[|r|] == 0
  {
    if s == [] || s[0] == 0 then [] else [s[0]] + CString(s[1..])
  }

  /** A text without NUL, terminated, reads back as itself. */
  lemma {:induction false} CStringTerminated(text: seq<bv8>)
    requires 0 !in text
    ensures CString(text + [0]) == text
  {
    if text != [] {
      CStringTerminated(text[1..]);
      assert (text + [0])[1..] == text[1..] + [0];
    }
  }

  /** The DDRAM address command of lcd_put_cur: the int `col` truncated to
      its low byte, with 0x80 for row 0 and 0xC0 for any other row. */
  function CursorCommand(row: int, col: int): (c: bv8)
    ensures c & 0x80 != 0
    ensures row != 0 ==> c & 0x40 != 0
    ensures 0 <= col < 16 ==> c as int == (if row == 0 then 0x80 else 0xC0) + col
  {
    var low := (col % 0x100) as bv8;
    var high: bv8 := if row == 0 then 0x80 else 0xC0;
    OrHigh(low, high);
    LowByte(col);
    low | high
  }

  lemma LowByte(col: int)
    ensures 0 <= col < 0x100 ==> ((col % 0x100) as bv8) as int == col
  {
  }

  /** Setting the address-command bits over a column below 0x40 adds them. */
  lemma OrHigh(low: bv8, high: bv8)
    requires high == 0x80 || high == 0xC0
    ensures (low | high) & 0x80 != 0
    ensures high == 0xC0 ==> (low | high) & 0x40 != 0
    ensures low < 0x40 ==> (low | high) as int == high as int + low as int
  {
  }

  /** lcd_send_cmd: one command frame. */
  method SendCmd(lcd: I2cDevice, cmd: bv8)
    modifies lcd
    ensures lcd.transactions == old(lcd.transactions) + [Frame(cmd, false)]
  {
    var dataU := cmd & 0xF0;
    var dataL := (cmd << 4) & 0xF0;
    var dataT := new bv8[4];
    dataT[0] := dataU | 0x0C;
    dataT[1] := dataU | 0x08;
    dataT[2] := dataL | 0x0C;
    dataT[3] := dataL | 0x08;
    assert dataT[..] == [dataT[0], dataT[1], dataT[2], dataT[3]];
    lcd.Write(dataT);
  }

  /** lcd_send_data: one data frame (RS set in all four bytes). */
  method SendData(lcd: I2cDevice, data: bv8)
    modifies lcd
    ensures lcd.transactions == old(lcd.transactions) + [Frame(data, true)]
  {
    var dataU := data & 0xF0;
    var dataL := (data << 4) & 0xF0;
    var dataT := new bv8[4];
    dataT[0] := dataU | 0x0D;
    dataT[1] := dataU | 0x09;
    dataT[2] := dataL | 0x0D;
    dataT[3] := dataL | 0x09;
    assert dataT[..] == [dataT[0], dataT[1], dataT[2], dataT[3]];
    lcd.Write(dataT);
  }

  /** lcd_send_string: one data frame per character before the terminating NUL. */
  method SendString(lcd: I2cDevice, str: seq<bv8>)
    requires 0 in str
    modifies lcd
    ensures lcd.transactions == old(lcd.transactions) + Frames(CString(str), true)
  {
    var text := CString(str);
    assert |text| < |str| by {
      assert 0 !in text;
    }
    var i := 0;
    while str[i] != 0
      invariant 0 <= i <= |text|
      invariant lcd.transactions == old(lcd.transactions) + Frames(str[..i], true)
      decreases |text| - i
    {
      FramesAppend(str[..i], [str[i]], true);
      assert str[..i + 1] == str[..i] + [str[i]];
      SendData(lcd, str[i]);
      i := i + 1;
    }
    assert i == |text| by {
      assert 0 !in text;
    }
    assert str[..i] == text;
  }

  /** lcd_put_cur: move the cursor to (row, col). */
  method PutCur(lcd: I2cDevice, row: int, col: int)
    modifies lcd
    ensures lcd.transactions == old(lcd.transactions) + [Frame(CursorCommand(row, col), false)]
  {
    SendCmd(lcd, CursorCommand(row, col));
  }

  /** lcd_clear: the clear-display instruction (the 200 ms wait is not modelled). */
  method Clear(lcd: I2cDevice)
    modifies lcd
    ensures lcd.transactions == old(lcd.transactions) + [Frame(CLEAR_DISPLAY, false)]
  {
    SendCmd(lcd, CLEAR_DISPLAY);
  }

  /** lcd_send_custom: load the eight pattern rows of custom character 0 into
      CGRAM, move the cursor to (posX, posY) -- posX is the row -- and print
      character 0 there. */
  method SendCustom(lcd: I2cDevice, str: seq<bv8>, posX: bv8, posY: bv8)
    requires |str| >= 8
    modifies lcd
    ensures lcd.transactions == old(lcd.transactions) + [Frame(SET_CGRAM_ADDRESS, false)] + Frames(str[..8], true)
                                + [Frame(CursorCommand(posX as int, posY as int), false), Frame(0, true)]
  {
    SendCmd(lcd, SET_CGRAM_ADDRESS);
    ghost var start := lcd.transactions;
    for i := 0 to 8
      invariant lcd.transactions == start + Frames(str[..i], true)
    {
      FramesAppend(str[..i], [str[i]], true);
      assert str[..i + 1] == str[..i] + [str[i]];
      SendData(lcd, str[i]);
    }
    PutCur(lcd, posX as int, posY as int);
    SendData(lcd, 0);
  }

  /** lcd_init: the fixed command sequence (the delays between the commands
      are not modelled). */
  method Init(lcd: I2cDevice)
    modifies lcd
    ensures lcd.transactions == old(lcd.transactions) + Frames(INIT_COMMANDS, false)
  {
    SendCmd(lcd, 0x30);
    SendCmd(lcd, 0x30);
    SendCmd(lcd, 0x30);
    SendCmd(lcd, 0x20);
    SendCmd(lcd, 0x28);
    SendCmd(lcd, 0x08);
    SendCmd(lcd, 0x01);
    SendCmd(lcd, 0x06);
    SendCmd(lcd, 0x0C);
    InitFrames();
  }

  lemma InitFrames()
    ensures Frames(INIT_COMMANDS, false) == [Frame(0x30, false), Frame(0x30, false), Frame(0x30, false),
      Frame(0x20, false), Frame(0x28, false), Frame(0x08, false), Frame(0x01, false), Frame(0x06, false),
      Frame(0x0C, false)]
  {
  }
}
