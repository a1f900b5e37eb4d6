// The play session record of caed and its 64-bit handles (cae/playsession.cpp).
module PlaySessions {

  type Int32 = x: int | -0x8000_0000 <= x < 0x8000_0000
  type UInt32 = x: int | 0 <= x < 0x1_0000_0000
  type UInt64 = x: int | 0 <= x < 0x1_0000_0000_0000_0000

  // Conversions of C++ between int and unsigned.
  function Unsigned(x: Int32): UInt32 {
    if x < 0 then x + 0x1_0000_0000 else x
  }

  function Signed(x: UInt32): Int32 {
    if x < 0x8000_0000 then x else x - 0x1_0000_0000
  }

  // The descriptor is widened to 64 bits and shifted, which leaves its low 32 bits
  // above those of the serial number.
  function MakeHandle(fd: Int32, serial: UInt32): UInt64 {
    Unsigned(fd) * 0x1_0000_0000 + serial
  }

  function SocketDescriptor(handle: UInt64): Int32 {
    Signed(handle / 0x1_0000_0000)
  }

  function SerialNumber(handle: UInt64): UInt32 {
    handle % 0x1_0000_0000
  }

  // Handles and pairs of a descriptor and a serial number correspond one to one, and
  // only descriptor 0 with serial number 0 makes the handle 0.
  lemma HandleOfPair(fd: Int32, serial: UInt32)
    ensures SocketDescriptor(MakeHandle(fd, serial)) == fd
    ensures SerialNumber(MakeHandle(fd, serial)) == serial
    ensures MakeHandle(fd, serial) == 0 <==> fd == 0 && serial == 0
    ensures fd >= 0 ==> MakeHandle(fd, serial) == fd * 4294967296 + serial
  {
    var u := Unsigned(fd);
    Parts(u, serial);
    assert Signed(u) == fd && (u == 0 <==> fd == 0);
    OnlyZero(u, serial);
  }

  lemma OnlyZero(high: UInt32, low: UInt32)
    ensures high * 0x1_0000_0000 + low == 0 <==> high == 0 && low == 0
  {
  }

  lemma Parts(high: int, low: UInt32)
    ensures (high * 0x1_0000_0000 + low) / 0x1_0000_0000 == high
    ensures (high * 0x1_0000_0000 + low) % 0x1_0000_0000 == low
  {
    var x := high * 0x1_0000_0000 + low;
    var q := x / 0x1_0000_0000;
    assert x == q * 0x1_0000_0000 + x % 0x1_0000_0000;
    if q < high {
      assert false;
    } else if q > high {
      assert false;
    }
  }

  lemma PairOfHandle(handle: UInt64)
    ensures MakeHandle(SocketDescriptor(handle), SerialNumber(handle)) == handle
  {
    assert handle == handle / 0x1_0000_0000 * 0x1_0000_0000 + handle % 0x1_0000_0000;
  }

  datatype Session = Session(sock: Int32, serial: UInt32, card: nat, port: nat, stream: nat, length: UInt32,
      speed: UInt32)

  // The session that a load creates.
  function NewSession(handle: UInt64, card: nat, port: nat, stream: nat): Session {
    Session(SocketDescriptor(handle), SerialNumber(handle), card, port, stream, 0, 100000)
  }

  class PlaySession {
    const socketDescriptor: Int32
    const serialNumber: UInt32
    const cardNumber: nat
    const portNumber: nat
    const streamNumber: nat
    var length: UInt32
    var speed: UInt32

    constructor (handle: UInt64, cardnum: nat, portnum: nat, streamnum: nat)
      ensures Value() == NewSession(handle, cardnum, portnum, streamnum) && Handle() == handle
    {
      socketDescriptor := SocketDescriptor(handle);
      serialNumber := SerialNumber(handle);
      cardNumber := cardnum;
      portNumber := portnum;
      streamNumber := streamnum;
      length := 0;
      speed := 100000;
      new;
      PairOfHandle(handle);
    }

    ghost function Value(): Session
      reads this
    {
      Session(socketDescriptor, serialNumber, cardNumber, portNumber, streamNumber, length, speed)
    }

    function Handle(): UInt64 {
      MakeHandle(socketDescriptor, serialNumber)
    }

    method SetLength(msec: UInt32)
      modifies `length
      ensures Value() == old(Value()).(length := msec)
    {
      length := msec;
    }

    method SetSpeed(ratio: UInt32)
      modifies `speed
      ensures Value() == old(Value()).(speed := ratio)
    {
      speed := ratio;
    }
  }
}
