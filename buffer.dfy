/** The buffered byte interface of uart.c: uart_getc, uart_putc and
    uart_puts over the receive and transmit buffers of one USART.

    The buffers belong to Atmel's interrupt driver, whose code is not part of
    this model; each is modelled by what the driver's calls mean here: a FIFO
    of bytes with a fixed capacity ("data available" is a non-empty receive
    buffer, "free space" a transmit buffer below capacity, GetByte removes the
    oldest byte, PutByte appends one). */
module UartBuffer {

  import opened CTypes

  /** Returned by uart_getc when no byte has been received: one above every byte. */
  const UART_NO_DATA: u16 := 0x0100

  function Min(a: int, b: int): int {
    if a <= b then a else b
  }

  /** What uart_getc returns for a receive buffer, and the buffer it leaves. */
  function Receive(rx: seq<u8>): (res: (u16, seq<u8>))
    ensures res.0 == UART_NO_DATA <==> rx == []
    ensures rx == [] ==> res.1 == rx
    ensures rx != [] ==> res.0 < 0x100 && res.0 as int == rx[0] as int && [rx[0]] + res.1 == rx
  {
    if rx == [] then (UART_NO_DATA, rx) else (rx[0] as int as u16, rx[1..])
  }

  /** The results of `n` consecutive uart_getc calls with no byte received in between. */
  function Drain(rx: seq<u8>, n: nat): seq<u16>
  {
    if n == 0 then [] else [Receive(rx).0] + Drain(Receive(rx).1, n - 1)
  }

  /** Bytes widened to the return type of uart_getc. */
  function Widen(s: seq<u8>): (r: seq<u16>)
    ensures |r| == |s| && forall i :: 0 <= i < |s| ==> r[i] as int == s[i] as int
  {
    seq(|s|, i requires 0 <= i < |s| => s[i] as int as u16)
  }

  /** Reading repeatedly returns the buffered bytes oldest first, then only
      UART_NO_DATA. */
  lemma {:induction false} DrainInOrder(rx: seq<u8>, n: nat)
    requires n >= |rx|
    ensures Drain(rx, n) == Widen(rx) + seq(n - |rx|, _ => UART_NO_DATA)
  {
    if n > 0 {
      DrainInOrder(Receive(rx).1, n - 1);
      if rx == [] {
        assert Widen(rx) == [];
      } else {
        assert Widen(rx) == [rx[0] as int as u16] + Widen(rx[1..]);
      }
    }
  }

  /** The transmit buffer after uart_putc: `data` appended when there is free
      space, the buffer unchanged (the byte dropped) otherwise. */
  function Transmit(tx: seq<u8>, capacity: nat, data: u8): (r: seq<u8>)
    ensures |tx| < capacity ==> r == tx + [data]
    ensures |tx| >= capacity ==> r == tx
  {
    if |tx| < capacity then tx + [data] else tx
  }

  /** The transmit buffer after uart_putc of each byte of `s` in order. */
  function TransmitAll(tx: seq<u8>, capacity: nat, s: seq<u8>): seq<u8>
  {
    if s == [] then tx
    else Transmit(TransmitAll(tx, capacity, s[..|s| - 1]), capacity, s[|s| - 1])
  }

  /** One more byte written. */
  lemma TransmitAllStep(tx: seq<u8>, capacity: nat, s: seq<u8>, i: nat)
    requires i < |s|
    ensures TransmitAll(tx, capacity, s[..i + 1]) == Transmit(TransmitAll(tx, capacity, s[..i]), capacity, s[i])
  {
    assert s[..i + 1][..i] == s[..i];
  }

  /** Writing a sequence of bytes keeps the longest prefix that fits. */
  lemma {:induction false} TransmitAllKeepsPrefix(tx: seq<u8>, capacity: nat, s: seq<u8>)
    requires |tx| <= capacity
    ensures TransmitAll(tx, capacity, s) == tx + s[..Min(|s|, capacity - |tx|)]
  {
    if s != [] {
      var init := s[..|s| - 1];
      TransmitAllKeepsPrefix(tx, capacity, init);
      assert init[..Min(|init|, capacity - |tx|)] == s[..Min(|init|, capacity - |tx|)];
    }
  }

  /** The number of bytes of a NUL-terminated string before its terminator. */
  function CStringLength(s: seq<u8>): (k: nat)
    requires 0 in s
    ensures k < |s| && s[k] == 0
    ensures forall i :: 0 <= i < k ==> s[i] != 0
  {
    if s[0] == 0 then 0 else 1 + CStringLength(s[1..])
  }

  /** The buffered side of one USART (`USART_data_t`). */
  class Uart {
    /** The size of the transmit buffer. The receive buffer is filled by the
        interrupt routine, which is not part of this model, so its size
        plays no part here. */
    const capacity: nat
    var rx: seq<u8>
    var tx: seq<u8>

    ghost predicate Valid()
      reads this
    {
      |tx| <= capacity
    }

    /** The buffers as the driver's initialisation leaves them: empty. */
    constructor (capacity: nat)
      ensures Valid() && this.capacity == capacity
      ensures rx == [] && tx == []
    {
      this.capacity := capacity;
      rx, tx := [], [];
    }

    /** USART_RXBufferData_Available. */
    predicate DataAvailable()
      reads this
    {
      rx != []
    }

    /** USART_TXBuffer_FreeSpace. */
    predicate FreeSpace()
      reads this
    {
      |tx| < capacity
    }

    /** uart_getc (uart.c:51-62). */
    method GetC() returns (c: u16)
      requires Valid()
      modifies this`rx
      ensures Valid()
      ensures (c, rx) == Receive(old(rx))
    {
      if !DataAvailable() {
        return UART_NO_DATA;
      }
      var data := rx[0];
      rx := rx[1..];
      c := data as int as u16;
    }

    /** uart_putc (uart.c:71-76). */
    method PutC(data: u8)
      requires Valid()
      modifies this`tx
      ensures Valid()
      ensures tx == Transmit(old(tx), capacity, data)
    {
      if FreeSpace() {
        tx := tx + [data];
      }
    }

    /** uart_puts (uart.c:85-92): the bytes before the terminator, as far as
        they fit. */
    method PutS(s: seq<u8>)
      requires Valid() && 0 in s
      modifies this`tx
      ensures Valid()
      ensures tx == old(tx) + s[..Min(CStringLength(s), capacity - |old(tx)|)]
    {
      var i := 0;
      while s[i] != 0
        invariant 0 <= i <= CStringLength(s)
        invariant Valid()
        invariant tx == TransmitAll(old(tx), capacity, s[..i])
        decreases CStringLength(s) - i
      {
        PutC(s[i]);
        TransmitAllStep(old(tx), capacity, s, i);
        i := i + 1;
      }
      TransmitAllKeepsPrefix(old(tx), capacity, s[..i]);
    }
  }
}
