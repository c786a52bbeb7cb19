/** set_usart_txrx_direction (uart.c:100-158): the TXD pin of the selected
    USART becomes an output and its RXD pin an input, in the direction
    register of the port the USART sits on.

    The C function recognises the USART by the address of its register block;
    here the identity is an enumeration with a value for an address that
    matches none of them. Writing a mask to DIRSET sets those bits of the
    port's DIR register, writing it to DIRCLR clears them. */
module UartPins {

  import opened CTypes

  datatype Port = PORTC | PORTD | PORTE | PORTF

  /** Module 0 or module 1 of a port. */
  datatype Module = Module0 | Module1

  /** The eight USART modules USARTxn (module n of port x), and an address
      matching none of them. */
  datatype UsartId = Usart(port: Port, unit: Module) | Unmatched

  /** The port of a USART with its transmit and receive pin numbers. */
  datatype TxRxPins = TxRxPins(port: Port, txPin: nat, rxPin: nat)

  /** The table of uart.c:100-158: module 0 of a port transmits on pin 3 and
      receives on pin 2, module 1 transmits on pin 7 and receives on pin 6. */
  function PinsOf(id: UsartId): (r: Option<TxRxPins>)
    ensures r.None? <==> id.Unmatched?
    ensures r.Some? ==> r.value.port == id.port
    ensures r.Some? && id.unit == Module0 ==> r.value.txPin == 3 && r.value.rxPin == 2
    ensures r.Some? && id.unit == Module1 ==> r.value.txPin == 7 && r.value.rxPin == 6
  {
    match id
    case Usart(port, Module0) => Some(TxRxPins(port, 3, 2))
    case Usart(port, Module1) => Some(TxRxPins(port, 7, 6))
    case Unmatched => None
  }

  /** No two USARTs share a pin. */
  lemma PinsDisjoint(a: UsartId, b: UsartId)
    requires a != b && PinsOf(a).Some? && PinsOf(b).Some?
    ensures PinsOf(a).value.port == PinsOf(b).value.port ==>
              {PinsOf(a).value.txPin, PinsOf(a).value.rxPin} !! {PinsOf(b).value.txPin, PinsOf(b).value.rxPin}
  {
  }

  /** PINn_bm. */
  function PinMask(pin: nat): bv8
    requires pin < 8
  {
    1 << pin
  }

  /** Bit `pin` of a DIR register is set: the pin is an output. */
  predicate IsOutput(dir: bv8, pin: nat)
    requires pin < 8
  {
    dir & PinMask(pin) != 0
  }

  /** The DIR registers of all four ports. */
  predicate AllPorts(dir: map<Port, bv8>) {
    forall p: Port :: p in dir
  }

  /** A write of `mask` to PORTx.DIRSET. */
  function DirSet(dir: map<Port, bv8>, port: Port, mask: bv8): map<Port, bv8>
    requires AllPorts(dir)
  {
    dir[port := dir[port] | mask]
  }

  /** A write of `mask` to PORTx.DIRCLR. */
  function DirClr(dir: map<Port, bv8>, port: Port, mask: bv8): map<Port, bv8>
    requires AllPorts(dir)
  {
    dir[port := dir[port] & !mask]
  }

  /** A DIRSET write followed by a DIRCLR write to the same port. */
  lemma SetThenClear(dir: map<Port, bv8>, port: Port, t: bv8, x: bv8)
    requires AllPorts(dir)
    ensures DirClr(DirSet(dir, port, t), port, x) == dir[port := (dir[port] | t) & !x]
  {
    UpdateTwice(dir, port, dir[port] | t, (dir[port] | t) & !x);
  }

  /** A second update of the same key overrides the first. */
  lemma UpdateTwice<K, V>(m: map<K, V>, k: K, v: V, w: V)
    ensures m[k := v][k := w] == m[k := w]
  {
  }

  /** The DIR register of a port after the TXD pin is made an output and the
      RXD pin an input. */
  function PinDirection(d: bv8, pins: TxRxPins): bv8
    requires pins.txPin < 8 && pins.rxPin < 8
  {
    (d | PinMask(pins.txPin)) & !PinMask(pins.rxPin)
  }

  /** The DIR registers after set_usart_txrx_direction(id). */
  function TxRxDirection(dir: map<Port, bv8>, id: UsartId): (r: map<Port, bv8>)
    requires AllPorts(dir)
    ensures AllPorts(r)
  {
    match PinsOf(id)
    case None => dir
    case Some(pins) => dir[pins.port := PinDirection(dir[pins.port], pins)]
  }

  /** What set_usart_txrx_direction does to the pins: the TXD pin of a known
      USART becomes an output, its RXD pin an input, every other pin of its port
      and every other port keeps its direction; an unmatched USART changes
      nothing. */
  lemma TxRxDirectionEffect(dir: map<Port, bv8>, id: UsartId)
    requires AllPorts(dir)
    ensures var r := TxRxDirection(dir, id);
            && (id.Unmatched? ==> r == dir)
            && (PinsOf(id).Some? ==>
                var pins := PinsOf(id).value;
                && IsOutput(r[pins.port], pins.txPin)
                && !IsOutput(r[pins.port], pins.rxPin)
                && (forall pin :: 0 <= pin < 8 && pin != pins.txPin && pin != pins.rxPin ==>
                      IsOutput(r[pins.port], pin) == IsOutput(dir[pins.port], pin))
                && (forall p :: p != pins.port ==> r[p] == dir[p]))
  {
  }

  /** Configuring the same USART twice is the same as configuring it once. */
  lemma TxRxDirectionIdempotent(dir: map<Port, bv8>, id: UsartId)
    requires AllPorts(dir)
    ensures TxRxDirection(TxRxDirection(dir, id), id) == TxRxDirection(dir, id)
  {
  }

  /** Two USARTs can be configured in either order. */
  lemma TxRxDirectionsCommute(dir: map<Port, bv8>, a: UsartId, b: UsartId)
    requires AllPorts(dir)
    ensures TxRxDirection(TxRxDirection(dir, a), b) == TxRxDirection(TxRxDirection(dir, b), a)
  {
  }

  /** The direction registers of the ports (`PORTx.DIR`). */
  class PortDirections {
    var dir: map<Port, bv8>

    ghost predicate Valid()
      reads this
    {
      AllPorts(dir)
    }

    constructor (initial: map<Port, bv8>)
      requires AllPorts(initial)
      ensures Valid() && dir == initial
    {
      dir := initial;
    }

    /** `PORTx.DIRSET = mask`. */
    method WriteDirSet(port: Port, mask: bv8)
      requires Valid()
      modifies this
      ensures Valid() && dir == DirSet(old(dir), port, mask)
    {
      dir := DirSet(dir, port, mask);
    }

    /** `PORTx.DIRCLR = mask`. */
    method WriteDirClr(port: Port, mask: bv8)
      requires Valid()
      modifies this
      ensures Valid() && dir == DirClr(old(dir), port, mask)
    {
      dir := DirClr(dir, port, mask);
    }

    /** set_usart_txrx_direction (uart.c:100-158): the chain of address
        comparisons, each ending in one DIRSET and one DIRCLR write and a
        return, is the lookup in PinsOf. */
    method SetUsartTxRxDirection(id: UsartId)
      requires Valid()
      modifies this
      ensures Valid() && dir == TxRxDirection(old(dir), id)
    {
      var found := PinsOf(id);
      if found.Some? {
        var pins := found.value;
        WriteDirSet(pins.port, PinMask(pins.txPin));
        WriteDirClr(pins.port, PinMask(pins.rxPin));
        SetThenClear(old(dir), pins.port, PinMask(pins.txPin), PinMask(pins.rxPin));
      }
    }
  }
}
