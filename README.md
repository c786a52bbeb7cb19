# Xmega buffered UART wrapper — Dafny model

This project models `uart.c` of the xmega-clockmaker firmware: the thin
wrapper around Atmel's interrupt-driven USART driver for the AVR Xmega.
The wrapper has three parts, and each has its own module:

- `UartBaud` (`baud.dfy`). It models the baud-rate generator settings. `calc_bsel`
  computes the selector BSEL from the CPU clock, the baud rate, the scale
  exponent BSCALE and the clock-doubling flag. `calc_bscale` searches for the
  smallest BSCALE whose BSEL fits the 12-bit field. `init_uart` and
  `init_uart_levels` hand the resulting pair to the hardware.
- `UartBuffer` (`buffer.dfy`). It models the byte interface over the receive and
  transmit buffers of one USART: `uart_getc` with its out-of-band
  `UART_NO_DATA` (0x0100), `uart_putc`, which drops a byte when the buffer is
  full, and `uart_puts`, which writes a NUL-terminated string.
- `UartPins` (`pins.dfy`). It models `set_usart_txrx_direction`. That function makes
  the TXD pin of the selected USART an output and its RXD pin an input, by
  writing the port's DIRSET and DIRCLR registers.

`CTypes` (`types.dfy`) holds the C integer types and an `Option`.

Modelling choices:

- `calc_bsel` is computed over exact reals. C's `round` rounds halfway cases
  away from zero; `RoundHalfAway` does the same using `.Floor`.
- The conversion of the rounded value to `uint16_t` is undefined in C when the
  value is negative or above 65535. `CalcBsel` requires the value to be in range
  (`BselInRange`).
- `calc_bscale` converts every BSEL it tries to `uint16_t` before comparing
  it with 4096, so `CalcBscale` requires every conversion its loop makes to be
  defined (`SearchDefined`, defined by recursion along the loop). By
  `SearchDefinedIff` this is the same as the first one, at exponent -7, being
  defined (`BselInRange` at -7), which is the precondition `CalcBscale` states.
- `1 << k` is an `int` shift. On avr-gcc `int` is 16 bits wide, so `CalcBsel`
  takes exponents in [-14, 14]. The exponents the source uses are -7 to 8.
- The loop `for (bscale = -7; bscale < 8; bscale++)` returns 8 when no
  exponent qualifies, not the last exponent tried (7). `FirstFit`, the
  search with each BSEL compared before its conversion, follows the code and
  returns 8; `FallbackReachable` shows an input where it does (1 baud on a
  32 MHz clock), and there the second `calc_bsel` of `init_uart` gives
  7812 (7811.5 rounded up). The C code does not get there for that input:
  its BSEL at -7 is round(1999999 · 128) = 255999872, and the conversion to
  `uint16_t` of the value `calc_bsel` returns (uart.c:188 and uart.c:190) is
  undefined for every exponent from -7 to 4 (at 4 the BSEL is 124999; the
  first that fits is 62499, at 5).
- A consequence proved here (`DefinedSearchStopsEarly`): when BSEL at -7 is a
  defined `uint16_t`, the search stops at -2 or lower, at an exponent whose
  BSEL is defined too. So `CalcBscale`, under its precondition, never returns
  8 nor any exponent above -2. The precondition excludes every input with
  f_cpu/(N·baud) ≥ 512.996 (BSEL at -7 rounding to 65536 or more): at 32 MHz
  without doubling, every baud rate up to 3898, including the standard 1200
  and 2400 (see "## Findings").
- The buffers of Atmel's driver are modelled abstractly as FIFOs of bytes:
  `rx` and `tx` are sequences, and `capacity` is the size of the transmit
  buffer. Nothing in the model adds to `rx` (the receive interrupt does), so
  the receive buffer's size does not appear.
- The string of `uart_puts` is a sequence of bytes that contains a 0. In C the
  `char` is converted to the `uint8_t` parameter of `uart_putc`, which keeps
  the bits.
- The address comparisons of `set_usart_txrx_direction` become an identity
  `Usart(port, unit)` for USARTxn (port x, module n) plus `Unmatched`. The
  chain of `if`s with early returns becomes the table lookup `PinsOf`.
- The port DIR registers are a `map<Port, bv8>`. DIRSET ORs the mask into the
  register and DIRCLR clears the masked bits. All eight USARTs are assumed
  to exist on the device (the source compiles each branch only under
  `#ifdef USARTxn`).

## Model

| member | source | states |
|---|---|---|
| `UartBaud.Oversampling` | xmega-clockmaker/uart.c:184-186 | the oversampling factor N is 16 when bit 0 of `clk2x` is clear and 8 when it is set; no other bit matters |
| `UartBaud.RoundHalfAway` | xmega-clockmaker/uart.c:188-190 | `round` gives an integer within 1/2 of its argument; on a tie it moves away from zero |
| `UartBaud.CalcBsel` | xmega-clockmaker/uart.c:182-192 | BSEL is the nearest `uint16_t` to (f_cpu/(N·baud) − 1)·2^−scale for a negative scale, or f_cpu/(N·baud·2^scale) − 1 otherwise, with ties rounded away from zero |
| `UartBaud.ExactBselRoundTrip` | xmega-clockmaker/uart.c:170-178 | the unrounded BSEL of the documented formula, put back into the formula solved for f_baud, gives exactly the requested baud rate, for every scale and doubling flag |
| `UartBaud.FirstFit` | xmega-clockmaker/uart.c:210-214 | the loop's value lies in [start, 8]; no exponent before it gives BSEL < 4096; if it is below 8, its BSEL is < 4096 |
| `UartBaud.CalcBscale` | xmega-clockmaker/uart.c:205-215 | when the first BSEL converts without overflow, `calc_bscale` returns the least exponent in [-7, 7] whose BSEL is below 4096, or 8 when none is; this is the value of FirstFit |
| `UartBaud.SearchDefinedIff` | xmega-clockmaker/uart.c:210-212 | every conversion of BSEL that the loop of `calc_bscale` makes is defined if and only if the first one, at -7, is |
| `UartBaud.CalcBscaleUnnarrowed` | xmega-clockmaker/uart.c:205-215 | the search with each rounded BSEL compared with 4096 before its conversion is defined for every non-zero baud rate and returns the least exponent in [-7, 7] whose BSEL is below 4096, or 8 when none is (FirstFit) |
| `UartBaud.FallbackReachable` | xmega-clockmaker/uart.c:210-214 | FirstFit, the search compared before conversion, returns 8 for 1 baud on a 32 MHz clock, and the BSEL at 8 is then defined: 7812, a tie rounded up |
| `UartBaud.DefinedSearchStopsEarly` | xmega-clockmaker/uart.c:188 | when BSEL at -7 converts without overflow, the search stops at -2 or lower, at an exponent whose BSEL converts without overflow too |
| `UartBaud.LowBaudFirstConversionUndefined` | xmega-clockmaker/uart.c:211 | at 32 MHz and 1200 baud without doubling, the first BSEL of the loop does not fit `uint16_t`, although exponent -1 gives a BSEL that fits the 12-bit field |
| `UartBaud.FoundBselInRange` | xmega-clockmaker/uart.c:239 | the exponent found by a defined search has a BSEL that converts to `uint16_t` without overflow |
| `UartBaud.BaudSettings` | xmega-clockmaker/uart.c:238-239 | init_uart hands the generator (and init_uart_levels at uart.c:276-277) the exponent of the search (the least whose BSEL is below 4096, or the fallback 8) and the `calc_bsel` value at that exponent: within 1/2 of the exact value, a tie rounded up, and below 4096 unless the fallback was taken; the second `calc_bsel` needs that BSEL to fit `uint16_t` |
| `UartBaud.ClockmakerSettings` | xmega-clockmaker/main.c:71 | at 32 MHz and 230400 baud without doubling, the search is defined, BSCALE is -7 and BSEL is 983 |
| `UartBuffer.Receive` | xmega-clockmaker/uart.c:51-62 | `uart_getc` returns UART_NO_DATA exactly when the receive buffer is empty, and then leaves it unchanged; otherwise it returns the oldest byte (a value below 0x100, so never the sentinel) and removes exactly that byte |
| `UartBuffer.DrainInOrder` | xmega-clockmaker/uart.c:51-62 | successive `uart_getc` calls return the buffered bytes oldest first, then only UART_NO_DATA |
| `UartBuffer.Transmit` | xmega-clockmaker/uart.c:71-76 | `uart_putc` appends the byte when the transmit buffer has free space; otherwise the buffer is unchanged and the byte is dropped |
| `UartBuffer.TransmitAllKeepsPrefix` | xmega-clockmaker/uart.c:85-92 | `uart_putc` of each byte of a string in order leaves old + the longest prefix of the string that fits in the free space |
| `UartBuffer.CStringLength` | xmega-clockmaker/uart.c:89 | the loop condition stops at the first NUL: the position of a 0 with no 0 before it |
| `UartBuffer.Uart.constructor` | xmega-clockmaker/uart.c:241 | after the driver's initialisation both buffers are empty |
| `UartBuffer.Uart.GetC` | xmega-clockmaker/uart.c:51-62 | the returned value and the new receive buffer are those of Receive; the transmit buffer is untouched |
| `UartBuffer.Uart.PutC` | xmega-clockmaker/uart.c:71-76 | the new transmit buffer is that of Transmit; the receive buffer is untouched |
| `UartBuffer.Uart.PutS` | xmega-clockmaker/uart.c:85-92 | the transmit buffer ends as old + s[..min(k, capacity − \|old\|)], where k is the position of the first NUL; the receive buffer is untouched |
| `UartPins.PinsOf` | xmega-clockmaker/uart.c:100-158 | exactly the eight USARTs are recognised; USARTxn uses port x, and transmits on pin 3 and receives on pin 2 when n is 0, transmits on 7 and receives on 6 when n is 1 |
| `UartPins.PinsDisjoint` | xmega-clockmaker/uart.c:100-158 | two different USARTs on one port use disjoint pins |
| `UartPins.TxRxDirectionEffect` | xmega-clockmaker/uart.c:100-158 | the TXD pin becomes an output and the RXD pin an input; all other bits of that port and all other ports are unchanged; an unmatched USART changes nothing |
| `UartPins.TxRxDirectionIdempotent` | xmega-clockmaker/uart.c:100-158 | configuring the same USART twice is the same as once |
| `UartPins.TxRxDirectionsCommute` | xmega-clockmaker/uart.c:100-158 | two USARTs may be configured in either order, also two on the same port, since no TXD pin of the table is an RXD pin |
| `UartPins.PortDirections.WriteDirSet` | xmega-clockmaker/uart.c:104 | a DIRSET write ORs the mask into the port's DIR register and changes no other port |
| `UartPins.PortDirections.WriteDirClr` | xmega-clockmaker/uart.c:105 | a DIRCLR write clears the masked bits of the port's DIR register and changes no other port |
| `UartPins.PortDirections.SetUsartTxRxDirection` | xmega-clockmaker/uart.c:100-158 | the new DIR registers are those of TxRxDirection, whose effect TxRxDirectionEffect states |

## Left out

- CalcBsel: the source computes in AVR `double` (32-bit float on avr-gcc); the model uses exact reals, so rounding of the intermediate quotient is not modelled.
- CalcBsel: the inputs whose rounded BSEL is negative or above 65535, or whose baud rate is 0, are excluded by its precondition, because the C conversion to `uint16_t` is undefined there; shifts beyond 14 are excluded because `1 << k` overflows a 16-bit `int`.
- CalcBscale: it requires the first conversion of its loop, and so (by SearchDefinedIff) every one, to be defined. Inputs whose first conversion overflows `uint16_t` (at 32 MHz without doubling, every baud rate up to 3898) are not modelled as written; they are the subject of the finding below, and BaudSettings uses CalcBscaleUnnarrowed instead.
- The Atmel driver internals (`USART_RXBuffer_GetByte`, `USART_TXBuffer_PutByte`, `USART_TXBuffer_FreeSpace`, `USART_RXBufferData_Available`, head and tail indices, the buffer size macro): they are not part of this model. Only their meaning as a bounded FIFO is modelled, with the capacity as a parameter.
- Uart.PutC: the enabling of the data-register-empty interrupt by the driver's PutByte is not modelled. This is a hardware register write.
- The interrupt service routines and the per-USART globals in uart.h (`USART_RXComplete`, `USART_DataRegEmpty`): they are interrupt glue, and the concurrency between interrupt and main-line code is not modelled.
- The register programming of init_uart and init_uart_levels (`USART_InterruptDriver_Initialize`, format, receiver and transmitter enable, interrupt levels, `USART_Baudrate_Set`): these are foreign hardware calls. Only the BSCALE/BSEL pair they receive is modelled (BaudSettings), along with the pin directions (SetUsartTxRxDirection).
- The `#ifdef USARTxn` guards: the model assumes a device that has all eight USARTs.
- main.c is not part of this model (clock setup, LED blinking, `sprintf`, the DAC timer interrupt). Only its call `init_uart(&uartF0, &USARTF0, F_CPU, 230400, 0)` is used, as the concrete case ClockmakerSettings.

## Findings

| source | as written | input that shows it | evidently intended | confidence | as-written member | corrected member |
|---|---|---|---|---|---|---|
| xmega-clockmaker/uart.c:210-212 | `calc_bscale` starts at exponent -7 and compares `calc_bsel(...)` with 4096 after the conversion to `uint16_t`; for slow baud rates the first BSELs exceed 65535, and that conversion is undefined in C | f_cpu = 32000000, baud = 1200, clk2x = 0: BSEL at -7 is 213205 | return the least exponent whose BSEL is below 4096, here -1 with BSEL 3331, by comparing the rounded value before its conversion | medium, not executed | `UartBaud.LowBaudFirstConversionUndefined` | `UartBaud.CalcBscaleUnnarrowed` |
