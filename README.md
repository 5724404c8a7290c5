# Buffered UART driver (PIC18F) — Dafny model

This project models the buffered, interrupt-driven serial driver of a
PIC18F program (`uart.c`). The program submits bytes with `uartPutch`. If
the transmitter is idle (`UART_TRANSMISSION_REPOS`), the byte goes straight
to the hardware and the driver becomes busy (`UART_TRANSMISSION_EN_COURS`).
If the transmitter is busy, the byte waits in the transmit queue
`fileTransmission`. On every transmitter-ready interrupt, the interrupt
routine asks `uartCaracteresDisponiblesPourTransmission`:

- if the queue is empty, the answer is 0 and the driver goes back to idle;
- otherwise the answer is 255, and the routine takes the next byte with
  `uartTransmission` and writes it to the transmitter.

Received bytes enter the receive queue `fileReception` through
`uartReception` and are read with `uartGetch`. `uartReinitialise` empties
both queues and makes the driver idle.

Layout:

- `file.dfy`, module `Files`: the byte `Octet` (0..255) and the class
  `File`. `File` is a fixed-capacity ring buffer with a read index, a write
  index and a count. Its ghost `Contents` lists the bytes held, oldest first.
- `uart_model.dfy`, module `UartModel`: the driver as a value (`Uart`) with
  one function per entry point. It also holds the run of a trace of calls
  and the lemmas about runs: ordering, the invariant and draining.
- `uart.dfy`, module `UartDriver`: the class `Driver`. It has the status
  field `etat`, the two `File` queues, `dernierCaractereTransmis` and a
  ghost `sink` of the bytes handed to the transmitter. Each method states
  its effect on the fields. It also ties the driver's abstraction
  `Modele()` to the matching `UartModel` function. So the model lemmas hold
  of every sequence of calls on a `Driver` of its seven entry points:
  `Putch`, `Reception`, `Getch`, `CaracteresDisponiblesPourTransmission`,
  `Transmission`, `Interruption` and `Reinitialise`. `TestAT` is the driver's own
  test.

The hardware transmitter is modelled as in the source's test build: a
recorded last byte, `dernierCaractereTransmis`, plus the ghost `sink` of
every byte handed over since the last reinitialisation. The interrupt
routine of `main.c` writes `TXREG1` directly. `Driver.Interruption` routes
that write through the same sink, which is also what the non-test
`demarreTransmissionUart` does.

The comment above `uartCaracteresDisponiblesPourTransmission` says that
255 means nothing is left to transmit. The code does the opposite: it
returns 0 when the queue is empty and 255 otherwise. The model follows the
code.

## Model

| member | source | states |
|---|---|---|
| `Files.File.constructor` | uart.c:23-30 | a queue starts empty, with a fixed capacity of at least one |
| `Files.File.EstVide` | uart.c:92 | true exactly when the queue holds no byte |
| `Files.File.EstPleine` | uart.c:53 | true exactly when the queue holds as many bytes as its capacity |
| `Files.File.Enfile` | uart.c:54 | requires room; the byte is appended at the tail and no held byte is overwritten |
| `Files.File.Defile` | uart.c:65 | requires a byte; returns the oldest byte and removes exactly that byte (FIFO) |
| `Files.File.Reinitialise` | uart.c:124-125 | the queue is empty afterwards, whatever it held |
| `UartDriver.Driver.constructor` | uart.c:8-40 | the driver starts idle with both queues empty, and the last byte transmitted is 0 |
| `UartDriver.Driver.DemarreTransmission` | uart.c:8-11 | the byte becomes the last byte transmitted and is appended to the sink; the status is unchanged |
| `UartDriver.Driver.Putch` | uart.c:48-56 | idle: the byte is appended to the sink, the status becomes busy and the transmit queue is unchanged; busy, with room in the queue: the byte is appended to the transmit queue, the status stays busy and the sink is untouched; the receive queue is unchanged either way |
| `UartDriver.Driver.Getch` | uart.c:64-66 | requires a received byte; returns the oldest received byte and removes exactly it |
| `UartDriver.Driver.Reception` | uart.c:82-84 | requires room in the receive queue; appends the byte to it and changes nothing else |
| `UartDriver.Driver.CaracteresDisponiblesPourTransmission` | uart.c:91-98 | empty transmit queue: returns 0 and the status becomes idle; otherwise returns 255 and the status is unchanged; neither queue, the sink nor the last byte transmitted changes |
| `UartDriver.Driver.Transmission` | uart.c:116-118 | requires a queued byte; returns the oldest queued byte and removes exactly it; the status and the receive queue are unchanged |
| `UartDriver.Driver.Reinitialise` | uart.c:123-127 | both queues are empty and the status is idle afterwards, whatever the prior state; the last byte transmitted is unchanged |
| `UartDriver.Driver.Interruption` | main.c:21-26 | check-then-dequeue: with a byte queued, removes the oldest, hands it to the transmitter (it becomes the last byte transmitted and joins the sink) and stays busy; with none, goes idle and changes nothing else; keeps the model invariant |
| `UartDriver.TestAT` | uart.c:162-169 | after `Putch('A')` and `Putch('T')` from the initial state: the status is busy, the sink is exactly `['A']` and 'A' is the last byte transmitted, `Transmission` returns 'T', and the availability check then returns 0 |
| `UartModel.RunCapacite` | uart.c:23-30 | no sequence of calls changes the capacity of the queues |
| `UartModel.ReinitialiseOublie` | uart.c:123-127 | whatever calls came before, a reinitialisation leaves exactly the reset state: idle, both queues empty, empty sink, same capacity, invariant holding |
| `UartModel.StepInv` | uart.c:48-127 | each of the six `uart.c` entry points (including a direct `uartTransmission`) and the interrupt routine keeps the invariant: queues within capacity, and never idle while bytes wait to be sent |
| `UartModel.Ordre` | uart.c:48-118 | over any legal run of the seven entry points since the last reinitialisation, the bytes that left the driver (sent, or returned by a direct `uartTransmission`), in the order they left, followed by the bytes still queued are exactly the bytes submitted to `uartPutch`; when no direct `uartTransmission` took a byte, the bytes that left are exactly the sink; the bytes `uartGetch` returned followed by those still queued are exactly the bytes received |
| `UartModel.VidangeVersRepos` | main.c:21-26 | from a busy state, one interrupt per queued byte sends them all in order, and one more interrupt makes the driver idle |
| `UartModel.ReceptionPuisGetch` | uart.c:64-84 | a byte received into an empty queue is the next byte read back, and the state is then as before; otherwise the oldest byte is read and the new byte waits at the tail |

## Left out

- The queue module `file.h` is not part of this model. `File` implements
  only the five queue operations `uart.c` uses. Its capacity is a
  constructor parameter (at least one), because the real size is not known.
- The waits are preconditions, not loops. This covers the spin at
  uart.c:53 (`Driver.Putch` requires room when busy) and the wait inside
  `fileDefile` (`Driver.Getch` and `Driver.Transmission` require a byte).
  Preemption by the interrupt routine during those waits is concurrency and
  is not modelled; the model runs one call at a time.
- `Driver.Reception`: overflow of the receive queue is excluded by a
  precondition. What `fileEnfile` does when the queue is full is not known.
- `UartModel.Run` skips an operation that would wait or overflow. The
  ordering lemma only speaks of runs where no operation does (`Legal`).
- `DemarreTransmission` called on its own, outside `uartPutch`, is not one
  of the calls of the ordering lemma: it is the hardware sink, and `uart.c`
  calls it only from `uartPutch` (uart.c:50).
- The write to the hardware register `TXREG1` (uart.c:13-15 and main.c:23)
  is the ghost `sink`.
- The adapters `putch`, `getche` and `getch` (uart.c:135-157) are one-line
  forwards to `uartPutch` and `uartGetch`. `testUart` only calls `testAT`.
- Hardware set-up in `main.c` is not modelled: configuration bits,
  `initialiseHardware`, the `main` loop that prints through `printf`, and
  the clearing of the interrupt flag.
- 8-bit `char` and `unsigned char` are both `Octet`. The compiler treats
  plain `char` as unsigned, so no value is changed by that choice.
