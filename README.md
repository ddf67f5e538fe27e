# EVSE control-pilot firmware core, modelled in Dafny

This project models the control core of a small AC electric-vehicle charger (EVSE) firmware for a
CW32F003 microcontroller. In the firmware:

- a 10 ms tick runs a charging state machine: IDLE, CONNECTED, CHARGING_REQ, CHARGING, FAULT,
  VENTILATION and INIT;
- the state machine reads the control-pilot (CP) voltage band and the proximity-pilot (PP) cable
  coding;
- it commands a contactor, advertises the allowed charging current as a PWM duty cycle on the pilot
  line, and asks the UI to refresh.

Around the state machine sit:

- the CP duty mapping and classifier;
- the PP cable-capacity classifier;
- the contactor's commanded-state flag;
- the error latch;
- two interrupt-fed 64-byte UART ring buffers;
- the PWM timer arithmetic;
- ADC averaging;
- the SysTick tick divider;
- the text and number renderers of the SPI and I2C OLED drivers for an SSD130x controller (SSD1309 on the SPI build).

The CP bands and duty cycles follow Annex A of IEC 61851-1; the PP resistor coding follows Annex B.

One Dafny module per C file:

| file | module | form |
|---|---|---|
| `machine_ints.dfy` | `MachineInts` | `u8`/`u16`/`u32` subset types and the modular arithmetic facts the other modules share |
| `cp_signal.dfy` | `CpSignal` | duty mapping and threshold classifier as functions; `ReadState` reports to the error latch |
| `pp_signal.dfy` | `PpSignal` | the band classifier as a function |
| `contactor_control.dfy` | `ContactorControl` | class `Contactor` with the `contactor_is_closed` flag and a trace of GPIO levels written |
| `error_handler.dfy` | `ErrorHandler` | class `ErrorLatch`; the halting `while(1)` is a `halted` flag |
| `charging_sm.dfy` | `ChargingSm` | see below |
| `ring_buffer.dfy` | `RingBuffers` | class `RingBuffer` over a 64-slot `array<u8>` with `head`/`tail`/`count`, specified by its FIFO contents |
| `uart_driver.dfy` | `UartDriver` | class `DebugUart` with TX and RX ring buffers and the TXE/RC interrupt handlers |
| `hlw_uart_driver.dfy` | `HlwUartDriver` | class `HlwUart` with the metering RX buffer and its RC handler |
| `pwm_driver.dfy` | `PwmDriver` | ARR/CCR/prescaler arithmetic as functions, with methods that compute them in 32-bit and 16-bit arithmetic; class `Pwm` holds the stored frequency and duty |
| `adc_driver.dfy` | `AdcDriver` | the 8-sample averaging loop as a method against a sum function |
| `systick.dfy` | `SysTick` | class `SysTickCounters` with `uwTick`, both dividers and both task flags |
| `oled_text.dfy` | `OledText` | the bus-write trace both OLED drivers produce: cursor commands, glyph placement, string wrap, number rows |
| `oled_digits.dfy` | `OledDigits` | decimal and hex digit rows with their read-back |
| `oled_controller.dfy` | `OledController` | what an SSD130x page-addressing controller paints for a write trace |
| `oled_display.dfy` | `OledDisplay` | class `OledPanel`, one per bus, whose loops append to its trace |

In `ChargingSm`, one tick is the function `Step` from the three persistent fields and a reading to
the next fields and the ordered list of effects. The effects are contactor open/close, PWM duty and
UI update. The class `ChargingStateMachine` owns a `Contactor` and an `ErrorLatch`, and its
`RunStateMachine` method is proved equal to `Step`. Its invariant `Valid()` states the key safety
fact: the contactor is commanded closed exactly when the state is CHARGING.

The two OLED drivers share every drawing routine line for line. They differ in two places:

- framing: the SPI driver selects command or data with the D/C pin and sends the raw byte, while
  the I2C driver sends a frame of address, control byte (0x00 command, 0x40 data) and payload;
- the column commands of `OLED_SetCursor`: the I2C driver adds a column offset of 2 and sends the
  high nibble before the low one.

The model therefore keeps one panel class with an `Interface` parameter.

## Model

| member | source | states |
|---|---|---|
| ChargingSm.ChargingStateMachine.constructor | USER/src/charging_sm.c:10-12 | the three static fields start as INIT, 0 A, 0 A, with the contactor open |
| ChargingSm.ChargingStateMachine.Init | USER/src/charging_sm.c:19-39 | SM_Init opens the contactor, advertises 100 % (0 A), opens again and enters IDLE; both GPIO writes are RESET and the contactor ends open |
| ChargingSm.ChargingStateMachine.RunStateMachine | USER/src/charging_sm.c:47-173 | one tick classifies the CP sample and moves the fields and effects exactly as `Step`; the contactor ends closed iff the new state is CHARGING; an invalid CP voltage sets the latch to CP_VOLTAGE_INVALID and any other reading leaves the latch alone |
| ChargingSm.ChargingStateMachine.Switch | USER/src/charging_sm.c:54-164 | the switch over the current state yields the state-specific logic; the contactor's commanded flag matches "next state is CHARGING" and the pins written are those of that transition |
| ChargingSm.ChargingStateMachine.IdleCase | USER/src/charging_sm.c:54-87 | the IDLE branch follows the IDLE logic, opens the contactor once and leaves it open |
| ChargingSm.ChargingStateMachine.ConnectedCase | USER/src/charging_sm.c:89-103 | the CONNECTED branch follows its logic, writes RESET once and leaves the contactor open |
| ChargingSm.ChargingStateMachine.ChargingCase | USER/src/charging_sm.c:112-133 | the CHARGING branch keeps the contactor closed iff it stays in CHARGING and writes RESET only on an exit |
| ChargingSm.ChargingStateMachine.OpenContactor | USER/src/contactor_control.c:42-53 | a state-machine call to Contactor_Open adds one open effect, writes RESET and leaves the contactor open |
| ChargingSm.ChargingStateMachine.GetCurrentState | USER/src/charging_sm.c:179-182 | returns the current state unchanged |
| ChargingSm.ContactorClosedIffCharging | USER/src/charging_sm.c:36-173 | if the contactor was commanded closed exactly when the state was CHARGING before a tick, the open/close effects of the tick leave it closed exactly when the new state is CHARGING |
| ChargingSm.LogicClosedIffCharging | USER/src/charging_sm.c:54-164 | the same invariant for the state switch alone, before the UI call |
| ChargingSm.RunKeepsContactorSafe | USER/src/charging_sm.c:47-173 | over any sequence of ticks, the contactor is closed after the effects exactly when the final state is CHARGING |
| ChargingSm.TickWritesPinOnce | USER/src/charging_sm.c:47-173 | a tick writes the contactor GPIO at most once: SET when leaving CHARGING_REQ, nothing while CHARGING continues, RESET on every other tick |
| ChargingSm.LogicWritesPinOnce | USER/src/charging_sm.c:54-164 | the same GPIO-write count for the state switch alone |
| ChargingSm.PinWritesAgree | USER/src/contactor_control.c:42-80 | the last GPIO level written agrees with the commanded-closed flag the effects leave |
| ChargingSm.UiUpdateIffStateChange | USER/src/charging_sm.c:167-172 | UI_UpdateDisplay is called iff the next state differs from the current one, and then once and last |
| ChargingSm.IdleUnknownCableFaults | USER/src/charging_sm.c:56-61 | in IDLE, a vehicle with PP capacity 0 goes to FAULT with capacity 0, opens the contactor and advertises no PWM |
| ChargingSm.IdleVehicleDetected | USER/src/charging_sm.c:63-79 | in IDLE with a known cable, min(cable, 32) is stored and advertised first; then B goes to CONNECTED, C to CHARGING_REQ and D to FAULT; the contactor is opened |
| ChargingSm.IdleNoVehicle | USER/src/charging_sm.c:54-87 | in IDLE without a vehicle (A or Fault stays, E or F goes to FAULT); the PP is not read and the contactor is opened either way |
| ChargingSm.ConnectedTransitions | USER/src/charging_sm.c:89-103 | CONNECTED: C goes to CHARGING_REQ, A to IDLE with PWM(0) (and only then), E/F to FAULT, otherwise it stays; the contactor is opened every tick and never closed |
| ChargingSm.ChargingReqAlwaysCloses | USER/src/charging_sm.c:105-110 | CHARGING_REQ closes the contactor and enters CHARGING whatever the pilot reads |
| ChargingSm.ChargingTransitions | USER/src/charging_sm.c:112-133 | CHARGING: B goes to CONNECTED, A to IDLE with PWM(0), E/F to FAULT, any other reading stays with no effect; every exit opens the contactor first |
| ChargingSm.FaultVentilationInit | USER/src/charging_sm.c:135-163 | FAULT opens and advertises 0 A every tick and leaves only on A, to IDLE; VENTILATION goes to FAULT; INIT goes to IDLE |
| ChargingSm.NeverEntersVentilationOrInit | USER/src/charging_sm.c:47-173 | no tick ever enters VENTILATION or INIT |
| ChargingSm.AdvertisedCurrentWithinLimit | USER/src/charging_sm.c:63-79 | every advertised duty is 100 % or in [10, 53], i.e. at most 32 A; the stored maximum current stays at most 32 |
| ChargingSm.RunAdvertisesWithinLimit | USER/src/charging_sm.c:47-173 | over any sequence of ticks, the stored maximum current stays at most 32 A and every advertised duty stays within the 32 A duty |
| ChargingSm.SessionSteps | USER/src/charging_sm.c:56-133 | the five ticks of a plug-in, charge, pause, unplug session with a 32 A cable, one by one |
| ChargingSm.SessionUntilCharging | USER/src/charging_sm.c:56-110 | a 32 A cable reading B, C, C goes from IDLE to CHARGING, advertising 53 %, opening twice and then closing |
| ChargingSm.ChargingSession | USER/src/charging_sm.c:47-173 | the whole session B, C, C, B, A ends back in IDLE; its effects are 53 % PWM, open, open, close, open, then 100 % PWM and open, each with a UI update |
| CpSignal.MaxCurrentDuty | USER/src/cp_signal.c:62-102 | the advertised duty is 100 exactly for 0 A and otherwise lies in [10, 96] |
| CpSignal.ClampIsIdentity | USER/src/cp_signal.c:92-101 | the [5, 96] clamp never changes the computed duty |
| CpSignal.DutyIsRoundedFormula | USER/src/cp_signal.c:66-90 | 0 A → 100; 1-5 A → 10; 6-51 A → amps/0.6 rounded; 52-80 A → amps/2.5+64 rounded; above 80 A → the 80 A duty, 96 |
| CpSignal.DutyMonotone | USER/src/cp_signal.c:62-96 | for amps ≥ 1 the duty is non-decreasing in amps |
| CpSignal.DutySpotValues | USER/src/cp_signal.c:62-102 | spot values: 6 A → 10, 13 A → 22, 20 A → 33, 32 A → 53, 63 A → 89, 80 A → 96 |
| CpSignal.Classify | USER/src/cp_signal.c:131-162 | the classifier only ever yields A, B, C, D or Fault, never E or F |
| CpSignal.ClassifyBands | USER/src/cp_signal.c:131-162 | ≥3600 → A (except 0xFFFF), [2600,3600) → B, [1600,2600) → C, [600,1600) → D, <600 or 0xFFFF → Fault, each as an iff; only the <600 case counts as an invalid voltage |
| CpSignal.ClassifyMonotone | USER/src/cp_signal.c:131-162 | a higher raw voltage never gives a lower pilot state |
| CpSignal.ReadState | USER/src/cp_signal.c:113-163 | CP_ReadState returns the classification; below 600 it reports CP_VOLTAGE_INVALID, while 0xFFFF and A-D leave the latch unchanged and nothing halts |
| PpSignal.CableCapacity | USER/src/pp_signal.c:46-91 | the result is always one of 0, 13, 20, 32 or 63 A |
| PpSignal.CableCapacityBands | USER/src/pp_signal.c:63-90 | [2200,2700] → 13, [1400,1900] → 20, [500,1000] → 32 (500 included by first match), [200,499] → 63, everything else → 0, each as an iff |
| PpSignal.OpenAndShortAreUnknown | USER/src/pp_signal.c:63-90 | open circuit (4095) and short (0) give capacity 0; the shared boundary 500 gives 32 |
| PpSignal.NominalResistorsClassify | USER/src/pp_signal.c:79-90 | the raw values of the nominal 1.5 kΩ, 680 Ω, 220 Ω and 100 Ω codings fall in the 13, 20, 32 and 63 A bands |
| ContactorControl.PinFor | USER/src/contactor_control.c:9-10 | logic level 0 maps to the RESET pin level, any other to SET |
| ContactorControl.Contactor.constructor | USER/src/contactor_control.c:13 | the commanded flag starts false with no GPIO writes |
| ContactorControl.Contactor.Init | USER/src/contactor_control.c:20-35 | Contactor_Init writes RESET and ends with the contactor open |
| ContactorControl.Contactor.Open | USER/src/contactor_control.c:42-53 | Contactor_Open writes RESET and makes the flag false |
| ContactorControl.Contactor.Close | USER/src/contactor_control.c:58-69 | Contactor_Close writes SET and makes the flag true |
| ContactorControl.Contactor.IsClosed | USER/src/contactor_control.c:71-80 | returns the commanded flag, which equals "the last GPIO level written was SET", not a physical reading |
| ContactorControl.LastCommandWins | USER/src/contactor_control.c:42-69 | after any history the last command decides the state, and repeating a command changes nothing |
| ErrorHandler.ErrorLatch.constructor | USER/src/error_handler.c:10 | the latch starts as ERROR_NONE and not halted |
| ErrorHandler.ErrorLatch.Handle | USER/src/error_handler.c:17-77 | the latch takes the reported code, overwriting the previous one; the handler halts exactly for UART1_INIT_FAILED and SYSTICK_INIT_FAILED |
| ErrorHandler.ErrorLatch.GetLast | USER/src/error_handler.c:82-85 | returns the latch and changes nothing |
| RingBuffers.SlotShift | USER/src/uart_driver.c:70-81 | advancing tail by one slot modulo 64 shifts every later slot by one |
| RingBuffers.SlotsDistinct | USER/src/uart_driver.c:51-62 | the up to 64 slots after tail are pairwise distinct, so a write at head cannot overwrite stored bytes |
| RingBuffers.RingBuffer.constructor | USER/inc/uart_driver.h:13-18 | a new buffer has 64 slots, empty contents and head = tail = count = 0 |
| RingBuffers.RingBuffer.Init | USER/src/uart_driver.c:20-25 | RingBuffer_Init zeroes head, tail and count, so the contents are empty and the invariant count ≤ 64, head == (tail+count) mod 64 holds |
| RingBuffers.RingBuffer.IsFull | USER/src/uart_driver.c:32-34 | true exactly when 64 bytes are stored |
| RingBuffers.RingBuffer.IsEmpty | USER/src/uart_driver.c:41-43 | true exactly when no byte is stored |
| RingBuffers.RingBuffer.Put | USER/src/uart_driver.c:51-62 | a full buffer returns false with array, head, tail and count unchanged; otherwise returns true and appends the byte to the FIFO contents |
| RingBuffers.RingBuffer.Get | USER/src/uart_driver.c:70-81 | an empty buffer returns false with nothing changed; otherwise returns the oldest byte and removes it (FIFO order) |
| UartDriver.DebugUart.constructor | USER/src/uart_driver.c:11-12 | both buffers start empty with TXE off and nothing sent |
| UartDriver.DebugUart.Init | USER/src/uart_driver.c:101-150 | UART_Driver_Init empties both ring buffers and succeeds |
| UartDriver.DebugUart.Read | USER/src/uart_driver.c:192-199 | -1 exactly when RX is empty; otherwise the oldest byte, in 0..255, removed from RX |
| UartDriver.DebugUart.DataAvailable | USER/src/uart_driver.c:205-207 | true exactly when RX holds a byte |
| UartDriver.DebugUart.HandleTxe | USER/src/uart_driver.c:247-255 | sends the oldest TX byte if there is one, otherwise disables the TXE interrupt |
| UartDriver.DebugUart.HandleRc | USER/src/uart_driver.c:261-277 | a received byte is appended to RX unless RX is full, when it is dropped |
| HlwUartDriver.HlwUart.constructor | USER/src/hlw_uart_driver.c:12 | the HLW receive buffer starts empty |
| HlwUartDriver.HlwUart.Init | USER/src/hlw_uart_driver.c:89-137 | HLW_UART_Init empties the buffer and succeeds |
| HlwUartDriver.HlwUart.Read | USER/src/hlw_uart_driver.c:146-153 | -1 exactly when empty; otherwise the oldest byte, in 0..255, in insertion order |
| HlwUartDriver.HlwUart.DataAvailable | USER/src/hlw_uart_driver.c:159-161 | true exactly when count > 0 |
| HlwUartDriver.HlwUart.HandleRc | USER/src/hlw_uart_driver.c:172-191 | a received byte is appended if there is room; on a full buffer it is dropped and the latch becomes ERROR_BUFFER_FULL |
| PwmDriver.PrescalerBuckets | USER/src/pwm_driver.c:85-93 | prescaler 0 → DIV1, then DIV2/4/8/16/32/64/256 by range, ≥256 → failure; the divider chosen is at least prescaler+1 |
| PwmDriver.ArrPeriodModulo | USER/src/pwm_driver.c:59-60 | ARR+1 equals clk/freq modulo 2^16 |
| PwmDriver.ArrWrap | USER/src/pwm_driver.c:59-60 | the 32-bit `- 1` and the 16-bit store undo each other modulo 2^16 |
| PwmDriver.ArrExactWhenRepresentable | USER/src/pwm_driver.c:59-60 | when clk/freq lies in [1, 65536], ARR+1 is exactly clk/freq |
| PwmDriver.ArrWrapsWhenTooSlow | USER/src/pwm_driver.c:59-72 | 8 MHz at 100 Hz wraps to 14463; at 1 kHz it gives 7999; clk < freq gives 65535 |
| PwmDriver.CcrRoundsDown | USER/src/pwm_driver.c:113 | CCR is (ARR+1)·duty/100 rounded down |
| PwmDriver.CcrFits | USER/src/pwm_driver.c:113 | for ARR < 65535 and duty ≤ 100 the product needs no truncation to 16 bits |
| PwmDriver.CcrWithinPeriod | USER/src/pwm_driver.c:113 | CCR ≤ ARR+1, with equality exactly at 100 %, and 0 % gives 0 |
| PwmDriver.CcrWrapsAtFullRange | USER/src/pwm_driver.c:113 | with ARR = 65535 a 100 % duty truncates to CCR 0; 53 % of 8000 counts is 4240 |
| PwmDriver.ReloadFor | USER/src/pwm_driver.c:59-60 | with prescaler 0, the period ARR+1 the 32-bit computation and 16-bit store program is clk/freq modulo 2^16, and exactly clk/freq when that lies in [1, 65536] |
| PwmDriver.CompareFor | USER/src/pwm_driver.c:113 | for ARR < 65535 and duty ≤ 100 the compare value is (ARR+1)·duty/100 rounded down, at most ARR+1, and equal to ARR+1 exactly at 100 % |
| PwmDriver.Pwm.constructor | USER/src/pwm_driver.c:8-9 | the stored frequency and duty start at 0 and no timer is configured |
| PwmDriver.Pwm.Init | USER/src/pwm_driver.c:18-131 | fails iff freq is 0 or duty > 100, changing nothing; otherwise stores freq and duty and configures DIV1 with the ARR and CCR values |
| PwmDriver.Pwm.GetFrequency | USER/src/pwm_driver.c:148-151 | returns the stored frequency |
| PwmDriver.Pwm.GetDutyCycle | USER/src/pwm_driver.c:157-160 | returns the stored duty |
| AdcDriver.SumBounds | USER/src/adc_driver.c:118-122 | n samples each within [lo, hi] sum to within [n·lo, n·hi] |
| AdcDriver.AverageWithinSamples | USER/src/adc_driver.c:118-123 | the floored average of the 8 samples lies between the smallest and largest bound of the samples |
| AdcDriver.TwelveBitSamplesStayInRange | USER/src/adc_driver.c:118-130 | 12-bit samples give an average ≤ 4095 and a voltage ≤ 3300 mV, and full scale is exactly 3300 mV |
| AdcDriver.MilliVoltsMonotone | USER/src/adc_driver.c:130 | the voltage is non-decreasing in the average |
| AdcDriver.ReadVoltageMv | USER/src/adc_driver.c:88-132 | the loop accumulates exactly the 8 samples; the result is floor(sum/8)·3300/4095 |
| AdcDriver.ChannelRaw | USER/src/adc_driver.c:139-181 | the raw conversion never equals 0xFFFF, so the CP classifier reports an invalid voltage for it exactly when it is classified Fault |
| SysTick.Advance | USER/src/interrupts_cw32f003.c:128-143 | a divider step keeps the counter below its period, counts modulo the period and fires exactly when it returns to 0 |
| SysTick.CounterAfter | USER/src/interrupts_cw32f003.c:123-124 | the counter after any number of calls stays below its period |
| SysTick.DividerCountsModulo | USER/src/interrupts_cw32f003.c:128-143 | after n calls the counter is n mod period, and the n-th call fires exactly when period divides n |
| SysTick.DisplayTickIsStateMachineTick | USER/src/interrupts_cw32f003.c:128-143 | every call that raises the 100 ms flag also raises the 10 ms flag |
| SysTick.SysTickCounters.constructor | USER/src/interrupts_cw32f003.c:123-124 | counters and flags start cleared |
| SysTick.SysTickCounters.Handler | USER/src/interrupts_cw32f003.c:117-148 | uwTick grows by 1 mod 2^32; both counters advance; the 10 ms flag is set on every 10th call and the 100 ms flag on every 100th; the handler never clears a flag |
| SysTick.SysTickCounters.TakeRunStateMachineFlag | USER/src/main.c:59-61 | the main loop reads the 10 ms flag and clears it |
| SysTick.SysTickCounters.TakeUpdateDisplayFlag | USER/src/main.c:65-66 | the main loop reads the 100 ms flag and clears it |
| OledText.DataWrites | USER/src/spi_oled_driver.c:47-53 | one data write per payload byte |
| OledText.I2cFrameRoundTrip | USER/src/oled_driver.c:98-110 | each I2C transfer parses back to the write it encodes; control byte 0x00 marks a command and 0x40 data |
| OledText.CursorCommands | USER/src/spi_oled_driver.c:189-195 | SetCursor emits exactly three command bytes |
| OledText.CursorWrites | USER/src/oled_driver.c:200-206 | SetCursor emits exactly three command writes |
| OledText.CursorCommandsAddress | USER/src/spi_oled_driver.c:189-195 | the first command is 0xB0+y; the other two are a 0x1_ high nibble and a 0x0_ low nibble that together give the column (x for SPI, x+2 for I2C) |
| OledText.NextPosFits | USER/src/spi_oled_driver.c:272-293 | after any character the next cursor lies wholly on the panel |
| OledText.NextPosWraps | USER/src/spi_oled_driver.c:280-290 | the cursor advances by the character width; past 128 − width it wraps to x = 0 and the next page(s); past the last usable page it wraps to (0, 0) |
| OledText.Placements | USER/src/spi_oled_driver.c:272-293 | a string of n characters is drawn at n positions, the first at the start |
| OledText.PlacementsFit | USER/src/spi_oled_driver.c:272-293 | every character after the first lies wholly on the panel |
| OledText.StringBlocks | USER/src/spi_oled_driver.c:272-293 | one block of writes per character of the string |
| OledText.StringWritesAreCharacters | USER/src/spi_oled_driver.c:272-293 | ShowString's output is exactly the concatenation of one ShowChar per character at its placement |
| OledText.StringWritesStep | USER/src/spi_oled_driver.c:280-290 | drawing the rest of the string is one character then the rest from the next position |
| OledText.FirstNul | USER/src/spi_oled_driver.c:277 | the first NUL of the buffer and no earlier one ends the string |
| OledText.CText | USER/src/spi_oled_driver.c:277 | the text drawn contains no NUL |
| OledText.RowBlocks | USER/src/spi_oled_driver.c:311-331 | one block of writes per character of a number row |
| OledText.RowWritesAreCharacters | USER/src/spi_oled_driver.c:311-331 | a number row is exactly one ShowChar per character at x + t·width |
| OledText.PageWrites | USER/src/spi_oled_driver.c:217-228 | a filled page is three cursor commands and 128 data writes |
| OledController.Run | USER/src/spi_oled_driver.c:47-53 | data bytes paint one cell each |
| OledController.PaintedAppend | USER/src/spi_oled_driver.c:35-53 | painting two traces in turn equals painting their concatenation |
| OledController.PaintedData | USER/src/spi_oled_driver.c:47-53 | data writes paint consecutive columns of the current page and advance the column by their count |
| OledController.CursorSets | USER/src/spi_oled_driver.c:189-195 | SetCursor paints nothing and leaves the controller at page y, at column x (SPI) or x+2 (I2C) |
| OledController.CursorThenData | USER/src/oled_driver.c:200-206 | a cursor set followed by data paints the data starting exactly at the requested page and column |
| OledController.ShowCharCells | USER/src/spi_oled_driver.c:241-263 | in the page-addressing model, size 8 paints 8 glyph bytes on page y and 8 on page y+1 from column Column(bus, x); otherwise 6 bytes on page y; the column is not wrapped at 127 |
| OledController.FillCells | USER/src/spi_oled_driver.c:217-228 | in the page-addressing model, Fill paints the byte into 128 consecutive columns from Column(bus, 0) on each of the 8 pages (columns 0..127 on SPI, 2..129 on I2C, unwrapped) |
| OledDigits.DigitsOf | USER/src/spi_oled_driver.c:319-329 | a number yields exactly len digits |
| OledDigits.DigitShift | USER/src/spi_oled_driver.c:319 | digit k+1 of n is digit k of n/base |
| OledDigits.DigitsPrefix | USER/src/spi_oled_driver.c:319-329 | dropping the last digit of n's row gives the row of n/base |
| OledDigits.DigitsValue | USER/src/spi_oled_driver.c:319-329 | reading the digit row back gives n mod base^len |
| OledDigits.CharDigits | USER/src/spi_oled_driver.c:319-359 | one digit value per shown character |
| OledDigits.DecimalDigit | USER/src/spi_oled_driver.c:319 | digit t is (num / 10^(len-t-1) mod 2^32) % 10, a decimal digit |
| OledDigits.ShownMonotone | USER/src/spi_oled_driver.c:319-329 | once the enshow flag is set it stays set; a non-zero digit before the last sets it |
| OledDigits.NumChars | USER/src/spi_oled_driver.c:311-331 | ShowNum draws exactly len characters |
| OledDigits.NumCharsShape | USER/src/spi_oled_driver.c:319-329 | each character is ' ' or a digit; blanks only lead; the last position always shows a digit; the first shown digit before the last is non-zero |
| OledDigits.TenPowerFits | USER/src/spi_oled_driver.c:296-301 | 10^k for k ≤ 9 fits in 32 bits |
| OledDigits.NumCharDigit | USER/src/spi_oled_driver.c:319-329 | for len ≤ 10 each shown character reads back to the true decimal digit |
| OledDigits.NumCharsReadBack | USER/src/spi_oled_driver.c:311-331 | for len ≤ 10 the row reads back as num mod 10^len, and as num when it fits |
| OledDigits.NumCharsWrapBeyondTenDigits | USER/src/spi_oled_driver.c:296-301 | with 11 digits the 32-bit 10^10 wraps and the first digit of 4 000 000 000 is shown as 2 |
| OledDigits.Nibble | USER/src/spi_oled_driver.c:349 | each extracted nibble is below 16 |
| OledDigits.HexDigitCharRoundTrip | USER/src/spi_oled_driver.c:350-357 | nibbles map to '0'-'9' or 'A'-'F' and read back to themselves |
| OledDigits.HexChars | USER/src/spi_oled_driver.c:341-360 | ShowHexNum draws exactly len characters |
| OledDigits.HexCharsReadBack | USER/src/spi_oled_driver.c:341-360 | the hex row, most significant first, reads back as num mod 16^len, and as num for 8 digits |
| OledDisplay.OledPow | USER/src/spi_oled_driver.c:296-301 | oled_pow(m, n) returns m^n mod 2^32 |
| OledDisplay.NextCursor | USER/src/spi_oled_driver.c:283-289 | the loop's cursor update is the string wrap rule and always lands on the panel |
| OledDisplay.DecimalChar | USER/src/spi_oled_driver.c:319-329 | one loop step of ShowNum draws the t-th character of the row and keeps enshow equal to "a digit is shown from here on" |
| OledDisplay.HexChar | USER/src/spi_oled_driver.c:347-359 | one loop step of ShowHexNum draws a character in '0'-'9' or 'A'-'F' that reads back as nibble len-1-t of num, the t-th character of the hex row |
| OledDisplay.OledPanel.WriteCommand | USER/src/oled_driver.c:98-101 | appends one command write |
| OledDisplay.OledPanel.WriteData | USER/src/oled_driver.c:107-110 | appends one data write |
| OledDisplay.OledPanel.SetCursor | USER/src/spi_oled_driver.c:189-195 | appends the three cursor commands of the panel's bus |
| OledDisplay.OledPanel.Fill | USER/src/spi_oled_driver.c:217-228 | appends, for pages 0..7, a cursor set to (0, page) and 128 data bytes |
| OledDisplay.OledPanel.WritePageBytes | USER/src/spi_oled_driver.c:223-226 | appends 128 copies of the byte as data |
| OledDisplay.OledPanel.Clear | USER/src/spi_oled_driver.c:200-211 | Clear is Fill with 0x00 |
| OledDisplay.OledPanel.WriteGlyphBytes | USER/src/spi_oled_driver.c:251-261 | appends the glyph bytes as data, in order |
| OledDisplay.OledPanel.ShowChar | USER/src/spi_oled_driver.c:241-263 | appends exactly the cursor-and-glyph writes of one character at its origin |
| OledDisplay.OledPanel.ShowTallGlyph | USER/src/spi_oled_driver.c:248-256 | size 8: cursor at page y, top 8 bytes, cursor at page y+1, bottom 8 bytes |
| OledDisplay.OledPanel.ShowStringChar | USER/src/spi_oled_driver.c:279-291 | one loop iteration draws one character and moves the cursor; what is left to draw shrinks by that character |
| OledDisplay.OledPanel.ShowString | USER/src/spi_oled_driver.c:272-293 | appends exactly the characters up to the first NUL, placed by the wrap rule |
| OledDisplay.OledPanel.ShowRowChar | USER/src/spi_oled_driver.c:319-329 | one loop iteration draws the t-th character of a number row |
| OledDisplay.OledPanel.ShowCharAt | USER/src/spi_oled_driver.c:324-329 | draws a character at x + t·width |
| OledDisplay.OledPanel.ShowNum | USER/src/spi_oled_driver.c:311-331 | appends the len-character decimal row of num, blank-padded, at x + t·width |
| OledDisplay.OledPanel.ShowHexNum | USER/src/spi_oled_driver.c:341-360 | appends the len-character hex row of num at x + t·width |

## Left out

- Peripheral bring-up: GPIO, RCC, NVIC, timer, ADC, SPI and I2C configuration inside the `*_Init` functions, `System_Init` and the vendor libraries. These are register writes with no checkable logic; each `Init` keeps only the state it leaves behind.
- `main.c`: the init sequence, the watchdog and the flag-polling loop. Handing flags from the ISR to the loop is interrupt concurrency, so a state-machine tick is a direct method call and only the flag clears are modelled.
- Interrupt masking (`__disable_irq`/`__enable_irq`): ring-buffer updates are treated as atomic.
- Hardware waits: the ADC end-of-conversion polling, the SPI busy-flag wait and the I2C handshake in `OLED_WriteBytes` reduce to appending one write to the trace.
- I2C transfer failures: `OLED_WriteBytes` gives up without delivering the byte on a NACK, on arbitration loss, on an unexpected bus status and when the control byte is missing. The trace records what the driver asks to send, so on the I2C build `FillCells`, `ShowCharCells` and `CursorThenData` describe the panel only when every transfer is acknowledged.
- `UART_Write` and `fputc`: they spin until the ISR drains a full buffer, which needs concurrency.
- Floating point: `ADC_Read_Internal_Temperature`, `AC_GetCurrent` and the `%.1f` formatting in `ui_display.c`.
- `CP_SetMaxCurrentPWM`'s float formulas are replaced by exact integer forms of round-half-up: (10·amps+3)/6 and (4·amps+645)/10. No amps value in 6-80 puts either formula at or near a half, so the rounded results are the same.
- `ui_display.c`: display text glue. `UI_UpdateDisplay` is the `UiUpdate` effect.
- `PWM_Set_DutyCycle` and `PWM_Start` have no definition in the firmware; they are the `PwmDuty` effect.
- `CP_Signal_Init` and `PP_Signal_Init`: peripheral setup only.
- Font.h is not part of this model: glyphs are abstract byte payloads indexed by `chr - ' '`.
- OledController assumes page addressing mode, in which the column moves up by one after each data byte and never wraps. Both `OLED_Init` sequences select horizontal addressing mode (`0x20, 0x00`), while `OLED_SetCursor` sends page-addressing commands. So `CursorSets`, `CursorThenData`, `ShowCharCells` and `FillCells` describe the panel only under that assumption. Near the right edge (the I2C build's columns 128 and 129, or a glyph started past column 120) they name cells a 128-column SSD130x does not have.
- `OLED_Init`, `OLED_DrawBMP`, `OLED_DrawPixel` and `OLED_UpdateScreen`: the first two are fixed command or bitmap dumps; the other two are compiled out (`OLED_USE_BUFFER` is undefined).
- `ErrorHandler_ClearLast` is declared but has no body, so it is not modelled.
- Error logging: module names and line numbers passed to `ErrorHandler_Handle` are not modelled; only the code is.
- `printf` debug output of the state machine is not modelled.
- The halting `while(1)` of the error handler is the `halted` flag. Methods that report errors require `!halted`, since nothing runs after a halt.
- OledDisplay.OledPanel.ShowNum requires len ≤ 32. From len 33 on, the 32-bit power 10^(len-1) is 0 and the C code divides by zero. For len 11-32 the wrapped powers are modelled (`NumCharsWrapBeyondTenDigits`); the read-back lemmas need len ≤ 10.
- OledDisplay.OledPanel.ShowHexNum requires len ≤ 8. A shift of 32 or more bits is undefined behaviour in C.
- OledDisplay.OledPanel.ShowString requires the NUL within the first 256 bytes, because the C index `j` is a `uint8_t`.
- PwmDriver.Pwm.Init does not write the `while (arrValue > 65535)` loop as a loop. `arrValue` is a `uint16_t`, so the guard is always false; the model computes with prescaler 0 (DIV1), and `PrescalerBuckets` gives the bucket chain the loop would feed.
- The OLED drivers' `OLED_ShowChar` bodies are modelled once for both buses. Only the cursor encoding differs between the SPI and I2C drivers.
