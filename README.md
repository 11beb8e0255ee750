# ESP-EDU firmware exercises: a verified Dafny model

This project models the decision logic of a set of ESP32 (ESP-EDU board) firmware exercises:

- the BLE-controlled **line-follower robot**: its command handler, heading decision, motor table, battery monitor and link fail-safe;
- **decimal-to-BCD conversion** and the GPIO driving of a BCD/7-segment display;
- three **ultrasonic distance meters**, which differ in how they are driven: polled switches, switch interrupts, and switch interrupts plus a serial port;
- the **ECG replay** through the DAC;
- the **plant irrigation** controller.

Each FreeRTOS task iteration and each callback is one atomic step of a Dafny class whose fields are the program's globals. Driver calls become explicit state:

- LED and LCD contents;
- traces of GPIO writes, PWM calls, BLE strings, UART strings and DAC samples.

Sensor readings enter as method parameters: line detectors, ADC values, the HC-SR04 distance, switch and serial bytes, the BLE link status and the humidity pin. Every state-changing method is proved equal to a pure step function, and the properties are proved about those functions and about runs of events.

Modules:

| file | module | models |
|---|---|---|
| Board.dfy | `Board` | C integer widths, the three LEDs, switch masks, GPIO writes and the level a pin was last driven to |
| DecimalText.dfy | `DecimalText` | `%u` / `UartItoa(n, 10)` text and its read-back |
| LineFollower.dfy | `LineFollower` | Proyecto_integrador.c |
| BcdDisplay.dfy | `BcdDisplay` | Guia1_Ejercicio4/5/6.c |
| Vumeter.dfy | `Vumeter` | `vumetro`, shared by the three meters |
| MeterPolling.dfy | `MeterPolling` | P2_1 |
| MeterInterrupts.dfy | `MeterInterrupts` | P2_2 |
| MeterSerial.dfy | `MeterSerial` | P2_3 |
| EcgReplay.dfy | `EcgReplay` | P2_4 |
| Irrigation.dfy | `Irrigation` | the irrigation controller (examen) |

The three meters are three separate programs, each with its own globals, so each module keeps its own `State` and its own copies of the toggles and the measuring step, even where they coincide with another meter's.

Two behaviours of the robot code that a reader might not expect, modelled as the code has them:

- The run state is the two booleans `encendido` and `pausa`, not a three-valued state with "paused implies running". `'o'` clears `encendido` but leaves `pausa` set, so "stopped but paused" is reachable; a later `'O'` then runs with `pausa` still set, and the robot stays stopped until `'p'`.
- The battery percentage is not clamped to 100. A reading above 2120 gives more than 100 %, matches no band, and the previous `aux_bat` text (initially empty) is sent again.

## Model

| member | source | states |
|---|---|---|
| Board.LitCount | firmware/projects/P2_1_Medidor_distancia_ultrasonido/main/P2_1_Medidor_distancia_ultrasonido.c:63-84 | the number of lit LEDs is at most 3; it is 0 exactly when all are off and 3 exactly when all are on |
| Board.Level | firmware/projects/Guia1_Ejercicio5/main/Guia1_Ejercicio5.c:48-57 | a pin's level is None exactly when no write touches it; otherwise it is the value of some write to that pin |
| Board.LevelAppend | firmware/projects/Guia1_Ejercicio6/main/Guia1_Ejercicio6.c:63-67 | later writes override earlier ones; a pin the later writes never touch keeps its earlier level |
| Board.LevelSingleWrite | firmware/projects/Guia1_Ejercicio5/main/Guia1_Ejercicio5.c:49-56 | a pin written exactly once is at the level of that write |
| DecimalText.Decimal | firmware/projects/P2_3_Ultrasonido_puerto_serie/main/P2_3_Ultrasonido_puerto_serie.c:108 | the text of a number is non-empty, all decimal digits, and has no leading zero unless the number is 0 |
| DecimalText.ValueOfDecimal | firmware/projects/P2_3_Ultrasonido_puerto_serie/main/P2_3_Ultrasonido_puerto_serie.c:108 | reading the decimal text back gives the number (round trip) |
| DecimalText.DecimalInjective | firmware/projects/Proyecto_integrador/main/Proyecto_integrador.c:261 | different numbers have different texts |
| LineFollower.OnCommand | firmware/projects/Proyecto_integrador/main/Proyecto_integrador.c:138-171 | something is sent exactly when the first byte is O/o, or P/p while running; an ignored byte changes nothing; `encendido` moves only on O/o; `pausa` moves only on P/p and only while running |
| LineFollower.CommandTable | firmware/projects/Proyecto_integrador/main/Proyecto_integrador.c:140-166 | O sets `encendido` and o clears it, neither touching `pausa`; P/p set/clear `pausa` while running; each sends its fixed strings in order |
| LineFollower.Heading | firmware/projects/Proyecto_integrador/main/Proyecto_integrador.c:219-241 | the direction is one of A/I/D/F; it is F unless running and not paused; when running, it follows the (left, right) truth table in both directions |
| LineFollower.MotorCalls | firmware/projects/Proyecto_integrador/main/Proyecto_integrador.c:177-210 | MIB and MDB are always driven high first; an unknown char adds nothing else; a known char ends by setting its two duties |
| LineFollower.PwmOnOnlyWhenMoving | firmware/projects/Proyecto_integrador/main/Proyecto_integrador.c:181-205 | the PWM outputs are switched on exactly for A, I and D (not for F) |
| LineFollower.DutyAsymmetry | firmware/projects/Proyecto_integrador/main/Proyecto_integrador.c:185-204 | A drives both wheels equally, I drives the left harder, D the right harder; no duty exceeds 100 |
| LineFollower.HeadingHasDuties | firmware/projects/Proyecto_integrador/main/Proyecto_integrador.c:177-241 | every direction the decision produces has an entry in the motor table |
| LineFollower.BatteryPercent | firmware/projects/Proyecto_integrador/main/Proyecto_integrador.c:260 | the percentage is the integer quotient raw*100/2100, stated by its bounds |
| LineFollower.BatteryPercentMonotone | firmware/projects/Proyecto_integrador/main/Proyecto_integrador.c:260 | a higher reading never gives a lower percentage |
| LineFollower.BatteryPercentRange | firmware/projects/Proyecto_integrador/main/Proyecto_integrador.c:260 | the percentage is at most 100 exactly when the reading is at most 2120 (no clamp) |
| LineFollower.Band | firmware/projects/Proyecto_integrador/main/Proyecto_integrador.c:263-271 | a band is chosen exactly when the percentage is at most 100 |
| LineFollower.BandTable | firmware/projects/Proyecto_integrador/main/Proyecto_integrador.c:263-271 | percentages 0..10 are critical, 11..20 low, 21..50 medium and 51..100 good |
| LineFollower.BandMonotone | firmware/projects/Proyecto_integrador/main/Proyecto_integrador.c:263-271 | the bands critical/low/medium/good are ordered like the percentages |
| LineFollower.BatteryMessage | firmware/projects/Proyecto_integrador/main/Proyecto_integrador.c:264-270 | the message starts with the `*BEl nivel de bateria es de: ` prefix and ends with `*` |
| LineFollower.ReportedPercentOfMessage | firmware/projects/Proyecto_integrador/main/Proyecto_integrador.c:261-270 | a receiver reading the digits after the prefix gets the percentage back |
| LineFollower.NextAuxBat | firmware/projects/Proyecto_integrador/main/Proyecto_integrador.c:255-272 | for readings up to 2120 the new `aux_bat` reports the percentage and carries the alert text of that percentage's band; above that it is the previous text unchanged |
| LineFollower.BatteryExamples | firmware/projects/Proyecto_integrador/main/Proyecto_integrador.c:255-272 | a reading of 168 (8 %) sends the critical alert and one of 1155 (55 %) the good one |
| LineFollower.LinkLossStops | firmware/projects/Proyecto_integrador/main/Proyecto_integrador.c:339-358 | BLE_OFF and BLE_DISCONNECTED clear both flags, so the robot heads F whatever the sensors say; BLE_CONNECTED leaves the flags alone |
| LineFollower.StoppedWhilePausedReachable | firmware/projects/Proyecto_integrador/main/Proyecto_integrador.c:140-159 | O, P, o from boot reaches (`encendido`=false, `pausa`=true); a further O reaches (true, true), whose heading is F |
| LineFollower.PauseHoldsUntilResume | firmware/projects/Proyecto_integrador/main/Proyecto_integrador.c:154-166 | once paused, the robot stays paused and heads F until it receives p or the link drops |
| LineFollower.PausedImpliesRunningWithoutStop | firmware/projects/Proyecto_integrador/main/Proyecto_integrador.c:147-166 | without an o command, "paused implies running" is preserved by every command and link poll |
| LineFollower.Robot.constructor | firmware/projects/Proyecto_integrador/main/Proyecto_integrador.c:120-121 | at boot both flags are false, `direccion` is 'X', `aux_bat` is empty and nothing has been sent |
| LineFollower.Robot.ReadData | firmware/projects/Proyecto_integrador/main/Proyecto_integrador.c:138-171 | the flags and the BLE trace become what OnCommand gives for the first byte only |
| LineFollower.Robot.ControlMotores | firmware/projects/Proyecto_integrador/main/Proyecto_integrador.c:177-210 | the driver calls appended are exactly MotorCalls of the current `direccion` |
| LineFollower.Robot.DetectarLinea | firmware/projects/Proyecto_integrador/main/Proyecto_integrador.c:216-245 | each cycle sets `direccion` to the Heading of the flags and sensors and calls ControlMotores exactly once; the third branch is unreachable |
| LineFollower.Robot.ControlBateria | firmware/projects/Proyecto_integrador/main/Proyecto_integrador.c:251-276 | while stopped nothing changes; while running (paused or not) `aux_bat` becomes NextAuxBat and is sent once |
| LineFollower.Robot.PollLink | firmware/projects/Proyecto_integrador/main/Proyecto_integrador.c:337-360 | the flags become LinkFlags and the LEDs LinkLeds of the polled status |
| LineFollower.StartAndGoAhead | firmware/projects/Proyecto_integrador/main/Proyecto_integrador.c:140-146 | after O on a fresh robot with both sensors on the line, it runs unpaused, heads A at 65/65 and has sent the start strings |
| BcdDisplay.BcdDigits | firmware/projects/Guia1_Ejercicio4/main/Guia1_Ejercicio4.c:34-40 | the conversion has exactly `digits` entries, each in 0..9 |
| BcdDisplay.BcdDigitsValue | firmware/projects/Guia1_Ejercicio4/main/Guia1_Ejercicio4.c:35-38 | the digits, most significant first, denote data mod 10^digits; higher-order digits are dropped |
| BcdDisplay.BcdDigitAt | firmware/projects/Guia1_Ejercicio4/main/Guia1_Ejercicio4.c:35-37 | entry k is decimal digit digits-1-k of data, so the last entry is the least significant digit |
| BcdDisplay.BcdDigitsGrow | firmware/projects/Guia1_Ejercicio5/main/Guia1_Ejercicio5.c:41-44 | one more loop iteration puts the next higher digit in front |
| BcdDisplay.ConvertToBcdArray | firmware/projects/Guia1_Ejercicio4/main/Guia1_Ejercicio4.c:34-40 | returns 0; entries 0..digits-1 of the array hold BcdDigits; every entry beyond them is unchanged |
| BcdDisplay.Gpio.constructor | firmware/projects/Guia1_Ejercicio5/main/Guia1_Ejercicio5.c:76-78 | no pin has been written yet |
| BcdDisplay.Gpio.On | firmware/projects/Guia1_Ejercicio5/main/Guia1_Ejercicio5.c:51 | GPIOOn appends a high write of the pin |
| BcdDisplay.Gpio.Off | firmware/projects/Guia1_Ejercicio5/main/Guia1_Ejercicio5.c:54 | GPIOOff appends a low write of the pin |
| BcdDisplay.NibbleWrites | firmware/projects/Guia1_Ejercicio5/main/Guia1_Ejercicio5.c:48-57 | cambiaEstado makes exactly four writes |
| BcdDisplay.NibbleRoundTrip | firmware/projects/Guia1_Ejercicio5/main/Guia1_Ejercicio5.c:50 | the four pin levels read back as binary give the digit's low four bits; bits above 3 are ignored |
| BcdDisplay.DigitFitsNibble | firmware/projects/Guia1_Ejercicio5/main/Guia1_Ejercicio5.c:81 | a BCD digit loses nothing in the four bits |
| BcdDisplay.NibbleLevels | firmware/projects/Guia1_Ejercicio5/main/Guia1_Ejercicio5.c:48-57 | after cambiaEstado, pin gpi[i] is on iff bit i of the digit is set, and every other pin keeps its level |
| BcdDisplay.CambiaEstado | firmware/projects/Guia1_Ejercicio5/main/Guia1_Ejercicio5.c:48-57 | the writes appended are exactly NibbleWrites, in pin order 0..3 |
| BcdDisplay.Latch | firmware/projects/Guia1_Ejercicio6/main/Guia1_Ejercicio6.c:64-66 | one digit is six writes, ending with its position pin on and then off |
| BcdDisplay.DisplayWrites | firmware/projects/Guia1_Ejercicio6/main/Guia1_Ejercicio6.c:63-67 | a display of n digits is 6n writes |
| BcdDisplay.DisplayLatchAt | firmware/projects/Guia1_Ejercicio6/main/Guia1_Ejercicio6.c:63-67 | writes 6i..6i+5 are the latch of digit i on position pin i, in order |
| BcdDisplay.LatchLevels | firmware/projects/Guia1_Ejercicio6/main/Guia1_Ejercicio6.c:64-66 | one latch leaves its position pin off, each data pin at its bit of the digit, and every other pin untouched |
| BcdDisplay.DisplayPositionsOff | firmware/projects/Guia1_Ejercicio6/main/Guia1_Ejercicio6.c:63-67 | after the display every position pin is off |
| BcdDisplay.DisplayDataLast | firmware/projects/Guia1_Ejercicio6/main/Guia1_Ejercicio6.c:63-67 | after the display the data pins hold the last (least significant) digit |
| BcdDisplay.LatchDigit | firmware/projects/Guia1_Ejercicio6/main/Guia1_Ejercicio6.c:64-66 | one loop iteration appends exactly the Latch of its digit |
| BcdDisplay.MostrarDisplay | firmware/projects/Guia1_Ejercicio6/main/Guia1_Ejercicio6.c:60-68 | the writes appended are the latches of the converted digits, in order |
| BcdDisplay.DisplayWritesStep | firmware/projects/Guia1_Ejercicio6/main/Guia1_Ejercicio6.c:63-67 | one more digit appends its latch |
| BcdDisplay.Bcd123 | firmware/projects/Guia1_Ejercicio4/main/Guia1_Ejercicio4.c:44-47 | 123 with 3 digits converts to [1, 2, 3] |
| BcdDisplay.Ejercicio4Main | firmware/projects/Guia1_Ejercicio4/main/Guia1_Ejercicio4.c:43-54 | the digits printed are 1, 2, 3 |
| BcdDisplay.DigitWrites | firmware/projects/Guia1_Ejercicio5/main/Guia1_Ejercicio5.c:80-82 | four writes per digit |
| BcdDisplay.DigitWritesLast | firmware/projects/Guia1_Ejercicio5/main/Guia1_Ejercicio5.c:80-82 | after writing several digits to the same pins, the pins hold the last digit |
| BcdDisplay.Ejercicio5Main | firmware/projects/Guia1_Ejercicio5/main/Guia1_Ejercicio5.c:60-84 | the pins end encoding 3: GPIO_20 and GPIO_21 on, GPIO_22 and GPIO_23 off |
| BcdDisplay.Ejercicio6Main | firmware/projects/Guia1_Ejercicio6/main/Guia1_Ejercicio6.c:70-103 | 1 is latched by GPIO_19, 2 by GPIO_18, 3 by GPIO_9, in that order, and nothing else is written |
| Vumeter.Vumetro | firmware/projects/P2_2_Ultrasonido_interrupciones/main/P2_2_Ultrasonido_interrupciones.c:70-91 | at exactly 10, 20 or 30 cm the LEDs keep their state; otherwise they form a bar of min(d/10, 3) LEDs |
| Vumeter.VumetroBands | firmware/projects/P2_1_Medidor_distancia_ultrasonido/main/P2_1_Medidor_distancia_ultrasonido.c:63-84 | below 10 all off, 11..19 LED_1, 21..29 LED_1 and LED_2, above 30 all three |
| Vumeter.VumetroMonotone | firmware/projects/P2_3_Ultrasonido_puerto_serie/main/P2_3_Ultrasonido_puerto_serie.c:64-85 | away from the gaps, a farther object never lights fewer LEDs |
| MeterPolling.OnSwitches | firmware/projects/P2_1_Medidor_distancia_ultrasonido/main/P2_1_Medidor_distancia_ultrasonido.c:106-114 | `control` changes iff the reading is SWITCH_1, `pausa` iff it is SWITCH_2; nothing else changes |
| MeterPolling.OnMeasure | firmware/projects/P2_1_Medidor_distancia_ultrasonido/main/P2_1_Medidor_distancia_ultrasonido.c:92-94 | `distancia` changes only while `control`, and then takes the reading |
| MeterPolling.OnShow | firmware/projects/P2_1_Medidor_distancia_ultrasonido/main/P2_1_Medidor_distancia_ultrasonido.c:125-130 | the LCD is written only when running and not paused; vumetro applies while running; when stopped nothing changes |
| MeterPolling.HoldFreezesLcd | firmware/projects/P2_1_Medidor_distancia_ultrasonido/main/P2_1_Medidor_distancia_ultrasonido.c:111-128 | while paused, the LCD keeps its content until SWITCH_2 is read again |
| MeterPolling.OffFreezesAll | firmware/projects/P2_1_Medidor_distancia_ultrasonido/main/P2_1_Medidor_distancia_ultrasonido.c:92-130 | while stopped, distance, LEDs and LCD stay as they were until SWITCH_1 is read again |
| MeterPolling.Meter.constructor | firmware/projects/P2_1_Medidor_distancia_ultrasonido/main/P2_1_Medidor_distancia_ultrasonido.c:49-57 | `control` starts true, `pausa` false, `distancia` 0 |
| MeterPolling.Meter.LeerTecla | firmware/projects/P2_1_Medidor_distancia_ultrasonido/main/P2_1_Medidor_distancia_ultrasonido.c:103-117 | the new state is OnSwitches of the old |
| MeterPolling.Meter.LeerDistancia | firmware/projects/P2_1_Medidor_distancia_ultrasonido/main/P2_1_Medidor_distancia_ultrasonido.c:90-97 | the new state is OnMeasure of the old |
| MeterPolling.Meter.MostrarDistancia | firmware/projects/P2_1_Medidor_distancia_ultrasonido/main/P2_1_Medidor_distancia_ultrasonido.c:123-133 | the new state is OnShow of the old |
| MeterInterrupts.ToggleControl | firmware/projects/P2_2_Ultrasonido_interrupciones/main/P2_2_Ultrasonido_interrupciones.c:127-129 | negates `control` and nothing else |
| MeterInterrupts.ToggleHold | firmware/projects/P2_2_Ultrasonido_interrupciones/main/P2_2_Ultrasonido_interrupciones.c:134-136 | negates `pausa` and nothing else |
| MeterInterrupts.TogglesAreInvolutions | firmware/projects/P2_2_Ultrasonido_interrupciones/main/P2_2_Ultrasonido_interrupciones.c:127-151 | each toggle applied twice restores the state; LeerTecla(SWITCH_1) is LeerTeclaOnOff, LeerTecla(SWITCH_2) is LeerTeclaHold, and any other key changes nothing |
| MeterInterrupts.OnMeasure | firmware/projects/P2_2_Ultrasonido_interrupciones/main/P2_2_Ultrasonido_interrupciones.c:99-101 | `distancia` changes only while `control`, and then takes the reading |
| MeterInterrupts.OnShow | firmware/projects/P2_2_Ultrasonido_interrupciones/main/P2_2_Ultrasonido_interrupciones.c:111-120 | stopped: LEDs and LCD off; paused: LCD kept and vumetro applied; running: LCD shows the distance and vumetro applied |
| MeterInterrupts.OffIsDark | firmware/projects/P2_2_Ultrasonido_interrupciones/main/P2_2_Ultrasonido_interrupciones.c:99-120 | while stopped the distance is frozen, and after any display step the LEDs and LCD are dark |
| MeterInterrupts.Meter.constructor | firmware/projects/P2_2_Ultrasonido_interrupciones/main/P2_2_Ultrasonido_interrupciones.c:48-56 | `control` starts true, `pausa` false, `distancia` 0 |
| MeterInterrupts.Meter.LeerTeclaOnOff | firmware/projects/P2_2_Ultrasonido_interrupciones/main/P2_2_Ultrasonido_interrupciones.c:127-129 | the new state is ToggleControl of the old |
| MeterInterrupts.Meter.LeerTeclaHold | firmware/projects/P2_2_Ultrasonido_interrupciones/main/P2_2_Ultrasonido_interrupciones.c:134-136 | the new state is ToggleHold of the old |
| MeterInterrupts.Meter.LeerTecla | firmware/projects/P2_2_Ultrasonido_interrupciones/main/P2_2_Ultrasonido_interrupciones.c:142-151 | the new state is OnKey of the old |
| MeterInterrupts.Meter.LeerDistancia | firmware/projects/P2_2_Ultrasonido_interrupciones/main/P2_2_Ultrasonido_interrupciones.c:96-103 | the new state is OnMeasure of the old |
| MeterInterrupts.Meter.MostrarDistancia | firmware/projects/P2_2_Ultrasonido_interrupciones/main/P2_2_Ultrasonido_interrupciones.c:108-122 | the new state is OnShow of the old |
| MeterSerial.Report | firmware/projects/P2_3_Ultrasonido_puerto_serie/main/P2_3_Ultrasonido_puerto_serie.c:108-111 | one report is four strings: decimal digits, then " ", "cm", "\r\n" |
| MeterSerial.ReportReadBack | firmware/projects/P2_3_Ultrasonido_puerto_serie/main/P2_3_Ultrasonido_puerto_serie.c:108-111 | appending a report keeps the serial trace made of whole reports, and the PC reads back exactly the distance sent |
| MeterSerial.ToggleControl | firmware/projects/P2_3_Ultrasonido_puerto_serie/main/P2_3_Ultrasonido_puerto_serie.c:125-127 | negates `control` and nothing else |
| MeterSerial.ToggleHold | firmware/projects/P2_3_Ultrasonido_puerto_serie/main/P2_3_Ultrasonido_puerto_serie.c:132-134 | negates `pausa` and nothing else |
| MeterSerial.OnSerialKey | firmware/projects/P2_3_Ultrasonido_puerto_serie/main/P2_3_Ultrasonido_puerto_serie.c:147-158 | `control` changes iff the byte is 'O', `pausa` iff it is 'H'; nothing else changes |
| MeterSerial.SerialKeyInvolution | firmware/projects/P2_3_Ultrasonido_puerto_serie/main/P2_3_Ultrasonido_puerto_serie.c:125-134 | the same byte received twice restores the state |
| MeterSerial.OnMeasure | firmware/projects/P2_3_Ultrasonido_puerto_serie/main/P2_3_Ultrasonido_puerto_serie.c:93-95 | `distancia` changes only while `control`, and then takes the reading |
| MeterSerial.OnShow | firmware/projects/P2_3_Ultrasonido_puerto_serie/main/P2_3_Ultrasonido_puerto_serie.c:105-118 | running: LCD written and one report sent; paused: nothing sent and LCD kept; stopped: nothing sent and LEDs and LCD off |
| MeterSerial.StepReports | firmware/projects/P2_3_Ultrasonido_puerto_serie/main/P2_3_Ultrasonido_puerto_serie.c:102-158 | every event keeps the trace framed; only a display step while running and unpaused adds to what the PC reads, and it adds the current distance |
| MeterSerial.RunFramed | firmware/projects/P2_3_Ultrasonido_puerto_serie/main/P2_3_Ultrasonido_puerto_serie.c:102-120 | any run keeps the serial trace made of whole reports and never takes reports back |
| MeterSerial.SilentUntilOn | firmware/projects/P2_3_Ultrasonido_puerto_serie/main/P2_3_Ultrasonido_puerto_serie.c:54-95 | from a stopped state (the initial one), nothing is measured or sent until 'O' or SWITCH_1 |
| MeterSerial.SerialMeter.constructor | firmware/projects/P2_3_Ultrasonido_puerto_serie/main/P2_3_Ultrasonido_puerto_serie.c:50-58 | `control` starts false, `pausa` false, `distancia` 0; nothing has been sent |
| MeterSerial.SerialMeter.UartSendString | firmware/projects/P2_3_Ultrasonido_puerto_serie/main/P2_3_Ultrasonido_puerto_serie.c:108-111 | appends the string to the serial trace and changes nothing else |
| MeterSerial.SerialMeter.LeerTeclaOnOff | firmware/projects/P2_3_Ultrasonido_puerto_serie/main/P2_3_Ultrasonido_puerto_serie.c:125-127 | the new state is ToggleControl of the old |
| MeterSerial.SerialMeter.LeerTeclaHold | firmware/projects/P2_3_Ultrasonido_puerto_serie/main/P2_3_Ultrasonido_puerto_serie.c:132-134 | the new state is ToggleHold of the old |
| MeterSerial.SerialMeter.ControlXTeclado | firmware/projects/P2_3_Ultrasonido_puerto_serie/main/P2_3_Ultrasonido_puerto_serie.c:147-158 | the new state is OnSerialKey of the old |
| MeterSerial.SerialMeter.LeerDistancia | firmware/projects/P2_3_Ultrasonido_puerto_serie/main/P2_3_Ultrasonido_puerto_serie.c:90-97 | the new state is OnMeasure of the old |
| MeterSerial.SerialMeter.MostrarDistancia | firmware/projects/P2_3_Ultrasonido_puerto_serie/main/P2_3_Ultrasonido_puerto_serie.c:102-120 | the new state, serial trace included, is OnShow of the old |
| EcgReplay.Tick | firmware/projects/P2_4_Osciloscopio/main/P2_4_Osciloscopio.c:105-110 | below 231, outputs table[counter] and increments; at 231, outputs nothing and resets to 0; the counter never leaves 0..231 |
| EcgReplay.ReplayBounded | firmware/projects/P2_4_Osciloscopio/main/P2_4_Osciloscopio.c:105-110 | from any index in 0..231 the index stays in 0..231, so the table access is in bounds |
| EcgReplay.ReplayAppend | firmware/projects/P2_4_Osciloscopio/main/P2_4_Osciloscopio.c:102-111 | m notifications then n notifications are m + n notifications |
| EcgReplay.IdleTick | firmware/projects/P2_4_Osciloscopio/main/P2_4_Osciloscopio.c:108-109 | the notification at 231 writes nothing and resets the index |
| EcgReplay.ReplayToEnd | firmware/projects/P2_4_Osciloscopio/main/P2_4_Osciloscopio.c:105-110 | from index c, the remaining samples are written in order, then the index returns to 0 |
| EcgReplay.OnePeriod | firmware/projects/P2_4_Osciloscopio/main/P2_4_Osciloscopio.c:105-110 | from 0, 232 notifications write the whole table once, in order, and return to 0 |
| EcgReplay.Repeat | firmware/projects/P2_4_Osciloscopio/main/P2_4_Osciloscopio.c:105-110 | k copies of the table are k times as long |
| EcgReplay.Periodic | firmware/projects/P2_4_Osciloscopio/main/P2_4_Osciloscopio.c:105-110 | 232k notifications from 0 write the table k times and end at 0 |
| EcgReplay.EcgPlayer.constructor | firmware/projects/P2_4_Osciloscopio/main/P2_4_Osciloscopio.c:49 | the index starts at 0 and nothing has been written |
| EcgReplay.EcgPlayer.AnalogOutputWrite | firmware/projects/P2_4_Osciloscopio/main/P2_4_Osciloscopio.c:106 | appends the sample to the DAC trace |
| EcgReplay.EcgPlayer.ConversionDA | firmware/projects/P2_4_Osciloscopio/main/P2_4_Osciloscopio.c:104-110 | one iteration performs Tick over the 231-sample `ecg` table (its length is checked where the contract is stated): the new index and the sample written, if any; the index stays in 0..231 |
| EcgReplay.EcgPlayer.Serve | firmware/projects/P2_4_Osciloscopio/main/P2_4_Osciloscopio.c:102-112 | n iterations of the task loop end where Replay says and write what Replay says |
| EcgReplay.PlayPeriods | firmware/projects/P2_4_Osciloscopio/main/P2_4_Osciloscopio.c:53-112 | a fresh player given 232k notifications has written the ECG table k times, in order, and is back at index 0 |
| Irrigation.InitialValid | firmware/projects/examen/main/Control_irrigacion_planta.c:73 | initially `agua` is false and the pump has never been commanded, which is consistent |
| Irrigation.KeyOn | firmware/projects/examen/main/Control_irrigacion_planta.c:86-88 | sets `inicio` and nothing else |
| Irrigation.KeyOff | firmware/projects/examen/main/Control_irrigacion_planta.c:93-95 | clears `inicio` and nothing else |
| Irrigation.ControlStep | firmware/projects/examen/main/Control_irrigacion_planta.c:104-114 | stopped: nothing changes; started: the pump is written to the sensor level and `agua` set to the same |
| Irrigation.ControlStepValid | firmware/projects/examen/main/Control_irrigacion_planta.c:105-113 | each step keeps `agua` equal to the last commanded pump state; a started step leaves the pump at the sensor level |
| Irrigation.RunValid | firmware/projects/examen/main/Control_irrigacion_planta.c:86-116 | `agua` equals the last commanded pump state after any sequence of switch presses and notifications |
| Irrigation.LastKeyWins | firmware/projects/examen/main/Control_irrigacion_planta.c:86-95 | only switch presses change `inicio`, and the last one pressed decides it |
| Irrigation.KeysIdempotent | firmware/projects/examen/main/Control_irrigacion_planta.c:86-95 | pressing the same switch twice is pressing it once |
| Irrigation.StoppedIsInert | firmware/projects/examen/main/Control_irrigacion_planta.c:104 | while stopped, no number of notifications changes the pump or `agua` |
| Irrigation.Controller.constructor | firmware/projects/examen/main/Control_irrigacion_planta.c:73 | `agua` and `inicio` start false and the pump is uncommanded |
| Irrigation.Controller.LeerTeclaOn | firmware/projects/examen/main/Control_irrigacion_planta.c:86-88 | the new state is KeyOn of the old |
| Irrigation.Controller.LeerTeclaOff | firmware/projects/examen/main/Control_irrigacion_planta.c:93-95 | the new state is KeyOff of the old |
| Irrigation.Controller.GPIOOn | firmware/projects/examen/main/Control_irrigacion_planta.c:107 | appends a high write of the pin |
| Irrigation.Controller.GPIOOff | firmware/projects/examen/main/Control_irrigacion_planta.c:111 | appends a low write of the pin |
| Irrigation.Controller.ControlAgua | firmware/projects/examen/main/Control_irrigacion_planta.c:100-116 | one iteration is ControlStep, and it keeps `agua` equal to the commanded pump state |

## Left out

- FreeRTOS scheduling, task notifications, timers, `vTaskDelay` periods and ISR context. Each task iteration or callback is one atomic step; interleavings and timing are not modelled.
- The drivers themselves: BLE, UART, GPIO, PWM, ADC/DAC, LCD ITS-E0803 and HC-SR04. Their results are method parameters (sensor levels, ADC reading, distance, link status, switch and serial bytes). Their effects are recorded as state or traces. Initialisation calls (`LedsInit`, `GPIOInit`, `PWMInit`, `TimerInit`, ...) are not modelled.
- The switch masks SWITCH_1 and SWITCH_2 come from the switch driver, which is not part of this model. They are taken as 1 and 2; only their being distinct matters.
- `LedsInit` is assumed to leave all LEDs off, and the LCD is taken as blank at start.
- LineFollower.Robot.ReadData: requires at least one received byte, since `read_data` always reads `data[0]`.
- The LED blink period of the link-status loop and the 0.15 s, 1 s, 3 s and 5 s periods are not modelled.
- `conversionAD` in P2_4 only forwards ADC readings to the UART, so it is not modelled.
- The ECG table is modelled as the byte values written in its initialiser. Whether plain `char` is signed on the target, which would matter for the entries above 127, is not modelled.
- `nivel_pH` (never used) and the pH pumps of the irrigation controller are not modelled; they are initialised but never driven.
- Guia1_Ejercicio3.c is not part of this model. It is an unfinished exercise that does not compile.
- `vumetro` and `convertToBcdArray` appear in several files with the same body; each is modelled once (`Vumeter.Vumetro`, `BcdDisplay.ConvertToBcdArray`).
- Nothing here models the C `int` width of `cambiaEstado`'s argument beyond its 32-bit pattern (`bv32`). The four low bits are all that reach the pins.
