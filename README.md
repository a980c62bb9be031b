# Function generator firmware: engine and display driver

This project models, in Dafny, two parts of an ESP32 signal-generator firmware.

**The waveform engine.**
- A timer callback steps through one of four 128-entry lookup tables (sine, square, sawtooth, triangle).
- It writes one sample to a PWM compare register every `cycles_to_pop` ticks.
- A 10 ms control pass debounces four push buttons. With them it changes the divisor, which sets the frequency, and the amplitude, and it moves to the next waveform.
- After each frequency change the pass redraws the frequency on a character display.

**The display driver.** The display is an HD44780 controller in 4-bit mode behind an I2C port expander. Every byte becomes a four-byte I2C write: the high nibble, then the low nibble, each sent once with the enable strobe high and once with it low. The backlight bit is always on. RS is clear for commands and set for character data.

Files:
- `function_generator.dfy`, module `FunctionGenerator`:
  - The program's globals and the static locals of `debounce_gpio` and `handle_gpio_input` are the fields of one class, `FunctionGenerator`.
  - The hardware reads are method parameters: `gpio_get_level` is a `level`, `esp_timer_get_time` a `time`.
  - Every compare-register write is appended to the ghost log `compareLog`.
  - Each method is specified against a pure function: `Tick`/`Run` for the stepper, `Accepts`/`PollOne`/`Poll` for the debouncer, `Adjust` for the control pass, `ControlFrames` for the display traffic. The lemmas are stated about those functions.
- `lcd.dfy`, module `Lcd`:
  - The I2C device is a class holding the sequence of payloads handed to `i2c_write`.
  - The frame encoder is the function `Frame`. Every `lcd_*` routine is a method whose contract gives the exact transactions it appends.
- `format.dfy`, module `Format`: the decimal text `sprintf("%0.2f")` produces for a whole number. `counts2frequency` always returns a whole number, so the display text is exact.

Three places where the code does something easy to misread:
- The comments in `lcd_send_data` (main/src/lcd.c:60-63) say `rs=0`, but the code sets RS (0x0D/0x09) in every data byte. `Lcd.Frame` follows the code.
- `counts2frequency` is a uint32 quotient, converted to float only afterwards: 1041 Hz for divisor 1 and 5 Hz for divisor 200.
- The casts at main/function_generator.c:183 (the sine sample) and :70 (the compare value) truncate. Both are floating-point expressions and are outside the model (see below).

## Model

| member | source | states |
|---|---|---|
| FunctionGenerator.SquareAt | main/function_generator.c:183-186 | a square entry is 0 or 400, and 400 exactly when the sine sample is above the midline 200 |
| FunctionGenerator.SawtoothAt | main/function_generator.c:187 | a sawtooth entry 400*i/128 lies in [0, 400) |
| FunctionGenerator.TriangularAt | main/function_generator.c:188 | a triangle entry lies in [0, 400] |
| FunctionGenerator.SawtoothRamp | main/function_generator.c:187 | the sawtooth starts at 0 and never decreases over the table |
| FunctionGenerator.TriangleShape | main/function_generator.c:188 | the triangle is 0 at entry 0 and 400 at entry 64, entry i equals entry 128-i, and it rises over the first half |
| FunctionGenerator.FunctionGenerator.constructor | main/function_generator.c:44-56 | the boot state: divisor 1, counters 0, amplitude 1.0, no table selected, selector SINE, all timestamps and button flags cleared |
| FunctionGenerator.FunctionGenerator.PopulateTables | main/function_generator.c:179-191 | after the loop every entry of the four tables holds its formula, the sine table holds the given samples, and the sine table is selected |
| FunctionGenerator.Counts2Frequency | main/function_generator.c:146-148 | counts2frequency is the largest f with f*PeriodTicks(c2p) <= 133333, i.e. the whole number of table periods per second |
| FunctionGenerator.PeriodTicks | main/function_generator.c:147 | the uint32 product 128*c2p equals 128 times the low 25 bits of c2p, so it is 0 (a division by zero) exactly when those bits are 0 |
| FunctionGenerator.PeriodTicksInRange | main/function_generator.c:147 | for divisors in [1,200] the uint32 product 128*c2p does not wrap |
| FunctionGenerator.FrequencyEndpoints | main/function_generator.c:146-148 | divisor 1 gives 1041 Hz and divisor 200 gives 5 Hz |
| FunctionGenerator.FrequencyMonotone | main/function_generator.c:146-148 | a larger divisor never gives a higher frequency |
| FunctionGenerator.Tick | main/function_generator.c:63-77 | one tick: the uint8 counter increments (mod 256); exactly when it reaches the divisor, the index advances mod 128, one value is written and the counter resets; otherwise only the counter changes; with the divisor in [1,200] the counter stays below it, even after the divisor was lowered |
| FunctionGenerator.Run | main/function_generator.c:63-77 | n ticks write at most n values and keep the counters in range |
| FunctionGenerator.RunSplit | main/function_generator.c:63-77 | a + b ticks are a ticks followed by b ticks |
| FunctionGenerator.RunCounts | main/function_generator.c:64-66 | ticks below the divisor only count |
| FunctionGenerator.RunOneStep | main/function_generator.c:63-74 | from a reset counter, exactly cyclesToPop ticks advance the table one entry with one write |
| FunctionGenerator.RunSteps | main/function_generator.c:63-74 | k*cyclesToPop ticks advance the table k entries (mod 128) with k writes |
| FunctionGenerator.OutputPeriod | main/function_generator.c:63-74 | 128*cyclesToPop ticks, the period counts2frequency divides by, return the stepper to its entry after one write per table entry |
| FunctionGenerator.FunctionGenerator.OnFullCallback | main/function_generator.c:63-77 | the new counters are Tick of the old ones; a write records the selected table's sample at the new index and the amplitude; the counter stays below the divisor; with populated tables the written sample is at most 400; returns false |
| FunctionGenerator.Now32 | main/function_generator.c:153 | the uint32 copy of the 64-bit clock equals the clock during the first 2^32 us and differs from it by a multiple of 2^32 always |
| FunctionGenerator.Elapsed | main/function_generator.c:156 | the unsigned difference is now - last, plus 2^32 when the clock wrapped in between |
| FunctionGenerator.ElapsedOfTimes | main/function_generator.c:153-156 | for two clock readings less than 2^32 us apart the truncated clocks give the true elapsed time, also across a wrap |
| FunctionGenerator.Accepts | main/function_generator.c:156 | an unchanged level is never accepted; a changed one is accepted iff more than 50000 us passed (without wrap: now - last > 50000) |
| FunctionGenerator.DebounceRun | main/function_generator.c:150-163 | feeding samples to one pin's debouncer: at most one transition per sample, no transition leaves the state untouched, and the final level is the initial one flipped once per transition |
| FunctionGenerator.WindowIsStrict | main/function_generator.c:153-156 | for a changed level, a reading exactly 50000 us after the last accepted one is rejected and one 50001 us after is accepted, at any uptime, also across the 32-bit wrap |
| FunctionGenerator.QuietWithinWindow | main/function_generator.c:153-160 | within 50 ms after an accepted change at any uptime nothing is accepted and the state stays put |
| FunctionGenerator.AtMostOneTransitionPerWindow | main/function_generator.c:150-163 | any bouncing within one 50 ms window at any uptime, with time not going backwards, yields at most one transition |
| FunctionGenerator.BounceIsSuppressed | main/function_generator.c:150-163 | from the boot state, a press, a bounce 10 ms later and a release at 60 ms give exactly two transitions |
| FunctionGenerator.FunctionGenerator.DebounceGpio | main/function_generator.c:150-163 | returns true iff the level differs from *last_state and (now - last_time[pin]) mod 2^32 > 50000; on accept it records the level and the time, otherwise nothing changes |
| FunctionGenerator.Accepted | main/function_generator.c:207-218 | the acceptance of each of the four buttons in one pass, each judged on its own pin |
| FunctionGenerator.PollOne | main/function_generator.c:207-209 | one button's poll: an accepted transition records level and time and flips the toggle; otherwise nothing changes |
| FunctionGenerator.Poll | main/function_generator.c:207-218 | the four polls in the order 14, 21, 48, 47, keeping the state well-shaped |
| FunctionGenerator.PollOneLocal | main/function_generator.c:207-209 | one poll changes only its own button's level and toggle and its own pin's time |
| FunctionGenerator.PollIndependent | main/function_generator.c:207-218 | after a pass every button's toggle is flipped exactly when its own transition was accepted, its level and pin time follow the same decision, and other pins' times are untouched |
| FunctionGenerator.PollSettled | main/function_generator.c:207-218 | the per-button half of PollIndependent |
| FunctionGenerator.FunctionGenerator.ToggleOnTransition | main/function_generator.c:207-218 | one `if (debounce_gpio(...)) io_state = !io_state` changes the button state exactly as PollOne |
| FunctionGenerator.FunctionGenerator.PollButtons | main/function_generator.c:207-218 | the four debounce calls change the button state exactly as Poll |
| FunctionGenerator.DecreaseCyclesToPop | main/function_generator.c:221 | the divisor drops by one, but not below 1 |
| FunctionGenerator.IncreaseCyclesToPop | main/function_generator.c:233 | the divisor rises by one, but not above 200 |
| FunctionGenerator.IncreaseAmplitude | main/function_generator.c:246 | the amplitude rises by 0.01, capped at 1.0 |
| FunctionGenerator.DecreaseAmplitude | main/function_generator.c:251 | the amplitude falls by 0.01, floored at 0.01 |
| FunctionGenerator.NextWaveform | main/function_generator.c:254-255 | the selector advances mod 4, so it stays in 0..3 |
| FunctionGenerator.RepeatDecreaseCyclesToPop | main/function_generator.c:221 | n decrements give max(c-n, 1) |
| FunctionGenerator.RepeatIncreaseCyclesToPop | main/function_generator.c:233 | n increments give min(c+n, 200) |
| FunctionGenerator.RepeatDecreaseAmplitude | main/function_generator.c:251 | n decrements give max(a-0.01n, 0.01) |
| FunctionGenerator.RepeatIncreaseAmplitude | main/function_generator.c:246 | n increments give min(a+0.01n, 1.0) |
| FunctionGenerator.ClampExamples | main/function_generator.c:250-252 | 120 decrements from amplitude 1.0 end at 0.01; a decrement from divisor 1 stays at 1 |
| FunctionGenerator.WaveformCycle | main/function_generator.c:254-255 | four waveform changes return to the start; from SINE they visit SQUARE, SAWTOOTH, TRIANGULAR |
| FunctionGenerator.AdjustCycles | main/function_generator.c:220-242 | the divisor after one pass stays in [1,200]: no button leaves it, 14 alone increments, 21 alone decrements, both leave it unchanged (or give 2 from 1) |
| FunctionGenerator.AdjustAmplitude | main/function_generator.c:244-252 | the amplitude after one pass stays in [0.01,1.0]: no button leaves it, 48 alone increments, 47 alone decrements, both leave it unchanged away from the bounds |
| FunctionGenerator.Adjust | main/function_generator.c:220-259 | one pass keeps all three parameters in range and changes the waveform exactly when 47 and 48 are both set |
| FunctionGenerator.FreqTextShape | main/function_generator.c:226 | "Freq: %0.2f" of a whole number has no NUL, is nine characters longer than its digits, and its digits read back as the number |
| FunctionGenerator.FreqTextFits | main/function_generator.c:203-226 | for every divisor in range the text and its terminator fit freq_str[16] |
| FunctionGenerator.FreqText | main/function_generator.c:226 | "Freq: %0.2f" of a whole number f: the label "Freq: ", the decimal digits of f, then ".00" |
| FunctionGenerator.FrequencyFramesShape | main/function_generator.c:224-229 | FrequencyFrames, one refresh: the clear command, the cursor command 0x80, and at most 15 character frames from which the controller reads back exactly the frequency text |
| FunctionGenerator.RefreshFrames | main/function_generator.c:224-229 | clear, cursor home and the character frames of any text: the controller reads that text back |
| FunctionGenerator.ControlFramesShowResult | main/function_generator.c:220-242 | ControlFrames, the traffic of one pass: nothing without buttons 14 and 21, one refresh showing the pass's final divisor when one of them is set, and two refreshes, the last showing the final divisor, when both are |
| FunctionGenerator.ShowFrequency | main/function_generator.c:224-229 | a refresh appends the clear command, the cursor-home command and one data frame per character of the frequency text |
| FunctionGenerator.FunctionGenerator.ChangeFrequency | main/function_generator.c:220-242 | the divisor becomes AdjustCycles of the old one and stays in [1,200]; the display receives a refresh after each change, in order |
| FunctionGenerator.FunctionGenerator.WaveformsTable | main/function_generator.c:44 | waveforms_table[w] is one of the four tables |
| FunctionGenerator.FunctionGenerator.ChangeOutput | main/function_generator.c:244-259 | the amplitude becomes AdjustAmplitude of the old one; with both 47 and 48 set the selector advances and its table is selected; otherwise both are unchanged |
| FunctionGenerator.FunctionGenerator.HandleGpioInput | main/function_generator.c:199-260 | a whole pass: the buttons change as Poll, the parameters as Adjust of the new toggles, the display receives ControlFrames, and the engine's invariant holds |
| Format.Digit | main/function_generator.c:226 | a digit character encodes its value |
| Format.Decimal | main/function_generator.c:226 | the decimal numeral has at least one digit, only digits, and no leading zero |
| Format.DecimalRoundTrip | main/function_generator.c:226 | reading the numeral of n back gives n |
| Format.DecimalLength | main/function_generator.c:226 | a number below 10^k has at most k digits |
| Lcd.I2cDevice.constructor | main/src/i2c_device.c:25-56 | a fresh device has an empty transaction log |
| Lcd.I2cDevice.Write | main/src/i2c_device.c:93-114 | a size-0 write is dropped; any other payload is appended as one transaction |
| Lcd.Frame | main/src/lcd.c:38-63 | bytes 0 and 1 carry the high nibble and bytes 2 and 3 the low nibble; backlight set and RW clear in all four; RS set in all four iff data; EN set in bytes 0 and 2 and clear in 1 and 3; the controller decodes the original byte |
| Lcd.FramesAppend | main/src/lcd.c:73-75 | framing a concatenation is the concatenation of the framings |
| Lcd.FramesRoundTrip | main/src/lcd.c:34-75 | sending n bytes puts exactly 4n bytes on the bus, all with the RS of their kind, and the controller reads back exactly the bytes sent |
| Lcd.CString | main/src/lcd.c:73-74 | the characters before the first NUL: a prefix of the buffer without NUL, followed by the NUL |
| Lcd.CStringTerminated | main/src/lcd.c:73-74 | a NUL-free text followed by a terminator reads back as itself |
| Lcd.CursorCommand | main/src/lcd.c:83-84 | bit 7 is always set and bit 6 for every row other than 0; for columns 0..15 the command is 0x80+col on row 0 and 0xC0+col otherwise |
| Lcd.SendCmd | main/src/lcd.c:34-46 | appends exactly one command frame of the byte |
| Lcd.SendData | main/src/lcd.c:53-66 | appends exactly one data frame of the byte |
| Lcd.SendString | main/src/lcd.c:73-75 | appends one data frame per character before the first NUL, in order, and nothing for the empty string |
| Lcd.PutCur | main/src/lcd.c:83-86 | appends the command frame of the cursor address |
| Lcd.Clear | main/src/lcd.c:92-95 | appends the command frame of 0x01 |
| Lcd.SendCustom | main/src/lcd.c:104-111 | appends command 0x40, data frames of str[0..8), the cursor command with pos_x as the row, and a data frame of 0, in that order |
| Lcd.Init | main/src/lcd.c:132-154 | appends the command frames of 0x30, 0x30, 0x30, 0x20, 0x28, 0x08, 0x01, 0x06, 0x0C in that order |
| Lcd.InitFrames | main/src/lcd.c:132-154 | the init sequence's frames, one command frame per command |

## Left out

- The sine table's `sin()` computation is floating point. The sine samples are an input bounded by 400.
- The amplitude is an exact real. The float/double mix of `amplitude ± 0.01f` and its rounding are not modelled.
- `(uint32_t)(comparator_ticks * amplitude)` is floating point. The compare log records the sample and the amplitude it is scaled by, not the truncated product.
- FunctionGenerator.FunctionGenerator.OnFullCallback: requires a table to be selected. The firmware populates the tables before it starts the timer, and the null dereference that would follow otherwise is not modelled.
- `counts2frequency` returns a float. The model returns the integer quotient, which a float holds exactly.
- `sprintf` is modelled only for "%0.2f" of the whole numbers counts2frequency yields. `update_value` and its "%5.1f" are not part of this model.
- `ESP_LOG*` calls, `vTaskDelay` and `usleep` leave no trace in the model.
- Lcd.SendCustom: requires at least eight pattern bytes, and `free(str)` is not modelled.
- Lcd.SendString: requires a NUL in the buffer, as a C string must have.
- The timer interrupt and the polling task are concurrent in the firmware (`volatile` fields, an unsynchronised `selected_table` swap). The model runs each callback and each control pass as one atomic step.
- Peripheral bring-up is not part of this model: `setup_signal_timer`, `setup_pwm_timer`, `setup_gpio`, `setup_pulldown_pin`, `init_i2c`, `app_main`'s loop, and every other routine of i2c_device.c. The I2C handles are never null in the model.
- Failures that `i2c_master_transmit` reports are only logged by the source, so the model records every non-empty write.
- GPIO_NUM_MAX is 49, the pin count of the ESP32-S3 in ESP-IDF. It is not defined in the source.
- FunctionGenerator.FunctionGenerator.ChangeFrequency and FunctionGenerator.FunctionGenerator.ChangeOutput are the two halves of `handle_gpio_input`, split only for the proof. HandleGpioInput states the whole pass.
