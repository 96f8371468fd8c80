# Wall-E robot: a verified model of its control core

Wall-E is a hobby robot. An Arduino runs the firmware and a Raspberry Pi
runs a Flask web interface. The Pi sends the Arduino single-letter serial
commands ("X…"/"Y…" for the joystick, "O…"/"S…"/"M…" for settings, "A…"
for animations, servo names for servo moves). The Arduino sends back lines
such as `Battery_87`. This project models the logic at both ends of that
link:

- **Firmware.**
  - `queue.dfy` (module `RingQueue`): the generic ring-buffer queue.
  - `motor.dfy` (module `Motor`): the drive-motor controller.
  - `timers.dfy` (module `Timers`): the choice of timer prescaler and compare value, and the timer set-up.
- **Back end.** `web_interface.dfy` (module `WebInterface`):
  - parsing of Arduino messages and the receive buffer of the serial thread;
  - the audio-clip list;
  - the default serial port;
  - the command encodings of the routes;
  - the connection flags and the work queue, held in one `Backend` object;
  - the port checks of `/arduinoConnect`.
- **Page scripts.**
  - `settings_form.dfy` (module `SettingsForm`): the offset form's input check and its update button.
  - `automation_blocks.dfy` (module `AutomationBlocks`): the code generators of the behaviour-script blocks.
- **Shared definitions.**
  - `strings.dfy` (module `Strings`): decimal digits, `str`/`int` conversion, `split`/`join`, and lexicographic sorting, as the back end uses them.
  - `wrappers.dfy`: `Option`.
  - `arith.dfy` (module `Arith`): facts about multiplication and division, used by the other modules.

State that the source updates in place is modelled as classes with
`modifies` clauses:

- the queue's indices and buffer;
- the motor's pin levels and flags;
- the back end's globals and receive buffer;
- the form's inputs and button.

Pure computations are functions. Most of them are related by lemmas to
a partner: an inverse (reading a battery report, axis command, decimal
numeral or wait statement back), a reference definition (the first
prescaler that fits, the last matching port, character-by-character
receiving for the serial loop) or an invariant (`Consistent` for the
motor, `Valid` for the queue and the receive buffer). The animation and
servo command encodings are only characterised by what their text
contains.

## Model

| member | source | states |
|---|---|---|
| RingQueue.Queue.constructor | wall-e/Queue.hpp:26-39 | The new queue is empty. It has capacity `max`, and uses the caller's buffer if one is given or a fresh one otherwise. |
| RingQueue.Queue.BackIsModular | wall-e/Queue.hpp:85-94 | The back index always equals `(front + size) mod maxSize`, with both indices inside the buffer. |
| RingQueue.Queue.Push | wall-e/Queue.hpp:85-94 | Below capacity, the item is appended at the back. A full queue is left unchanged. The ring invariant is kept. |
| RingQueue.Queue.Pop | wall-e/Queue.hpp:130-144 | Removes and returns the oldest item (FIFO). An empty queue returns `T()` and is unchanged. |
| RingQueue.Queue.PopBack | wall-e/Queue.hpp:152-169 | Removes and returns the newest item (LIFO). An empty queue returns `T()` and is unchanged. |
| RingQueue.Queue.Front | wall-e/Queue.hpp:177-180 | Returns the oldest item, or `T()` when the queue is empty. |
| RingQueue.Queue.Peek | wall-e/Queue.hpp:183-185 | Same result as `front`. |
| RingQueue.Queue.Back | wall-e/Queue.hpp:193-200 | Returns the newest item, or `T()` when the queue is empty. |
| RingQueue.Queue.Empty | wall-e/Queue.hpp:208-211 | True exactly when the queue holds no item. |
| RingQueue.Queue.Size | wall-e/Queue.hpp:75-77 | The number of items held. |
| RingQueue.Queue.Clear | wall-e/Queue.hpp:217-220 | The queue becomes empty and stays valid. |
| Motor.Clamp | wall-e/MotorController.hpp:77-78 | The duty cycle is bounded to [-255, 255]. Values inside the range pass unchanged; values outside are cut to the nearer bound. |
| Motor.Initial | wall-e/MotorController.hpp:36-54 | After construction the motor points forward with the direction pin HIGH. The brake pin and flag are set exactly when braking is enabled. |
| Motor.SpeedUpdate | wall-e/MotorController.hpp:74-110 | setSpeed keeps the pins consistent with the flags. It writes the absolute value of the clamped duty cycle. |
| Motor.ForwardSwitch | wall-e/MotorController.hpp:81-89 | A positive speed while reversed turns the motor forward and releases the brake. |
| Motor.ReverseSwitch | wall-e/MotorController.hpp:92-100 | A negative speed while going forward turns the motor round and releases the brake. |
| Motor.NoSwitchBrakes | wall-e/MotorController.hpp:103-106 | Any call that does not switch direction keeps the direction. The brake is then engaged exactly when braking is enabled. |
| Motor.FirstForwardKeepsBrake | wall-e/MotorController.hpp:103-106 | Driving forward straight after construction leaves the brake engaged while PWM is applied. |
| Motor.RepeatedReverseBrakes | wall-e/MotorController.hpp:92-106 | A second identical reverse command engages the brake while the motor is being driven. |
| Motor.ThreeArgMayBeInconsistent | wall-e/MotorController.hpp:56-58 | The three-argument constructor only builds a temporary. The object's state is whatever it held before, which need not be consistent or initial. |
| Motor.MotorController.constructor | wall-e/MotorController.hpp:36-54 | Stores the pins and brake setting. The resulting state is `Initial`. |
| Motor.MotorController.WithBrake | wall-e/MotorController.hpp:56-58 | Corrected three-argument constructor: the four-argument one with braking enabled, giving `Initial(true)`. |
| Motor.MotorController.SetSpeed | wall-e/MotorController.hpp:74-110 | The new pin and flag state is `SpeedUpdate` of the old one. Consistency is preserved. |
| Timers.CompareValue | wall-e/setupTimers.h:59 | The compare value v satisfies (v+1)·divisor ≤ 16 MHz < (v+2)·divisor. A divisor above 16 MHz gives 0. |
| Timers.Mul16 | wall-e/setupTimers.h:59 | `uint16_t` multiplication: the result is below 65536 and congruent to the product modulo 65536, and exact while the product stays below 65536. |
| Timers.FirstFit | wall-e/setupTimers.h:57-65 | Returns the first index whose value is positive and fits the timer's width, with every earlier value rejected. None when no value fits. |
| Timers.DeterminePrescalerAsWritten | wall-e/setupTimers.h:48-76 | The selection with the 16-bit product. Any compare value it returns fits the timer. |
| Timers.PrescalerChoice | wall-e/setupTimers.h:48-76 | The selection with the exact product. Any compare value it returns fits the timer. |
| Timers.HundredHertzEightBit | wall-e/setupTimers.h:59 | At 100 Hz on an 8-bit timer, the code as written finds no prescaler. The exact product gives prescaler 1024 with compare value 155. |
| Timers.AgreeWithoutWrap | wall-e/setupTimers.h:59 | Below 64 Hz no product wraps, and both selections agree. |
| Timers.DeterminePrescaler | wall-e/setupTimers.h:48-76 | The loop returns the first prescaler whose compare value fits. The compare value is 0 exactly when none fits, and the prescaler is then 1024. |
| Timers.FirstFitSkips | wall-e/setupTimers.h:57-65 | Skipping candidates that were rejected does not change the first fit. |
| Timers.ClockSelect | wall-e/setupTimers.h:106-110 | The clock-select bits for the k-th prescaler read as the binary code k+1, so different prescalers get different bits. Any other value sets no bit. |
| Timers.SetupTimer | wall-e/setupTimers.h:82-117 | Shown here for setupTimer0; setupTimer1 and setupTimer2 are the same. It uses the corrected, exact product (`PrescalerChoice`), not the 16-bit one the firmware computes: at 100 Hz on Timer0 or Timer2 the firmware halts, while this member configures compare value 155 with prescaler 1024. The routine halts with the error message exactly when no prescaler fits. Otherwise the compare register gets the chosen value, below the timer's limit, with CTC mode, the chosen prescaler's clock bits and the compare interrupt. |
| Strings.ParseInt | web_interface/web_interface.py:412 | `int()` on text yields a value exactly when the text is digits with an optional '-'. |
| Strings.DigitsHaveNoMarks | web_interface/web_interface.py:135 | Text that passes `isdigit()` has no sign, point or '_'. |
| Strings.NatToString | web_interface/web_interface.py:352 | `str()` of a natural number is digits, with no leading zero except for 0 itself. |
| Strings.IntToString | web_interface/web_interface.py:352 | `str()` of an integer is non-empty and starts with '-' exactly for a negative number. The digits, after the sign if any, have no leading zero except for 0 itself. |
| Strings.IntToStringRoundTrip | web_interface/web_interface.py:352 | `str()` of an integer reads back as that integer. |
| Strings.Split | web_interface/web_interface.py:135 | Splitting yields at least one field, and no field contains the separator. |
| Strings.SplitJoin | web_interface/web_interface.py:135 | Splitting the join of fields free of the separator gives back exactly those fields. |
| Strings.Sort | web_interface/web_interface.py:254 | `sorted` yields an ordered permutation of the listing. |
| WebInterface.BatteryField | web_interface/web_interface.py:134-136 | A level is read exactly when the message mentions "Battery" and its second '_' field is all digits. That field is the level. |
| WebInterface.ParseArduinoMessage | web_interface/web_interface.py:130-137 | A battery report sets the level to its digits field. Every other message leaves the level as it was. |
| WebInterface.BatteryReportRoundTrip | web_interface/web_interface.py:130-137 | The report "Battery_n" sets the level to the digits of n, which read back as n. |
| WebInterface.ReceivedStep | web_interface/web_interface.py:107-114 | A terminator hands the buffer to the parser and empties the buffer. Any other character is appended to the buffer. |
| WebInterface.ReceiveAllSplits | web_interface/web_interface.py:107-114 | Receiving the input character by character parses every complete line of the pending text followed by the input, in order. The incomplete last line stays buffered. |
| WebInterface.ReceiveChar | web_interface/web_interface.py:109-114 | A terminator, and only a terminator, empties the buffer. Any other character is appended and leaves the level alone. A buffer without terminators stays without them. |
| WebInterface.ReceiveAll | web_interface/web_interface.py:107-114 | Receiving any input keeps a terminator-free buffer terminator-free. |
| WebInterface.ReceiveLineFree | web_interface/web_interface.py:113-114 | Input without a terminator only extends the buffer and leaves the level alone. |
| WebInterface.FirstUndecodable | web_interface/web_interface.py:107-121 | The bytes before the returned position all decode on their own, and the byte at it, if any, does not. |
| WebInterface.FirstUndecodableAt | web_interface/web_interface.py:107-121 | A position with that property is the first undecodable byte. |
| WebInterface.ReceiveBytes | web_interface/web_interface.py:107-121 | The receiving loop stops at the first undecodable byte, with the state character-by-character receiving gives for the bytes before it. |
| WebInterface.OggStem | web_interface/web_interface.py:256 | The stem is the name with ".ogg" removed, or the whole name. |
| WebInterface.OggStemStripsExtension | web_interface/web_interface.py:256 | `splitext` drops ".ogg" from a name that has a non-dot character before it. |
| WebInterface.OggStemKeepsDotName | web_interface/web_interface.py:256 | A name made only of dots before ".ogg" keeps its extension. |
| WebInterface.ClassifyStem | web_interface/web_interface.py:259-275 | The entry records the stem as its file. A stem without two or three '_' fields is listed under "Other" by its whole stem. |
| WebInterface.ClassifyPlain | web_interface/web_interface.py:259-261 | A stem without '_' is listed under "Other" with no duration. |
| WebInterface.ClassifyTimed | web_interface/web_interface.py:264-267 | "name_time" with an all-digit time is listed under "Other" as name, lasting the time's value (so "beep_0500" lasts 500). |
| WebInterface.ClassifyGrouped | web_interface/web_interface.py:268-270 | "group_name", where name is not a number, is listed under that group with no duration. |
| WebInterface.ClassifyGroupedTimed | web_interface/web_interface.py:271-275 | "group_name_time" is listed under the group as name. The duration is time when time is a number, 0 otherwise. |
| WebInterface.OggNames | web_interface/web_interface.py:254-255 | Keeps exactly the listing's names that end in ".ogg". |
| WebInterface.ListAudioFiles | web_interface/web_interface.py:253-278 | The clip list is the classified entries of the ".ogg" names of the sorted listing. |
| WebInterface.OggNamesSorted | web_interface/web_interface.py:254-255 | Filtering a sorted listing keeps it sorted. |
| WebInterface.ListedClipsSorted | web_interface/web_interface.py:254-255 | The listed clips are exactly the ".ogg" files, in sorted order. |
| WebInterface.PreferredPort | web_interface/web_interface.py:289-292 | The default is the last port whose description contains the key, or 0 when none does. |
| WebInterface.SelectDefaultPort | web_interface/web_interface.py:602-605 | The selection loop yields the preferred port. |
| WebInterface.TruncDiv | web_interface/web_interface.py:346 | `int()` truncates toward zero: the quotient is bracketed on the side of zero. |
| WebInterface.ParseDecimalInteger | web_interface/web_interface.py:346 | `float()` of the text `str()` gives an integer reads back as that integer. |
| WebInterface.ParseDecimalPoint | web_interface/web_interface.py:346 | "a.b" with digit runs a and b reads as the number whose digits are those of a followed by those of b, with |b| decimals. |
| WebInterface.ParseDecimalRejects | web_interface/web_interface.py:346 | Text with a character other than a digit, a point or a sign (such as "abc", "nan", "inf") cannot be read. |
| WebInterface.Hundredths | web_interface/web_interface.py:346 | Truncation toward zero: the hundredths never overshoot the value and lie within one hundredth of it, with the value's sign. |
| WebInterface.HundredthsExact | web_interface/web_interface.py:346 | A stick value with at most two decimals converts to hundredths without loss. |
| WebInterface.MotorCommands | web_interface/web_interface.py:346-353 | A joystick update queues two entries: "X" then "Y", each followed by a number. |
| WebInterface.MotorCommandsDecode | web_interface/web_interface.py:352-353 | Each axis command reads back as that axis's hundredths. |
| WebInterface.SettingCommand | web_interface/web_interface.py:376-403 | Only motorOff, steerOff and animeMode are queued: "O", "S" and "M" respectively, followed by the value text. |
| WebInterface.SettingCommandInjective | web_interface/web_interface.py:376-403 | Different settings changes put different entries on the queue. |
| WebInterface.AnimateCommand | web_interface/web_interface.py:544 | The entry is "A" followed by the clip name, which reads back from it. |
| WebInterface.ServoCommand | web_interface/web_interface.py:569 | The entry is the servo name followed directly by the value text, with no separator. |
| WebInterface.ReconnectCheck | web_interface/web_interface.py:619-641 | The reply is "Connected" exactly when the port is digits naming a listed device that opens. The reply is a port-data error exactly when the port is missing or not digits. The reply is an invalid-port error exactly when the number is too large. |
| WebInterface.NegativePortRejected | web_interface/web_interface.py:620 | A signed port number is refused as unreadable port data. |
| WebInterface.Backend.constructor | web_interface/web_interface.py:32-38 | Not connected, no exit requested, no battery reading, empty work queue, volume 8. |
| WebInterface.Backend.OnOffArduino | web_interface/web_interface.py:146-185 | Connecting clears the exit flag and activates, unless the port index is past the device list, which raises. Disconnecting requests exit, resets the battery level and empties the queue. |
| WebInterface.Backend.TestArduino | web_interface/web_interface.py:191-201 | Reports connected exactly when active with no exit requested. A pending exit while active is completed by disconnecting. |
| WebInterface.Backend.CommunicationError | web_interface/web_interface.py:119-121 | A serial error requests exit and changes nothing else. |
| WebInterface.Backend.SendNext | web_interface/web_interface.py:97-104 | Sends the oldest queued command with a newline and removes it. With nothing queued, it sends nothing. |
| WebInterface.Backend.ReceiveSerial | web_interface/web_interface.py:107-121 | Bytes are received up to the first one that does not decode. Every complete line of the pending text and those bytes is parsed in order, the incomplete tail stays buffered, and the buffer never holds a terminator. An undecodable byte sets the exit flag; the connection flag, queue and volume are unchanged. |
| WebInterface.Backend.QueueIfConnected | web_interface/web_interface.py:378-383 | Commands are queued with OK when connected. Otherwise the reply is "Arduino not connected" (after completing a pending disconnect). |
| WebInterface.Backend.Motor | web_interface/web_interface.py:338-360 | Both stick values are required. A value `float()` cannot read is a server error that changes nothing. Otherwise the two axis commands of the read values are queued when connected. |
| WebInterface.Backend.Settings | web_interface/web_interface.py:367-443 | Each setting follows its branch: queued command, volume update (a server error on bad text), process control, or a POST-data error. |
| WebInterface.Backend.Animate | web_interface/web_interface.py:534-550 | Queues "A" followed by the clip, or reports missing data or no connection. |
| WebInterface.Backend.ServoControl | web_interface/web_interface.py:557-575 | Queues the servo name followed by the value, or reports missing data or no connection. |
| WebInterface.Backend.ArduinoConnect | web_interface/web_interface.py:582-645 | "updateList" offers the ports with the preferred one selected. "reconnect" disconnects a live link; otherwise it applies the port checks and connects on success. Any other action is an error. |
| SettingsForm.UpdateDisabled | web_interface/static/js/main.js:162 | The button is enabled exactly when both fields are digits, the motor offset is at most 250 and the steering offset at most 100. |
| SettingsForm.EmptyFieldDisables | web_interface/static/js/main.js:157-162 | An empty field disables the button. |
| SettingsForm.NegativeSteerDisables | web_interface/static/js/main.js:162 | A negative steering trim is always refused: the pattern admits no '-'. |
| SettingsForm.InRangeAccepted | web_interface/static/js/main.js:162 | Every in-range pair of whole numbers is accepted. |
| SettingsForm.OffsetForm.MotorOffsetInput | web_interface/static/js/main.js:156-164 | After a motor-offset edit, the button state matches the check on both fields. |
| SettingsForm.OffsetForm.SteerOffsetInput | web_interface/static/js/main.js:166-174 | After a steering-offset edit, the same check applies. |
| SettingsForm.OffsetForm.UpdateClicked | web_interface/static/js/main.js:176-197 | A disabled button sends nothing. Otherwise it sends motorOff and then steerOff. After a handler has run, only values that pass the check are sent. |
| AutomationBlocks.StartCode | web_interface/static/js/automation_blocks.js:137-139 | The start block generates no code. |
| AutomationBlocks.WaitSecondsCode | web_interface/static/js/automation_blocks.js:145-149 | A wait block of 0 to 600 seconds generates a statement that reads back as that number of seconds. |
| AutomationBlocks.WaitCallRoundTrip | web_interface/static/js/automation_blocks.js:145-149 | A wait statement for any whole number of seconds, inside the field's bounds or not, reads back as that number. |
| AutomationBlocks.WaitRefusesLeadingZero | web_interface/static/js/automation_blocks.js:145-149 | A wait numeral with a leading zero is not read as decimal, since sloppy-mode script code reads it as octal. |
| AutomationBlocks.MoveIgnoresDirection | web_interface/static/js/automation_blocks.js:169-176 | The move block's code does not depend on the direction chosen. |
| AutomationBlocks.MoveCode | web_interface/static/js/automation_blocks.js:169-176 | The move block's code starts with an alert of the distance text and ends with a wait statement for it. |
| AutomationBlocks.MoveWaitsDistance | web_interface/static/js/automation_blocks.js:169-176 | Moving any whole-number distance n (the field is free text, so 600 is no bound) shows an alert and then a wait statement that reads back as n seconds. |
| AutomationBlocks.SpeakCode | web_interface/static/js/automation_blocks.js:180-184 | The text is spliced verbatim, unescaped, between `playTTS("` and `");`. |
| AutomationBlocks.SpokenText | web_interface/static/js/automation_blocks.js:180-184 | A literal that closes ends at a double quote right after the call's opening quote and the literal's text. |
| AutomationBlocks.SpeakPassesText | web_interface/static/js/automation_blocks.js:180-184 | Text with no double quote, backslash or line break is passed to playTTS exactly. |
| AutomationBlocks.SpeakQuoteEndsLiteral | web_interface/static/js/automation_blocks.js:180-184 | A double quote in the text ends the string literal early, because the text is not escaped. |
| AutomationBlocks.SpeakEscapedQuoteContinues | web_interface/static/js/automation_blocks.js:180-184 | A backslash-escaped quote in the text does not end the literal: the whole text stays inside it. |
| AutomationBlocks.SpeakLineContinuation | web_interface/static/js/automation_blocks.js:180-184 | A backslash before CR LF continues the literal: the whole text stays inside it. |
| AutomationBlocks.SpeakLineBreakUnterminated | web_interface/static/js/automation_blocks.js:180-184 | A line break in the text leaves the literal unterminated, so the script does not parse. |
| AutomationBlocks.SpeakTrailingBackslashUnterminated | web_interface/static/js/automation_blocks.js:180-184 | Text ending in a backslash escapes the closing quote, so the literal runs off the end. |

## Left out

- Serial I/O and sleeps are not modelled. Receiving is a string parameter, and sending returns the line.
- The directory listing of the sound folder and the list of serial devices are parameters.
- Whether a port opens is a boolean parameter.
- Threads and locks are not modelled. The serial thread's send and receive halves are methods called by whoever drives the model. Joining threads is not modelled.
- Sessions and login redirects are not modelled. The `/audio`, `/tts`, `/arduinoStatus` and index-template rendering routes are not modelled, apart from the clip list and default port of the index page.
- Autostart at the first page load is not modelled.
- Process control is one reply, `ProcessControl`, without modelling the subprocesses it starts. This covers the camera streamer, restart and shutdown settings.
- WebInterface.ListAudioFiles: a duration is kept in milliseconds. The source divides it by 1000.0 into a float of seconds.
- WebInterface.Backend.Motor: reads stick text with `ParseDecimal`: an optional sign, then digits with at most one point. Python's `float()` also accepts exponents ("1e2"), surrounding blanks and '_' between digits; the model treats such text as a server error. "nan" and "inf" are server errors in both ("inf" overflows in `int()`).
- WebInterface.Backend.ReceiveSerial: a byte is one character, and any character from 0x80 up counts as undecodable. The serial thread's wider `except` (errors of the serial port itself) is `CommunicationError`.
- WebInterface.Hundredths: joystick values are exact decimals, and `float()`'s binary rounding is not modelled. With binary rounding "0.29" becomes 28 hundredths; this model gives 29. Float overflow is not modelled either: a numeral of about 310 or more digits becomes inf, and `int()` then raises a server error, where the model queues the value.
- WebInterface.Backend.Settings: the model parses volume text as an optional '-' followed by ASCII digits. Python's `int()` also accepts a leading '+', surrounding blanks, '_' between digits and non-ASCII digits; the model treats such text as a server error.
- Strings.ParseInt: accepts only an optional '-' followed by ASCII digits. This is narrower than Python's `int()`; see the previous line.
- Strings.IsDigits: `str.isdigit` is restricted to ASCII digits. Python also accepts other Unicode digits.
- WebInterface.OggStem: `basename` is the identity, because directory entries contain no '/'.
- SettingsForm.OffsetForm.UpdateClicked: the valid/invalid marks set after each request are not modelled. They depend on whatever alert the asynchronous request has shown by then.
- AutomationBlocks.WaitSecondsCode: covers whole seconds only. JavaScript's formatting of fractional numbers is not modelled.
- AutomationBlocks.SpokenText: gives the literal's source text. JavaScript's escape sequences are recognised only as far as where the literal ends; the characters they decode to (`\n`, `\u0041`, …) are not computed, and a malformed escape is not reported. The line separators U+2028 and U+2029 are not treated as line breaks.
- AutomationBlocks.SpeakPassesText: states the exact spoken text only for text with no double quote, backslash or line break, because escape decoding is not modelled. The other lemmas cover a quote, an escaped quote, a line break and a trailing backslash.
- AutomationBlocks.SpeakQuoteEndsLiteral: the text before the quote must be free of quotes, backslashes and line breaks, for the same reason.
- The wait block's interpreter hook (`waitForSeconds` delaying by a timer) is not modelled.
- Timers.DeterminePrescaler requires a positive frequency. At 0 Hz the firmware divides by zero.
- Timers.SetupTimer: the floating-point quotient of the firmware is the exact integer quotient. Register bits are symbolic. The bit positions come from the AVR headers, which are not part of this model. So the model cannot show that lines 103 and 186 set `WGM01`/`WGM21` in control register B, where the ATmega328P keeps those bits in control register A. For the same reason it does not check that setupTimer2 (lines 189-193) reuses Timer0's clock-select codes, while Timer2 on the ATmega328P has its own table (code 3 selects 32, code 4 selects 64, code 5 selects 128). It also configures the timer with the corrected exact product rather than the 16-bit one (see Findings), so at 100 Hz on Timer0 or Timer2 it gives compare value 155 with prescaler 1024 where the firmware halts. Printing the halt message and the endless halt loop are one `Halted` result.
- RingQueue: the constructor's default arguments (`max = 50`, `buffer = NULL`) are not defaults in the model; callers pass both. The `DYNAMIC_SIZE` growth branch is not modelled. Neither are the allocation-failure `warning` flag and the destructor. `T()` is a value supplied at construction.
- Motor: `pinMode` calls and the pin numbers' effect on hardware are not modelled. The levels written are fields.
- Motor.ThreeArgMayBeInconsistent: the leftover state of the three-argument constructor is represented by one sample leftover value.

## Findings

| source | as written | input that shows it | evidently intended | confidence | as-written member | corrected member |
|---|---|---|---|---|---|---|
| wall-e/setupTimers.h:59 | `prescale * frequency` multiplies two `uint16_t`. On the 8-bit AVR target this is 16-bit arithmetic and wraps modulo 65536. | Timer0 or Timer2 at 100 Hz: 1024·100 wraps to 36864, which gives compare value 433. No prescaler fits, and the firmware halts. | Compute the product in 32 bits: prescaler 1024 with compare value 155. | not executed | Timers.HundredHertzEightBit | Timers.DeterminePrescaler |
| wall-e/MotorController.hpp:56-58 | The three-argument constructor's body constructs a temporary controller and discards it. | Any controller built as `MotorController(dir, pwm, brk)`: the temporary drives the direction and brake pins, but the object's own pin numbers and flags are never set. | Delegate to the four-argument constructor with braking enabled. | not executed | Motor.ThreeArgMayBeInconsistent | Motor.MotorController.WithBrake |
