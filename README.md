# LabToolSuite host protocol core in Dafny

A Dafny model of the host half of the LabToolSuite instrument driver: the
byte codec and packet handler that frame every command to the device, the
analog channel objects that calibrate its readings, the oscilloscope,
logic-analyzer and waveform-generator commands of the `Interface` class, and
the peripheral-bus adapters built on top of them (I2C, the NRF24L01 radio,
the MCP4728 DAC, the MPU6050 and HMC5883L sensors).

The serial port is modelled as a value and an object:

- `PacketHandler.Port` is a snapshot of the port: the bytes written to the
  wire, the bytes the device will still send back (`incoming`), the burst
  buffer, the burst flag and the number of queued acknowledgements.
- `PacketHandler.Xfer(p, out, data, acks)` is one protocol step from state
  `p`: `out` transmitted (to the wire, or appended to the burst buffer in
  burst mode), `data` bytes read, and `acks` acknowledgements read (or, in
  burst mode, queued). `Answers(p, data, acks)` says that the device has sent
  enough for such a step.
- `PacketHandler.Handler` is the driver's `Handler` object with those fields.
  Its methods (`SendByte`, `SendInt`, `GetAck`, `GetByte`, `GetInt`,
  `GetLong`, `SendBurst`, ...) change them in place.
- Every command method of the drivers above states its whole effect on the
  port as one `Xfer` from the state before the call. It also states what it
  decodes from the bytes read.

A Python exception (`sys.exit` on a short read, `ord('')` on an empty
acknowledgement, an `IndexError`, a `NameError`) is an `Err` of
`Outcomes.Fault`. Floats are `real`, and `int()` truncates toward zero
(`Numeric.Trunc`). Python 2 `round` rounds half away from zero
(`Numeric.Round`).

Layout, one module per file:

| file | module | models |
|---|---|---|
| outcomes.dfy | Outcomes | `Result`, `Option` and the faults |
| numeric.dfy | Numeric | bytes, `int()`, `round()`, `%1`, powers of two, bit tests |
| commands_proto.dfy | CommandsProto | commands_proto.py: opcodes, word codec, `reverse_bits`, `get_wave_parameters` |
| packet_handler.dfy | PacketHandler | packet_handler.py: the port, `Handler` and burst mode |
| achan.dfy | AnalogChannels | achan.py: the calibration tables and `analog_channel` |
| scope_math.dfy | ScopeMath | the arithmetic of scope_interface.py: clamps, selectors, trigger words, rollover, waveform timing, bit packers |
| capture_fetch.dfy | CaptureFetch | the request schedule and reply layout of `__fetch_channel__` |
| scope_interface.dfy | ScopeInterface | the `Interface` commands of scope_interface.py |
| i2c.dfy | I2CBus | I2C_class.py |
| nrf.dfy | NRF24L01 | NRF24L01_class.py |
| mcp4728.dfy | MCP4728 | MCP4728_class.py |
| signed_words.dfy | SignedWords | the signed 16-bit register decoding of MPU6050.py and HMC5883L.py |
| mpu6050.dfy | MPU6050 | the `MPU6050` class of MPU6050.py |
| hmc5883l.dfy | HMC5883L | HMC5883L.py |

Paths in the table below are relative to the repository root:

- scope_interface.py is `build/lib.linux-x86_64-2.7/Labtools/scope_interface.py`.
- commands_proto.py, NRF24L01_class.py, MPU6050.py and HMC5883L.py are the
  copies under `build/lib.linux-i686-2.7/Labtools/`.

## Model

| member | source | states |
|---|---|---|
| AnalogChannels.EvalLine | Labtools/achan.py:14-24 | Every table entry `np.poly1d([0, a, b])` evaluates to the line a*x + b. |
| AnalogChannels.GainTable | Labtools/achan.py:14-20 | A per-gain table has one polynomial per entry of `gains`; entry g is [0, slope/gains[g], offset/gains[g]]. |
| AnalogChannels.BipolarFallback | Labtools/achan.py:13-14 | The fallback CH1-CH4 table at gain index g maps x to -33/1023/gains[g]*x + 16.5/gains[g]. |
| AnalogChannels.UnipolarFallback | Labtools/achan.py:15-16 | The fallback CH5-CH9 table at gain index g maps x to 3.3/1023/gains[g]*x, which is 0 at x = 0. |
| AnalogChannels.FallbackCalfacs | Labtools/achan.py:11-16 | When no calibration file loads, the dictionary has exactly the keys CH1-CH9: the inverting table for CH1-CH4 and the plain one for CH5-CH9. |
| AnalogChannels.SetTables | Labtools/achan.py:13-16 | The loop `for n in names: calfacs[n] = table` gives every name the table, adds exactly those keys and keeps every other entry. |
| AnalogChannels.PolarNamesDisjoint | Labtools/achan.py:13-16 | No name gets both fallback tables: the CH1-CH4 and CH5-CH9 names are distinct. |
| AnalogChannels.BuildCalfacs | Labtools/achan.py:6-24 | 5V, PCS, 9V, IN1, SEN and TEMP always hold their fixed tables, whether or not the file loaded. A loaded file keeps its other entries. Without one the keys are the fallback names plus the fixed ones, holding the fallback tables. |
| AnalogChannels.FallbackNotFixed | Labtools/achan.py:11-24 | The fixed tables never overwrite a fallback table: their names are distinct. |
| AnalogChannels.ChannelIndex | Labtools/achan.py:32-42 | `channel_names.index(name)` lies in -1..14, where -1 stands for the ValueError of a missing name. |
| AnalogChannels.ChannelIndexIsPosition | Labtools/achan.py:32-42 | The index of the i-th channel name is i; the index is -1 exactly for names not in the list. |
| AnalogChannels.SingleGainNames | Labtools/achan.py:22-42 | Index > 11 holds exactly for IN1, SEN and TEMP, the names with single-entry tables. |
| AnalogChannels.At | Labtools/achan.py:44-45 | Python list indexing: a negative index counts from the end. |
| AnalogChannels.SliceEnd | Labtools/achan.py:67-70 | `s[:n]` ends at min(n, len) for n >= 0 and at max(0, len + n) for negative n. |
| AnalogChannels.TwelveBitIsQuarter | Labtools/achan.py:43-45 | At 12-bit resolution the polynomial is evaluated at val/4: a 12-bit reading of 4v calibrates exactly like a 10-bit reading of v. |
| AnalogChannels.Polynomial | Labtools/achan.py:41-45 | The polynomial `calfacs[name][gain]` fix_value uses, with the gain forced to 0 past index 11. An unknown name or a missing table is UnknownChannel (ValueError/KeyError), and a gain outside the table is IndexOutOfRange. |
| AnalogChannels.SingleGainAlwaysFound | Labtools/achan.py:22-45 | For IN1, SEN and TEMP, any stored gain finds entry 0 of a non-empty table. |
| AnalogChannels.AnalogChannel.constructor | Labtools/achan.py:28-39 | `__init__(a)`: empty name, gain 0, channel a, 10-bit resolution, reference 1, length 100, timebase 1, and two fresh zeroed 4000-slot axes. |
| AnalogChannels.AnalogChannel.FixValue | Labtools/achan.py:41-45 | An unknown name fails and keeps the gain. Otherwise the gain becomes 0 for IN1/SEN/TEMP, and the result is `calibration_ref196 * poly(val)` (with val/4 at 12 bits), or the lookup's fault. Nothing else changes. |
| AnalogChannels.AnalogChannel.FixValues | Labtools/achan.py:41-45 | fix_value on a numpy array: the same outcome, with element i calibrated from vals[i] and the result as long as the input. |
| AnalogChannels.AnalogChannel.LoadYaxis | build/lib.linux-x86_64-2.7/Labtools/scope_interface.py:472 | `yaxis = fix_value(vals)`: on success the channel holds a new trace of the calibrated readings, as long as vals. An unknown name or a missing polynomial gives its fault and keeps the old trace. The name, resolution, length and timebase are unchanged, and the gain is the effective gain. |
| AnalogChannels.AnalogChannel.SetYval | Labtools/achan.py:47-48 | It succeeds exactly when the name is known, the polynomial exists and pos indexes the axis. Then exactly slot pos of yaxis (from the end if negative) holds the calibrated value; on failure yaxis is unchanged. |
| AnalogChannels.AnalogChannel.SetXval | Labtools/achan.py:50-51 | It succeeds exactly when pos indexes the axis. Then exactly slot pos of xaxis holds val; otherwise IndexOutOfRange and xaxis is unchanged. |
| AnalogChannels.AnalogChannel.SetParams | Labtools/achan.py:53-62 | Gain, resolution, length and timebase take the given value or keep their own. An absent channel resets the name to the constructor's `channel`, not to the old name. The axis is rebuilt exactly when the length or the timebase changed; otherwise it is untouched. It fails only for a changed length past the 4000 slots. |
| AnalogChannels.AnalogChannel.RegenerateXaxis | Labtools/achan.py:64-65 | xaxis[a] == timebase * a for every a below length (and below 4000). Slots from length on are unchanged. A length past 4000 is IndexOutOfRange. |
| AnalogChannels.AnalogChannel.GetXaxis | Labtools/achan.py:67-68 | Exactly the first `length` entries of xaxis (Python slice rules for negative length). |
| AnalogChannels.AnalogChannel.GetYaxis | Labtools/achan.py:69-70 | Exactly the first `length` entries of yaxis. |
| CommandsProto.IntToString | build/lib.linux-i686-2.7/Labtools/commands_proto.py:203-204 | Two bytes: `v & 0xff`, then `(v >> 8) & 0xff`, that is v mod 2^16 with the low byte first (negative v included). |
| CommandsProto.StringToInt | build/lib.linux-i686-2.7/Labtools/commands_proto.py:206-207 | The decoded word lies in [0, 2^16). |
| CommandsProto.IntDecodeRoundTrip | build/lib.linux-i686-2.7/Labtools/commands_proto.py:203-207 | Encoding a decoded word gives back the two bytes. |
| CommandsProto.IntRoundTrip | build/lib.linux-i686-2.7/Labtools/commands_proto.py:203-207 | `StringtoInt(InttoString(v)) == v & 0xFFFF` for every integer v. |
| CommandsProto.StringToLong | build/lib.linux-i686-2.7/Labtools/commands_proto.py:209-210 | The decoded value lies in [0, 2^32). |
| CommandsProto.LongBytes | build/lib.linux-i686-2.7/Labtools/commands_proto.py:209-210 | The value is little-endian: byte k is (value >> 8k) & 0xFF for each of the four bytes. |
| CommandsProto.LongDecodeInjective | build/lib.linux-i686-2.7/Labtools/commands_proto.py:209-210 | Two four-byte strings with the same value are equal. |
| CommandsProto.BinaryString | build/lib.linux-i686-2.7/Labtools/commands_proto.py:268 | `'{:0wb}'.format(x)` for x below 2^w has exactly w digits. |
| CommandsProto.ParseBinary | build/lib.linux-i686-2.7/Labtools/commands_proto.py:268 | `int(s, 2)` of an n-digit string is below 2^n. |
| CommandsProto.Reverse | build/lib.linux-i686-2.7/Labtools/commands_proto.py:268 | `s[::-1]`: same length, element i is s[len-1-i]. |
| CommandsProto.ParseOfBinary | build/lib.linux-i686-2.7/Labtools/commands_proto.py:268 | Parsing the w-digit string of x < 2^w gives x. |
| CommandsProto.BinaryOfParse | build/lib.linux-i686-2.7/Labtools/commands_proto.py:268 | Formatting a parsed digit string to its own width gives the string back. |
| CommandsProto.SmallWidth | build/lib.linux-i686-2.7/Labtools/commands_proto.py:268 | For a byte, `'{:08b}'` pads to exactly 8 digits. |
| CommandsProto.ReverseBitsInvolution | build/lib.linux-i686-2.7/Labtools/commands_proto.py:267-268 | For 0 <= x <= 255, reverse_bits(x) lies in [0, 255] and reverse_bits(reverse_bits(x)) == x. |
| CommandsProto.BinaryDigit | build/lib.linux-i686-2.7/Labtools/commands_proto.py:268 | The digit at position w-1-i of the string is bit i of x. |
| CommandsProto.ReverseBitsMirror | build/lib.linux-i686-2.7/Labtools/commands_proto.py:267-268 | Bit i of reverse_bits(x) is bit 7-i of x. |
| CommandsProto.SearchStops | build/lib.linux-i686-2.7/Labtools/commands_proto.py:245-256 | The search leaves m in {1, 2, 4, 5} and p <= 16. Both only increase. At the stop neither rule applies: not (pr2 < 40 and m < 5), and not (pr2 > 255 and p < 16). |
| CommandsProto.GetWaveParameters | build/lib.linux-i686-2.7/Labtools/commands_proto.py:234-264 | Frequency 0 is ZeroDivision. Otherwise the loop fails exactly when some visited pr2 rounds to 0 (getfreq's division). On success (m, p) is where the search stops, a[0] == round(pr2), closest == getfreq(pr2, m, p), and success holds exactly when 40 <= a[0] <= 255. |
| PacketHandler.Shifted | Labtools/I2C_class.py:81 | `ack >> 4` of a received acknowledgement is its status nibble, below 16. A queued burst acknowledgement stays queued. |
| PacketHandler.Drop | Labtools/docs/packet_handler.py:121-143 | What a read of n bytes leaves: \|s\| - min(n, \|s\|) bytes, the stream with its first n bytes removed. |
| PacketHandler.Words | Labtools/docs/packet_handler.py:97-103 | A run of `__sendInt__` calls emits two bytes per word. |
| PacketHandler.WordsEncode | Labtools/docs/packet_handler.py:97-103 | Bytes 2i and 2i+1 of the run are word i mod 2^16, low byte first. |
| PacketHandler.Ints | Labtools/docs/packet_handler.py:127-136 | n `__getInt__` calls decode the n little-endian words at the front of the stream. |
| PacketHandler.IntsOfWords | Labtools/docs/packet_handler.py:97-103 | Words sent with `__sendInt__` read back with `__getInt__` as themselves mod 2^16. (Also lines 127-136.) |
| PacketHandler.Direct | Labtools/docs/packet_handler.py:168 | `fd.write` goes to the wire even in burst mode: outside it, the same as a transmission; always leaving the stream, buffer and flag alone. |
| PacketHandler.SendKeepsAnswers | Labtools/docs/packet_handler.py:102-115 | Sending neither reads nor changes the burst state, so it does not change what the device still has to answer. |
| PacketHandler.AckReply | Labtools/docs/packet_handler.py:82-95 | `__get_ack__` fails (ord of an empty read) exactly outside burst mode with nothing incoming. It queues in burst mode, and otherwise returns the next incoming byte. |
| PacketHandler.StatusReply | Labtools/I2C_class.py:81 | `__get_ack__() >> 4`: the same failure rule, and the next byte's top nibble when one is received. (Also lines 120.) |
| PacketHandler.Handler.constructor | Labtools/docs/packet_handler.py:14-17 | Empty burst buffer, burst mode off, no queued acknowledgements, nothing written, and the device's replies waiting. |
| PacketHandler.Handler.BeginBurst | Labtools/docs/packet_handler.py:161 | `loadBurst = True` and nothing else changes. |
| PacketHandler.Handler.Write | Labtools/docs/packet_handler.py:168 | `fd.write(s)`: s appended to the wire and nothing else. (Also lines 111.) |
| PacketHandler.Handler.Read | Labtools/docs/packet_handler.py:121 | `fd.read(n)` returns the first min(n, available) incoming bytes and consumes exactly those. (Also lines 132, 143, 171.) |
| PacketHandler.Handler.SendByte | Labtools/docs/packet_handler.py:105-115 | One byte, to the wire outside burst mode or to the burst buffer inside it (where nothing is written). |
| PacketHandler.Handler.SendBytes | Labtools/docs/packet_handler.py:105-115 | A run of `__sendByte__` calls is one transmission of the whole run, with one write per byte outside burst mode and none inside. |
| PacketHandler.Handler.SendInts | Labtools/docs/packet_handler.py:97-103 | A run of `__sendInt__` calls transmits Words(vs). |
| PacketHandler.Handler.SendFrame | Labtools/docs/packet_handler.py:97-115 | Bytes, words, bytes: one transmission of head, Words(words), tail. |
| PacketHandler.Handler.Command | Labtools/docs/packet_handler.py:82-115 | The framed command and one acknowledgement. It succeeds exactly when the device answered; otherwise MissingAck. |
| PacketHandler.Handler.ChunkQuery | Labtools/docs/packet_handler.py:82-103 | Request, `fd.read(n)`, acknowledgement. It returns the bytes that arrived (at most n) and succeeds exactly in burst mode or when a byte was left for the acknowledgement. |
| PacketHandler.Handler.Exchange | Labtools/docs/packet_handler.py:82-115 | Bytes then acknowledgement; it succeeds exactly when answered. |
| PacketHandler.Handler.Handshake | Labtools/docs/packet_handler.py:82-115 | Bytes then acknowledgement, returning AckReply of the state before. |
| PacketHandler.Handler.Steps | Labtools/I2C_class.py:78-91 | A run of acknowledged frames succeeds exactly when the device answers all of them, leaving every frame sent and every acknowledgement read. Otherwise: not burst mode, and the run stopped right after the frame whose acknowledgement was missing. |
| PacketHandler.Handler.SendInt | Labtools/docs/packet_handler.py:97-103 | `InttoString(val)` to the wire, or to the buffer in burst mode. |
| PacketHandler.Handler.GetAck | Labtools/docs/packet_handler.py:82-95 | In burst mode nothing is read, inputQueueSize rises by exactly 1, and the acknowledgement is Queued. Outside it, exactly one byte is consumed and returned, and an empty read is MissingAck. |
| PacketHandler.Handler.GetByte | Labtools/docs/packet_handler.py:117-125 | One byte consumed and returned, in burst mode too. An empty read is the fatal CommunicationError. |
| PacketHandler.Handler.GetInt | Labtools/docs/packet_handler.py:127-136 | Two bytes consumed, returning b0 \| b1 << 8. A short read consumes what arrived and is the fatal CommunicationError. |
| PacketHandler.Handler.GetLong | Labtools/docs/packet_handler.py:138-147 | Four bytes consumed, returning their little-endian value; a short read returns -1, not a failure. |
| PacketHandler.Handler.GetInterval | Labtools/docs/packet_handler.py:127-147 | Two `__getLong__` calls and one `__getInt__`: the three values decoded from the next ten bytes. It fails exactly when fewer than ten bytes arrived, since only the final word's short read is fatal. |
| PacketHandler.Handler.CountedRead | build/lib.linux-i686-2.7/Labtools/NRF24L01_class.py:324-326 | A count byte, then `fd.read(count)` unless the count is 0. The count fails like `__getByte__`. |
| PacketHandler.Handler.ByteQuery | Labtools/docs/packet_handler.py:82-125 | Request, one `__getByte__`, acknowledgement: the byte read. It fails like the byte read or the acknowledgement. |
| PacketHandler.Handler.IntervalRequest | build/lib.linux-x86_64-2.7/Labtools/scope_interface.py:958-977 | The framed command and the interval reply. |
| PacketHandler.Handler.IntervalQuery | build/lib.linux-x86_64-2.7/Labtools/scope_interface.py:958-978 | The interval request and its acknowledgement. |
| PacketHandler.Handler.GetInts | build/lib.linux-x86_64-2.7/Labtools/scope_interface.py:1333 | n `__getInt__` calls return Ints of the stream and consume 2n bytes, and fail with CommunicationError exactly when fewer than 2n bytes arrived. |
| PacketHandler.Handler.Request | Labtools/docs/packet_handler.py:97-115 | A framed request and `fd.read(n)`, returning the bytes that arrived. |
| PacketHandler.Handler.IntsQuery | build/lib.linux-x86_64-2.7/Labtools/scope_interface.py:1329-1334 | Request, n words, acknowledgement. The words are Ints of the stream, and it fails exactly when fewer than 2n bytes, or no acknowledgement, arrived. |
| PacketHandler.Handler.GetIntsByte | build/lib.linux-x86_64-2.7/Labtools/scope_interface.py:1297-1302 | n words and one byte from the stream, failing on a short stream. |
| PacketHandler.Handler.IntsByteQuery | build/lib.linux-x86_64-2.7/Labtools/scope_interface.py:1295-1303 | Request, n words, one byte, acknowledgement, with each failure case. |
| PacketHandler.Handler.SendBurst | Labtools/docs/packet_handler.py:150-173 | The whole buffer in one write; exactly inputQueueSize bytes read and returned in arrival order; burstBuffer empty, loadBurst false and inputQueueSize 0 afterwards. |
| PacketHandler.Handler.SendChar | Labtools/docs/packet_handler.py:175-190 | UART_2, SEND_CHAR and c, then one acknowledgement. |
| CaptureFetch.Requested | build/lib.linux-x86_64-2.7/Labtools/scope_interface.py:453-468 | The first n requests ask for 20n samples when all of them are full, and all the samples once the remainder request is included. |
| CaptureFetch.OffsetsContiguous | build/lib.linux-x86_64-2.7/Labtools/scope_interface.py:454-467 | Request i starts at offset i*20, where the requests before it stopped. The remainder starts at samples - samples%20, so the requests cover the trace without gap or overlap. |
| CaptureFetch.RemainingStep | build/lib.linux-x86_64-2.7/Labtools/scope_interface.py:460-469 | Request i's read and acknowledgement consume exactly the bytes the schedule assigns it. |
| CaptureFetch.CollectComplete | build/lib.linux-x86_64-2.7/Labtools/scope_interface.py:452-469 | When every reply is there, the data gathered is 2*samples bytes: the stream with each request's acknowledgement byte removed. |
| CaptureFetch.DeinterleavedExtend | build/lib.linux-x86_64-2.7/Labtools/scope_interface.py:460-461 | One more chunk read after the previous acknowledgement extends the gathered data. |
| CaptureFetch.CollectBurst | build/lib.linux-x86_64-2.7/Labtools/scope_interface.py:452-469 | In burst mode the acknowledgements read nothing, and the data is the front of the stream. |
| CaptureFetch.RequestStep | build/lib.linux-x86_64-2.7/Labtools/scope_interface.py:454-469 | Each request, with its read and acknowledgement, extends the combined step of the requests before it. |
| CaptureFetch.RequestedAtMost | build/lib.linux-x86_64-2.7/Labtools/scope_interface.py:454-468 | The requests never ask past the trace. |
| CaptureFetch.ShortReply | build/lib.linux-x86_64-2.7/Labtools/scope_interface.py:460-461 | Outside burst mode, a reply with no byte left for request i's acknowledgement is not a full answer. |
| CaptureFetch.FullReply | build/lib.linux-x86_64-2.7/Labtools/scope_interface.py:468-469 | Outside burst mode, a stream with the last acknowledgement after the last data is a full answer. |
| CaptureFetch.SampleValue | build/lib.linux-x86_64-2.7/Labtools/scope_interface.py:471 | `buff[a] = d[2a] \| d[2a+1] << 8` is StringtoInt of the pair, below 2^16. |
| CaptureFetch.SampleOfWords | build/lib.linux-x86_64-2.7/Labtools/scope_interface.py:471 | A reply the device encoded with `InttoString` rebuilds to the words mod 2^16. |
| ScopeMath.ClampTimebase | build/lib.linux-x86_64-2.7/Labtools/scope_interface.py:349-370 | For 1 to 4 channels the timebase is raised to at least 1, 1.25 or 1.75 us, and a timebase already above that is kept. Any other count leaves it as given. |
| ScopeMath.ClampSamples | build/lib.linux-x86_64-2.7/Labtools/scope_interface.py:351-371 | For 1 to 4 channels the count is cut to min(samples, 3200, 1600 or 800). Any other count leaves it as given. |
| ScopeMath.ClampIdempotent | build/lib.linux-x86_64-2.7/Labtools/scope_interface.py:349-371 | Clamping an already clamped timebase or count changes nothing. |
| ScopeMath.CaptureFitsBuffer | build/lib.linux-x86_64-2.7/Labtools/scope_interface.py:349-377 | For 1, 2 and 4 channels, the channels times the clamped count fit the 3200-sample buffer. |
| ScopeMath.TimerTicks | build/lib.linux-x86_64-2.7/Labtools/scope_interface.py:381 | `int(timebase*8)` for a non-negative timebase: the whole number of 8 MHz ticks, timebase*8 truncated. |
| ScopeMath.CaptureSelector | build/lib.linux-x86_64-2.7/Labtools/scope_interface.py:336 | The selector byte has bit 7 set whenever triggering is on. (Also lines 356, 366, 377.) |
| ScopeMath.CaptureSelectorLayout | build/lib.linux-x86_64-2.7/Labtools/scope_interface.py:336 | With the fields in range, `CHOSA\|(CH123SA<<4)\|0x80` is CHOSA + 16*CH123SA + 128 for 3 or 4 channels. For 1 or 2 channels it is CHOSA + 128, or CHOSA alone with trigger=False. (Also lines 356, 366, 377.) |
| ScopeMath.Upper | build/lib.linux-x86_64-2.7/Labtools/scope_interface.py:640 | `name.upper()`: same length; a-z become A-Z and every other character is kept. |
| ScopeMath.UpperIdempotent | build/lib.linux-x86_64-2.7/Labtools/scope_interface.py:640 | Upper-casing twice is upper-casing once. |
| ScopeMath.UnipolarIndex | build/lib.linux-x86_64-2.7/Labtools/scope_interface.py:638-644 | `unipolars.index(name)` lies in 0..7, or is -1 for a name not among them. |
| ScopeMath.SelectorOf | build/lib.linux-x86_64-2.7/Labtools/scope_interface.py:636-652 | The selector is at most 8, and is 4 exactly for the multiplexed (unipolar) inputs. |
| ScopeMath.SelectorTable | build/lib.linux-x86_64-2.7/Labtools/scope_interface.py:637-652 | CH2, CH3, CH4, CH1 give 0..3; every unipolar input gives 4; IN1 5, the chip-select placeholder 6, SEN 7, TEMP 8; every other name falls back to 3. |
| ScopeMath.TriggerWord | build/lib.linux-x86_64-2.7/Labtools/scope_interface.py:536-539 | The trigger word lies in 0..1023 whatever the level and gain. |
| ScopeMath.TriggerWordZero | build/lib.linux-x86_64-2.7/Labtools/scope_interface.py:536-539 | Level 0 gives 511 at every gain. |
| ScopeMath.TriggerWordMonotone | build/lib.linux-x86_64-2.7/Labtools/scope_interface.py:536-539 | For a positive gain, a higher level never gives a higher word. |
| ScopeMath.ChannelProgress | build/lib.linux-x86_64-2.7/Labtools/scope_interface.py:1298-1313 | Channel k's count is (raw - initial)/2 - 800k when positive, 800 when that is exactly 0, and 0 when negative; never negative. |
| ScopeMath.InitialLevels | build/lib.linux-x86_64-2.7/Labtools/scope_interface.py:1315 | Four levels; level i is bit i of the state byte. |
| ScopeMath.InputStates | build/lib.linux-x86_64-2.7/Labtools/scope_interface.py:1420 | The dictionary has exactly the keys ID1..ID4. |
| ScopeMath.InputStatesAreLevels | build/lib.linux-x86_64-2.7/Labtools/scope_interface.py:1315 | get_states' IDk is get_LA_initial_states' level k-1 of the same byte. (Also lines 1420.) |
| ScopeMath.TrimZeros | build/lib.linux-x86_64-2.7/Labtools/scope_interface.py:1335-1365 | `np.trim_zeros`: a contiguous slice that only zeros surround, with nonzero first and last entries (or empty). |
| ScopeMath.TrimBothEnds | build/lib.linux-x86_64-2.7/Labtools/scope_interface.py:1335 | Trimming the front and then the back strips zeros from both ends, as trim_zeros's default does. |
| ScopeMath.TrimZerosIdempotent | build/lib.linux-x86_64-2.7/Labtools/scope_interface.py:1335 | Trimming a trimmed array changes nothing. |
| ScopeMath.AddFrom | build/lib.linux-x86_64-2.7/Labtools/scope_interface.py:1340 | `t[b:] += 65535`: every entry from b on is raised by 65535, every one before is kept. |
| ScopeMath.Unrolled | build/lib.linux-x86_64-2.7/Labtools/scope_interface.py:1336-1341 | The rollover correction from position b on keeps the length and the entries before b. |
| ScopeMath.UnrolledOrdered | build/lib.linux-x86_64-2.7/Labtools/scope_interface.py:1336-1341 | A non-decreasing input is returned unchanged. |
| ScopeMath.UnrolledOrders | build/lib.linux-x86_64-2.7/Labtools/scope_interface.py:1336-1341 | With positive entries that drop by at most 65535 and an ordered prefix, the result is non-decreasing. |
| ScopeMath.WordsUnrollOrdered | build/lib.linux-x86_64-2.7/Labtools/scope_interface.py:1333-1341 | Trimmed words in 1..65535 come out non-decreasing. |
| ScopeMath.UnrolledExample | build/lib.linux-x86_64-2.7/Labtools/scope_interface.py:1336-1341 | [60000, 5000, 6000] becomes [60000, 70535, 71535]. |
| ScopeMath.Unroll | build/lib.linux-x86_64-2.7/Labtools/scope_interface.py:1336-1341 | The `while b < len(t)` loop computes exactly Unrolled(t, 1). |
| ScopeMath.LongAtValue | build/lib.linux-x86_64-2.7/Labtools/scope_interface.py:1363 | The or-ed bytes of entry a are StringtoLong of its four bytes. |
| ScopeMath.Longs | build/lib.linux-x86_64-2.7/Labtools/scope_interface.py:1362-1363 | n timestamps, entry j from bytes 4j..4j+3. |
| ScopeMath.LongsOfPrefix | build/lib.linux-x86_64-2.7/Labtools/scope_interface.py:1360-1363 | Decoding the bytes `fd.read` returned equals decoding the stream they came from. |
| ScopeMath.DecodeLongs | build/lib.linux-x86_64-2.7/Labtools/scope_interface.py:1361-1363 | The loop over `np.zeros(bytes*4)` succeeds exactly when 4n bytes arrived. It then gives the n timestamps followed by 3n zeros; otherwise IndexError. |
| ScopeMath.TrimZerosPadded | build/lib.linux-x86_64-2.7/Labtools/scope_interface.py:1361-1365 | Trailing zeros added to an array are trimmed away again, so the 3n unused slots never reach the result. |
| ScopeMath.LaOffset | build/lib.linux-x86_64-2.7/Labtools/scope_interface.py:1394-1398 | The offset is the trigger channel's first timestamp when its dlength is over 1 and one channel was captured (IndexError if it has none), and 0 otherwise. |
| ScopeMath.Aligned | build/lib.linux-x86_64-2.7/Labtools/scope_interface.py:1399-1401 | Channels before `digital_channels_in_buffer` have every timestamp lowered by the offset; the rest are untouched. |
| ScopeMath.TriggerChannelStartsAtZero | build/lib.linux-x86_64-2.7/Labtools/scope_interface.py:1394-1401 | After a one-channel capture triggered on that channel, its first timestamp becomes 0. |
| ScopeMath.OtherTriggerShiftsFirstChannel | build/lib.linux-x86_64-2.7/Labtools/scope_interface.py:1394-1401 | With one channel captured and trigchan 2 to 4, channel 1 is shifted by the trigger channel's first timestamp, and the trigger channel keeps its own. |
| ScopeMath.TuningHalves | build/lib.linux-x86_64-2.7/Labtools/scope_interface.py:1742-1743 | `f & 0x3FFF` and `(f >> 14) & 0x3FFF` both lie in [0, 2^14). |
| ScopeMath.SineWords | build/lib.linux-x86_64-2.7/Labtools/scope_interface.py:1738-1743 | set_sine sends two words, both 14-bit. |
| ScopeMath.TuningHalvesJoin | build/lib.linux-x86_64-2.7/Labtools/scope_interface.py:1742-1743 | A 28-bit tuning word is its low half plus 2^14 times its high half, so the split loses nothing. |
| ScopeMath.TuningWordFits | build/lib.linux-x86_64-2.7/Labtools/scope_interface.py:1738 | Frequencies from 0 up to the DDS clock round to words in 0..2^28-1. |
| ScopeMath.SqrPrescalerFrom | build/lib.linux-x86_64-2.7/Labtools/scope_interface.py:2031-2036 | The first index from i on whose wavelength is under 65525, with every index before it at 65525 or more; None when there is none. |
| ScopeMath.SqrWavelengthFits | build/lib.linux-x86_64-2.7/Labtools/scope_interface.py:2034-2044 | For a positive frequency, the rounded wavelength at the chosen index lies in 0..65525. |
| ScopeMath.SqrOutOfRange | build/lib.linux-x86_64-2.7/Labtools/scope_interface.py:2033-2039 | A positive frequency finds no index exactly when even divisor 256 leaves 65525 ticks or more. |
| ScopeMath.SqrTimes | build/lib.linux-x86_64-2.7/Labtools/scope_interface.py:2040-2045 | Two words are sent: the rounded wavelength and the rounded high time. |
| ScopeMath.EdgesAt | build/lib.linux-x86_64-2.7/Labtools/scope_interface.py:2135-2155 | An output's edges wrap exactly when h + p > 1. |
| ScopeMath.WrappedEdges | build/lib.linux-x86_64-2.7/Labtools/scope_interface.py:2135-2138 | A wrapped pulse rises at int((h+p)%1*w) and falls at int(p*w), both within the period, rise first. |
| ScopeMath.PulseEdgesInPeriod | build/lib.linux-x86_64-2.7/Labtools/scope_interface.py:2132-2155 | For h and p in [0, 1], 0 <= rise <= fall <= wavelength. A phase of 0 is taken as 1, and the wrap flag is set exactly when h + p > 1 on that phase. |
| ScopeMath.PulseWords | build/lib.linux-x86_64-2.7/Labtools/scope_interface.py:2129-2163 | Eight words are sent, the first of them the period. |
| ScopeMath.WrapBits | build/lib.linux-x86_64-2.7/Labtools/scope_interface.py:2131-2152 | Bits 2, 3 and 4 are set exactly when SQR2, OD1 and OD2 wrap; the byte is below 32. |
| ScopeMath.ContinuousTiming | build/lib.linux-x86_64-2.7/Labtools/scope_interface.py:2185-2199 | It is None (frequency too low) exactly when int(64e6/freq) > 0xFFFF00; otherwise the code has bit 5 set, in 32..35. |
| ScopeMath.ContinuousFits | build/lib.linux-x86_64-2.7/Labtools/scope_interface.py:2185-2199 | For a positive frequency the chosen wavelength always fits 16 bits. |
| ScopeMath.ContinuousWords | build/lib.linux-x86_64-2.7/Labtools/scope_interface.py:2202-2219 | Eight words are sent, the first of them the wavelength. |
| ScopeMath.ContinuousEdgesInPeriod | build/lib.linux-x86_64-2.7/Labtools/scope_interface.py:2205-2210 | Both `%1` edges lie within the period. |
| ScopeMath.ReferenceOutputs | build/lib.linux-x86_64-2.7/Labtools/scope_interface.py:2248-2253 | The output mask is below 32. |
| ScopeMath.ReferenceOutputsBits | build/lib.linux-x86_64-2.7/Labtools/scope_interface.py:2248-2253 | Bit 0..4 is set exactly when sqr1, sqr2, od1, od2 or wavegen is among the args. |
| ScopeMath.ReferenceClock | build/lib.linux-x86_64-2.7/Labtools/scope_interface.py:2256 | 128e6/(1<<scaler) is a positive frequency. |
| ScopeMath.Nibble | build/lib.linux-x86_64-2.7/Labtools/scope_interface.py:1461-1469 | Four bits packed into a value below 16. |
| ScopeMath.StateByte | build/lib.linux-x86_64-2.7/Labtools/scope_interface.py:1461-1469 | The set_state byte fits a byte. |
| ScopeMath.StateByteNibbles | build/lib.linux-x86_64-2.7/Labtools/scope_interface.py:1461-1469 | The low nibble holds the levels of SQR1, SQR2, OD1, OD2 (0 for an output not given); the high nibble marks, in the same order, the outputs given. |
| ScopeMath.StateByteFields | build/lib.linux-x86_64-2.7/Labtools/scope_interface.py:1461-1469 | Bit by bit: level bit k is that output's level, and enable bit k is set exactly when the output is given. |
| ScopeMath.DigitalChannel | build/lib.linux-x86_64-2.7/Labtools/scope_interface.py:728-737 | `__calcDChan__` is below 6. It is nonzero only for ID2, ID3, ID4, LMETER and CH4; ID1 and any unknown name give 0. |
| ScopeMath.EdgeCode | build/lib.linux-x86_64-2.7/Labtools/scope_interface.py:965-972 | An edge code is 2, 3 or 4. |
| ScopeMath.IntervalParams | build/lib.linux-x86_64-2.7/Labtools/scope_interface.py:965-972 | The params byte is below 64: edge1's code in bits 0-2 and edge2's in bits 3-5. |
| ScopeMath.IntervalChannels | build/lib.linux-x86_64-2.7/Labtools/scope_interface.py:963 | channel1's number in the low nibble, channel2's in the high one. |
| ScopeMath.IntervalTime | build/lib.linux-x86_64-2.7/Labtools/scope_interface.py:980-982 | -1 when tmt >= timeout_msb or B == 0; otherwise (B - A + 20)/64e6 seconds. |
| ScopeMath.OneChannelTriggerFlag | build/lib.linux-x86_64-2.7/Labtools/scope_interface.py:1110-1119 | Bit 0 stays the caller's trigger flag. |
| ScopeMath.OneChannelTriggerRising | build/lib.linux-x86_64-2.7/Labtools/scope_interface.py:1118 | edge='rising' sets bit 1. |
| ScopeMath.OneChannelTriggerKeeps | build/lib.linux-x86_64-2.7/Labtools/scope_interface.py:1110-1119 | The or-ing of the edge and channel fields never clears a trigger-input bit. |
| ScopeMath.OneChannelTriggerOwnInput | build/lib.linux-x86_64-2.7/Labtools/scope_interface.py:1115-1116 | Without trigger_channels, or with the flag clear, bit channel+4 is set. |
| ScopeMath.OneChannelTriggerNamed | build/lib.linux-x86_64-2.7/Labtools/scope_interface.py:1110-1114 | With trigger_channels and the flag set, each of ID1, ID2, ID3 named sets bit 4, 5 or 6. |
| ScopeMath.OneChannelTriggerBits | build/lib.linux-x86_64-2.7/Labtools/scope_interface.py:1110-1119 | All of the above at once: bit 0 is the flag, bit 1 the rising edge, and the trigger inputs are bits 4-6 as named or the acquired channel's own bit. |
| ScopeMath.OneChannelTriggerFits | build/lib.linux-x86_64-2.7/Labtools/scope_interface.py:1110-1121 | For ID1-ID4 and a 0/1 trigger the byte is below 256. |
| ScopeMath.OneChannelTriggerOverflows | build/lib.linux-x86_64-2.7/Labtools/scope_interface.py:1116 | For LMETER and CH4 (numbers 4, 5) without trigger_channels, bit 8 or 9 is set, so `chr()` fails. |
| ScopeMath.ModeWordNibbles | build/lib.linux-x86_64-2.7/Labtools/scope_interface.py:1266 | Modes below 16 give mode[0] + 16*mode[1] + 256*mode[2] + 4096*mode[3], a 16-bit word from which each mode reads back. |
| ScopeMath.NibbleWordIsSum | build/lib.linux-x86_64-2.7/Labtools/scope_interface.py:1266 | Or-ing nibbles at bits 0, 4, 8, 12 equals their positional sum. |
| ScopeMath.NibbleWordDigits | build/lib.linux-x86_64-2.7/Labtools/scope_interface.py:1266 | Each nibble of the sum reads back by division and remainder. |
| ScopeMath.FourChannelOptionsBit | build/lib.linux-x86_64-2.7/Labtools/scope_interface.py:1268-1271 | Bits 2, 3, 4 of trigopts are set exactly for trigger_ID1, _ID2, _ID3. |
| ScopeMath.FourChannelOptionsNone | build/lib.linux-x86_64-2.7/Labtools/scope_interface.py:1268-1272 | With none chosen trigopts is 0, which selects ID1. |
| ScopeMath.FourChannelTriggerBit | build/lib.linux-x86_64-2.7/Labtools/scope_interface.py:1268-1274 | Bit i of the byte is set exactly when it is set in the trigger (widened by 4 when trigopts is 0), in trigopts, or in the rising flag. |
| ScopeMath.FourChannelTriggerBits | build/lib.linux-x86_64-2.7/Labtools/scope_interface.py:1268-1274 | Bit 0 is the caller's flag, bit 1 the rising edge, bit 2 ID1 (also when none is chosen), and bits 3 and 4 ID2 and ID3. |
| ScopeMath.FourChannelTriggerFits | build/lib.linux-x86_64-2.7/Labtools/scope_interface.py:1268-1275 | For a 0/1 trigger the byte is below 32. |
| ScopeMath.DacWordLayout | build/lib.linux-x86_64-2.7/Labtools/scope_interface.py:615 | For a 12-bit value, `(channel<<15)\|(1<<14)\|(1<<13)\|(1<<12)\|n` is 32768*channel + 28672 + n. |
| ScopeMath.Padded | build/lib.linux-x86_64-2.7/Labtools/scope_interface.py:1643 | The record has length max(16, len): the string first, then '.' only. |
| ScopeMath.PadFlash | build/lib.linux-x86_64-2.7/Labtools/scope_interface.py:1643 | The `while len < 16: s += '.'` loop gives exactly Padded(s). |
| ScopeInterface.PgaChipSelect | build/lib.linux-x86_64-2.7/Labtools/scope_interface.py:90 | A channel has an amplifier exactly when it is CH1-CH4 or a multiplexed input. The multiplexed ones share amplifier 5, and every amplifier is 1..5. |
| ScopeInterface.ChannelBit | build/lib.linux-x86_64-2.7/Labtools/scope_interface.py:535 | `1<<chan` for chan below 8 is a byte, 2^chan. |
| ScopeInterface.ShiftOverflowsByte | build/lib.linux-x86_64-2.7/Labtools/scope_interface.py:535 | From chan 8 on, `1<<chan` is at least 256, so `chr()` fails. |
| ScopeInterface.ActiveChannels | build/lib.linux-x86_64-2.7/Labtools/scope_interface.py:349-377 | 1 to 4 channels reconfigure 1 to 4 channel objects. |
| ScopeInterface.CaptureHead | build/lib.linux-x86_64-2.7/Labtools/scope_interface.py:355-377 | CAPTURE_ONE/TWO/FOUR and the selector for 1 to 4 channels; nothing for any other count. |
| ScopeInterface.WithCaptureGains | build/lib.linux-x86_64-2.7/Labtools/scope_interface.py:339-347 | Channel 1 takes its input's analog gain, or the sensor gain, or 0; CH2..CH4 take analog_gains; nothing else changes. |
| ScopeInterface.Reconfigure | build/lib.linux-x86_64-2.7/Labtools/scope_interface.py:349-374 | Reconfigured channels take the capture name, clamped count and timebase and keep gain and resolution; the others are untouched. |
| ScopeInterface.Slot | build/lib.linux-x86_64-2.7/Labtools/scope_interface.py:448 | `achans[ch-1]`: 1..4 pick CH1..CH4, and 0..-3 count from the end. |
| ScopeInterface.FourChannelSetups | build/lib.linux-x86_64-2.7/Labtools/scope_interface.py:1279-1285 | Digital channel n gets prescaler 0, 'int', 800 samples, maximum_time*1e6 and mode[n]. |
| ScopeInterface.NewChannels | build/lib.linux-x86_64-2.7/Labtools/scope_interface.py:89 | Four fresh, distinct analog channels named CH1..CH4, with distinct axes. |
| ScopeInterface.Interface.constructor | build/lib.linux-x86_64-2.7/Labtools/scope_interface.py:50-133 | The settings before the device is contacted: 40 us timebase, 3200 samples, no channels in the buffer, the initial gains, multiplexer and sensor gain 0, and the 1 MHz DDS clock. Also a zeroed buffer and four fresh CH1..CH4 channels. |
| ScopeInterface.Interface.ClearBuffer | build/lib.linux-x86_64-2.7/Labtools/scope_interface.py:1978-1986 | COMMON, CLEAR_BUFFER, the two words, and the acknowledgement; it succeeds exactly when the device answers. |
| ScopeInterface.Interface.AllParams | build/lib.linux-x86_64-2.7/Labtools/scope_interface.py:89 | One parameter record per channel object. |
| ScopeInterface.Interface.Axes | build/lib.linux-x86_64-2.7/Labtools/scope_interface.py:89 | One time axis per channel object. |
| ScopeInterface.Interface.CaptureTraces | build/lib.linux-x86_64-2.7/Labtools/scope_interface.py:276-383 | Every outcome's whole effect. An unanswered multiplexer switch fails after ADC with only the timebase and the cache changed. A selector past a byte fails after the opcode. Otherwise: ADC, the selector switch, the opcode and selector, the clamped count and `int(t*8)`, and one acknowledgement. Timebase and samples are clamped; channels_in_buffer becomes num (3 for three) when answered. The gains are assigned, the channel objects reconfigured, and their axes rebuilt. |
| ScopeInterface.Interface.CaptureGains | build/lib.linux-x86_64-2.7/Labtools/scope_interface.py:339-347 | The channel objects' parameters become WithCaptureGains of the old ones. |
| ScopeInterface.Interface.CaptureSelect | build/lib.linux-x86_64-2.7/Labtools/scope_interface.py:348-383 | From `__calcCHOSA__` on: its failure ends the call; otherwise CaptureRun with the selector of the name. |
| ScopeInterface.Interface.CaptureRun | build/lib.linux-x86_64-2.7/Labtools/scope_interface.py:349-383 | The capture frame and settings for a known selector, with the InvalidByte case after the opcode. |
| ScopeInterface.Interface.CaptureSetup | build/lib.linux-x86_64-2.7/Labtools/scope_interface.py:349-374 | Returns the clamped count and stores the clamped timebase. The channel objects become Reconfigure of the old ones, with their axes rebuilt as set_params does. |
| ScopeInterface.Interface.CaptureSend | build/lib.linux-x86_64-2.7/Labtools/scope_interface.py:355-383 | The opcode, selector, count and timer word, then the acknowledgement. self.samples is set, and channels_in_buffer only on an answer. A selector past a byte is InvalidByte after the opcode. |
| ScopeInterface.Interface.CaptureParams | build/lib.linux-x86_64-2.7/Labtools/scope_interface.py:353-374 | The set_params calls leave the channel parameters as Reconfigure says and the axes as set_params rebuilds them. |
| ScopeInterface.Interface.ReparamBipolars | build/lib.linux-x86_64-2.7/Labtools/scope_interface.py:373-374 | CH2, CH3, CH4 retuned in turn; channel 1 untouched. |
| ScopeInterface.Interface.Reparam | build/lib.linux-x86_64-2.7/Labtools/scope_interface.py:353-374 | Only channel object i changes, as set_params retunes it. |
| ScopeInterface.Interface.SelectSensorChannel | build/lib.linux-x86_64-2.7/Labtools/scope_interface.py:619-633 | ADC, SELECT_PGA_CHANNEL, channel, acknowledgement; it succeeds exactly when answered. |
| ScopeInterface.Interface.CalcCHOSA | build/lib.linux-x86_64-2.7/Labtools/scope_interface.py:636-652 | Returns SelectorOf(name.upper()). A multiplexed input different from the cache sets the cache and then sends the selection, and fails only if that is unanswered. Any other name sends nothing. |
| ScopeInterface.Interface.FetchChannel | build/lib.linux-x86_64-2.7/Labtools/scope_interface.py:436-473 | A channel outside -3..4 is IndexError, and one past the capture is False; neither sends anything. Channels 0..-3 fail at `chr(ch-1)`. Otherwise the samples//20 requests and the remainder are sent, each with its read and acknowledgement, and the buffer and yaxis are loaded from the gathered data. A missing acknowledgement is MissingAck, with the buffer and the channel object unchanged. |
| ScopeInterface.Interface.FetchTrace | build/lib.linux-x86_64-2.7/Labtools/scope_interface.py:452-472 | The request loop and the rebuilding for a valid channel object. A missing acknowledgement is MissingAck, with the buffer and the channel object unchanged. |
| ScopeInterface.Interface.FetchChannelOneshot | build/lib.linux-x86_64-2.7/Labtools/scope_interface.py:477-502 | Same guards; one request of n samples at offset 0, its read, the acknowledgement, and the rebuilding. The port effect is the same on every path; a missing acknowledgement is MissingAck, with the buffer and the channel object unchanged. |
| ScopeInterface.Interface.FetchTraceOneshot | build/lib.linux-x86_64-2.7/Labtools/scope_interface.py:493-501 | The single request and the rebuilding. The port effect is the same on every path; a missing acknowledgement is MissingAck, with the buffer and the channel object unchanged. |
| ScopeInterface.Interface.FetchData | build/lib.linux-x86_64-2.7/Labtools/scope_interface.py:452-469 | It succeeds exactly in burst mode or when the device answers every request. Then all requests are sent in order and the data is Collected from the stream. |
| ScopeInterface.Interface.FetchChunk | build/lib.linux-x86_64-2.7/Labtools/scope_interface.py:455-461 | Request i with count ChunkSize and offset Offset extends the state and the gathered data by one step. |
| ScopeInterface.Interface.LoadTrace | build/lib.linux-x86_64-2.7/Labtools/scope_interface.py:471-472 | The buffer and the channel's yaxis as the samples and fix_value make them, or the fault that stops it. |
| ScopeInterface.Interface.StoreSamples | build/lib.linux-x86_64-2.7/Labtools/scope_interface.py:471 | buff[a] == Sample(data, a) for each a stored, and the rest unchanged. It succeeds exactly when all n fit both the reply and the 4000 slots; otherwise IndexError. |
| ScopeInterface.Interface.SetGain | build/lib.linux-x86_64-2.7/Labtools/scope_interface.py:544-582 | A channel without an amplifier returns None with nothing sent. Otherwise the gain is stored first, then ADC, SET_PGA_GAIN, amplifier, gain and the acknowledgement are sent. It returns gain_values[gain], with IndexError past the table and InvalidByte for a gain past a byte. |
| ScopeInterface.Interface.ConfigureTrigger | build/lib.linux-x86_64-2.7/Labtools/scope_interface.py:506-540 | A negative chan is ValueError and chan >= 8 fails `chr`, both after two bytes. chan 4..7 and an out-of-table gain are IndexError after the channel bit. Otherwise the channel bit, the trigger word and the acknowledgement. |
| ScopeInterface.Interface.MapReferenceClock | build/lib.linux-x86_64-2.7/Labtools/scope_interface.py:2224-2257 | WAVEGEN, MAP_REFERENCE, the output mask, scaler, acknowledgement. With 'wavegen' the DDS clock becomes 128e6/2^scaler. A scaler past a byte fails before it is sent and leaves the clock. |
| ScopeInterface.Interface.SetSine | build/lib.linux-x86_64-2.7/Labtools/scope_interface.py:1723-1771 | A zero DDS clock is ZeroDivision with nothing sent, and a register past a byte is InvalidByte after two bytes. Otherwise 14+register, the two 14-bit halves and the acknowledgement, returning the frequency. |
| ScopeInterface.Interface.Sqr | build/lib.linux-x86_64-2.7/Labtools/scope_interface.py:2020-2078 | freq 0 is ZeroDivision; no prescaler sends nothing; otherwise the rounded wavelength, the rounded high time and the index (not the divisor), then the acknowledgement. |
| ScopeInterface.Interface.Sqr4Pulse | build/lib.linux-x86_64-2.7/Labtools/scope_interface.py:2105-2165 | freq 0 is ZeroDivision; a period past 65535 sends nothing; otherwise PulseWords with the PulseEdges and the wrap byte, then the acknowledgement. |
| ScopeInterface.Interface.Sqr4Continuous | build/lib.linux-x86_64-2.7/Labtools/scope_interface.py:2167-2221 | freq 0 is ZeroDivision; too low a frequency sends nothing; otherwise the ContinuousTiming wavelength's words and its prescaler code, then the acknowledgement. |
| ScopeInterface.Interface.SetState | build/lib.linux-x86_64-2.7/Labtools/scope_interface.py:1446-1474 | DOUT, SET_STATE, the StateByte and the acknowledgement. |
| ScopeInterface.Interface.GetStates | build/lib.linux-x86_64-2.7/Labtools/scope_interface.py:1408-1420 | DIN, GET_STATES, one byte, acknowledgement; the dictionary is InputStates of the byte, with each failure case. |
| ScopeInterface.Interface.WriteDac | build/lib.linux-x86_64-2.7/Labtools/scope_interface.py:613-614 | As written: DAC goes out, then the NameError of SET_PVS1, with nothing else sent. |
| ScopeInterface.Interface.WriteDacWord | build/lib.linux-x86_64-2.7/Labtools/scope_interface.py:613-617 | The intended write_dac: DAC, the sub-command, the DAC word as one 16-bit word, then the acknowledgement; it succeeds exactly when answered. |
| ScopeInterface.Interface.MeasureInterval | build/lib.linux-x86_64-2.7/Labtools/scope_interface.py:921-982 | TIMING, INTERVAL_MEASUREMENTS, the timeout word, channel byte, params byte; then A, B, tmt and the acknowledgement. Fewer than ten reply bytes is the fatal error; the result is IntervalTime(A, B, tmt). |
| ScopeInterface.Interface.GetLaInitialStates | build/lib.linux-x86_64-2.7/Labtools/scope_interface.py:1289-1315 | Five words, a byte and the acknowledgement. A to D are ChannelProgress of each pointer against the first, and the levels are InitialLevels of the byte. Failure cases: a short reply, no acknowledgement. |
| ScopeInterface.Interface.FetchIntDataFromLa | build/lib.linux-x86_64-2.7/Labtools/scope_interface.py:1318-1343 | chan-1 outside a byte fails when sent and a short reply is fatal. Otherwise the result is Unrolled(TrimZeros(the n words)) after the acknowledgement. |
| ScopeInterface.Interface.FetchLongDataFromLa | build/lib.linux-x86_64-2.7/Labtools/scope_interface.py:1345-1367 | chan-1 outside a byte fails when sent; a reply short of 4n is IndexError before the acknowledgement; otherwise TrimZeros of the n timestamps. |
| ScopeInterface.Interface.LongsQuery | build/lib.linux-x86_64-2.7/Labtools/scope_interface.py:1356-1364 | Request, read, decode and acknowledgement: the n timestamps followed by 3n zeros. |
| ScopeInterface.Interface.StartOneChannelLa | build/lib.linux-x86_64-2.7/Labtools/scope_interface.py:1078-1129 | clear_buffer(0, 1600) first and its failure ends the call. Then the command, 800 and the trigger byte; a byte past 255 is InvalidByte before it is sent. Then the acknowledgement. digital_channels_in_buffer becomes 1 and every digital channel the one-channel setup, on success. |
| ScopeInterface.Interface.StartFourChannelLa | build/lib.linux-x86_64-2.7/Labtools/scope_interface.py:1214-1285 | clear_buffer(0, 3200), then the command, 800, the mode word, prescaler 0 and the trigger byte, then the acknowledgement. A mode list under four is IndexError when the word is built. On success 4 digital channels, set up per FourChannelSetups. |
| ScopeInterface.Interface.FourChannelCommand | build/lib.linux-x86_64-2.7/Labtools/scope_interface.py:1263-1285 | From the port state after clear_buffer: a mode list under four is IndexError after 800 is sent. A trigger byte past 255 fails after the prescaler. Otherwise the trigger byte and the acknowledgement follow. Only on success do digital_channels_in_buffer become 4 and the four channels get their 16-bit timestamp setups in their modes; otherwise they keep the old settings. |
| ScopeInterface.Interface.SetDigitalChannels | build/lib.linux-x86_64-2.7/Labtools/scope_interface.py:1124-1129 | The four digital channels hold exactly the given setups. (Also lines 1279-1285.) |
| ScopeInterface.Interface.WriteFlash | build/lib.linux-x86_64-2.7/Labtools/scope_interface.py:1631-1649 | FLASH, WRITE_FLASH and location by `__sendByte__`; the padded record by `fd.write` straight to the port, even in burst mode; then the acknowledgement. |
| I2CBus.AddressByteFields | Labtools/I2C_class.py:80 | For a 7-bit address and a 0/1 flag, the address byte is 2*address + rw: the address in bits 1-7 and the flag in bit 0. (Also lines 158.) |
| I2CBus.BusFrequency | Labtools/I2C_class.py:60 | The frequency that config's comment gives for a generator value is positive. |
| I2CBus.BrgNotSlower | Labtools/I2C_class.py:60-61 | For any frequency config can serve, BRGVAL is non-negative and the bus runs at least as fast as asked, since int() only rounds BRGVAL down. |
| I2CBus.BrgOfDefaults | Labtools/I2C_class.py:61 | scan's default 100 kHz gives BRGVAL 632, and the MPU6050's 40 kHz gives 1592. (Also lines 207.) |
| I2CBus.RegisterCmds | build/lib.linux-i686-2.7/Labtools/MPU6050.py:53-55 | A register read opens with nine bytes: start (or restart) in write mode, the register sent, then restart in read mode. |
| I2CBus.RegisterReply | build/lib.linux-i686-2.7/Labtools/MPU6050.py:56 | The m bytes a register read returns. Outside burst mode, byte j is the stream byte after the opening's three acknowledgements and 2j further bytes; in burst mode the data bytes are consecutive. |
| I2CBus.RegisterReadSteps | build/lib.linux-i686-2.7/Labtools/MPU6050.py:52-57 | The steps of a register read compose. The device answers the whole read exactly when it answers the opening, every read round and the stop in turn, and the joined commands give the same state. |
| I2CBus.ReadMores | Labtools/I2C_class.py:173-177 | k READ_MORE commands are 2k bytes. |
| I2CBus.ReadCmds | Labtools/I2C_class.py:173-180 | read()'s commands are n-1 READ_MORE and one READ_END, 2n bytes in all. |
| I2CBus.AfterReadsXfer | Labtools/I2C_class.py:173-177 | a read rounds, one after another, are one step with their commands joined. |
| I2CBus.AfterReadsStream | Labtools/I2C_class.py:173-177 | a rounds consume a stream bytes in burst mode and 2a outside it. |
| I2CBus.ReadFault | Labtools/I2C_class.py:176-181 | A read that runs out of stream dies at the missing data byte (CommunicationError) or at the missing acknowledgement (MissingAck). It is the latter exactly when the stream ends just after a data byte, outside burst mode. |
| I2CBus.ReadRound | Labtools/I2C_class.py:173-181 | At round a of read(): the remaining stream, whether the round is answered, the byte it takes, and which fault a short stream gives. |
| I2CBus.ReadCount | Labtools/I2C_class.py:172-182 | read(length) returns length bytes, and one byte for a length of 0 or less, since the final READ_END is always sent. |
| I2CBus.ReadData | Labtools/I2C_class.py:176-180 | n rounds collect exactly n bytes. |
| I2CBus.ReadDataNext | Labtools/I2C_class.py:176 | Each further round appends the byte at the next place. |
| I2CBus.Interleave | Labtools/I2C_class.py:176-177 | An answering device's stream outside burst mode is twice as long as the data: each byte followed by its acknowledgement. |
| I2CBus.ReadDataInterleaved | Labtools/I2C_class.py:172-182 | read() takes back exactly the data bytes of such a stream, whatever the acknowledgements and whatever follows. |
| I2CBus.ProbeStep | Labtools/I2C_class.py:213-219 | One more probe of scan's loop extends the probes before it and consumes two more acknowledgements. |
| I2CBus.RespondersAscending | Labtools/I2C_class.py:213-220 | scan's list is strictly ascending and below the probed count, so it names each address at most once. |
| I2CBus.RespondersMembers | Labtools/I2C_class.py:213-216 | An address is in scan's list exactly when it was probed and bit 0 of its start status nibble is clear. |
| I2CBus.I2C.constructor | Labtools/I2C_class.py:1-70 | The adapter drives the given handler. |
| I2CBus.I2C.Config | Labtools/I2C_class.py:58-63 | A zero frequency is ZeroDivision after two bytes. Otherwise the header, I2C_CONFIG and BRGVAL as a word, then the acknowledgement; it succeeds exactly when answered. |
| I2CBus.I2C.Start | Labtools/I2C_class.py:78-81 | The header, I2C_START and the address byte; the result is the acknowledgement's status nibble. |
| I2CBus.I2C.Restart | Labtools/I2C_class.py:156-159 | The same with I2C_RESTART. |
| I2CBus.I2C.Send | Labtools/I2C_class.py:117-120 | The header, I2C_SEND and the byte; the result is the status nibble. |
| I2CBus.I2C.SendBurst | Labtools/I2C_class.py:137-139 | Three bytes and no acknowledgement read. |
| I2CBus.I2C.Stop | Labtools/I2C_class.py:89-91 | The header and I2C_STOP, then the acknowledgement. |
| I2CBus.I2C.Wait | Labtools/I2C_class.py:99-101 | The header and I2C_WAIT, then the acknowledgement. |
| I2CBus.I2C.ReadRepeat | Labtools/I2C_class.py:184-189 | READ_MORE, the data byte and the acknowledgement. An empty stream is CommunicationError, a byte without an acknowledgement MissingAck; otherwise it returns the first byte. |
| I2CBus.I2C.ReadEnd | Labtools/I2C_class.py:191-196 | The same with READ_END. |
| I2CBus.I2C.Read | Labtools/I2C_class.py:161-182 | It succeeds exactly when all ReadCount(length) rounds are answered. It then sends ReadCmds and returns the data bytes at their places in the stream. Otherwise it returns the ReadFault of the stream. |
| I2CBus.I2C.ReadMany | Labtools/I2C_class.py:173-177 | The loop of read(): k rounds, each answered, give the first k data bytes. |
| I2CBus.I2C.ReadNext | Labtools/I2C_class.py:174-177 | One loop round extends the state and the data by one byte, and fails with the stream's fault. |
| I2CBus.I2C.ReadLast | Labtools/I2C_class.py:178-181 | The final READ_END round completes the read. |
| I2CBus.I2C.ReadStatus | Labtools/I2C_class.py:199-204 | The header and I2C_STATUS, a word, the acknowledgement. Under two bytes is CommunicationError; the result is StringToInt of the reply. |
| I2CBus.I2C.Scan | Labtools/I2C_class.py:207-220 | A zero frequency is ZeroDivision at config. In burst mode the first status cannot be inspected, giving QueuedAck. Otherwise it succeeds exactly when 257 acknowledgements arrive: config, then start/stop for each of the 128 addresses. It returns Responders of the stream after config's acknowledgement. |
| I2CBus.I2C.ProbeAll | Labtools/I2C_class.py:213-219 | Probing n addresses succeeds exactly when 2n acknowledgements arrive, and returns the responders among them. |
| I2CBus.I2C.ProbeNext | Labtools/I2C_class.py:214-219 | One probe extends the state and the list. |
| I2CBus.I2C.ProbeAddress | Labtools/I2C_class.py:214-219 | start(a, 0) and stop. The answer is bit 0 of the start status nibble being clear; burst mode fails with QueuedAck. |
| I2CBus.I2C.ReadRegisters | build/lib.linux-i686-2.7/Labtools/MPU6050.py:52-58 | restart/start, send, restart in read mode, read(n) and stop. It succeeds exactly when all m + 4 acknowledgements and m data bytes arrive, and returns RegisterReply. |
| I2CBus.I2C.OpenRegister | build/lib.linux-i686-2.7/Labtools/MPU6050.py:53-55 | The three opening steps, each acknowledged. |
| NRF24L01.AddressBytes | build/lib.linux-i686-2.7/Labtools/NRF24L01_class.py:170-171 | A radio address is sent as three bytes. |
| NRF24L01.AddressBytesRoundTrip | build/lib.linux-i686-2.7/Labtools/NRF24L01_class.py:170-171 | The three bytes, low first, are the low 24 bits of the address, so a 24-bit address is rebuilt from them. |
| NRF24L01.Mask | build/lib.linux-i686-2.7/Labtools/NRF24L01_class.py:221-226 | enabled_pipes stays below 64. (Also lines 271-276.) |
| NRF24L01.MaskBits | build/lib.linux-i686-2.7/Labtools/NRF24L01_class.py:221-226 | Bit i of enabled_pipes is set exactly for pipe 0 when the loop starts at 1, and for each looked-at pipe whose `myaddr<i>` is truthy. (Also lines 271-276.) |
| NRF24L01.PipeFrames | build/lib.linux-i686-2.7/Labtools/NRF24L01_class.py:222-227 | The loop writes no more addresses than pipes it looks at. |
| NRF24L01.PipeFramesWrite | build/lib.linux-i686-2.7/Labtools/NRF24L01_class.py:222-227 | The loop writes the address of every truthy pipe to RX_ADDR_P0 + a, and writes nothing else. |
| NRF24L01.EnabledPipes | build/lib.linux-i686-2.7/Labtools/NRF24L01_class.py:221-227 | The pipe loop, with its mask and its address writes, computes Mask and PipeFrames. Bit i is set exactly for the pipes below the start and the truthy ones. (Also lines 271-277.) |
| NRF24L01.ShockburstAddresses | build/lib.linux-i686-2.7/Labtools/NRF24L01_class.py:210-211 | Only myaddr0 is defaulted; pipes 1-5 keep what was given. |
| NRF24L01.ShockburstReceiverPlan | build/lib.linux-i686-2.7/Labtools/NRF24L01_class.py:209-239 | init_shockburst_receiver's steps, built as the code builds them: myaddr0 defaulted, then the pipe loop. |
| NRF24L01.ShockburstReceiverSetsPipes | build/lib.linux-i686-2.7/Labtools/NRF24L01_class.py:221-234 | One mask goes to EN_RXADDR, EN_AA and DYNPD. Pipe 0 is in it unless myaddr0 is given as 0, and pipe a > 0 exactly when `myaddr<a>` is truthy. With myaddr1 truthy, RX_ADDR_P1 is written again after the loop and no address is written after it. |
| NRF24L01.ReceiverPlan | build/lib.linux-i686-2.7/Labtools/NRF24L01_class.py:262-289 | init_receiver's steps, built as the code builds them. |
| NRF24L01.ReceiverSetsPipes | build/lib.linux-i686-2.7/Labtools/NRF24L01_class.py:269-285 | TX_ADDR gets sendaddr and RX_ADDR_P0 gets myaddr. EN_RXADDR gets a mask with pipe 0 always on and pipe a exactly when `myaddr<a>` is truthy. EN_AA and DYNPD are 0, and RX_PW_P0 gets the payload size. |
| NRF24L01.TransmittersAgree | build/lib.linux-i686-2.7/Labtools/NRF24L01_class.py:182-200 | Both transmitter set-ups open alike (setup, channel 10, 2 Mbps, TX_ADDR, RX_ADDR_P0) and close alike (RX_PW_P0, txmode, flush). The shockburst one turns auto acknowledgement on and enables pipe 0 alone; the plain one turns it off and never writes EN_RXADDR. (Also lines 243-258.) |
| NRF24L01.PayloadLengthByte | build/lib.linux-i686-2.7/Labtools/NRF24L01_class.py:303 | `len(data)\|0x80` is a byte exactly below 256 data bytes, always has the transmit flag, and is len + 128 below 128. |
| NRF24L01.AckPayloadCommand | build/lib.linux-i686-2.7/Labtools/NRF24L01_class.py:392 | `ACK_PAYLOAD\|pipe` is 0xA8 + pipe for pipes 0-7. |
| NRF24L01.Payload | build/lib.linux-i686-2.7/Labtools/NRF24L01_class.py:324-326 | The reply is as many bytes as the count byte says, or as many as arrived, taken right after it. |
| NRF24L01.PayloadReadsBack | build/lib.linux-i686-2.7/Labtools/NRF24L01_class.py:324-327 | A node that sends a count, that many bytes and an acknowledgement is heard in full, and the acknowledgement follows. |
| NRF24L01.NRF24L01.constructor | build/lib.linux-i686-2.7/Labtools/NRF24L01_class.py:43-48 | PAYLOAD_SIZE and ACK_PAYLOAD_SIZE start at 0. |
| NRF24L01.NRF24L01.Init | build/lib.linux-i686-2.7/Labtools/NRF24L01_class.py:52-55 | NRFL01, NRF_SETUP, then the acknowledgement. |
| NRF24L01.NRF24L01.RxMode | build/lib.linux-i686-2.7/Labtools/NRF24L01_class.py:62-64 | NRF_RXMODE, then the acknowledgement. |
| NRF24L01.NRF24L01.TxMode | build/lib.linux-i686-2.7/Labtools/NRF24L01_class.py:70-72 | NRF_TXMODE, then the acknowledgement. |
| NRF24L01.NRF24L01.Flush | build/lib.linux-i686-2.7/Labtools/NRF24L01_class.py:114-116 | NRF_FLUSH, then the acknowledgement. |
| NRF24L01.NRF24L01.PowerDownAsWritten | build/lib.linux-i686-2.7/Labtools/NRF24L01_class.py:74-77 | As written: NRFL01 goes out, then the undefined NRF_POWERDOWN raises NameError. |
| NRF24L01.NRF24L01.PowerDown | build/lib.linux-i686-2.7/Labtools/NRF24L01_class.py:74-77 | As intended: NRFL01, NRF_POWER_DOWN, then the acknowledgement. |
| NRF24L01.NRF24L01.TxChar | build/lib.linux-i686-2.7/Labtools/NRF24L01_class.py:94-97 | The character sent; the status nibble returned. |
| NRF24L01.NRF24L01.WriteRegister | build/lib.linux-i686-2.7/Labtools/NRF24L01_class.py:124-128 | The register and value, then the acknowledgement. |
| NRF24L01.NRF24L01.ReadRegister | build/lib.linux-i686-2.7/Labtools/NRF24L01_class.py:135-140 | The register's byte, read before the acknowledgement. |
| NRF24L01.NRF24L01.ByteCommand | build/lib.linux-i686-2.7/Labtools/NRF24L01_class.py:83-87 | rxchar, hasData and get_status: the command, one byte, then the acknowledgement. |
| NRF24L01.NRF24L01.WriteCommand | build/lib.linux-i686-2.7/Labtools/NRF24L01_class.py:154-157 | NRF_WRITECOMMAND and the command byte, then the acknowledgement. |
| NRF24L01.NRF24L01.ReadPayload | build/lib.linux-i686-2.7/Labtools/NRF24L01_class.py:291-297 | The count, then fd.read(numbytes), fewer bytes when fewer arrived, then the acknowledgement. It returns those bytes. |
| NRF24L01.NRF24L01.WriteAddress | build/lib.linux-i686-2.7/Labtools/NRF24L01_class.py:167-172 | The register, then the three address bytes low first, then the acknowledgement. |
| NRF24L01.NRF24L01.InitShockburstReceiver | build/lib.linux-i686-2.7/Labtools/NRF24L01_class.py:209-239 | PAYLOAD_SIZE is updated only when given. The frames go out, each acknowledged, and the run stops after the first missing acknowledgement. |
| NRF24L01.NRF24L01.InitReceiver | build/lib.linux-i686-2.7/Labtools/NRF24L01_class.py:262-289 | myaddr and sendaddr default to 0xA523B5. The frames go out, each acknowledged, stopping at the first missing one. |
| NRF24L01.NRF24L01.InitTransmitter | build/lib.linux-i686-2.7/Labtools/NRF24L01_class.py:182-200 | Both transmitter set-ups with their defaults, stepwise in the same way. (Also lines 243-258.) |
| NRF24L01.NRF24L01.WritePayload | build/lib.linux-i686-2.7/Labtools/NRF24L01_class.py:300-312 | A length byte past 255 fails after two bytes. Otherwise the flagged length, TX_PAYLOAD and the data go out, then the acknowledgement. It returns the status nibble, or nothing when verbose; verbose in burst mode is QueuedAck. |
| NRF24L01.NRF24L01.WriteAckPayload | build/lib.linux-i686-2.7/Labtools/NRF24L01_class.py:380-395 | A new length becomes ACK_PAYLOAD_SIZE, cut to 15 together with the data. Then the length, `ACK_PAYLOAD\|pipe` (InvalidByte past a byte) and the data; the status nibble is returned. |
| NRF24L01.NRF24L01.TransactionReply | build/lib.linux-i686-2.7/Labtools/NRF24L01_class.py:316-326 | The request, then the count byte and the Payload. An empty stream is CommunicationError. |
| NRF24L01.NRF24L01.Transaction | build/lib.linux-i686-2.7/Labtools/NRF24L01_class.py:315-335 | 256 or more data bytes is InvalidByte. Otherwise the request, the reply and the acknowledgement. When verbose, a status with any of its low three bits set flushes the radio and returns nothing; otherwise the reply is returned. |
| MCP4728.ReadbackBrackets | Labtools/docs/MCP4728_class.py:28-48 | For a voltage in its channel's range the code is 0..4095, and the voltage that code stands for is at most v and within one step below it. |
| MCP4728.ReadbackAsWrittenFloors | Labtools/docs/MCP4728_class.py:24-30 | setVoltage(3, 0.0) sends code 2047, which stands for about -0.0012 V, yet the as-written return is -1. |
| MCP4728.ChannelWordFields | Labtools/docs/MCP4728_class.py:44 | With one-bit fields and a 12-bit code, the word is its fields' sum and its low 12 bits are the code. |
| MCP4728.NibbleBytesRoundTrip | Labtools/docs/MCP4728_class.py:52-59 | A 12-bit code is rebuilt from the high nibble and low byte __writeall__ sends. |
| MCP4728.CodeFrames | Labtools/docs/MCP4728_class.py:52-59 | Each code becomes two sends, high nibble then low byte. |
| MCP4728.WriteAllFrames | Labtools/docs/MCP4728_class.py:50-60 | __writeall__'s steps: one start, two sends per code, one stop. |
| MCP4728.MCP4728.constructor | Labtools/docs/MCP4728_class.py:17-24 | Address `0x60\|devid`, every channel on and referenced to Vdd, over a fresh I2C adapter on the same handler. |
| MCP4728.MCP4728.SetRawVoltage | Labtools/docs/MCP4728_class.py:32-48 | DAC, SET_DAC, the address shifted left, the channel and the channel word, then the acknowledgement. It returns the voltage the code stands for. A shifted address or channel past a byte fails at that byte, and a channel past four at the list lookup. |
| MCP4728.MCP4728.SetVoltage | Labtools/docs/MCP4728_class.py:26-30 | As written: a channel past four fails before anything is sent. Otherwise RawCode of v is written through __setRawVoltage__, and the return is ReadbackAsWritten of that code, whole volts for channel 3 (see Findings). |
| MCP4728.MCP4728.SetVoltageIntended | Labtools/docs/MCP4728_class.py:26-30 | As intended: the same guards and the same write, returning the float readback of `__setRawVoltage__` (line 48), which ReadbackBrackets places within one code step below v. |
| MCP4728.MCP4728.WriteAll | Labtools/docs/MCP4728_class.py:50-60 | The ten steps, each acknowledged, stopping at the first missing acknowledgement. |
| MCP4728.MCP4728.Stat | Labtools/docs/MCP4728_class.py:62-68 | The 24-byte register read from register 0. It succeeds exactly when answered, returning RegisterReply. |
| SignedWords.BigEndian | build/lib.linux-i686-2.7/Labtools/MPU6050.py:62 | `vals[0]<<8\|vals[1]` is 256*hi + lo, below 65536. |
| SignedWords.Int16 | build/lib.linux-i686-2.7/Labtools/MPU6050.py:62 | np.int16 gives a value in -32768..32767 congruent to its input modulo 65536. |
| SignedWords.Int16OfPair | build/lib.linux-i686-2.7/Labtools/MPU6050.py:62 | A pair decodes negative exactly when the high byte is 128 or more, and to 256*hi + lo (minus 65536 if negative). |
| SignedWords.Int16RoundTrip | build/lib.linux-i686-2.7/Labtools/MPU6050.py:62 | Every 16-bit signed value survives its two bytes. |
| SignedWords.Pairs | build/lib.linux-i686-2.7/Labtools/MPU6050.py:62-70 | k decoded pairs, each a 16-bit signed value. |
| SignedWords.Encoded | build/lib.linux-i686-2.7/Labtools/MPU6050.py:62-70 | Two bytes per value. |
| SignedWords.PairsOfEncoded | build/lib.linux-i686-2.7/Labtools/MPU6050.py:62-70 | Decoding the encoded values gives them back. |
| SignedWords.RegistersReadBack | build/lib.linux-i686-2.7/Labtools/MPU6050.py:52-70 | read() over a device that answers with the encoded values decodes them back, whatever the acknowledgements. |
| SignedWords.ReplyReadsBack | build/lib.linux-i686-2.7/Labtools/MPU6050.py:52-70 | A register read whose stream carries the opening's acknowledgements, then the interleaved encoded values, is answered, and its reply decodes to those values. |
| MPU6050.WakeFrames | build/lib.linux-i686-2.7/Labtools/MPU6050.py:47-50 | The wake-up is four steps. |
| MPU6050.Scaled | build/lib.linux-i686-2.7/Labtools/MPU6050.py:71 | Each reading divided by 65535. |
| MPU6050.ScaledBounds | build/lib.linux-i686-2.7/Labtools/MPU6050.py:71 | Scaled 16-bit readings stay within -32768/65535 .. 32767/65535. |
| MPU6050.MPU6050.constructor | build/lib.linux-i686-2.7/Labtools/MPU6050.py:43-45 | The object keeps its bus. |
| MPU6050.MPU6050.Create | build/lib.linux-i686-2.7/Labtools/MPU6050.py:43-50 | MPU6050(I): config(40000), then start, send(0x6B), send(0) and stop. It succeeds exactly when all five are answered. |
| MPU6050.MPU6050.GetVals | build/lib.linux-i686-2.7/Labtools/MPU6050.py:52-58 | The register read at address 0x68, opening with restart. |
| MPU6050.MPU6050.GetRaw | build/lib.linux-i686-2.7/Labtools/MPU6050.py:60-71 | Fourteen bytes from 0x3B as seven scaled signed readings. |
| MPU6050.MPU6050.GetAccel | build/lib.linux-i686-2.7/Labtools/MPU6050.py:73-78 | Six bytes from 0x3B as three readings. |
| MPU6050.MPU6050.GetTemp | build/lib.linux-i686-2.7/Labtools/MPU6050.py:80-83 | Six bytes from 0x41, the first pair scaled. |
| MPU6050.MPU6050.GetGyro | build/lib.linux-i686-2.7/Labtools/MPU6050.py:85-90 | Six bytes from 0x43 as three readings. |
| HMC5883L.ConnectFrames | build/lib.linux-i686-2.7/Labtools/HMC5883L.py:10-20 | connect is eight steps. |
| HMC5883L.ConnectBytes | build/lib.linux-i686-2.7/Labtools/HMC5883L.py:10-20 | connect's bytes are two write transactions, the gain register 0x01 and then the mode register 0x02, each set to 0, opened in write mode and closed by stop. |
| HMC5883L.HMC5883L.constructor | build/lib.linux-i686-2.7/Labtools/HMC5883L.py:6-8 | The address, 0x1E by default. |
| HMC5883L.HMC5883L.Connect | build/lib.linux-i686-2.7/Labtools/HMC5883L.py:10-20 | The eight steps, each acknowledged, stopping at the first missing acknowledgement. |
| HMC5883L.HMC5883L.GetVals | build/lib.linux-i686-2.7/Labtools/HMC5883L.py:22-28 | The register read opening with start. |
| HMC5883L.HMC5883L.Read | build/lib.linux-i686-2.7/Labtools/HMC5883L.py:30-35 | Six bytes from 0x03 as the signed words x, y, z, each in the 16-bit range. |

## Left out

- The device half of Interface `__init__` (build/lib.linux-x86_64-2.7/Labtools/scope_interface.py:134-138): map_reference_clock(7, 'wavegen') and set_gain on CH1..CH5. The constructor stops at the settings made before the device is contacted.
- Serial port discovery and opening, get_version, reconnect, `__del__` and the Singleton wrapper are not modelled. The handler starts from a given byte stream.
- Every `print` and `time.sleep` is dropped, including the "Channel unavailable" and "frequency too low" messages and the settling delays of set_state, sqr1, write_flash and the radio set-ups.
- Duck typing is narrowed to typed parameters, so the Python failures on out-of-type arguments are not modelled. `__sendByte__` accepts a one-character string, but SendByte takes a byte. I2C.Send takes a byte, AddressByte a natural number, and WriteFlash a byte location. The selector field `ch123sa` of ScopeInterface.Interface.CaptureTraces, CaptureSelect and CaptureRun is a nat, so CH123SA=-1 and its chr() ValueError are out of reach. `trigger` and `mode` of ScopeInterface.Interface.StartOneChannelLa, StartFourChannelLa and FourChannelCommand are naturals. The count `n` of ScopeInterface.Interface.FetchIntDataFromLa and FetchLongDataFromLa is a nat, so bytes=-1 (0xFFFF sent, nothing read, an empty array returned) is not covered. The NRF payload size of NRF24L01.NRF24L01.InitShockburstReceiver, InitReceiver and InitTransmitter is an Option<byte>, so write_register(RX_PW_P0, 300)'s ValueError is excluded. `pipe` of NRF24L01.NRF24L01.WriteAckPayload is a nat. `chan` of MCP4728.MCP4728.SetVoltage, SetVoltageIntended and SetRawVoltage is a nat, so Python's VRANGES[-1] lookup followed by chr(-1) failing is not modelled.
- ScopeMath.StateByte: Drive carries a 0/1 level, so set_state's or-ing of larger ints (OD1=2 setting bit 3) is not expressed.
- Keyword arguments with defaults become Option parameters, and `**args` of the radio set-ups become an addrs sequence of six Options.
- numpy float arrays become seq<real> or array<real>. Python 2 round and int() become Round and Trunc on exact reals, so floating-point rounding is lost.
- The burst-mode acknowledgement `ord(1)` of `__get_ack__` is the value Ack.Queued. Code that inspects its status in burst mode is QueuedAck.
- fd.read is modelled as taking what the stream holds. Serial time-outs and partial delivery over time are not modelled.
- ScopeInterface.Interface.FetchChannel and ScopeInterface.Interface.FetchChannelOneshot: these require the channel length to be non-negative. The negative length a capture with a negative count can leave (`range(int(n/20))` empty, the `&0xFF` remainder request, `fix_value(buff[:n])`) is not modelled.
- Negative list indexing is modelled only where a handler uses it (Slot, At, SliceEnd).
- MCP4728.MCP4728.Stat returns the 24 bytes that stat() only prints. The vref argument of the MCP4728 constructor is unused by the code and left out.
- I2CBus.I2C.ReadRegisters, MCP4728.MCP4728.Stat, and the MPU6050 and HMC5883L reads: on a fault mid-read they report the fault but do not state the handler state at that point.
- ScopeInterface.Interface.FetchChannel and ScopeInterface.Interface.FetchTrace: on a missing acknowledgement they state MissingAck and the unchanged buffer and channel object, but not the port state after the request that went unanswered.
- HMC5883L's `__init__` builds its own Interface; the model takes the I2C adapter as a parameter.
- Class attributes (PAYLOAD_SIZE, ACK_PAYLOAD_SIZE) become fields of the object. READ_PAYLOAD_SIZE is unused and left out.
- The Kalman and complementary filters of MPU6050.py are not part of this model (floating-point filtering, no protocol).
- The quoted-out blocks (the I2C path of `__setRawVoltage__`, the old read_payload and write_payload) are not modelled, because they are not code.
- Interface commands outside the capture, trigger, gain, waveform, timing, state and flash groups are not modelled: set_sqrs, oscilloscope_progress, SPI, servo, PWM, voltmeter and similar commands.
- fetch_LA_channels beyond its offset and alignment arithmetic (LaOffset, Aligned): digital_channel.py's load_data and generate_axes are not part of this model.
- getval12, getval10, getL, getF, getLx and the Printer helpers of commands_proto.py are not modelled (display helpers).
- ScopeMath.Unrolled: adds 65535 per rollover, as the code does. A 16-bit counter's range is 65536, and UnrolledExample records the value the code gives for [60000, 5000, 6000].
- ScopeMath.TrimZeros: trims zeros at both ends, as np.trim_zeros's default does, not only trailing zeros.
- ScopeInterface.Interface.CaptureTraces: a three-channel capture stores channels_in_buffer = 3, as the code does, although it captures four.
- ScopeInterface.Interface.CaptureTraces requires that the gain dictionary still holds CH1..CH4 (GainsKept). set_gain only ever updates existing keys.

## Findings

| source | as written | input that shows it | evidently intended | confidence | as-written member | corrected member |
|---|---|---|---|---|---|---|
| build/lib.linux-x86_64-2.7/Labtools/scope_interface.py:614 | write_dac sends DAC, then `__sendByte__(SET_PVS1)`. SET_PVS1 is not defined in the i686 commands_proto.py DAC group (lines 57-62: SET_DAC, SET_PVS2, SET_PVS3, SET_PCS), nor in any other file read. The x86_64 commands_proto.py and digital_channel.py are not part of this model. | write_dac(0, 100): NameError after the DAC byte, with the device left waiting. | A DAC sub-command, then the word `(channel<<15)\|(1<<14)\|(1<<13)\|(1<<12)\|n` and the acknowledgement. | not executed; a definition in the unread files cannot be excluded | ScopeInterface.Interface.WriteDac | ScopeInterface.Interface.WriteDacWord, ScopeMath.DacWordLayout |
| build/lib.linux-i686-2.7/Labtools/NRF24L01_class.py:76 | power_down sends `NRF_POWERDOWN`, but commands_proto.py:153 defines `NRF_POWER_DOWN`. | power_down(): NameError after the NRFL01 byte. | NRFL01, NRF_POWER_DOWN (4), then the acknowledgement. | not executed | NRF24L01.NRF24L01.PowerDownAsWritten | NRF24L01.NRF24L01.PowerDown |
| Labtools/docs/MCP4728_class.py:30 | setVoltage returns `(R[1]-R[0])*v/4095+R[0]`. For channel 3 the range [-5, 5] holds ints, so Python 2 floor-divides. | setVoltage(3, 0.0): code 2047 is sent, which stands for about -0.0012 V, but -1 is returned. | The float division of `__setRawVoltage__` (line 48), at most one code step below v. | not executed | MCP4728.MCP4728.SetVoltage, MCP4728.ReadbackAsWritten, MCP4728.ReadbackAsWrittenFloors | MCP4728.MCP4728.SetVoltageIntended, MCP4728.Readback, MCP4728.ReadbackBrackets |
