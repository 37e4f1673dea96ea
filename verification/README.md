# NaluFakeDataGenerator in Dafny

This project models the core of `NaluFakeDataGenerator`, a synthetic data source for a Nalu
digitizer readout. The generator keeps a configuration (event and packet framing, a 64-bit
channel mask, the number of 32-sample windows per channel) and an event counter. It also keeps
a registry of per-channel waveform generators and a default generator. Each call to
`getNextEvent` does the following:

- It decodes the mask into the active channels.
- It takes one simulated 24-bit timestamp.
- It asks each channel's generator for one island of `num_windows * 32` samples.
- It cuts each island into 32-sample windows and packs each window into a 64-byte packet with
  12 bits per sample.
- It appends the packets channel-major, window-minor.

The modules follow the source files:

- `Types` (`types.dfy`): the fixed-width integer types (`u8`, `u16`, `u32`) and `Option`.
- `Config` (`config.dfy`): the configuration value and its defaults (`DefaultConfig`, from the
  member initialisers of the config header). It also holds `active_channels`, as the method
  `ActiveChannels` with the 64-step shift loop, and its specification `SetBits`.
- `Packing` (`packing.dfy`): the 12-bit two-byte packing of samples, its inverse
  `UnpackSamples`, and the round trip.
- `Timestamp` (`timestamp.dfy`): `getSimulatedTimestamp` as a pure function of the steady-clock
  nanosecond count.
- `Event` (`event.dfy`): datatypes mirroring the `NaluPacket` and `NaluEvent` constructor
  arguments. It also holds the specification functions of the event layout (`WindowPackets`,
  `EventPackets`, `AssembleEvent`) and their lemmas.
- `Generator` (`generator.dfy`): the class `NaluFakeDataGenerator`.
  - Its fields are the config, the event index, the last event time, the generator map and the
    default slot.
  - Waveform generators are total function values from a 16-bit length to 16-bit samples.
  - The random-noise lambda is an arbitrary generator `noise` fixed at construction. Like the
    source's lambda, it must return exactly the number of samples requested (`ExactLength`).
  - `generatePacket` fills a 64-byte array in a loop.
  - `getNextEvent` runs the channel loop (`EventPacketsOf`) and the window loop
    (`ChannelPackets`). It advances the index modulo 2^32 and remembers the timestamp.
  - `updateEventInfo` binds every active channel that has no entry to a snapshot of the
    default (`BindMissing`, specified by `BindDefaults`).
- `Scenarios` (`scenarios.dfy`): three concrete runs.
  - The default set-up: default constructor, then one single-packet event.
  - The demo driver's setup: mask 0x3, four windows, the square wave on every active channel.
  - The stale-default effect of `setDefaultGenerator`.

The config defaults (event framing 0xBBBB/0xEEEE/0, start index 0, packet size 80, mask 0x1,
one window, packet framing 0xAAAA/0xFFFF/0) are the literal fields of `Config.DefaultConfig`.

## Model

| member | source | states |
|---|---|---|
| Config.ActiveChannels | src/config/nalu_fake_data_generator_config.cpp:4-14 | the shift-and-test loop returns exactly `SetBits(channel_mask)` |
| Config.SetBits | src/config/nalu_fake_data_generator_config.cpp:7-9 | every decoded channel lies in [0, 63] |
| Config.SetBitsFacts | src/config/nalu_fake_data_generator_config.cpp:6-11 | channel c is in the result iff 0 <= c < 64 and bit c of the mask is set; the result is strictly ascending (no duplicates); its length is the popcount, at most 64 |
| Config.ScanMembership | src/config/nalu_fake_data_generator_config.cpp:7-11 | after i shifts, the remaining n steps emit exactly the positions i..i+n-1 whose bit is set |
| Config.ScanAscending | src/config/nalu_fake_data_generator_config.cpp:7-9 | positions are emitted in strictly increasing order |
| Config.ScanBounds | src/config/nalu_fake_data_generator_config.cpp:7 | every emitted position lies in [i, i+n) |
| Config.ScanLength | src/config/nalu_fake_data_generator_config.cpp:7 | n steps emit at most n positions |
| Config.SetBitsLength | src/config/nalu_fake_data_generator_config.cpp:7 | the number of active channels equals the number of set bits, at most 64 |
| Config.AscendingCard | src/config/nalu_fake_data_generator_config.cpp:7-9 | a strictly ascending list has as many distinct elements as entries |
| Config.ScanZero | src/config/nalu_fake_data_generator_config.cpp:8 | a zero mask emits nothing at any offset |
| Config.EmptyMask | src/config/nalu_fake_data_generator_config.cpp:5-13 | mask 0 yields no active channels |
| Config.DefaultMaskChannels | include/config/nalu_fake_data_generator_config.h:16-17 | the default mask 0x1 yields channels [0] and the default window count is 1 |
| Config.TwoChannelMask | src/main.cpp:11 | mask 0x3 yields channels [0, 1] |
| Packing.Truncated | src/generator/nalu_fake_data_generator.cpp:92 | masking each sample to 12 bits keeps the number of samples |
| Packing.SampleBytes | src/generator/nalu_fake_data_generator.cpp:92-94 | the first byte is below 16, and first * 256 + second equals the sample & 0x0FFF |
| Packing.PackAt | src/generator/nalu_fake_data_generator.cpp:91-95 | the packed bytes are twice as many as the samples; byte 2i is (s >> 8) & 0xF and byte 2i+1 is s & 0xFF of sample i |
| Packing.PackRoundTrip | src/generator/nalu_fake_data_generator.cpp:86-95 | unpacking the packed bytes gives back every sample masked to 12 bits |
| Packing.PackIgnoresHighBits | src/generator/nalu_fake_data_generator.cpp:92 | the top 4 bits of a sample never reach the payload |
| Packing.ConstantDecodes | src/generator/nalu_fake_data_generator.cpp:91-95 | a constant window decodes to that constant masked to 12 bits |
| Timestamp.SimulatedTimestamp | src/generator/nalu_fake_data_generator.cpp:134-140 | (ns / 32) mod 2^24 is at most COUNTER_MAX |
| Timestamp.CounterIs24Bits | include/include/nalu_fake_data_generator.h:56-57 | COUNTER_MAX is 16777215 and the modulus is 2^24 |
| Timestamp.SameTick | src/generator/nalu_fake_data_generator.cpp:138-139 | two clock readings in the same 32 ns tick give the same timestamp |
| Timestamp.NextTick | src/generator/nalu_fake_data_generator.cpp:138-139 | 32 ns later the counter advances by one, wrapping at 2^24 |
| Timestamp.WrapPeriod | src/generator/nalu_fake_data_generator.cpp:139 | the counter repeats after 2^24 ticks |
| Event.NumPacketsField | src/generator/nalu_fake_data_generator.cpp:30 | the 16-bit cast of count + 1000 equals count + 1000 whenever that fits |
| Event.Window | src/generator/nalu_fake_data_generator.cpp:51 | window w of an island is 32 samples long |
| Event.WindowPackets | src/generator/nalu_fake_data_generator.cpp:50-60 | one channel yields exactly n packets for n windows |
| Event.EventPacketsStep | src/generator/nalu_fake_data_generator.cpp:36-61 | the next channel's window packets are appended after the packets of the earlier channels |
| Event.WindowPacketsAt | src/generator/nalu_fake_data_generator.cpp:50-60 | packet w of a channel is built from samples [32w, 32w+32) of its island with physical position w |
| Event.EventPacketsLength | src/generator/nalu_fake_data_generator.cpp:18-61 | an event holds exactly channels x num_windows packets |
| Event.EventPacketAt | src/generator/nalu_fake_data_generator.cpp:36-61 | packet c * num_windows + w is channel c's window w (channel-major, window-minor) with the shared trigger time |
| Event.EveryPacket | src/generator/nalu_fake_data_generator.cpp:53-59 | every packet carries the event timestamp, logical position 0, the config's packet framing, an active channel, a physical position below num_windows and a 64-byte payload |
| Event.ConstantChannel | src/generator/nalu_fake_data_generator.cpp:41-58 | a channel whose island is constant v has payloads that decode to v & 0x0FFF |
| Event.NumPacketsExact | src/generator/nalu_fake_data_generator.cpp:18-30 | channels x windows + 1000 is at most 17320, so the 16-bit num_packets never wraps |
| Event.EventShape | src/generator/nalu_fake_data_generator.cpp:22-33 | the header carries the given index and timestamp, reserved 0, the config's framing, mask and window count, and num_packets = real packet count + 1000 |
| Generator.Islands | src/generator/nalu_fake_data_generator.cpp:36-47 | one island per active channel, in channel order |
| Generator.IslandLength | include/config/nalu_fake_data_generator_config.h:17 | num_windows x 32 is at most 8160, so it fits the 16-bit length argument |
| Generator.HighChannelNeverActive | include/include/nalu_fake_data_generator.h:46 | channel ids 64..255 accepted by setGenerator are never active |
| Generator.BindDefaultsSpec | src/generator/nalu_fake_data_generator.cpp:127-131 | after binding, the keys are the old keys plus the listed channels; old entries are unchanged; new entries are the default snapshot |
| Generator.BindDefaultsStep | src/generator/nalu_fake_data_generator.cpp:127-131 | each loop step binds the next channel only if it has no entry |
| Generator.BindDefaultsCovers | src/generator/nalu_fake_data_generator.cpp:127-131 | after binding, every listed channel has an entry |
| Generator.NaluFakeDataGenerator.ActiveIslandsCover | src/generator/nalu_fake_data_generator.cpp:41-51 | when each active channel's island has num_windows x 32 samples, every window slice is in range |
| Generator.NaluFakeDataGenerator.BoundUsesOwnEntry | src/generator/nalu_fake_data_generator.cpp:37-47 | once every active channel is bound, its island comes from its own entry, never from the default or the zero fill |
| Generator.NaluFakeDataGenerator.constructor | src/generator/nalu_fake_data_generator.cpp:6-9 | default config, index 0, default slot = noise, map = {0: noise}, every active channel bound; with noise returning exactly `length` samples, every active island is long enough, so getNextEvent is defined |
| Generator.NaluFakeDataGenerator.WithConfig | src/generator/nalu_fake_data_generator.cpp:11-14 | index starts at start_index, default slot = noise, every active channel bound to noise; with noise returning exactly `length` samples, every active island is long enough, so getNextEvent is defined |
| Generator.NaluFakeDataGenerator.UpdateEventInfo | src/generator/nalu_fake_data_generator.cpp:114-132 | fills an empty default with noise, binds each unbound active channel to the default, keeps existing entries, establishes Bound |
| Generator.NaluFakeDataGenerator.BindMissing | src/generator/nalu_fake_data_generator.cpp:127-131 | the binding loop leaves the map equal to BindDefaults of the old map |
| Generator.NaluFakeDataGenerator.UpdateConfig | src/generator/nalu_fake_data_generator.cpp:109-112 | replaces the config and then binds the newly active channels; index and existing entries unchanged |
| Generator.NaluFakeDataGenerator.SetGenerator | src/generator/nalu_fake_data_generator.cpp:142-144 | only the given channel's entry changes; Bound is preserved |
| Generator.NaluFakeDataGenerator.SetDefaultGenerator | src/generator/nalu_fake_data_generator.cpp:146-148 | only the default slot changes; the map (and every bound channel's snapshot) is untouched |
| Generator.NaluFakeDataGenerator.GeneratePacket | src/generator/nalu_fake_data_generator.cpp:85-107 | the packet has the config framing, logical position 0 and a 64-byte payload whose even bytes are below 16 and which decodes to the 32 samples masked to 12 bits |
| Generator.NaluFakeDataGenerator.ChannelPackets | src/generator/nalu_fake_data_generator.cpp:50-60 | the window loop yields WindowPackets for all num_windows windows |
| Generator.NaluFakeDataGenerator.EventPacketsOf | src/generator/nalu_fake_data_generator.cpp:36-61 | the channel loop yields EventPackets over the resolved islands |
| Generator.NaluFakeDataGenerator.BuildEvent | src/generator/nalu_fake_data_generator.cpp:17-61 | the event is AssembleEvent of the config, index, timestamp, active channels and their islands |
| Generator.NaluFakeDataGenerator.GetNextEvent | src/generator/nalu_fake_data_generator.cpp:16-65 | returns the event with the pre-increment index; the index advances by one modulo 2^32; last event time is the event's timestamp; config and generators unchanged |
| Scenarios.DemoIslandsCover | src/main.cpp:17-30 | with the square wave on channels 0 and 1, both islands are the 128-sample square wave |
| Scenarios.DemoSetup | src/main.cpp:9-30 | after the config constructor and the setGenerator loop over the active channels, channels 0 and 1 hold the square wave, the config is the demo's and the index is 0 |
| Scenarios.DemoRun | src/main.cpp:9-35 | the demo's first two events carry indices 0 and 1 and are assembled from the square-wave islands |
| Scenarios.DemoEventHeader | src/generator/nalu_fake_data_generator.cpp:28-30 | a demo event has 8 packets but num_packets 1008, reserved 0 |
| Scenarios.DemoPacketOrder | src/generator/nalu_fake_data_generator.cpp:36-61 | packet k of a demo event is channel k / 4, window k % 4 |
| Scenarios.DemoFirstBytes | src/generator/nalu_fake_data_generator.cpp:92-94 | the first sample 0x100 packs to the bytes 0x01 0x00 |
| Scenarios.DefaultRun | src/generator/nalu_fake_data_generator.cpp:6-33 | default constructor then one event: mask 0x1 and one window give exactly one packet (channel 0, window 0, the event's timestamp), index 0, num_packets 1001 |
| Scenarios.StaleDefault | src/generator/nalu_fake_data_generator.cpp:127-148 | after setDefaultGenerator(g), channel 0 (bound at construction) still draws from noise, before and after updateConfig; channel 1, bound later, draws from g |

## Left out

- `getNextTimingData` is a constant stub of floating-point values with no logic.
- The random-noise generator (`mt19937`, `random_device`, the thread-local distribution) is
  not modelled. It is an arbitrary waveform `noise` of exact length given to the constructors. The unused
  `rng_` and `dist_` members are left out.
- `noise` is one fixed function, so it returns the same island on every call, for every
  channel and every event. The source draws fresh values from a shared thread-local random
  generator on each call (src/generator/nalu_fake_data_generator.cpp:119-121). Only its length
  (exactly the requested number of samples) is modelled.
- The steady clock is not modelled: the nanosecond count is a parameter of `GetNextEvent`.
  Negative clock values cannot occur in the model (`nat`).
- Generator.NaluFakeDataGenerator.GetNextEvent: requires every active channel's island to have
  at least num_windows x 32 samples. Both constructors establish this for the noise generator,
  and zero-filled islands always have that length. Only a generator installed with
  `setGenerator`/`setDefaultGenerator` that returns fewer samples can break it; the source then
  reads past the island's end, which is undefined behaviour and is not modelled.
- Generator.NaluFakeDataGenerator.GeneratePacket: takes the window as a sequence of at least
  32 samples rather than a raw pointer, so reading beyond the buffer is not modelled.
- An empty `std::function` passed to `setGenerator` or `setDefaultGenerator` is not
  modelled. The default slot is an `Option` that becomes `None` only before the first
  `updateEventInfo`.
- Serialization, `get_size`, printing and the creation timestamp of `NaluEvent`/`NaluPacket`
  are left out: their definitions in `nalu_event.h` are not part of this model. The widths of
  the logical-position and reserved fields are unknown, so they are `nat`.
- `randomize_samples` and `fixed_sample_value` are carried in the config, but no modelled
  operation reads them, just as in the generator code.
- The stale alternate header `include/nalu_fake_data_generator.h` (`NaluGeneratorConfig`,
  `get_next_event`) is not part of this model.
- The demo driver's console output and hex dump are left out. Only its setup and its first
  two events are modelled.
- Ownership and move semantics (`std::move`, `unique_ptr`) are left out. Generators are values
  and events are returned datatypes.
