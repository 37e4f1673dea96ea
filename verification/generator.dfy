/**
 * The stateful generator: the running event index, the per-channel waveform
 * registry, the default waveform slot, and the operations that build events
 * from them.
 */
module Generator {
  import opened Types
  import opened Config
  import opened Packing
  import opened Event
  import opened Timestamp

  /** A waveform generator: from a requested sample count to the samples. */
  type Waveform = u16 -> seq<bv16>

  /** The island used when neither a channel generator nor a default exists. */
  function ZeroIsland(length: nat): (island: seq<bv16>)
  {
    seq(length, _ => 0)
  }

  /**
   * Island source resolution: the channel's own generator, else the default
   * generator, else zeros.
   */
  function ResolveIsland(generators: map<u8, Waveform>, default: Option<Waveform>, channel: u8, length: u16): (island: seq<bv16>)
  {
    if channel in generators then generators[channel](length)
    else if default.Some? then default.value(length)
    else ZeroIsland(length)
  }

  /** The islands a run of channels resolves to, in order. */
  function Islands(generators: map<u8, Waveform>, default: Option<Waveform>, channels: seq<int>, length: u16): (islands: seq<seq<bv16>>)
    requires ValidChannels(channels)
    ensures |islands| == |channels|
  {
    seq(|channels|, k requires 0 <= k < |channels| => ResolveIsland(generators, default, channels[k] as u8, length))
  }

  /**
   * setGenerator takes any 8-bit id, but ids 64..255 are never active, so an
   * entry installed for one of them never reaches an event.
   */
  lemma HighChannelNeverActive(mask: bv64, c: u8)
    requires c >= MaskWidth
    ensures c !in SetBits(mask)
    ensures forall k :: 0 <= k < |SetBits(mask)| ==> SetBits(mask)[k] != c
  {
  }

  /**
   * A generator that returns exactly the number of samples it is asked for,
   * as the built-in noise generator does.
   */
  predicate ExactLength(g: Waveform)
  {
    forall n: u16 :: |g(n)| == n as int
  }

  /** Length of every island an event requests: num_windows * 32, at most 8160. */
  function IslandLength(config: GeneratorConfig): (n: u16)
    ensures n <= 255 * WindowSamples
  {
    config.numWindows * WindowSamples
  }

  /**
   * The registry after binding each listed channel that has no generator yet
   * to g, in list order.
   */
  function BindDefaults(generators: map<u8, Waveform>, channels: seq<int>, g: Waveform): (bound: map<u8, Waveform>)
    requires ValidChannels(channels)
  {
    if channels == [] then generators
    else
      var n := |channels| - 1;
      var before := BindDefaults(generators, channels[..n], g);
      if channels[n] in before then before else before[channels[n] := g]
  }

  /**
   * Binding defaults adds exactly the listed channels, keeps every existing
   * entry, and gives each new entry the snapshot g.
   */
  lemma {:induction false} BindDefaultsSpec(generators: map<u8, Waveform>, channels: seq<int>, g: Waveform)
    requires ValidChannels(channels)
    ensures forall c: u8 :: c in BindDefaults(generators, channels, g) <==> c in generators || c in channels
    ensures forall c :: c in generators ==> BindDefaults(generators, channels, g)[c] == generators[c]
    ensures forall c :: c in BindDefaults(generators, channels, g) && c !in generators ==>
              BindDefaults(generators, channels, g)[c] == g
  {
    if channels != [] {
      var n := |channels| - 1;
      BindDefaultsSpec(generators, channels[..n], g);
      assert channels == channels[..n] + [channels[n]];
    }
  }

  lemma BindDefaultsStep(generators: map<u8, Waveform>, channels: seq<int>, i: nat, g: Waveform)
    requires ValidChannels(channels) && i < |channels|
    ensures var before := BindDefaults(generators, channels[..i], g);
      BindDefaults(generators, channels[..i + 1], g)
      == if channels[i] in before then before else before[channels[i] := g]
  {
    assert channels[..i + 1][..i] == channels[..i];
  }

  lemma BindDefaultsCovers(generators: map<u8, Waveform>, channels: seq<int>, g: Waveform)
    requires ValidChannels(channels)
    ensures forall c: u8 :: c in channels ==> c in BindDefaults(generators, channels, g)
  {
    BindDefaultsSpec(generators, channels, g);
  }

  class NaluFakeDataGenerator {
    var config: GeneratorConfig
    var currentEventIndex: u32
    var lastEventTime: u32
    var channelGenerators: map<u8, Waveform>
    var defaultGenerator: Option<Waveform>
    /** The random-noise waveform installed when the default slot is empty. */
    const noise: Waveform

    /**
     * Every active channel has its own generator and the default slot is
     * filled, so island resolution never reaches the zero fill.
     */
    ghost predicate Bound()
      reads this
    {
      && defaultGenerator.Some?
      && forall c: u8 :: c in SetBits(config.channelMask) ==> c in channelGenerators
    }

    /** The island the next event uses for a channel under the current state. */
    function Island(channel: u8): (island: seq<bv16>)
      reads this
    {
      ResolveIsland(channelGenerators, defaultGenerator, channel, IslandLength(config))
    }

    /** Every active channel's island covers all windows of an event. */
    predicate IslandsLongEnough()
      reads this
    {
      forall c: u8 :: c in SetBits(config.channelMask) ==> |Island(c)| >= IslandLength(config)
    }

    /** Under IslandsLongEnough, the islands of the active channels cover every window. */
    lemma ActiveIslandsCover()
      requires IslandsLongEnough()
      ensures IslandsCover(config, Islands(channelGenerators, defaultGenerator, SetBits(config.channelMask), IslandLength(config)))
    {
      var channels := SetBits(config.channelMask);
      var islands := Islands(channelGenerators, defaultGenerator, channels, IslandLength(config));
      forall k | 0 <= k < |islands| ensures |islands[k]| >= IslandLength(config) {
        assert channels[k] in channels;
        assert islands[k] == Island(channels[k] as u8);
      }
    }

    /**
     * Once Bound holds, every active channel resolves to its own map entry:
     * neither the current default nor the zero fill is consulted.
     */
    lemma BoundUsesOwnEntry(c: u8)
      requires Bound() && c in SetBits(config.channelMask)
      ensures c in channelGenerators
      ensures Island(c) == channelGenerators[c](IslandLength(config))
    {
    }

    /**
     * The default constructor: default config, index 0. With a noise
     * generator of exact length, the next event is always defined.
     */
    constructor (noise: Waveform)
      requires ExactLength(noise)
      ensures this.noise == noise && config == DefaultConfig
      ensures currentEventIndex == 0 && lastEventTime == 0
      ensures defaultGenerator == Some(noise) && channelGenerators == map[0 := noise]
      ensures Bound() && IslandsLongEnough()
    {
      this.noise := noise;
      config := DefaultConfig;
      currentEventIndex := 0;
      lastEventTime := 0;
      channelGenerators := map[];
      defaultGenerator := None;
      new;
      UpdateEventInfo();
      DefaultMaskChannels();
      assert Island(0) == noise(IslandLength(config));
    }

    /**
     * The config constructor: the index starts at config.start_index. With a
     * noise generator of exact length, the next event is always defined.
     */
    constructor WithConfig(config: GeneratorConfig, noise: Waveform)
      requires ExactLength(noise)
      ensures this.noise == noise && this.config == config
      ensures currentEventIndex == config.startIndex && lastEventTime == 0
      ensures defaultGenerator == Some(noise)
      ensures channelGenerators == BindDefaults(map[], SetBits(config.channelMask), noise)
      ensures Bound() && IslandsLongEnough()
    {
      this.noise := noise;
      this.config := config;
      currentEventIndex := config.startIndex;
      lastEventTime := 0;
      channelGenerators := map[];
      defaultGenerator := None;
      new;
      UpdateEventInfo();
      BindDefaultsSpec(map[], SetBits(config.channelMask), noise);
      forall c: u8 | c in SetBits(this.config.channelMask)
        ensures |Island(c)| >= IslandLength(this.config)
      {
        assert channelGenerators[c] == noise;
      }
    }

    /**
     * updateEventInfo: fill the default slot with noise if it is empty, then
     * bind every active channel lacking a generator to a snapshot of the
     * default. Existing bindings are kept.
     */
    method UpdateEventInfo()
      modifies this
      ensures config == old(config) && currentEventIndex == old(currentEventIndex)
      ensures lastEventTime == old(lastEventTime)
      ensures defaultGenerator == if old(defaultGenerator).None? then Some(noise) else old(defaultGenerator)
      ensures channelGenerators == BindDefaults(old(channelGenerators), SetBits(config.channelMask), defaultGenerator.value)
      ensures Bound()
    {
      if defaultGenerator.None? {
        defaultGenerator := Some(noise);
      }
      var channels := ActiveChannels(config);
      BindMissing(channels, defaultGenerator.value);
      BindDefaultsCovers(old(channelGenerators), channels, defaultGenerator.value);
    }

    /** The loop of updateEventInfo: bind each listed channel lacking a generator to g. */
    method BindMissing(channels: seq<int>, g: Waveform)
      requires ValidChannels(channels)
      modifies this`channelGenerators
      ensures channelGenerators == BindDefaults(old(channelGenerators), channels, g)
    {
      for i := 0 to |channels|
        invariant channelGenerators == BindDefaults(old(channelGenerators), channels[..i], g)
      {
        var channel: u8 := channels[i];
        BindDefaultsStep(old(channelGenerators), channels, i, g);
        if channel !in channelGenerators {
          channelGenerators := channelGenerators[channel := g];
        }
      }
      assert channels[..|channels|] == channels;
    }

    /** updateConfig: replace the config, then bind newly active channels. */
    method UpdateConfig(newConfig: GeneratorConfig)
      modifies this
      ensures config == newConfig && currentEventIndex == old(currentEventIndex)
      ensures lastEventTime == old(lastEventTime)
      ensures defaultGenerator == if old(defaultGenerator).None? then Some(noise) else old(defaultGenerator)
      ensures channelGenerators == BindDefaults(old(channelGenerators), SetBits(newConfig.channelMask), defaultGenerator.value)
      ensures Bound()
    {
      config := newConfig;
      UpdateEventInfo();
    }

    /** setGenerator: install or replace one channel's generator, any id 0..255. */
    method SetGenerator(channel: u8, generator: Waveform)
      modifies this
      ensures channelGenerators == old(channelGenerators)[channel := generator]
      ensures config == old(config) && defaultGenerator == old(defaultGenerator)
      ensures currentEventIndex == old(currentEventIndex) && lastEventTime == old(lastEventTime)
      ensures old(Bound()) ==> Bound()
    {
      channelGenerators := channelGenerators[channel := generator];
    }

    /**
     * setDefaultGenerator: replace the default slot. Channels already bound
     * keep their snapshot of the previous default.
     */
    method SetDefaultGenerator(generator: Waveform)
      modifies this
      ensures defaultGenerator == Some(generator)
      ensures channelGenerators == old(channelGenerators) && config == old(config)
      ensures currentEventIndex == old(currentEventIndex) && lastEventTime == old(lastEventTime)
      ensures old(Bound()) ==> Bound()
    {
      defaultGenerator := Some(generator);
    }

    /**
     * generatePacket: pack the first 32 samples into a 64-byte payload and
     * frame it with the config's packet header, footer and info.
     */
    method GeneratePacket(channel: u8, triggerTime: u32, physicalPosition: u16, windowSamples: seq<bv16>) returns (p: Packet)
      requires |windowSamples| >= WindowSamples
      ensures p == MakePacket(config, channel, triggerTime, physicalPosition, windowSamples[..WindowSamples])
      ensures |p.payload| == PayloadBytes
      ensures forall i :: 0 <= i < WindowSamples ==>
                p.payload[2 * i] == HighByte(windowSamples[i]) && p.payload[2 * i] < 16
                && p.payload[2 * i + 1] == LowByte(windowSamples[i])
      ensures UnpackSamples(p.payload) == Truncated(windowSamples[..WindowSamples])
    {
      var packed := new bv8[64];
      for i := 0 to 32
        invariant forall j :: 0 <= j < i ==>
                    packed[2 * j] == HighByte(windowSamples[j]) && packed[2 * j + 1] == LowByte(windowSamples[j])
      {
        var adc := windowSamples[i] & 0x0FFF;
        packed[2 * i] := ((adc >> 8) & 0x0F) as bv8;
        packed[2 * i + 1] := (adc & 0xFF) as bv8;
      }
      ghost var window := windowSamples[..WindowSamples];
      PackRoundTrip(window);
      forall k | 0 <= k < 64 ensures packed[k] == PackSamples(window)[k] {
        PackAt(window, k / 2);
      }
      forall i | 0 <= i < WindowSamples ensures packed[2 * i] < 16 {
        SampleBytes(windowSamples[i]);
      }
      p := Packet(config.packetHeader, channel, triggerTime, 0, physicalPosition, packed[..],
                  config.packetFooter, config.packetInfo);
    }

    /**
     * The inner loop of getNextEvent: one packet per window of a channel's
     * island, windows in order.
     */
    method ChannelPackets(channel: u8, time: u32, island: seq<bv16>) returns (packets: seq<Packet>)
      requires |island| >= WindowSamples * config.numWindows
      ensures packets == WindowPackets(config, channel, time, island, config.numWindows)
    {
      packets := [];
      for window := 0 to config.numWindows
        invariant WindowSamples * window <= |island|
        invariant packets == WindowPackets(config, channel, time, island, window)
      {
        MulMono(window + 1, config.numWindows, WindowSamples);
        var packet := GeneratePacket(channel, time, window, island[window * WindowSamples..]);
        assert island[window * WindowSamples..][..WindowSamples] == Window(island, window);
        packets := packets + [packet];
      }
    }

    /**
     * The outer loop of getNextEvent: for each active channel in order, its
     * island is resolved once and cut into window packets.
     */
    method EventPacketsOf(channels: seq<int>, time: u32) returns (packets: seq<Packet>)
      requires ValidChannels(channels)
      requires IslandsCover(config, Islands(channelGenerators, defaultGenerator, channels, IslandLength(config)))
      ensures packets == EventPackets(config, channels, Islands(channelGenerators, defaultGenerator, channels, IslandLength(config)), time)
    {
      ghost var islands := Islands(channelGenerators, defaultGenerator, channels, IslandLength(config));
      packets := [];
      for ci := 0 to |channels|
        invariant packets == EventPackets(config, channels[..ci], islands[..ci], time)
      {
        var channel: u8 := channels[ci];
        var fullIsland: seq<bv16>;
        if channel in channelGenerators {
          fullIsland := channelGenerators[channel](IslandLength(config));
        } else if defaultGenerator.Some? {
          fullIsland := defaultGenerator.value(IslandLength(config));
        } else {
          fullIsland := ZeroIsland(IslandLength(config));
        }
        assert fullIsland == islands[ci];
        var windows := ChannelPackets(channel, time, fullIsland);
        packets := packets + windows;
        EventPacketsStep(config, channels, islands, time, ci);
      }
      assert channels[..|channels|] == channels;
      assert islands[..|channels|] == islands;
    }

    /**
     * The event getNextEvent builds for a given index and timestamp: the
     * header fields, then for each active channel one island cut into
     * 32-sample windows, one packet per window, channel-major.
     */
    method BuildEvent(index: u32, eventReferenceTime: u32) returns (e: NaluEvent)
      requires IslandsLongEnough()
      ensures IslandsCover(config, Islands(channelGenerators, defaultGenerator, SetBits(config.channelMask), IslandLength(config)))
      ensures e == AssembleEvent(config, index, eventReferenceTime, SetBits(config.channelMask),
                                 Islands(channelGenerators, defaultGenerator, SetBits(config.channelMask), IslandLength(config)))
    {
      var channels := ActiveChannels(config);
      var expectedPackets: nat := |channels| * config.numWindows;
      ActiveIslandsCover();
      var packets := EventPacketsOf(channels, eventReferenceTime);
      e := NaluEvent(config.eventHeader, config.eventInfo, index, eventReferenceTime,
                     config.packetSize, 0, config.eventFooter, NumPacketsField(expectedPackets),
                     config.channelMask, config.numWindows, packets);
    }

    /**
     * getNextEvent: one timestamp for the whole event, the pre-increment
     * index in the header, the index advanced modulo 2^32, and the
     * timestamp remembered as the last event time.
     */
    method GetNextEvent(nowNs: nat) returns (e: NaluEvent)
      requires IslandsLongEnough()
      modifies this
      ensures config == old(config) && channelGenerators == old(channelGenerators)
      ensures defaultGenerator == old(defaultGenerator)
      ensures IslandsCover(config, Islands(channelGenerators, defaultGenerator, SetBits(config.channelMask), IslandLength(config)))
      ensures e == AssembleEvent(config, old(currentEventIndex), SimulatedTimestamp(nowNs), SetBits(config.channelMask),
                                 Islands(channelGenerators, defaultGenerator, SetBits(config.channelMask), IslandLength(config)))
      ensures currentEventIndex == (old(currentEventIndex) + 1) % 0x1_0000_0000
      ensures lastEventTime == e.referenceTime
    {
      var eventReferenceTime := SimulatedTimestamp(nowNs);
      e := BuildEvent(currentEventIndex, eventReferenceTime);
      currentEventIndex := (currentEventIndex + 1) % 0x1_0000_0000;
      lastEventTime := eventReferenceTime;
    }
  }
}
