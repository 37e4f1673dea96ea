/**
 * Concrete runs of the generator: the demo driver's square-wave setup and
 * the snapshot behaviour of the default generator.
 */
module Scenarios {
  import opened Types
  import opened Config
  import opened Packing
  import opened Event
  import opened Timestamp
  import opened Generator

  /** The demo's square wave: blocks of 16 samples alternating 0x100 and 0xF00. */
  function SquareWave(length: u16): (wave: seq<bv16>)
  {
    seq(length as int, i => if (i / 16) % 2 == 0 then 0x0100 else 0x0F00)
  }

  /** The demo configuration: four windows, channels 0 and 1. */
  const DemoConfig: GeneratorConfig :=
    DefaultConfig.(numWindows := 4, channelMask := 0x3, randomizeSamples := false)

  /** With the square wave on channels 0 and 1, every island of the demo is long enough. */
  lemma DemoIslandsCover(gen: NaluFakeDataGenerator)
    requires gen.config == DemoConfig
    requires 0 in gen.channelGenerators && gen.channelGenerators[0] == SquareWave
    requires 1 in gen.channelGenerators && gen.channelGenerators[1] == SquareWave
    ensures gen.IslandsLongEnough()
    ensures Islands(gen.channelGenerators, gen.defaultGenerator, SetBits(gen.config.channelMask), IslandLength(gen.config))
            == DemoIslands
  {
    TwoChannelMask();
    assert IslandLength(gen.config) == 128;
    forall c: u8 | c in SetBits(gen.config.channelMask)
      ensures |gen.Island(c)| >= IslandLength(gen.config)
    {
      assert c == 0 || c == 1;
    }
  }

  /** The islands of the demo: the square wave, 4 x 32 samples, on channels 0 and 1. */
  const DemoIslands: seq<seq<bv16>> := [SquareWave(128), SquareWave(128)]

  /** The demo's set-up: config constructor, then the square wave on every active channel. */
  method DemoSetup(noise: Waveform) returns (gen: NaluFakeDataGenerator)
    requires ExactLength(noise)
    ensures fresh(gen)
    ensures gen.config == DemoConfig && gen.currentEventIndex == 0
    ensures 0 in gen.channelGenerators && gen.channelGenerators[0] == SquareWave
    ensures 1 in gen.channelGenerators && gen.channelGenerators[1] == SquareWave
  {
    gen := new NaluFakeDataGenerator.WithConfig(DemoConfig, noise);
    var channels := ActiveChannels(DemoConfig);
    TwoChannelMask();
    for i := 0 to |channels|
      invariant gen.config == DemoConfig && gen.currentEventIndex == 0
      invariant forall j :: 0 <= j < i ==>
                  channels[j] as u8 in gen.channelGenerators && gen.channelGenerators[channels[j] as u8] == SquareWave
    {
      gen.SetGenerator(channels[i] as u8, SquareWave);
    }
    assert channels[0] == 0 && channels[1] == 1;
  }

  /**
   * The demo driver: config constructor, the square wave installed on every
   * active channel, then two events with consecutive indices from
   * start_index 0, each assembled from the square-wave islands.
   */
  method DemoRun(noise: Waveform, firstNs: nat, secondNs: nat) returns (first: NaluEvent, second: NaluEvent)
    requires ExactLength(noise)
    ensures IslandsCover(DemoConfig, DemoIslands)
    ensures first == AssembleEvent(DemoConfig, 0, SimulatedTimestamp(firstNs), [0, 1], DemoIslands)
    ensures second == AssembleEvent(DemoConfig, 1, SimulatedTimestamp(secondNs), [0, 1], DemoIslands)
  {
    var gen := DemoSetup(noise);
    TwoChannelMask();
    DemoIslandsCover(gen);
    first := gen.GetNextEvent(firstNs);
    assert gen.currentEventIndex == 1;
    DemoIslandsCover(gen);
    second := gen.GetNextEvent(secondNs);
    DemoIslandsCover(gen);
  }

  /** An event of the demo has 2 x 4 packets, but its header reads 1008 and reserved 0. */
  lemma DemoEventHeader(index: u32, time: u32)
    ensures IslandsCover(DemoConfig, DemoIslands)
    ensures var e := AssembleEvent(DemoConfig, index, time, [0, 1], DemoIslands);
            e.numPackets == 1008 && e.reserved == 0 && |e.packets| == 8
  {
    assert IslandsCover(DemoConfig, DemoIslands);
    NumPacketsExact([0, 1], 4);
    EventPacketsLength(DemoConfig, [0, 1], DemoIslands, time);
  }

  /** Packet k of a demo event belongs to channel k / 4 and window k % 4. */
  lemma DemoPacketOrder(index: u32, time: u32, k: nat)
    requires k < 8
    ensures IslandsCover(DemoConfig, DemoIslands)
    ensures var e := AssembleEvent(DemoConfig, index, time, [0, 1], DemoIslands);
            k < |e.packets| && e.packets[k].channel == k / 4 && e.packets[k].physicalPosition == k % 4
  {
    assert IslandsCover(DemoConfig, DemoIslands);
    EventPacketAt(DemoConfig, [0, 1], DemoIslands, time, k / 4, k % 4);
  }

  /** The first sample of a demo event, 0x100, packs to the bytes 0x01 0x00. */
  lemma DemoFirstBytes(index: u32, time: u32)
    ensures IslandsCover(DemoConfig, DemoIslands)
    ensures var e := AssembleEvent(DemoConfig, index, time, [0, 1], DemoIslands);
            |e.packets| == 8 && |e.packets[0].payload| == 64
            && e.packets[0].payload[0] == 0x01 && e.packets[0].payload[1] == 0x00
  {
    assert IslandsCover(DemoConfig, DemoIslands);
    var island := SquareWave(128);
    assert island[0] == 0x0100;
    var window := Window(island, 0);
    assert window[0] == island[0];
    EventPacketAt(DemoConfig, [0, 1], DemoIslands, time, 0, 0);
    PackAt(window, 0);
  }

  /**
   * The default set-up: the default constructor, then one event. Mask 0x1
   * and one window give exactly one packet, channel 0 window 0, carrying
   * the event's timestamp; the header reads index 0 and num_packets 1001.
   */
  method DefaultRun(noise: Waveform, nowNs: nat) returns (e: NaluEvent)
    requires ExactLength(noise)
    ensures e.index == 0 && e.referenceTime == SimulatedTimestamp(nowNs)
    ensures |e.packets| == 1 && e.numPackets == 1001
    ensures e.packets[0].channel == 0 && e.packets[0].physicalPosition == 0
    ensures e.packets[0].triggerTime == e.referenceTime
  {
    var gen := new NaluFakeDataGenerator(noise);
    e := gen.GetNextEvent(nowNs);
    DefaultMaskChannels();
    var islands := Islands(gen.channelGenerators, gen.defaultGenerator, [0], 32);
    EventShape(DefaultConfig, 0, e.referenceTime, [0], islands);
    EventPacketAt(DefaultConfig, [0], islands, e.referenceTime, 0, 0);
  }

  /**
   * The default slot is copied into the map when a channel is bound, so a
   * later setDefaultGenerator reaches only channels bound afterwards:
   * channel 0, bound to noise by the default constructor, keeps noise both
   * before and after updateConfig activates channel 1, which gets g.
   */
  method StaleDefault(noise: Waveform, g: Waveform) returns (boundBefore: seq<bv16>, boundAfter: seq<bv16>, newlyBound: seq<bv16>)
    requires ExactLength(noise)
    ensures boundBefore == noise(32)
    ensures boundAfter == noise(32)
    ensures newlyBound == g(32)
  {
    var gen := new NaluFakeDataGenerator(noise);
    gen.SetDefaultGenerator(g);
    boundBefore := gen.Island(0);
    gen.UpdateConfig(DefaultConfig.(channelMask := 0x3));
    TwoChannelMask();
    BindDefaultsSpec(map[0 := noise], [0, 1], g);
    boundAfter := gen.Island(0);
    newlyBound := gen.Island(1);
  }
}
