/**
 * The values the generator builds: packets and events, with the header
 * fields the generator passes to their constructors, and the layout of an
 * event's packets (channel-major, window-minor) as functions of the islands.
 */
module Event {
  import opened Types
  import opened Config
  import opened Packing

  /** One channel/window slice. The width of the logical position is not known here. */
  datatype Packet = Packet(
    header: u16,
    channel: u8,
    triggerTime: u32,
    logicalPosition: nat,
    physicalPosition: u16,
    payload: seq<bv8>,
    footer: u16,
    info: u8)

  /** One event: its header fields followed by its packets in insertion order. */
  datatype NaluEvent = NaluEvent(
    header: u16,
    info: u8,
    index: u32,
    referenceTime: u32,
    packetSize: u16,
    reserved: nat,
    footer: u16,
    numPackets: u16,
    channelMask: bv64,
    numWindows: u8,
    packets: seq<Packet>)

  /** Offset the generator adds to the packet count in the num_packets field. */
  const NumPacketsOffset: nat := 1000

  /** The num_packets field: count + 1000 cast to 16 bits. */
  function NumPacketsField(count: nat): (r: u16)
    ensures count + NumPacketsOffset < 0x1_0000 ==> r == count + NumPacketsOffset
  {
    (count + NumPacketsOffset) % 0x1_0000
  }

  /** The channels the mask decoder can produce. */
  predicate ValidChannels(channels: seq<int>)
  {
    forall k :: 0 <= k < |channels| ==> 0 <= channels[k] < 64
  }

  /** Each channel has an island long enough for every window of the config. */
  predicate IslandsCover(config: GeneratorConfig, islands: seq<seq<bv16>>)
  {
    forall k :: 0 <= k < |islands| ==> |islands[k]| >= config.numWindows * WindowSamples
  }

  /** The packet generatePacket builds from one 32-sample window. */
  function MakePacket(config: GeneratorConfig, channel: u8, time: u32, window: u16, samples: seq<bv16>): (p: Packet)
    requires |samples| == WindowSamples
  {
    Packet(config.packetHeader, channel, time, 0, window, PackSamples(samples),
           config.packetFooter, config.packetInfo)
  }

  /** Window w of an island: samples 32w .. 32w + 31. */
  function Window(island: seq<bv16>, w: nat): (s: seq<bv16>)
    requires WindowSamples * (w + 1) <= |island|
    ensures |s| == WindowSamples
  {
    island[WindowSamples * w .. WindowSamples * (w + 1)]
  }

  /** Packets of one channel for windows 0 .. n - 1, in window order. */
  function WindowPackets(config: GeneratorConfig, channel: u8, time: u32, island: seq<bv16>, n: nat): (r: seq<Packet>)
    requires n <= config.numWindows
    requires WindowSamples * n <= |island|
    ensures |r| == n
  {
    if n == 0 then []
    else WindowPackets(config, channel, time, island, n - 1)
         + [MakePacket(config, channel, time, n - 1, Window(island, n - 1))]
  }

  /** Packets of an event: for each channel in turn, all its windows. */
  function EventPackets(config: GeneratorConfig, channels: seq<int>, islands: seq<seq<bv16>>, time: u32): (packets: seq<Packet>)
    requires ValidChannels(channels) && |islands| == |channels| && IslandsCover(config, islands)
  {
    if channels == [] then []
    else
      var n := |channels| - 1;
      EventPackets(config, channels[..n], islands[..n], time)
      + WindowPackets(config, channels[n], time, islands[n], config.numWindows)
  }

  /** Adding the next channel appends its window packets. */
  lemma EventPacketsStep(config: GeneratorConfig, channels: seq<int>, islands: seq<seq<bv16>>, time: u32, i: nat)
    requires ValidChannels(channels) && |islands| == |channels| && IslandsCover(config, islands)
    requires i < |channels|
    ensures EventPackets(config, channels[..i + 1], islands[..i + 1], time)
            == EventPackets(config, channels[..i], islands[..i], time)
               + WindowPackets(config, channels[i], time, islands[i], config.numWindows)
  {
    assert channels[..i + 1][..i] == channels[..i];
    assert islands[..i + 1][..i] == islands[..i];
  }

  /** The event getNextEvent returns, given the index, timestamp, channels and islands. */
  function AssembleEvent(config: GeneratorConfig, index: u32, time: u32, channels: seq<int>, islands: seq<seq<bv16>>): (e: NaluEvent)
    requires ValidChannels(channels) && |islands| == |channels| && IslandsCover(config, islands)
  {
    NaluEvent(config.eventHeader, config.eventInfo, index, time, config.packetSize, 0,
              config.eventFooter, NumPacketsField(|channels| * config.numWindows),
              config.channelMask, config.numWindows,
              EventPackets(config, channels, islands, time))
  }

  /** Packet w of a channel is built from window w of its island. */
  lemma {:induction false} WindowPacketsAt(config: GeneratorConfig, channel: u8, time: u32, island: seq<bv16>, n: nat, w: nat)
    requires n <= config.numWindows && WindowSamples * n <= |island| && w < n
    ensures |WindowPackets(config, channel, time, island, n)| == n
    ensures WindowPackets(config, channel, time, island, n)[w] == MakePacket(config, channel, time, w, Window(island, w))
  {
    if w < n - 1 {
      WindowPacketsAt(config, channel, time, island, n - 1, w);
    }
  }

  /** An event carries exactly |channels| * num_windows packets. */
  lemma {:induction false} EventPacketsLength(config: GeneratorConfig, channels: seq<int>, islands: seq<seq<bv16>>, time: u32)
    requires ValidChannels(channels) && |islands| == |channels| && IslandsCover(config, islands)
    ensures |EventPackets(config, channels, islands, time)| == |channels| * config.numWindows
  {
    if channels != [] {
      var n := |channels| - 1;
      EventPacketsLength(config, channels[..n], islands[..n], time);
    }
  }

  /**
   * Channel-major, window-minor order: packet c * num_windows + w belongs to
   * the c-th active channel and carries window w of that channel's island.
   */
  lemma {:induction false} EventPacketAt(config: GeneratorConfig, channels: seq<int>, islands: seq<seq<bv16>>, time: u32, c: nat, w: nat)
    requires ValidChannels(channels) && |islands| == |channels| && IslandsCover(config, islands)
    requires c < |channels| && w < config.numWindows
    ensures |EventPackets(config, channels, islands, time)| == |channels| * config.numWindows
    ensures c * config.numWindows + w < |channels| * config.numWindows
    ensures EventPackets(config, channels, islands, time)[c * config.numWindows + w]
            == MakePacket(config, channels[c] as u8, time, w, Window(islands[c], w))
  {
    var nw := config.numWindows;
    var n := |channels| - 1;
    EventPacketsLength(config, channels, islands, time);
    EventPacketsLength(config, channels[..n], islands[..n], time);
    WindowPacketsAt(config, channels[n], time, islands[n], nw, w);
    assert c * nw + w < (c + 1) * nw <= |channels| * nw by {
      assert (c + 1) * nw == c * nw + nw;
      MulMono(c + 1, |channels|, nw);
    }
    if c < n {
      EventPacketAt(config, channels[..n], islands[..n], time, c, w);
      assert c * nw + w < n * nw by { MulMono(c + 1, n, nw); }
    } else {
      assert c * nw + w == n * nw + w;
    }
  }

  /** Arithmetic helper for the packet-index bounds in EventPacketAt. */
  lemma MulMono(a: nat, b: nat, k: nat)
    requires a <= b
    ensures a * k <= b * k
  {
  }

  /** Every packet shares the event's trigger time, has logical position 0 and config framing. */
  lemma {:induction false} EveryPacket(config: GeneratorConfig, channels: seq<int>, islands: seq<seq<bv16>>, time: u32, p: Packet)
    requires ValidChannels(channels) && |islands| == |channels| && IslandsCover(config, islands)
    requires p in EventPackets(config, channels, islands, time)
    ensures p.triggerTime == time && p.logicalPosition == 0
    ensures p.header == config.packetHeader && p.footer == config.packetFooter && p.info == config.packetInfo
    ensures p.channel in channels && p.physicalPosition < config.numWindows
    ensures |p.payload| == PayloadBytes
  {
    if channels != [] {
      var n := |channels| - 1;
      var own := WindowPackets(config, channels[n], time, islands[n], config.numWindows);
      if p in own {
        var w :| 0 <= w < |own| && own[w] == p;
        WindowPacketsAt(config, channels[n], time, islands[n], config.numWindows, w);
        PackRoundTrip(Window(islands[n], w));
      } else {
        EveryPacket(config, channels[..n], islands[..n], time, p);
      }
    }
  }

  /**
   * A channel whose island is constant v yields packets whose payload decodes
   * to v truncated to 12 bits in every window.
   */
  lemma ConstantChannel(config: GeneratorConfig, channels: seq<int>, islands: seq<seq<bv16>>, time: u32, c: nat, w: nat, v: bv16)
    requires ValidChannels(channels) && |islands| == |channels| && IslandsCover(config, islands)
    requires c < |channels| && w < config.numWindows
    requires forall k :: 0 <= k < |islands[c]| ==> islands[c][k] == v
    ensures c * config.numWindows + w < |EventPackets(config, channels, islands, time)|
    ensures |EventPackets(config, channels, islands, time)[c * config.numWindows + w].payload| == PayloadBytes
    ensures UnpackSamples(EventPackets(config, channels, islands, time)[c * config.numWindows + w].payload)
            == seq(WindowSamples, _ => Adc(v))
  {
    EventPacketAt(config, channels, islands, time, c, w);
    ConstantDecodes(Window(islands[c], w), v);
  }

  /** The 16-bit num_packets cast never wraps: count + 1000 is at most 17320. */
  lemma NumPacketsExact(channels: seq<int>, numWindows: u8)
    requires |channels| <= 64
    ensures |channels| * numWindows + NumPacketsOffset <= 17320
    ensures NumPacketsField(|channels| * numWindows) == |channels| * numWindows + NumPacketsOffset
  {
    MulMono(|channels|, 64, numWindows);
  }

  /** The header of an assembled event: framing from the config, reserved 0, count + 1000. */
  lemma EventShape(config: GeneratorConfig, index: u32, time: u32, channels: seq<int>, islands: seq<seq<bv16>>)
    requires ValidChannels(channels) && |islands| == |channels| && IslandsCover(config, islands)
    requires |channels| <= 64
    ensures var e := AssembleEvent(config, index, time, channels, islands);
      && e.index == index && e.referenceTime == time && e.reserved == 0
      && e.header == config.eventHeader && e.footer == config.eventFooter && e.info == config.eventInfo
      && e.packetSize == config.packetSize && e.channelMask == config.channelMask && e.numWindows == config.numWindows
      && |e.packets| == |channels| * config.numWindows
      && e.numPackets == |e.packets| + NumPacketsOffset
  {
    EventPacketsLength(config, channels, islands, time);
    NumPacketsExact(channels, config.numWindows);
  }
}
