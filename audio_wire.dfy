/**
 * The TV link end to end: what the receiver makes of the datagrams the
 * station sends (lab5/src/TVStation/TVStation.h against
 * lab5/src/TVReceiver/TVReceiver.h).
 */
module AudioWire {
  import opened PacketTypes
  import opened TVStations
  import opened TVReceivers

  /** A sample survives the trip through network byte order. */
  lemma SampleRoundTrip(s: int16)
    ensures FromNetwork(NetworkBytes(s)[0], NetworkBytes(s)[1]) == s
  {
  }

  /** Decoding the encoded sample region gives the samples back, in order. */
  lemma SampleRegionRoundTrip(samples: seq<int16>)
    ensures DecodedSamples(EncodeSamples(samples)) == samples
  {
    var bytes := EncodeSamples(samples);
    forall k | 0 <= k < |samples|
      ensures DecodedSamples(bytes)[k] == samples[k]
    {
      DecodedSampleAt(bytes, k);
      SampleRoundTrip(samples[k]);
    }
  }

  /** An odd trailing byte after the samples is ignored. */
  lemma OddByteIgnored(samples: seq<int16>, b: byte)
    ensures DecodedSamples(EncodeSamples(samples) + [b]) == samples
  {
    var region := EncodeSamples(samples);
    var bytes := region + [b];
    forall k | 0 <= k < |samples|
      ensures DecodedSamples(bytes)[k] == samples[k]
    {
      DecodedSampleAt(bytes, k);
      assert bytes[2 * k] == region[2 * k] && bytes[2 * k + 1] == region[2 * k + 1];
      SampleRoundTrip(samples[k]);
    }
  }

  /**
   * As written, the receiver strips one byte where the station wrote a
   * 24-byte header, so every audio datagram decodes to 11 samples too many:
   * the 23 remaining header bytes are taken for samples.
   */
  lemma WholePacketAsWritten(timestamp: nat, sequence: nat, samples: seq<int16>)
    ensures var packet := AudioPacket(MediaHeader(AUDIO_PACKET, timestamp, sequence), samples);
      var d := Route(true, packet, |packet|);
      d.AudioData? && |d.samples| == |samples| + 11 && d.samples != samples
  {
  }

  /** Skipping the whole header, the receiver gets exactly the samples the station sent. */
  lemma WholePacketRoundTrip(timestamp: nat, sequence: nat, samples: seq<int16>)
    ensures var packet := AudioPacket(MediaHeader(AUDIO_PACKET, timestamp, sequence), samples);
      RouteAfterHeader(true, packet, |packet|) == AudioData(samples)
  {
    var packet := AudioPacket(MediaHeader(AUDIO_PACKET, timestamp, sequence), samples);
    assert packet[HEADER_SIZE..|packet|] == EncodeSamples(samples);
    SampleRegionRoundTrip(samples);
  }

  /** Skipping the whole header, the receiver gets exactly the frame the station sent. */
  lemma VideoRoundTrip(timestamp: nat, sequence: nat, frame: seq<byte>)
    ensures var packet := VideoPacket(MediaHeader(VIDEO_PACKET, timestamp, sequence), frame);
      RouteAfterHeader(true, packet, |packet|) == VideoData(frame)
  {
  }

  /** As written, a video payload keeps 23 bytes of header in front of the frame. */
  lemma VideoPacketAsWritten(timestamp: nat, sequence: nat, frame: seq<byte>)
    ensures var packet := VideoPacket(MediaHeader(VIDEO_PACKET, timestamp, sequence), frame);
      var d := Route(true, packet, |packet|);
      d.VideoData? && |d.bytes| == |frame| + HEADER_SIZE - 1 && d.bytes[HEADER_SIZE - 1..] == frame
  {
  }
}
