/**
 * The sending side of the TV link (lab5/src/TVStation/TVStation.h): each
 * audio block and each video frame goes out as one datagram, a media header
 * followed by the payload. Audio samples are written as 16-bit values in
 * network (big-endian) byte order. The camera, the microphone, the JPEG
 * encoder, the clock and the socket are not part of this model: the encoded
 * frame and the timestamp are parameters, and a sent datagram is recorded.
 */
module TVStations {
  import opened PacketTypes

  /** The bit pattern of a sample as the `uint16_t` that `htons` receives. */
  function ToUnsigned16(s: int16): (u: nat)
    ensures u < 0x1_0000
    ensures s >= 0 ==> u == s
    ensures s < 0 ==> u == s + 0x1_0000
  {
    if s < 0 then s + 0x1_0000 else s
  }

  /** A sample's two bytes in network order: the high byte first. */
  function NetworkBytes(s: int16): (r: seq<byte>)
    ensures |r| == 2 && (r[0] as int) * 0x100 + r[1] == ToUnsigned16(s)
  {
    var u := ToUnsigned16(s);
    [u / 0x100, u % 0x100]
  }

  /** The samples' bytes, two per sample, in order. */
  function EncodeSamples(samples: seq<int16>): (r: seq<byte>)
    ensures |r| == 2 * |samples|
    ensures forall k :: 0 <= k < |samples| ==> r[2 * k] == NetworkBytes(samples[k])[0]
    ensures forall k :: 0 <= k < |samples| ==> r[2 * k + 1] == NetworkBytes(samples[k])[1]
  {
    if samples == [] then [] else NetworkBytes(samples[0]) + EncodeSamples(samples[1..])
  }

  /** An audio datagram: the header, then the encoded samples. */
  function AudioPacket(h: MediaHeader, samples: seq<int16>): (r: seq<byte>)
    ensures |r| == HEADER_SIZE + 2 * |samples|
    ensures r[0] == h.packetType
  {
    HeaderBytes(h) + EncodeSamples(samples)
  }

  /** A video datagram: the header, then the encoded frame. */
  function VideoPacket(h: MediaHeader, frame: seq<byte>): (r: seq<byte>)
    ensures |r| == HEADER_SIZE + |frame| && r[HEADER_SIZE..] == frame
    ensures r[0] == h.packetType
  {
    HeaderBytes(h) + frame
  }

  class TVStation {
    var videoSequence: nat
    var audioSequence: nat
    /** The datagrams handed to the socket, in order. */
    var sent: seq<seq<byte>>

    ghost predicate Valid()
      reads this
    {
      videoSequence < UINT32_MODULUS && audioSequence < UINT32_MODULUS
    }

    constructor()
      ensures Valid() && videoSequence == 0 && audioSequence == 0 && sent == []
    {
      videoSequence := 0;
      audioSequence := 0;
      sent := [];
    }

    /**
     * Sends one encoded frame under the next video sequence number; the
     * 32-bit counter wraps.
     */
    method HandleFrame(frame: seq<byte>, timestamp: nat)
      requires Valid() && timestamp < UINT64_MODULUS
      modifies this
      ensures Valid()
      ensures videoSequence == (old(videoSequence) + 1) % UINT32_MODULUS
      ensures audioSequence == old(audioSequence)
      ensures sent == old(sent) + [VideoPacket(MediaHeader(VIDEO_PACKET, timestamp, old(videoSequence)), frame)]
    {
      var header := MediaHeader(VIDEO_PACKET, timestamp, videoSequence);
      videoSequence := (videoSequence + 1) % UINT32_MODULUS;
      var packet := HeaderBytes(header) + frame;
      sent := sent + [packet];
    }

    /**
     * Sends one block of samples under the next audio sequence number: the
     * header, then each sample's two bytes in network order, written in
     * place after it.
     */
    method HandleAudio(samples: seq<int16>, timestamp: nat)
      requires Valid() && timestamp < UINT64_MODULUS
      modifies this
      ensures Valid()
      ensures audioSequence == (old(audioSequence) + 1) % UINT32_MODULUS
      ensures videoSequence == old(videoSequence)
      ensures sent == old(sent) + [AudioPacket(MediaHeader(AUDIO_PACKET, timestamp, old(audioSequence)), samples)]
    {
      var header := MediaHeader(AUDIO_PACKET, timestamp, audioSequence);
      audioSequence := (audioSequence + 1) % UINT32_MODULUS;
      var packet := WriteAudioPacket(header, samples);
      sent := sent + [packet[..]];
    }
  }

  /** Fills a fresh buffer with the header and then the samples, advancing a write position. */
  method WriteAudioPacket(header: MediaHeader, samples: seq<int16>) returns (packet: array<byte>)
    ensures fresh(packet)
    ensures packet[..] == AudioPacket(header, samples)
  {
    ghost var expected := AudioPacket(header, samples);
    var headerBytes := HeaderBytes(header);
    packet := new byte[HEADER_SIZE + 2 * |samples|](i => if 0 <= i < |headerBytes| then headerBytes[i] else 0);
    var dest := HEADER_SIZE;
    var i := 0;
    while i < |samples|
      invariant 0 <= i <= |samples| && dest == HEADER_SIZE + 2 * i
      invariant forall j :: 0 <= j < dest ==> packet[j] == expected[j]
    {
      var bytes := NetworkBytes(samples[i]);
      packet[dest] := bytes[0];
      packet[dest + 1] := bytes[1];
      dest := dest + 2;
      i := i + 1;
    }
    assert packet[..] == expected;
  }
}
