/**
 * The receiving side of the TV link (lab5/src/TVReceiver/TVReceiver.h): a
 * datagram's first byte names its type, audio payloads are decoded into
 * 16-bit samples sent in network byte order, and video payloads are passed
 * on as they are. The socket, the thread pool the work is posted to, the
 * audio player and the image decoder are not part of this model: posted
 * work is recorded in a queue per kind.
 */
module TVReceivers {
  import opened PacketTypes

  /** `BUFFER_SIZE` of the receiving socket. */
  const BUFFER_SIZE: nat := 65536

  /** `static_cast<int16_t>(ntohs(...))` of two bytes in network order. */
  function FromNetwork(high: byte, low: byte): (s: int16)
    ensures s >= 0 <==> high < 0x80
    ensures (if s < 0 then s + 0x1_0000 else s) == (high as int) * 0x100 + low
  {
    var u := (high as int) * 0x100 + low;
    if u >= 0x8000 then u - 0x1_0000 else u
  }

  /** The samples in a payload: one per pair of bytes, a trailing odd byte ignored. */
  function DecodedSamples(payload: seq<byte>): (r: seq<int16>)
    ensures |r| == |payload| / 2
  {
    seq(|payload| / 2, i requires 0 <= i < |payload| / 2 => FromNetwork(payload[2 * i], payload[2 * i + 1]))
  }

  lemma DecodedSampleAt(payload: seq<byte>, i: nat)
    requires i < |payload| / 2
    ensures 2 * i + 1 < |payload|
    ensures DecodedSamples(payload)[i] == FromNetwork(payload[2 * i], payload[2 * i + 1])
  {
  }

  /** Decodes a payload into a new buffer of `floor(|payload| / 2)` samples, one element per step. */
  method ParseAudioPacket(payload: seq<byte>) returns (audioPackage: array<int16>)
    ensures fresh(audioPackage)
    ensures audioPackage.Length == |payload| / 2
    ensures forall i :: 0 <= i < audioPackage.Length ==>
      audioPackage[i] == FromNetwork(payload[2 * i], payload[2 * i + 1])
    ensures audioPackage[..] == DecodedSamples(payload)
  {
    var sampleCount := |payload| / 2;
    audioPackage := new int16[sampleCount];
    var i := 0;
    while i < sampleCount
      invariant 0 <= i <= sampleCount
      invariant forall j :: 0 <= j < i ==> audioPackage[j] == FromNetwork(payload[2 * j], payload[2 * j + 1])
    {
      audioPackage[i] := FromNetwork(payload[2 * i], payload[2 * i + 1]);
      i := i + 1;
    }
  }

  /** What becomes of a datagram. */
  datatype Delivery = Dropped | AudioData(samples: seq<int16>) | VideoData(bytes: seq<byte>)

  /**
   * The routing decision for the first `bytesCount` bytes of `data`, as the
   * source has it: the type is byte 0 and the payload is everything after
   * that one byte.
   */
  function Route(running: bool, data: seq<byte>, bytesCount: nat): (d: Delivery)
    requires bytesCount <= |data|
    ensures d.AudioData? <==> running && bytesCount > 0 && data[0] == AUDIO_PACKET
    ensures d.VideoData? <==> running && bytesCount > 0 && data[0] == VIDEO_PACKET
    ensures d.AudioData? ==> d.samples == DecodedSamples(data[1..bytesCount])
    ensures d.VideoData? ==> d.bytes == data[1..bytesCount]
  {
    if !running || bytesCount == 0 then Dropped
    else
      var payload := data[1..bytesCount];
      if data[0] == AUDIO_PACKET then AudioData(DecodedSamples(payload))
      else if data[0] == VIDEO_PACKET then VideoData(payload)
      else Dropped
  }

  /**
   * The routing decision with the whole media header skipped: the type is
   * still byte 0, the first field of the header, and the payload starts
   * after `HEADER_SIZE` bytes; a datagram shorter than a header is dropped.
   */
  function RouteAfterHeader(running: bool, data: seq<byte>, bytesCount: nat): (d: Delivery)
    requires bytesCount <= |data|
    ensures d.AudioData? <==> running && bytesCount >= HEADER_SIZE && data[0] == AUDIO_PACKET
    ensures d.VideoData? <==> running && bytesCount >= HEADER_SIZE && data[0] == VIDEO_PACKET
    ensures d.AudioData? ==> d.samples == DecodedSamples(data[HEADER_SIZE..bytesCount])
    ensures d.VideoData? ==> d.bytes == data[HEADER_SIZE..bytesCount]
  {
    if !running || bytesCount < HEADER_SIZE then Dropped
    else
      var payload := data[HEADER_SIZE..bytesCount];
      if data[0] == AUDIO_PACKET then AudioData(DecodedSamples(payload))
      else if data[0] == VIDEO_PACKET then VideoData(payload)
      else Dropped
  }

  class TVReceiver {
    var running: bool
    /** The decoded audio blocks posted for playing, in order. */
    var audioQueue: seq<seq<int16>>
    /** The video payloads posted for decoding, in order. */
    var videoQueue: seq<seq<byte>>

    constructor()
      ensures running && audioQueue == [] && videoQueue == []
    {
      running := true;
      audioQueue := [];
      videoQueue := [];
    }

    /** Stops taking datagrams; waiting for posted work is not modelled. */
    method StopProcessing()
      modifies this
      ensures !running && audioQueue == old(audioQueue) && videoQueue == old(videoQueue)
    {
      running := false;
    }

    /** Handles one datagram: decodes and posts audio, posts video, ignores anything else. */
    method OnReceive(data: seq<byte>, bytesCount: nat)
      requires |data| == BUFFER_SIZE && bytesCount <= BUFFER_SIZE
      modifies this
      ensures running == old(running)
      ensures Route(old(running), data, bytesCount).AudioData? ==>
        audioQueue == old(audioQueue) + [Route(old(running), data, bytesCount).samples] && videoQueue == old(videoQueue)
      ensures Route(old(running), data, bytesCount).VideoData? ==>
        videoQueue == old(videoQueue) + [Route(old(running), data, bytesCount).bytes] && audioQueue == old(audioQueue)
      ensures Route(old(running), data, bytesCount).Dropped? ==>
        audioQueue == old(audioQueue) && videoQueue == old(videoQueue)
    {
      if !running || bytesCount == 0 {
        return;
      }
      var dataType := data[0];
      var payload := data[1..bytesCount];
      if dataType == AUDIO_PACKET {
        var parsed := ParseAudioPacket(payload);
        audioQueue := audioQueue + [parsed[..]];
      } else if dataType == VIDEO_PACKET {
        videoQueue := videoQueue + [payload];
      }
    }
  }
}
