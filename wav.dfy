/** The file Python's `wave` module writes for PCM frames: the 44-byte RIFF
    header (RIFF/WAVE, a 16-byte "fmt " chunk of format 1, then the "data"
    chunk) followed by the frames as given. */
module Wav {
  import opened Wrappers

  /** Little-endian 16- and 32-bit fields (`struct.pack("<H")`, `"<L"`), taken
      modulo their width. */
  function LE16(n: nat): seq<byte> {
    [n % 256, n / 256 % 256]
  }

  function LE32(n: nat): (r: seq<byte>)
    ensures |r| == 4
  {
    [n % 256, n / 256 % 256, n / 65536 % 256, n / 16777216 % 256]
  }

  /** The value of four little-endian octets. */
  function FromLE32(b: seq<byte>): nat
    requires |b| == 4
  {
    b[0] as int + 256 * b[1] as int + 65536 * b[2] as int + 16777216 * b[3] as int
  }

  lemma LE32RoundTrip(n: nat)
    requires n < 0x1_0000_0000
    ensures FromLE32(LE32(n)) == n
  {
    var b := LE32(n);
    var q1 := n / 256;
    var q2 := q1 / 256;
    var q3 := q2 / 256;
    assert n == n % 256 + 256 * q1;
    assert q1 == q1 % 256 + 256 * q2;
    assert q2 == q2 % 256 + 256 * q3;
    assert q3 < 256;
    assert n / 65536 == q2;
    assert n / 16777216 == q3;
  }

  const Riff: seq<byte> := [82, 73, 70, 70]   // "RIFF"
  const Wave: seq<byte> := [87, 65, 86, 69]   // "WAVE"
  const Fmt: seq<byte> := [102, 109, 116, 32] // "fmt "
  const Data: seq<byte> := [100, 97, 116, 97] // "data"

  /** The header once `writeframes` has written `n` bytes of frames. */
  function Header(channels: nat, sampleWidth: nat, frameRate: nat, n: nat): (h: seq<byte>)
    ensures |h| == 44
  {
    Riff + LE32(36 + n) + Wave + Fmt + LE32(16) + LE16(1) + LE16(channels) + LE32(frameRate)
    + LE32(channels * frameRate * sampleWidth) + LE16(channels * sampleWidth) + LE16(sampleWidth * 8)
    + Data + LE32(n)
  }

  /** The whole file for these frames. */
  function WavFile(channels: nat, sampleWidth: nat, frameRate: nat, frames: seq<byte>): seq<byte> {
    Header(channels, sampleWidth, frameRate, |frames|) + frames
  }

  /** A WAV file starts with "RIFF" and "WAVE", its two size fields give the
      frame count back (for files under 4 GiB), and the frames follow the
      header unchanged. */
  lemma WavLayout(channels: nat, sampleWidth: nat, frameRate: nat, frames: seq<byte>)
    requires 36 + |frames| < 0x1_0000_0000
    ensures var f := WavFile(channels, sampleWidth, frameRate, frames);
            |f| == 44 + |frames| && f[..4] == Riff && f[8..12] == Wave && f[36..40] == Data &&
            FromLE32(f[4..8]) == 36 + |frames| && FromLE32(f[40..44]) == |frames| && f[44..] == frames
  {
    var h := Header(channels, sampleWidth, frameRate, |frames|);
    var f := h + frames;
    assert f[..4] == h[..4] == Riff;
    assert f[4..8] == h[4..8] == LE32(36 + |frames|);
    assert f[8..12] == h[8..12] == Wave;
    assert f[36..40] == h[36..40] == Data;
    assert f[40..44] == h[40..44] == LE32(|frames|);
    LE32RoundTrip(36 + |frames|);
    LE32RoundTrip(|frames|);
  }
}
