/**
 * The multipart/x-mixed-replace framing both streaming servers put around
 * each JPEG: a boundary line and a Content-Type header, then the image bytes,
 * then a trailer that differs between the two servers.
 */
module Mjpeg {
  import opened Wrappers
  import opened Text

  /** An encoded image, opaque to the model. */
  type Frame = seq<byte>

  /** `--frame` boundary, the part's Content-Type header and the blank line. */
  const PartHeader: seq<byte> := Ascii("--frame\r\nContent-Type: image/jpeg\r\n\r\n")

  /** One part of the stream: header, image bytes, trailer. */
  function Part(data: Frame, trailer: seq<byte>): (chunk: seq<byte>)
    ensures |chunk| == |PartHeader| + |data| + |trailer|
    ensures chunk[..|PartHeader|] == PartHeader
  {
    PartHeader + data + trailer
  }

  /** The image bytes of a chunk framed with a trailer of the given length. */
  function Unframe(chunk: seq<byte>, trailerLength: nat): (r: Option<Frame>)
    ensures r.Some? ==> |PartHeader| + |r.value| + trailerLength == |chunk|
  {
    if |chunk| >= |PartHeader| + trailerLength && chunk[..|PartHeader|] == PartHeader
    then Some(chunk[|PartHeader|..|chunk| - trailerLength])
    else None
  }

  /** Framing loses nothing: the image comes back out of its part. */
  lemma UnframePart(data: Frame, trailer: seq<byte>)
    ensures Unframe(Part(data, trailer), |trailer|) == Some(data)
  {
    var chunk := Part(data, trailer);
    assert chunk[|PartHeader|..|chunk| - |trailer|] == data;
  }

  /** Two parts with the same trailer are equal exactly when their images are. */
  lemma PartInjective(a: Frame, b: Frame, trailer: seq<byte>)
    ensures Part(a, trailer) == Part(b, trailer) <==> a == b
  {
    UnframePart(a, trailer);
    UnframePart(b, trailer);
  }
}
