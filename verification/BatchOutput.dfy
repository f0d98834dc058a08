/** The capped in-memory output buffer of one execution. */
module BatchOutput {
  import opened BatchTypes

  const MAX_OUTPUT := 65536

  /** All bytes of the stream, in order. */
  function Flatten(chunks: seq<seq<Byte>>): seq<Byte> {
    if chunks == [] then [] else Flatten(chunks[..|chunks| - 1]) + chunks[|chunks| - 1]
  }

  function Capped(stream: seq<Byte>): seq<Byte> {
    if |stream| <= 65536 then stream else stream[..65536]
  }

  /** appendOutput: extend the buffer up to the cap; flag the result once bytes are dropped. */
  function Append(r: RunResult, chunk: seq<Byte>): RunResult
    requires |r.output| <= MAX_OUTPUT
  {
    if r.truncated then r
    else
      var room := MAX_OUTPUT - |r.output|;
      if |chunk| > room then r.(output := r.output + chunk[..room], truncated := true)
      else r.(output := r.output + chunk)
  }

  /** The buffer holds the capped stream, and the flag says whether anything was cut. */
  ghost predicate Holds(r: RunResult, stream: seq<Byte>) {
    r.output == Capped(stream) && (r.truncated <==> |stream| > 65536)
  }

  /** Appending a chunk to the buffer of a stream gives the buffer of the longer stream. */
  lemma AppendHolds(r: RunResult, stream: seq<Byte>, chunk: seq<Byte>)
    requires Holds(r, stream)
    ensures Holds(Append(r, chunk), stream + chunk)
  {
    if !r.truncated && |chunk| > MAX_OUTPUT - |r.output| {
      var room := MAX_OUTPUT - |r.output|;
      assert (stream + chunk)[..MAX_OUTPUT] == stream + chunk[..room];
    }
    if r.truncated {
      assert (stream + chunk)[..MAX_OUTPUT] == stream[..MAX_OUTPUT];
    }
  }

  lemma FlattenSnoc(chunks: seq<seq<Byte>>, chunk: seq<Byte>)
    ensures Flatten(chunks + [chunk]) == Flatten(chunks) + chunk
  {
    assert (chunks + [chunk])[..|chunks|] == chunks;
  }
}
