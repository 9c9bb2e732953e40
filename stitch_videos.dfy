/**
 * The placeholder video stitcher (`stitchVideosFlow`): it refuses an empty list and
 * otherwise hands back the first video unchanged.
 */
module StitchVideos {
  import opened Wrappers

  const NoVideosMessage := "No videos provided to stitch."

  /** Stitches the videos given as data URIs; the error carries the thrown message. */
  function Stitch(videoDataUris: seq<string>): (r: Result<string, string>)
    ensures r.Err? <==> videoDataUris == []
    ensures r.Err? ==> r.error == NoVideosMessage
    ensures r.Ok? ==> r.value in videoDataUris && r.value == videoDataUris[0]
  {
    if |videoDataUris| == 0 then Err(NoVideosMessage)
    else Ok(videoDataUris[0])
  }

  /** Only the first video matters: lists that agree on it stitch to the same result. */
  lemma StitchIgnoresRest(a: seq<string>, b: seq<string>)
    requires a != [] && b != [] && a[0] == b[0]
    ensures Stitch(a) == Stitch(b) == Ok(a[0])
  {
  }
}
