/** The file-name logic of the VideoPlayer constructors: conversion to .mp4,
    the SCALED_ cache copy and the extracted .wav track. The file-system checks
    are parameters; only the names and which batch step runs are modelled. */
module Naming {
  import opened Text

  const ScaledPrefix: string := "SCALED_"

  /** The name the player works with after the conversion step: an .mp4 name is
      kept, any other name becomes its stem with ".mp4". */
  function Mp4Name(filename: string): (r: string)
    ensures EndsWith(r, ".mp4")
    ensures EndsWith(filename, ".mp4") ==> r == filename
    ensures !EndsWith(filename, ".mp4") ==> r == Stem(filename) + ".mp4" && '.' !in r[..|r| - 4]
  {
    if EndsWith(filename, ".mp4") then filename else Stem(filename) + ".mp4"
  }

  lemma Mp4NameIdempotent(filename: string)
    ensures Mp4Name(Mp4Name(filename)) == Mp4Name(filename)
  {
  }

  /** The audio adapter's track name: the stem of the original name with ".wav". */
  function WavName(filename: string): (r: string)
    ensures EndsWith(r, ".wav") && r[..|r| - 4] == Stem(filename)
    ensures '.' !in r[..|r| - 4]
  {
    Stem(filename) + ".wav"
  }

  /** Taking the first seven characters off a SCALED_ name gives the name back. */
  lemma {:induction false} StripScaled(f: string)
    ensures (ScaledPrefix + f)[7..] == f
    ensures |ScaledPrefix| == 7
  {
    assert |ScaledPrefix| == 7;
  }

  /** Outcome of the resolution branch: the working name, and which of the
      batch steps (rescale, deletion of a stale scaled copy) run. */
  datatype NameResolution = NameResolution(name: string, resizes: bool, removesStale: bool)

  /** The `resolution is not None` branch of the constructor, for a working
      name `mp4` and the answers of the file-system checks. */
  function ResolveScaled(mp4: string, scaledExists: bool, resolutionMatches: bool, doVideoResize: bool): (r: NameResolution)
    ensures r.name == ScaledPrefix + mp4
    ensures r.resizes <==> (!scaledExists && doVideoResize) || (scaledExists && !resolutionMatches)
    ensures r.removesStale <==> scaledExists && !resolutionMatches
  {
    StripScaled(mp4);
    var (name, resizes, removes) :=
      if !scaledExists then (mp4, doVideoResize, false)
      else
        var scaled := ScaledPrefix + mp4;
        if !resolutionMatches then (scaled[7..], true, true) else (scaled[7..], false, false);
    NameResolution(ScaledPrefix + name, resizes, removes)
  }

  /** The working file name of a player built from `filename`, with or without a
      requested resolution. */
  function WorkingName(filename: string, resolutionGiven: bool, scaledExists: bool, resolutionMatches: bool, doVideoResize: bool): (r: string)
    ensures resolutionGiven ==> r == ScaledPrefix + Mp4Name(filename)
    ensures !resolutionGiven ==> r == Mp4Name(filename)
    ensures EndsWith(r, ".mp4")
  {
    var mp4 := Mp4Name(filename);
    if resolutionGiven then ResolveScaled(mp4, scaledExists, resolutionMatches, doVideoResize).name else mp4
  }
}
