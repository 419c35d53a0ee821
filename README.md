# pygame video players: frame clock and sync model

This project models the frame clock and audio/video synchronisation of the
pygame video players in the repository:

- the three ffmpeg-pipe players `VideoPlayer/videoplayer.py`,
  `VideoPlayer/videoplayer2.py` and `VideoPlayer/videoplayer3.py`;
- the buffered player of `videoplayer.py`, with its `__parse_probe`;
- the in-memory movie of `pygmov.py`;
- the path and channel handling of `audio.py`.

Each player keeps these pieces of state:

- a fractional video cursor, in frames;
- the last shown frame index;
- a playing flag;
- a frame source, which is an ffmpeg pipe or a frame list;
- an audio adapter around a pygame `Sound`.

On every `update` the player reads the clock, moves the cursor by elapsed
seconds times fps, and reads or shows frames when the integer part of the
cursor has changed.

The modules follow the program's structure:

| module | file | models |
|---|---|---|
| `Common` | common.dfy | Python `int()` on floats, the `s[i:]` slice, the frame pipe as a `Pipe` value (seek offset, decoder frames, read position), `pygame.transform.scale` |
| `Text` | text.dfy | `str.split`, `str.join`, `split('.')[0]` (`Stem`), `replace(c, '')`, string concatenation |
| `Naming` | naming.dfy | the `.mp4` / `SCALED_` / `.wav` file-name logic of the constructors |
| `Probe` | probe.dfy | `int()` on probe output, the fps normalisation, the frame buffer size, `__parse_probe` |
| `Playback` | playback.dfy | the wave track, the `Sound`, the v2/v3 audio adapter, and the probed `Video` with its decoder |
| `Sync1` / `Player1` | player_v1.dfy | videoplayer.py: state transitions as functions (`Sync1`), then classes whose methods are proved equal to them (`Player1`) |
| `Sync2` / `Player2` | player_v2.dfy | videoplayer2.py, in the same two layers |
| `Sync3` / `Player3` | player_v3.dfy | videoplayer3.py, in the same two layers |
| `Buffered` | buffered.dfy | the chunked frame reader and the FIFO-buffered player of the root videoplayer.py |
| `Movie` | movie.dfy | pygmov.py's `Movie` class |
| `AudioPath` | audio_path.dfy | audio.py: `lts`, the `.mp3` path derivation, and the stereo de-interleave |

The model has no real I/O, so these become parameters:

- The ffmpeg decoder is a function from a seek offset in seconds to the frames
  it would emit.
- `pygame.time.get_ticks()` is the `now` argument of every update.
- The answers of the file-system checks (`os.path.isfile`) are boolean arguments.
- A frame is an opaque id. An image is either the initial fill or a frame shown
  at some size.

Where the sources differ from each other, each module keeps its own file's
behaviour:

- In v1, set_pos starts the new Sound. In v3 and in the buffered player, it does not.
- In v2 the audio is started without the mute check.
- In v3 the cursor is advanced before the frame check, and at most one frame is
  read per tick.
- The buffered player's `get_fps` does not divide by 1000.

Some behaviour of the code differs from what its comments suggest. The model
follows the code:

- `unpause` seeks to `last // fps`, a whole second. Playback resumes up to one
  second before the paused frame.
- v2's `set_pos` starts the new Sound but leaves the adapter's flag false, so the
  adapter can report "not playing" while the mixer plays.
- v3 has no first-call anchor: the first update counts the whole time since tick 0.

## Model

| member | source | states |
|---|---|---|
| Common.Trunc | VideoPlayer/videoplayer.py:388 | `int()` of a float truncates toward zero: the result is within one of the argument, on the side toward zero |
| Common.PySliceFrom | VideoPlayer/videoplayer.py:136 | `raw[index:]` is the suffix from `index`; it is empty past the end, counts from the end for negative indices, and is always a suffix of the input |
| Common.OpenPipe | VideoPlayer/videoplayer.py:443-463 | opening the frame pipe at a seek offset gives a fresh session at its first frame, holding exactly the decoder's frames for that offset |
| Common.PipeRead | VideoPlayer/videoplayer.py:465-470 | a read returns the next frame and moves on by one; at end of stream it returns nothing and leaves the pipe as it was |
| Common.PipeSkip | VideoPlayer/videoplayer.py:393-395 | `k` discarded reads move the read position by `k`, stopping at the end of the stream |
| Common.SkipFrames | VideoPlayer/videoplayer.py:393-395 | the skipping loop, proved to end in the state of `k` discarded reads |
| Common.ScaleTo | VideoPlayer/videoplayer.py:419-425 | scaling keeps the picture and changes only its size |
| Text.Split | VideoPlayer/videoplayer.py:209 | `str.split(d)` yields at least one part, and no part contains `d` |
| Text.JoinSplit | audio.py:19 | joining the parts of a split with the separator gives back the original string |
| Text.Stem | VideoPlayer/videoplayer.py:209 | `split('.')[0]` is the longest prefix without a dot; the name is unchanged when it has no dot |
| Text.RemoveChar | audio.py:20 | `replace('/', '')` removes every occurrence of the character and keeps every other character exactly as often as it occurs; it changes nothing when the character is absent |
| Text.RemoveCharAppend | audio.py:20 | removal works piece by piece on a concatenation, so the kept characters stay in their original order |
| Text.ConcatAppend | audio.py:8-12 | concatenating a list of strings distributes over list append |
| Text.ConcatLength | audio.py:8-12 | the concatenation's length is the sum of the parts' lengths |
| Naming.Mp4Name | VideoPlayer/videoplayer.py:204-209 | the working name always ends in `.mp4`: an `.mp4` name is kept, any other becomes its stem plus `.mp4` |
| Naming.Mp4NameIdempotent | VideoPlayer/videoplayer.py:204-209 | converting a name that was already converted changes nothing |
| Naming.WavName | VideoPlayer/videoplayer.py:72 | the adapter's track name is the stem of the video name followed by `.wav` |
| Naming.StripScaled | VideoPlayer/videoplayer.py:220-226 | dropping the first seven characters of a `SCALED_` name gives back the name |
| Naming.ResolveScaled | VideoPlayer/videoplayer.py:215-229 | with a resolution the name is always `SCALED_` plus the mp4 name; a rescale runs exactly when there is no cached copy and resizing is allowed, or the cached copy has the wrong size; a stale copy is deleted exactly in the wrong-size case |
| Naming.WorkingName | VideoPlayer/videoplayer2.py:113-138 | the final working name is the mp4 name, with the `SCALED_` prefix exactly when a resolution was requested |
| Probe.StripLeft | videoplayer.py:265 | `lstrip()` keeps a suffix of the text that is empty or starts with a non-space character |
| Probe.StripRight | videoplayer.py:265 | `rstrip()` keeps a prefix of the text that is empty or ends with a non-space character |
| Probe.Strip | videoplayer.py:265 | `strip()` is a contiguous piece of the text starting where `lstrip()` starts, and it is empty or begins and ends with a non-space character |
| Probe.StripLeftRemovesSpace | videoplayer.py:265 | every character `lstrip()` removes is white space, so the kept suffix is the longest one starting with a non-space |
| Probe.StripRightRemovesSpace | videoplayer.py:265 | every character `rstrip()` removes is white space, so the kept prefix is the longest one ending with a non-space |
| Probe.StripLeftSpaces | videoplayer.py:265 | leading white space makes no difference to `lstrip()` |
| Probe.StripRightSpaces | videoplayer.py:265 | trailing white space makes no difference to `rstrip()` |
| Probe.ParseInt | videoplayer.py:262-268 | `int(s)` succeeds only on text that is not blank after stripping |
| Probe.ParseIntCharacters | videoplayer.py:262-268 | `int(s)` rejects any text whose stripped form holds a character other than a digit, an underscore, or a leading sign |
| Probe.ParseIntPadded | videoplayer.py:262-268 | the decimal text of any integer, surrounded by any white space (such as the `\r` of a CRLF line), parses back to that integer |
| Probe.ShowNat | VideoPlayer/videoplayer.py:501 | the decimal text of a number is non-empty |
| Probe.ParseShowInt | VideoPlayer/videoplayer.py:501 | `int()` parses back the decimal text of any integer: `int(str(n)) == n` |
| Probe.NormaliseFps | VideoPlayer/videoplayer.py:501-502 | a numerator above 1000 is a milli-frame rate and is divided by 1000, which lands strictly between 1 and the numerator; otherwise it is the rate itself; the rate is positive exactly when the numerator is |
| Probe.FpsNumeratorOfRatio | VideoPlayer/videoplayer.py:501 | for probe output `num/den` the parsed value is the numerator `num` |
| Probe.FpsNumerator | VideoPlayer/videoplayer.py:501 | the numerator is `int()` of the probe output up to its first `/` (all of it when there is none), a prefix holding no `/`; `None` where `int()` raises |
| Probe.FrameBufferSize | VideoPlayer/videoplayer.py:236 | one RGB frame is width × height × 3 bytes: a multiple of 3, zero exactly for an empty dimension, never negative for a real size |
| Probe.ZeroZeroIsNotInt | videoplayer.py:264 | the `0/0` line of missing rates is not an integer, so it never sets the resolution |
| Probe.LineEffect | videoplayer.py:262-273 | a line sets the resolution exactly when it and the next line are both integers, and then to that pair |
| Probe.LineKinds | videoplayer.py:262-275 | an integer line not followed by one, a `0/0` line and an empty line change nothing; any other non-integer line without `/` sets the duration to the line with `\r` removed; an fps effect or an error needs a non-integer line, other than `0/0`, holding `/` |
| Probe.RatioLineEffect | videoplayer.py:269-270 | a non-integer line other than `0/0` holding one `/` sets fps to the ratio of its two halves read as floats, or raises ValueError when one is not a number, or ZeroDivisionError for a zero denominator |
| Probe.FpsLine | videoplayer.py:265-270 | a line `num/den` of digits sets fps to num / den when den is not zero, raises ZeroDivisionError for a zero denominator, and is skipped exactly when it is `0/0` |
| Probe.FpsLineOfCounts | videoplayer.py:269-270 | for the decimal texts of two counts a and b, with b not zero, the line `a/b` sets fps to a / b |
| Probe.Effects | videoplayer.py:261-275 | one effect per line, decided by the line and the one after it; an effect sets the resolution exactly when the line starts an integer pair, and then to that pair |
| Probe.ParseFloat | videoplayer.py:270 | `float()` on the text `int()` accepts gives the same value as a whole real, and raises where `int()` does |
| Probe.Apply | videoplayer.py:261-275 | one pass of the loop body escapes exactly on a raising line, with that error; otherwise it sets the one key the line names and keeps the others |
| Probe.RunFrom | videoplayer.py:261-275 | the loop from a line on fails exactly when a later line raises, and then with the error of the first raising line |
| Probe.ParseAll | videoplayer.py:255-275 | the parse fails exactly when some line raises, with the error of a raising line |
| Probe.ParseProbe | videoplayer.py:255-275 | the probe-parsing loop, proved equal to applying every line's effect in order |
| Probe.ResolutionUntouched | videoplayer.py:262-263 | when no line starts an integer pair, a successful parse leaves the resolution as it was |
| Probe.ResolutionIsLastPair | videoplayer.py:262-263 | the resolution after a successful parse is the last integer pair in the output: later pairs overwrite earlier ones |
| Probe.RunDropsNoEffect | videoplayer.py:264-275 | dropping a line with no effect leaves the outcome of the remaining lines unchanged |
| Probe.EffectsAfterDrop | videoplayer.py:262 | deleting a line after a non-integer line changes no other line's effect |
| Probe.IgnoredLineDropped | videoplayer.py:264-275 | a `0/0` or empty line, after a non-integer line, can be deleted from the output without changing the parse |
| Playback.AdapterInit | VideoPlayer/videoplayer2.py:18-39 | a new adapter holds the whole track in a silent Sound, with the flag false |
| Playback.AdapterPlay | VideoPlayer/videoplayer2.py:41-47 | play starts one more playback of the Sound and sets the flag, keeping the samples and the volume |
| Playback.AdapterStop | VideoPlayer/videoplayer2.py:49-55 | stop ends every playback of the Sound and clears the flag, keeping the samples and the volume |
| Playback.AdapterPlayStop | VideoPlayer/videoplayer3.py:37-51 | stop undoes any plays before it and is idempotent; play is not: a second play overlaps a second playback of the Sound with the first |
| Playback.Elapsed | VideoPlayer/videoplayer.py:381-382 | the delta is the difference of two tick readings in seconds, never negative on a clock that does not run backwards |
| Sync1.AudioInit | VideoPlayer/videoplayer.py:63-85 | the v1 adapter starts silent, stopped, unmuted, with the track's bytes |
| Sync1.AudioPlay | VideoPlayer/videoplayer.py:87-93 | play starts one more playback of the Sound and sets the flag; samples, volume and mute state are kept |
| Sync1.AudioStop | VideoPlayer/videoplayer.py:95-101 | stop ends every playback of the Sound and clears the flag; samples, volume and mute state are kept |
| Sync1.ByteOffset | VideoPlayer/videoplayer.py:134 | the seek offset is the seconds times the rate times the bytes of one frame (channels × width), so it never splits a frame, and it is non-negative for a non-negative position |
| Sync1.AudioSetPos | VideoPlayer/videoplayer.py:128-137 | the new Sound is the raw bytes from rate × seconds × channels × width on (empty past the end), at full volume, with exactly one playback; the mute flag is kept |
| Sync1.AudioSetPosNotCumulative | VideoPlayer/videoplayer.py:128-137 | a seek always slices the original bytes, so the last of two seeks alone decides the result |
| Sync1.AudioSetVolume | VideoPlayer/videoplayer.py:146-152 | set_volume changes only the volume, as pygame stores it: the level int(vol × 128) over 128, so a value in [0, 1] is rounded down to a step of 1/128, one of 1 or more becomes 1, one in (-1/128, 0) becomes 0, and one at or below -1/128 is ignored |
| Sync1.Initial | VideoPlayer/videoplayer.py:240-263 | the constructor leaves a stopped player at cursor 0 with last tick 0, the pipe opened at 0, the red fill and the resize target equal to the resolution; with sound the adapter is a fresh one holding the track (`AudioInit`), without sound there is none |
| Sync1.Play | VideoPlayer/videoplayer.py:270-275 | play sets only the video flag |
| Sync1.Stop | VideoPlayer/videoplayer.py:277-284 | stop clears the flag and stops the audio when there is sound; nothing else changes |
| Sync1.Pause | VideoPlayer/videoplayer.py:355-362 | pause is stop: the video flag cleared and every playback of the Sound ended |
| Sync1.StopIdempotent | VideoPlayer/videoplayer.py:277-284 | stopping or pausing twice is the same as once |
| Sync1.StopAfterPlay | VideoPlayer/videoplayer.py:270-284 | play followed by stop is the same as stop |
| Sync1.SetPosition | VideoPlayer/videoplayer.py:286-299 | a seek to second `index` reopens the pipe at `index`, sets the cursor to index × fps and `last` to its integer part, seeks the audio, and nothing else changes |
| Sync1.SetPositionForgets | VideoPlayer/videoplayer.py:286-299 | two seeks in a row end in the state of the second alone |
| Sync1.ResumeSecond | VideoPlayer/videoplayer.py:370 | `last // fps` is the whole second whose frames contain `last`: k × fps ≤ last < (k + 1) × fps |
| Sync1.Unpause | VideoPlayer/videoplayer.py:364-370 | unpause plays, reopens the pipe at the start of the paused frame's second and moves the cursor there, with `last` its truncation; the new cursor is at most one second of frames before the old `last`, and never after it; the adapter, when there is one, is seeked to that second (`AudioSetPos`); nothing else changes; defined where the source does not raise (see `UnpauseRaises`) |
| Sync1.UnpauseRaises | VideoPlayer/videoplayer.py:136 | with sound and a numerator above 1000, `last // fps` is a float and the slice of set_pos raises TypeError; with a zero rate the floor division raises; in both cases the model has no unpause |
| Sync1.Mute | VideoPlayer/videoplayer.py:320-327 | mute sets the volume to 0 and the mute flag, and does nothing without sound; only the adapter changes |
| Sync1.Unmute | VideoPlayer/videoplayer.py:329-336 | unmute sets the given volume, 1 by default, as pygame stores it (`AudioSetVolume`), and clears the flag; it does nothing without sound; only the adapter changes |
| Sync1.SetVolume | VideoPlayer/videoplayer.py:310-318 | with sound the adapter's volume becomes the given one as pygame stores it (`AudioSetVolume`); without sound nothing happens; only the adapter changes |
| Sync1.VolumeRoundTrip | VideoPlayer/videoplayer.py:301-336 | the getter returns the volume last set rounded down to a step of 1/128 when it lies in [0, 1], so less than 1/128 below it; 1 for a larger one, 0 for one in (-1/128, 0), and the old volume for one at or below -1/128; after mute it is 0 and after a plain unmute 1 |
| Sync1.VolumeSteps | VideoPlayer/videoplayer.py:301-318 | a multiple of 1/128 in [0, 1] reads back unchanged |
| Sync1.VolumeRoundedDown | VideoPlayer/videoplayer.py:301-318 | setting 0.3 reads back 38/128 = 0.296875 |
| Sync1.Volume | VideoPlayer/videoplayer.py:301-308 | the volume property is None (Python None) exactly without sound, and otherwise the Sound's volume |
| Sync1.IsMuted | VideoPlayer/videoplayer.py:338-345 | ismuted is the adapter's mute flag; it reads the adapter with no hasSound check, so without sound it raises AttributeError, which the precondition excludes |
| Sync1.UnmuteAfterMute | VideoPlayer/videoplayer.py:320-336 | unmute with a volume pygame accepts leaves no trace of an earlier mute, a negative one leaves the muted volume 0, and mute is idempotent |
| Sync1.MuteFlag | VideoPlayer/videoplayer.py:338-345 | ismuted holds after mute and is false after unmute |
| Sync1.Resize | VideoPlayer/videoplayer.py:427-434 | resize stores the size and turns on scaling; nothing else changes |
| Sync1.CatchUp | VideoPlayer/videoplayer.py:391-401 | the catch-up reads exactly `difference` frames (at least one) from the pipe and shows the last of them, scaled when resizing is on |
| Sync1.AutoStart | VideoPlayer/videoplayer.py:385-386 | the adapter is started exactly when it is neither playing nor muted; otherwise it is left as it was |
| Sync1.Advance | VideoPlayer/videoplayer.py:384-404 | the playing branch starts the audio if due, moves `last` to the cursor's index, reads only forward in the pipe, and advances the cursor by delta × fps; nothing else changes |
| Sync1.Update | VideoPlayer/videoplayer.py:372-405 | update keeps the state valid, records the tick, and never changes the playing flag; defined where the source does not raise (see `EndOvershootRaises`, `PlayingWithoutSoundRaises`) |
| Sync1.UpdateConsumesDifference | VideoPlayer/videoplayer.py:388-403 | when the index changed before the end, update reads exactly `difference` frames (at least one), shows the last of them, and moves `last` to the cursor's index |
| Sync1.UpdateIdle | VideoPlayer/videoplayer.py:384-388 | while stopped, or when the index did not change, nothing is read and the picture and `last` stay |
| Sync1.UpdateAtEnd | VideoPlayer/videoplayer.py:390 | past the last frame nothing is read and the picture stays, yet the player keeps playing |
| Sync1.UpdateCursor | VideoPlayer/videoplayer.py:377-382 | the cursor moves only while playing, by the seconds since the previous tick times fps; on the first call it does not move |
| Sync1.UpdateStartsAudio | VideoPlayer/videoplayer.py:384-386 | after update the audio plays exactly when it already did, or the video plays and it is not muted |
| Sync1.UpdateKeepsSynced | VideoPlayer/videoplayer.py:388-404 | with a clock that does not run backwards and a non-negative rate, update keeps `last` at or behind the cursor's index |
| Sync1.SeekThenUpdateReadsNothing | VideoPlayer/videoplayer.py:286-299 | right after a seek the cursor and `last` agree, so the next update reads nothing |
| Sync1.EndOvershootRaises | VideoPlayer/videoplayer.py:393-398 | a tick that moves the index two or more frames ahead with at most one frame left in the pipe makes the shown read come back empty, where frombuffer raises ValueError: update is not defined there |
| Sync1.EndOvershootExample | VideoPlayer/videoplayer.py:388-398 | the concrete case of 10 frames, 9 read, `last` 9 and cursor 11.0 is such a raise |
| Sync1.PlayingWithoutSoundRaises | VideoPlayer/videoplayer.py:385 | a playing player built without sound raises AttributeError in update, since the adapter is read before `hasSound` is tested |
| Player1.AudioAdapter.constructor | VideoPlayer/videoplayer.py:63-85 | the adapter's initial state is `AudioInit` of its track |
| Player1.AudioAdapter.Play | VideoPlayer/videoplayer.py:87-93 | in-place play, equal to `AudioPlay`: one more playback of the Sound |
| Player1.AudioAdapter.Stop | VideoPlayer/videoplayer.py:95-101 | in-place stop, equal to `AudioStop` |
| Player1.AudioAdapter.SetMuted | VideoPlayer/videoplayer.py:119-126 | the setter changes the mute flag only |
| Player1.AudioAdapter.SetPos | VideoPlayer/videoplayer.py:128-137 | in-place seek, equal to `AudioSetPos` |
| Player1.AudioAdapter.SetVolume | VideoPlayer/videoplayer.py:146-152 | in-place volume change, equal to `AudioSetVolume`; afterwards `get_volume` returns the value rounded down to a step of 1/128 when it lies in [0, 1] |
| Player1.AudioAdapter.GetVolume | VideoPlayer/videoplayer.py:139-144 | get_volume is the current Sound's volume |
| Player1.VideoPlayer.constructor | VideoPlayer/videoplayer.py:240-263 | the new player's state is `Initial` |
| Player1.VideoPlayer.Play | VideoPlayer/videoplayer.py:270-275 | in-place play, equal to the state function |
| Player1.VideoPlayer.Stop | VideoPlayer/videoplayer.py:277-284 | in-place stop, equal to the state function |
| Player1.VideoPlayer.Pause | VideoPlayer/videoplayer.py:355-362 | in-place pause, equal to the state function |
| Player1.VideoPlayer.SetPosition | VideoPlayer/videoplayer.py:286-299 | in-place seek, equal to the state function |
| Player1.VideoPlayer.Unpause | VideoPlayer/videoplayer.py:364-370 | in-place unpause, equal to the state function |
| Player1.VideoPlayer.SetVolume | VideoPlayer/videoplayer.py:310-318 | in-place volume change, equal to the state function |
| Player1.VideoPlayer.Volume | VideoPlayer/videoplayer.py:301-308 | the volume property of the player object equals `Sync1.Volume` of its state: None without sound |
| Player1.VideoPlayer.IsMuted | VideoPlayer/videoplayer.py:338-345 | ismuted of the player object equals `Sync1.IsMuted` of its state; without sound it raises AttributeError, which the precondition excludes |
| Player1.VideoPlayer.Mute | VideoPlayer/videoplayer.py:320-327 | in-place mute, equal to the state function |
| Player1.VideoPlayer.Unmute | VideoPlayer/videoplayer.py:329-336 | in-place unmute with the default volume 1, equal to the state function |
| Player1.VideoPlayer.Resize | VideoPlayer/videoplayer.py:427-434 | in-place resize, equal to the state function |
| Player1.VideoPlayer.CatchUpFrames | VideoPlayer/videoplayer.py:391-401 | the skip/read/scale block leaves the pipe and picture of the catch-up function and touches nothing else |
| Player1.VideoPlayer.StartAudio | VideoPlayer/videoplayer.py:385-386 | the audio start check, equal to `AutoStart` |
| Player1.VideoPlayer.Advance | VideoPlayer/videoplayer.py:384-404 | the playing branch of update, equal to `Sync1.Advance` |
| Player1.VideoPlayer.Update | VideoPlayer/videoplayer.py:372-405 | in-place update, equal to `Sync1.Update` |
| Sync2.AudioSetPos | VideoPlayer/videoplayer2.py:65-74 | the v2 seek slices the raw bytes at the byte offset (empty past the end) and starts the new Sound at full volume with one playback, but leaves the adapter flag as it was |
| Sync2.AudioSetPosNotCumulative | VideoPlayer/videoplayer2.py:65-74 | the last of two seeks alone decides the adapter |
| Sync2.SeekDesynchronisesFlag | VideoPlayer/videoplayer2.py:41-74 | a seek on a stopped adapter leaves the mixer playing while the flag says stopped; a later stop silences it |
| Sync2.Initial | VideoPlayer/videoplayer2.py:149-172 | the constructor leaves a stopped player at cursor 0 with last tick 0, the pipe opened at 0 and the red fill; with sound the adapter is a fresh one holding the track (`AdapterInit`), without sound there is none |
| Sync2.Play | VideoPlayer/videoplayer2.py:176-181 | play sets only the video flag |
| Sync2.Stop | VideoPlayer/videoplayer2.py:183-190 | stop clears the flag and, when there is sound, stops the adapter (`AdapterStop`); nothing else changes |
| Sync2.StopIdempotent | VideoPlayer/videoplayer2.py:176-190 | stop twice, or play then stop, is the same as one stop |
| Sync2.SetPosition | VideoPlayer/videoplayer2.py:192-205 | a seek reopens the pipe at `index`, sets the cursor to index × fps and `last` to its integer part, seeks the audio, and nothing else changes |
| Sync2.CatchUp | VideoPlayer/videoplayer2.py:226-236 | the catch-up reads exactly `difference` frames (at least one) and shows the last of them at the video size |
| Sync2.AutoStart | VideoPlayer/videoplayer2.py:219-221 | the adapter is started exactly when its flag is false; the result always has the flag set |
| Sync2.Update | VideoPlayer/videoplayer2.py:207-240 | update keeps the pipe valid, records the tick, and never changes the playing flag; defined where the source does not raise (see `EndOvershootRaises`, `PlayingWithoutSoundRaises`) |
| Sync2.UpdateConsumesDifference | VideoPlayer/videoplayer2.py:223-238 | an index change before the end reads exactly `difference` frames (at least one), shows the last, and moves `last` to the cursor's index |
| Sync2.UpdateStartsAudio | VideoPlayer/videoplayer2.py:219-221 | audio is started whenever the video plays and the flag is false; the mute state is not consulted |
| Sync2.UpdateCursor | VideoPlayer/videoplayer2.py:209-239 | the cursor moves only while playing, by the seconds since the previous tick times fps; on the first call it does not move |
| Sync2.SeekThenUpdateReadsNothing | VideoPlayer/videoplayer2.py:192-205 | right after a seek the next update reads nothing |
| Sync2.SeekWhileStoppedOverlaps | VideoPlayer/videoplayer2.py:65-74 | after stop, set_position, play and update, the Sound that set_pos started is played a second time by update: two playbacks overlap |
| Sync2.EndOvershootRaises | VideoPlayer/videoplayer2.py:226-233 | a tick that moves the index two or more frames ahead with at most one frame left makes the shown read empty, where frombuffer raises: update is not defined there |
| Sync2.EndOvershootExample | VideoPlayer/videoplayer2.py:223-233 | the concrete case of 10 frames, 9 read, `last` 9 and cursor 11.0 is such a raise |
| Sync2.PlayingWithoutSoundRaises | VideoPlayer/videoplayer2.py:220 | a playing player built without sound raises AttributeError in update |
| Player2.AudioAdapter.constructor | VideoPlayer/videoplayer2.py:18-39 | the adapter's initial state is `AdapterInit` |
| Player2.AudioAdapter.Play | VideoPlayer/videoplayer2.py:41-47 | in-place play, equal to `AdapterPlay` |
| Player2.AudioAdapter.Stop | VideoPlayer/videoplayer2.py:49-55 | in-place stop, equal to `AdapterStop` |
| Player2.AudioAdapter.SetPos | VideoPlayer/videoplayer2.py:65-74 | in-place seek, equal to `Sync2.AudioSetPos` |
| Player2.VideoPlayer.constructor | VideoPlayer/videoplayer2.py:149-172 | the new player's state is `Initial` |
| Player2.VideoPlayer.Play | VideoPlayer/videoplayer2.py:176-181 | in-place play, equal to the state function |
| Player2.VideoPlayer.Stop | VideoPlayer/videoplayer2.py:183-190 | in-place stop, equal to the state function |
| Player2.VideoPlayer.SetPosition | VideoPlayer/videoplayer2.py:192-205 | in-place seek, equal to the state function |
| Player2.VideoPlayer.CatchUpFrames | VideoPlayer/videoplayer2.py:226-236 | the skip/read/scale block leaves the catch-up function's pipe and picture and touches nothing else |
| Player2.VideoPlayer.Update | VideoPlayer/videoplayer2.py:207-240 | in-place update, equal to `Sync2.Update` |
| Sync3.AudioSetPos | VideoPlayer/videoplayer3.py:27-35 | the v3 seek builds a new Sound from the samples at seconds × rate, with no channel or width factor; nothing is started and the flag is kept |
| Sync3.AudioSetPosNotCumulative | VideoPlayer/videoplayer3.py:27-35 | the last of two seeks alone decides the adapter |
| Sync3.OpenAt | VideoPlayer/videoplayer3.py:168-185 | the pipe for frame `index` is opened at index / fps seconds, at its first frame |
| Sync3.OpenAtWholeSeconds | VideoPlayer/videoplayer3.py:176 | with an integer rate, opening at frame k × fps seeks to second k |
| Sync3.Initial | VideoPlayer/videoplayer3.py:67-109 | the constructor leaves a stopped player at cursor 0 with last tick 0, the pipe opened at second 0 holding the decoder's frames from the start, the red fill, and the adapter `AdapterInit`: the whole track in a fresh Sound at volume 1 with no playback and the flag false |
| Sync3.Play | VideoPlayer/videoplayer3.py:113-118 | play sets only the video flag |
| Sync3.Stop | VideoPlayer/videoplayer3.py:120-126 | stop clears the flag and stops the adapter unconditionally (`AdapterStop`); nothing else changes |
| Sync3.StopIdempotent | VideoPlayer/videoplayer3.py:113-126 | stop twice, or play then stop, is the same as one stop |
| Sync3.Shown | VideoPlayer/videoplayer3.py:154-166 | a frame is shown at the video's own size, because the resize resolution is that size |
| Sync3.ReadFrame | VideoPlayer/videoplayer3.py:157-166 | _read_frame re-checks the frame condition: when it holds, one frame is read and shown; otherwise nothing changes |
| Sync3.Update | VideoPlayer/videoplayer3.py:128-144 | update records the tick, keeps the flag, and leaves the cursor moved by elapsed seconds × fps while playing |
| Sync3.UpdateReadsAtMostOne | VideoPlayer/videoplayer3.py:133-143 | a tick reads at most one frame: exactly one when the advanced index differs from `last` before the end, and then `last` moves to that index; otherwise nothing is read |
| Sync3.UpdateShowsNextFrame | VideoPlayer/videoplayer3.py:133-143 | however far the cursor jumped, the picture is the pipe's next frame: there is no catch-up |
| Sync3.UpdateFreezesAtEnd | VideoPlayer/videoplayer3.py:138 | past the end `last` freezes, nothing is read, and the player keeps playing |
| Sync3.UpdateStartsAudio | VideoPlayer/videoplayer3.py:133-135 | audio is started whenever the video plays and the flag is false |
| Sync3.FirstUpdateCountsFromZero | VideoPlayer/videoplayer3.py:102-144 | the first update after construction and play counts all ticks since 0 |
| Player3.AudioAdapter.constructor | VideoPlayer/videoplayer3.py:14-25 | the adapter's initial state is `AdapterInit` |
| Player3.AudioAdapter.SetPos | VideoPlayer/videoplayer3.py:27-35 | in-place seek, equal to `Sync3.AudioSetPos` |
| Player3.AudioAdapter.Play | VideoPlayer/videoplayer3.py:37-43 | in-place play, equal to `AdapterPlay` |
| Player3.AudioAdapter.Stop | VideoPlayer/videoplayer3.py:45-51 | in-place stop, equal to `AdapterStop` |
| Player3.VideoPlayer.constructor | VideoPlayer/videoplayer3.py:67-109 | the new player's state is `Initial` |
| Player3.VideoPlayer.Play | VideoPlayer/videoplayer3.py:113-118 | in-place play, equal to the state function |
| Player3.VideoPlayer.Stop | VideoPlayer/videoplayer3.py:120-126 | in-place stop, equal to the state function |
| Player3.VideoPlayer.ReadFrame | VideoPlayer/videoplayer3.py:157-166 | the in-place read equals `Sync3.ReadFrame` and leaves the clock state alone |
| Player3.VideoPlayer.Update | VideoPlayer/videoplayer3.py:128-144 | in-place update, equal to `Sync3.Update` |
| Buffered.GetFps | videoplayer.py:173-184 | the rate is `int()` of the probe output up to its first `/` (all of it when there is none), a prefix holding no `/`; `None` where `int()` raises |
| Buffered.GetFpsIsRaw | videoplayer.py:173-184 | get_fps returns the raw numerator, so a milli-unit rate such as 29970 is used as fps without division — unlike the normalised rate |
| Buffered.Clamp | videoplayer.py:232-233 | a request running past the last frame is cut to the frames left; one within range is kept |
| Buffered.Frames | videoplayer.py:226-252 | a chunk read returns as many frames as the clamped count, none at or past the end, each the decoder's frame at that position |
| Buffered.ReadFrame | videoplayer.py:226-252 | the read loop, proved equal to `Frames` |
| Buffered.ChunkSeek | videoplayer.py:235-237 | a chunk starting at frame i is the decoder's output from the second t with t × fps = i, the whole second i / fps when fps divides i |
| Buffered.SuppliedReadable | videoplayer.py:226-252 | a decoder that supplies every chunk makes every read in range succeed |
| Buffered.ChunkCount | videoplayer.py:86-113 | a refill after `bc` frames brings the fetched count to min(bc + 25, total); the preload fetches min(200, total) |
| Buffered.AudioAdapter.constructor | videoplayer.py:12-21 | the adapter holds the whole track in a new Sound |
| Buffered.AudioAdapter.SetPos | videoplayer.py:23-31 | set_pos replaces the Sound with a fresh one (`NewSound`: volume 1, no playback) of the samples from seconds × rate on |
| Buffered.VideoPlayer.constructor | videoplayer.py:40-86 | the new player is playing at cursor 0, has the first 200 frames buffered, and satisfies the reserve invariant whenever the decoder supplies the video |
| Buffered.VideoPlayer.PreloadPattern | videoplayer.py:97-104 | the preload appends the frames from `start` to the FIFO and moves the buffer cursor to `end` |
| Buffered.VideoPlayer.BufferVideoFrames | videoplayer.py:107-113 | the refill appends the next 25 frames and advances the buffer cursor by 25 |
| Buffered.VideoPlayer.SetPos | videoplayer.py:88-95 | _set_pos moves the cursor to `index` and seeks the audio, whose Sound becomes a fresh one (`NewSound`) of the samples from index × rate on, leaving the buffer and `last` alone |
| Buffered.VideoPlayer.Play | videoplayer.py:138-142 | play sets the flag only |
| Buffered.VideoPlayer.ShowNext | videoplayer.py:129-133 | the pop shows the oldest buffered frame, records it as shown, and refills when fewer than 225 remain; it keeps the reserve |
| Buffered.VideoPlayer.Update | videoplayer.py:117-136 | update shows frames in exactly the order they were fetched (FIFO), at most one per tick, and keeps the steady-playback invariant on a monotone clock |
| Buffered.SteadyUpdateDefined | videoplayer.py:125-133 | during steady forward playback the pop always finds a frame and the refill can be read, so update never raises |
| Movie.Step | pygmov.py:47-49 | one blit moves the cursor by the increment and wraps it to 0 at the length, staying in range |
| Movie.PlayingWraps | pygmov.py:28-49 | while playing, after k blits the cursor is (cursor + k) mod length |
| Movie.StoppedStays | pygmov.py:31-49 | while stopped, the cursor never moves, however many blits |
| Movie.Transformed | pygmov.py:34-43 | apply_transform yields one frame per original frame, each the original rotated by rotation + 90 and then resized when a scale is given |
| Movie.TransformFrame | pygmov.py:37-43 | one frame of apply_transform: rotated by rotation + 90 degrees, and the rotated frame then resized by the scale when one is given |
| Movie.FrameAt | pygmov.py:56 | `movie[frame]` for a frame number in range is the frame at `frame mod length`: from the front for a non-negative number and from the end for a negative one |
| Movie.Movie.constructor | pygmov.py:15-27 | a new movie holds the frames and an untouched copy, with the cursor and increment at 0 |
| Movie.Movie.Play | pygmov.py:28-29 | play sets the increment to 1 and leaves the cursor |
| Movie.Movie.Stop | pygmov.py:31-32 | stop sets the increment to 0 and leaves the cursor |
| Movie.Movie.ApplyTransform | pygmov.py:34-43 | the in-place transform loops leave the transform of the untouched frames, so the result depends on the arguments only, and the cursor is kept |
| Movie.Movie.Blit | pygmov.py:44-49 | blit shows the frame under the cursor and steps the cursor |
| Movie.Movie.BlitFrame | pygmov.py:51-57 | blit_frame shows the requested frame and never moves the cursor |
| AudioPath.Lts | audio.py:8-12 | the accumulation loop yields the concatenation of the list |
| AudioPath.KeptEmpty | audio.py:19 | the filtered segment list is empty exactly when every part of the split is empty |
| AudioPath.Kept | audio.py:19 | the comprehension keeps at most one entry per segment, each a non-empty segment with `/` put back after it |
| AudioPath.KeptAppend | audio.py:19 | the kept segments of two lists of parts are those of each, in order |
| AudioPath.FromKept | audio.py:20-22 | with no kept segment there is no path (`s[-1]` raises); otherwise the path is the other kept segments, in order, followed by the last one's stem without slashes or dots |
| AudioPath.DerivedPath | audio.py:19-22 | the derived path exists exactly when the file path holds a character other than `/` |
| AudioPath.Mp3Name | audio.py:23-25 | the name written and read back exists exactly when the derived path does, and is that path followed by `.mp3` |
| AudioPath.KeptOfSlashes | audio.py:19-20 | the path derivation fails (`s[-1]` on an empty list) exactly when the file path is all slashes, the empty path included |
| AudioPath.LeadingSlashDropped | audio.py:19-22 | a leading slash makes no difference to the derived path: the result is relative |
| AudioPath.TrailingSlashIgnored | audio.py:19-22 | a trailing slash makes no difference to the derived path |
| AudioPath.DoubledSlashCollapses | audio.py:19-22 | a doubled slash derives the same path as a single one |
| AudioPath.DerivedPathOfSegments | audio.py:19-25 | for directories and a file name without slashes, the derived path is the same directories joined by `/` with the file's stem, and the mp3 name adds `.mp3` |
| AudioPath.Evens | audio.py:28 | `array[0:][::2]` holds the even-position samples, ⌈n/2⌉ of them |
| AudioPath.Odds | audio.py:29 | `array[1:][::2]` holds the odd-position samples, ⌊n/2⌋ of them |
| AudioPath.Interleave | audio.py:27-30 | interleaving two equal-length channels alternates their samples |
| AudioPath.Channels | audio.py:27-30 | the split fails exactly for an odd sample count; otherwise the two channels have half the samples each |
| AudioPath.ChannelsRoundTrip | audio.py:27-30 | splitting fails exactly for an odd sample count; otherwise interleaving the two channels gives back the samples |

## Left out

- Processes and files: spawning ffmpeg and ffprobe, their pipes, the wave and
  mp3 readers, `os.makedirs` and `os.remove` are not modelled. The decoder is a
  function parameter and the file-system checks are boolean arguments.
- Conversion, resize and audio extraction (`_convert_video`, `_resize_video`,
  `_extract_audio`): only the file names are modelled, together with whether
  the rescale runs and whether a stale scaled copy is deleted. When the
  conversion or the audio extraction runs is not modelled.
- `_get_video_resolution` and `_get_total_frames` are not modelled. Their
  results are fields of the probed video.
- pygame `Surface`, `frombuffer`, `sndarray`, `render`, `set_screen_position`,
  the rect and the display are not modelled. An image is the fill or a frame id
  at a size.
- `pygame.time.get_ticks()` is the `now` argument.
- Floating point is not modelled: fps, the cursor and the volume are exact reals,
  so rounding of `delta * fps` is not captured.
- Probe.ParseInt: non-ASCII decimal digits, which Python's `int()` also
  accepts, are not recognised. Signs, underscores between digits and the white
  space `str.isspace()` accepts are modelled.
- Probe.ParseFloat: only the text `int()` accepts parses. Decimal points and
  exponents are not modelled, so a duration or rate with a fractional part
  raises in the model. ffprobe's frame rates are ratios of integers, which are
  modelled exactly (`FpsLine`).
- The `print` calls (`__parse_probe`, the frame-buffer print in update,
  audio.py's prints) are output only and are not modelled.
- The `.frames` dump in the buffered constructor (videoplayer.py:61-65) writes a
  file of all frames that nothing reads back, so it is not modelled.
- `get_video_info` and `_get_video_data` only gather probe results and are not
  modelled.
- `GUIAdapter` is user-interface code on pygame images and is not modelled.
  The model assumes `bindGUI` is true, its default: with `bindGUI=False` the
  flag `_gui_is_enabled` is never set and every update raises AttributeError
  at VideoPlayer/videoplayer.py:408.
- test.py and time.py are manual test scripts and are not modelled.
- Threads: videoplayer.py imports `start_new_thread` but never calls it, and no
  player starts a thread, so nothing runs concurrently; every update is one
  step, driven by the caller.
- v3's constructor with a resolution argument uses an undefined name and raises,
  so Player3.VideoPlayer.constructor has no resolution parameter. v3's batch
  `_resize_video` is not modelled.
- Sync1.Update: defined only under `UpdateDefined`. It has no successor state
  where the source raises: at the end of the stream, when one tick moves the
  index two or more frames past what the pipe still holds, the shown read is
  empty and frombuffer raises ValueError (VideoPlayer/videoplayer.py:398;
  `EndOvershootRaises`); and a playing player built with `hasSound=False`
  raises AttributeError at VideoPlayer/videoplayer.py:385
  (`PlayingWithoutSoundRaises`). The end-of-stream raise ends any video whose
  last tick overshoots by two frames.
- Sync2.Update: the same two raises are excluded, at
  VideoPlayer/videoplayer2.py:233 and VideoPlayer/videoplayer2.py:220.
- Sync3.Update: defined only when a read the frame check asks for returns a
  frame; an empty read raises in frombuffer.
- Sync1.Unpause: defined only under `CanUnpause`. With sound and a probe
  numerator above 1000 (such as 30000/1001) `last // fps` is a float, and the
  slice at VideoPlayer/videoplayer.py:136 raises TypeError; with a zero rate
  the floor division raises ZeroDivisionError (`UnpauseRaises`).
- Sync1.SetPosition: the seek argument is an integer number of seconds. A float
  argument raises TypeError in set_pos when there is sound, and is not modelled.
- Sync1.AudioSetVolume: pygame converts the volume to a single-precision C
  float before computing the level int(vol × 128); that rounding, and the
  overflow of the C int for huge volumes, are not modelled. The 1/128 steps are.
- Sync1.IsMuted: requires sound. Without it the property raises AttributeError,
  because `_audio` is never set; the model has no value there.
- Sync3.Initial: requires a non-zero frame rate, since `_open_frame_pipe`
  divides by it and raises ZeroDivisionError otherwise.
- Buffered.Readable: `_read_frame` is modelled only where it does not raise:
  a zero rate raises ZeroDivisionError at videoplayer.py:237, and a decoder
  that emits fewer frames than asked for makes frombuffer raise on the empty
  read at videoplayer.py:250.
- Sync3.AudioSetPos: the previous Sound is not stopped in the source, and the
  model does not track it further: only the adapter's current Sound is modelled.
- AudioPath.Channels: an odd sample count gives `None`, standing for numpy's
  rejection of rows of unequal length.
- videoplayer2.py's file-name and fps code is the same as videoplayer.py's, so
  both use the `Naming` and `Probe` functions. Naming.WorkingName cites v2 for
  that reason.
- Buffered.VideoPlayer.Update: requires `UpdateDefined`, so the IndexError of
  `self._frame_buffer[0]` on an empty buffer (videoplayer.py:129) is not
  modelled. It is reachable: after `_set_pos` (videoplayer.py:88-95) moves the
  cursor backwards, the ticks pop again for frame numbers already shown, and
  once the refills have reached the last frame nothing replaces them, so the
  buffer runs dry before the cursor reaches the end. `SteadyUpdateDefined` shows only that steady
  forward playback never reaches it.
- Buffered.VideoPlayer.SetPos: the steady-playback invariant is not claimed
  after a seek, because `_set_pos` moves the cursor without touching the buffer.
- Scaling in the buffered player happens at display time (render and scale,
  videoplayer.py:149-156) and is not modelled.
- The `reverse` field of pygmov's Movie is never used and is not modelled.
- Movie.Movie.BlitFrame: a frame number above the length reaches the undefined
  `warnings` and raises, one equal to the length is out of range, and one below
  minus the length passes the guard (pygmov.py:52 lets every negative number
  through) and raises IndexError at `self.movie[frame]` (pygmov.py:56). The
  precondition excludes all three.
- Movie.Movie.Blit: requires a non-empty movie, since indexing an empty list
  raises.
- Player1.VideoPlayer.Update: the last tick is recorded before the playing
  branch rather than after it. Nothing in the branch reads it, so the final
  state is the same.
- The path constants (`FFMPEG_BINARY`, `_FFPATH`) and the thread count are
  configuration and are not modelled.
