# Signal Forge core, modelled in Dafny

Signal Forge is a digital audio workstation: a C++ audio engine and desktop shell, plus a React dashboard for subscriptions, installers, projects, collaboration and AI mastering. This project models the parts of both that carry precise sequential rules, and proves what those rules promise.

**Audio engine**
- `LockFreeAudioFifo`: the fixed-capacity sample ring buffer that keeps one slot free. It is a class over an `array`, with partial write and read, clear, and the available/free counts.
- `DiskWriting`: the recorder's channel interleave and de-interleave, and its recording state.
- `Tracks` and `Mixing`: a track's gain clamp and mute/solo flags, and the mixer's track list with its solo/mute selection.
- `ProjectManagement`: the project tree the engine saves and loads, with defaults, the string form every property takes in the saved XML, and a round trip through that file.

**Desktop shell**
- `Transport`: the transport bar's play, stop, record and loop flags. Time is kept in tenths of a second, and the clock text is `mm:ss:mmm`.
- `TrackViews`: the track view's drag-and-drop filtering and track-index assignment.
- `Api`: the API manager's authentication state and its pending-operation poller. Each asynchronous reply is an explicit event method.

**Dashboard**
- Page routing: `Pages`, `LayoutPage`.
- Projects and collaboration: `ProjectsPage`, `PresenceIndicator`, `CollaborativeControls`.
- Subscriptions, installers and content: `AdminPage`, `DownloadsPage`, `DashboardPage`, `FileManagement`, `KnowledgeBase`, `AnalyticsPage`.
- Mastering: `Stems`, `StemMasteringWorkflow`, `StemMasteringBatch`, `PresetManager`, `MasteringResults`.
- Mixing: `RealTimeAnalyzer`, `LiveFeedbackCard`, `MixerView`.

**How the model is built**
- The remote store is a sequence or map of records, passed in and returned.
- Callbacks and timers become explicit event methods.
- Helper modules support the rest: `Wrappers` (Option), `Seqs` (filter, find, sort, take, sum), `Counting` (tallies), `Text` (ASCII case mapping, substrings, decimal printing and parsing), `Numerals` (how JUCE prints a number and reads a string as an integer or a real) and `Calendar` (a proleptic Gregorian date with day and month arithmetic in the manner of date-fns).

## Model

| member | source | states |
|---|---|---|
| LockFreeAudioFifo.Wrap | Core/AudioEngine/LockFreeAudioFIFO.h:37 | a position in `[0, 2n)` folds back into a slot of the ring `[0, n)`, either unchanged or less `n` |
| LockFreeAudioFifo.ModAsWrap | Core/AudioEngine/LockFreeAudioFIFO.h:37 | the C++ `% bufferSize` on the non-negative positions the ring produces equals that single fold |
| LockFreeAudioFifo.Advance | Core/AudioEngine/LockFreeAudioFIFO.h:37 | `(p + 1) % bufferSize` is the slot after `p`, wrapping to 0 after the last one |
| LockFreeAudioFifo.Distance | Core/AudioEngine/LockFreeAudioFIFO.h:69-74 | the forward distance from the read slot to the write slot is in `[0, n)` and, walked from the read slot, lands on the write slot |
| LockFreeAudioFifo.DistanceOf | Core/AudioEngine/LockFreeAudioFIFO.h:69-74 | walking `d < n` slots from `r` gives a write slot whose distance from `r` is exactly `d` |
| LockFreeAudioFifo.WrapShift | Core/AudioEngine/LockFreeAudioFIFO.h:34-38 | advancing a pointer by `a` slots and then by `c` more is advancing it by `a + c` slots |
| LockFreeAudioFifo.RingAccounting | Core/AudioEngine/LockFreeAudioFIFO.h:69-82 | available samples are the read-to-write distance, free space is `bufferSize - 1` minus it, the FIFO is empty iff the pointers coincide and full iff the write pointer is one slot behind the read pointer |
| LockFreeAudioFifo.Transfer | Core/AudioEngine/LockFreeAudioFIFO.h:27-32 | a transfer moves nothing when there is no room (or nothing to read), and otherwise `min(numSamples, room)`, never more than the room |
| LockFreeAudioFifo.StoredAppend | Core/AudioEngine/LockFreeAudioFIFO.h:34-38 | storing a sample in the slot after the stored run makes the run one sample longer, with that sample last |
| LockFreeAudioFifo.StoredDrop | Core/AudioEngine/LockFreeAudioFIFO.h:58-62 | consuming the first `k` stored samples leaves the rest stored from the slot `k` places further on |
| LockFreeAudioFifo.Fifo.constructor | Core/AudioEngine/LockFreeAudioFIFO.h:11-18 | a new FIFO of `size` slots is empty with both pointers at 0 |
| LockFreeAudioFifo.Fifo.GetNumAvailableSamples | Core/AudioEngine/LockFreeAudioFIFO.h:69-74 | the count is the number of samples stored, always below `bufferSize` |
| LockFreeAudioFifo.Fifo.GetFreeSpace | Core/AudioEngine/LockFreeAudioFIFO.h:77-82 | the free space is `bufferSize - 1` less the samples stored, so one slot always stays empty and free space is 0 exactly when `bufferSize - 1` samples are stored |
| LockFreeAudioFifo.Fifo.Write | Core/AudioEngine/LockFreeAudioFIFO.h:21-42 | returns `min(numSamples, freeSpace)` (0 when full), appends exactly the first that many samples of `data` after the stored ones and never moves the read pointer |
| LockFreeAudioFifo.Fifo.CopyIn | Core/AudioEngine/LockFreeAudioFIFO.h:34-38 | the write loop appends the first `count` samples of `data` in order, wrapping at the end of the buffer |
| LockFreeAudioFifo.Fifo.Read | Core/AudioEngine/LockFreeAudioFIFO.h:45-66 | returns `min(numSamples, available)` (0 when empty), the oldest that many samples arrive in order at the front of `dest`, the rest of `dest` and the write pointer are untouched, and exactly those samples leave the FIFO |
| LockFreeAudioFifo.Fifo.CopyOut | Core/AudioEngine/LockFreeAudioFIFO.h:58-62 | the read loop copies the oldest `count` samples into `dest[..count]` in order and drops them from the FIFO |
| LockFreeAudioFifo.Fifo.Clear | Core/AudioEngine/LockFreeAudioFIFO.h:85-89 | after `clear` the FIFO holds nothing and both pointers are at 0, so all `bufferSize - 1` slots are free |
| LockFreeAudioFifo.SingleSampleScenario | tests/LockFreeAudioFIFOTest.cpp:14-21 | on a ten-slot FIFO one sample written is one sample available, reading it returns the same value and leaves nothing available |
| LockFreeAudioFifo.FillAndDrainScenario | tests/LockFreeAudioFIFOTest.cpp:24-41 | after one sample has passed through, nine samples (the full usable capacity) are accepted across the wrap point and read back in the order written, leaving nothing available |
| DiskWriting.Frame | Core/AudioEngine/DiskWriter.cpp:25-28 | frame `s` holds sample `s` of each channel, channel by channel |
| DiskWriting.Interleaved | Core/AudioEngine/DiskWriter.cpp:22-29 | the interleaved block of `numSamples` frames has length `numSamples * numChannels` |
| DiskWriting.InterleavedAt | Core/AudioEngine/DiskWriter.cpp:27 | sample `s` of channel `c` sits at index `s * numChannels + c` of the interleaved block, which is in range |
| DiskWriting.Deinterleaved | Core/AudioEngine/DiskWriter.cpp:147-154 | de-interleaving `numFrames` frames gives one buffer of `numFrames` samples per channel |
| DiskWriting.DeinterleaveInterleave | Core/AudioEngine/DiskWriter.cpp:27 | de-interleaving an interleaved block of whole frames gives back exactly the original channels |
| DiskWriting.Interleave | Core/AudioEngine/DiskWriter.cpp:22-29 | the nested interleaving loop of `pushNextBufferToFIFO` produces the interleaved block, `out[s * C + c] == in[c][s]` |
| DiskWriting.Deinterleave | Core/AudioEngine/DiskWriter.cpp:140-154 | the de-interleaving loop of `run` takes `samplesRead / numChannels` whole frames, leaving fewer than one frame over, and sets `ch[c][i] == buf[i * C + c]` |
| DiskWriting.BlockRequest | Core/AudioEngine/DiskWriter.cpp:134 | the corrected read request is positive, at most 1024, and for 1 to 1024 channels a multiple of the channel count less than one frame short of 1024 |
| DiskWriting.WholeFramesRead | Core/AudioEngine/DiskWriter.cpp:134-140 | with the corrected request, a FIFO holding whole frames hands out a positive whole number of frames whenever it holds anything |
| DiskWriting.FrameCount | Core/AudioEngine/DiskWriter.cpp:140 | when the samples read are a whole number of frames, the frame count times the channel count is all of them |
| DiskWriting.PartialFrameDropped | Core/AudioEngine/DiskWriter.cpp:134-155 | as written, three channels with 682 frames waiting read 1024 samples but write 1023; the next block then starts on channel 1 of frame 341, so its channel 0 carries a channel-1 sample |
| DiskWriting.DiskWriter.constructor | Core/AudioEngine/DiskWriter.cpp:7-10 | a new writer holds the FIFO it was given and is idle: not recording, no file, no writer, no thread |
| DiskWriting.DiskWriter.PushNextBufferToFIFO | Core/AudioEngine/DiskWriter.cpp:17-37 | nothing is pushed unless recording is on and a FIFO is present; otherwise the interleaved block is written to the FIFO, as much as fits |
| DiskWriting.DiskWriter.DrainBlock | Core/AudioEngine/DiskWriter.cpp:130-157 | one pass of the disk loop with the corrected request: the samples read leave the FIFO, and with a writer and a positive channel count the whole frames among them become the de-interleaved block, with none lost when the FIFO holds whole frames |
| DiskWriting.DiskWriter.StopRecording | Core/AudioEngine/DiskWriter.cpp:84-119 | recording and the thread end; a running recording also releases the writer and the file, while a stopped one only tells a leftover thread to exit; the format is untouched |
| DiskWriting.DiskWriter.StartRecording | Core/AudioEngine/DiskWriter.cpp:39-82 | the FIFO is emptied, the file, rate and channel count are stored, the bit depth is 32 whatever was asked, and recording stays on (with a writer and a running thread) only if the stream opened and the writer was created |
| Tracks.Limit | Core/AudioEngine/Track.cpp:74 | `jlimit(lo, hi, v)` lies in `[lo, hi]`, is `v` when `v` is already in range and the nearer bound otherwise |
| Tracks.LimitIdempotent | Core/AudioEngine/Track.cpp:74 | limiting an already limited value changes nothing, so storing the stored gain again leaves it unchanged |
| Tracks.Track.constructor | Core/AudioEngine/Track.h:45-47 | a new track has the given name, gain 1, and is neither muted nor soloed |
| Tracks.Track.PrepareToPlay | Core/AudioEngine/Track.cpp:17-22 | preparing a track leaves its gain, mute and solo controls untouched |
| Tracks.Track.SetGain | Core/AudioEngine/Track.cpp:72-75 | the stored gain is `min(2, max(0, g))`, so it always lies in `[0, 2]` |
| Tracks.Track.SetMuted | Core/AudioEngine/Track.cpp:77-80 | only the mute flag changes, to the value given |
| Tracks.Track.SetSolo | Core/AudioEngine/Track.cpp:82-85 | only the solo flag changes, to the value given |
| Tracks.Track.GetNextAudioBlock | Core/AudioEngine/Track.cpp:31-57 | the mute and gain stages: a muted track zeroes the active region of every channel and returns before any other stage; an unmuted one scales every sample of the region of the already rendered buffer by the gain (a gain of exactly 1 changes nothing), and the gain stage leaves samples outside the region as they were |
| Tracks.ClearRegion | Core/AudioEngine/Track.cpp:35 | clearing the active region zeroes exactly that region of every channel |
| Tracks.ApplyGain | Core/AudioEngine/Track.cpp:53-54 | applying gain to one channel scales exactly that channel's region |
| Mixing.Selected | Core/AudioEngine/MultiTrackMixer.cpp:52-56 | the tracks that pass the solo/mute rule, a sub-list of the tracks |
| Mixing.SelectedIff | Core/AudioEngine/MultiTrackMixer.cpp:55 | a track is summed iff it is in the list, not muted, and either nothing is soloed or it is soloed |
| Mixing.NoSoloPlaysUnmuted | Core/AudioEngine/MultiTrackMixer.cpp:41-56 | with no track soloed, exactly the unmuted tracks are summed |
| Mixing.SoloSilencesOthers | Core/AudioEngine/MultiTrackMixer.cpp:41-56 | with some track soloed, exactly the soloed tracks that are not muted are summed |
| Mixing.MultiTrackMixer.constructor | Core/AudioEngine/MultiTrackMixer.h:31-34 | a new mixer has no tracks, is stopped, and knows no block size or sample rate |
| Mixing.MultiTrackMixer.AddTrack | Core/AudioEngine/MultiTrackMixer.cpp:72-81 | the new track (unit gain, unmuted, unsoloed) is appended and its index, the old track count, returned; it is prepared iff a sample rate above 0 is known |
| Mixing.MultiTrackMixer.RemoveTrack | Core/AudioEngine/MultiTrackMixer.cpp:83-89 | an index outside the list changes nothing; an index inside it removes exactly that track and keeps the others in order |
| Mixing.MultiTrackMixer.GetTrack | Core/AudioEngine/MultiTrackMixer.cpp:91-96 | the result is null iff the index is outside `[0, count)`, and otherwise the track at that index |
| Mixing.MultiTrackMixer.GetNumTracks | Core/AudioEngine/MultiTrackMixer.h:20 | the count is the length of the track list |
| Mixing.MultiTrackMixer.Play | Core/AudioEngine/MultiTrackMixer.cpp:98-101 | the playing flag becomes true and nothing else changes |
| Mixing.MultiTrackMixer.Stop | Core/AudioEngine/MultiTrackMixer.cpp:103-106 | the playing flag becomes false and nothing else changes |
| Mixing.MultiTrackMixer.PrepareToPlay | Core/AudioEngine/MultiTrackMixer.cpp:12-23 | the block size and rate are stored and every track is prepared with its controls unchanged |
| Mixing.MultiTrackMixer.GetNextAudioBlock | Core/AudioEngine/MultiTrackMixer.cpp:33-70 | when stopped or empty nothing is summed; otherwise exactly the tracks passing the solo/mute rule are summed, in list order |
| ProjectManagement.ChildWithName | Core/AudioEngine/ProjectManager.cpp:111 | the child found is one of the children with the type asked for, and none is found only when no child has that type |
| ProjectManagement.ProjectTree | Core/AudioEngine/ProjectManager.cpp:72-96 | the saved tree has root type "SignalForgeProject", version "1.0" and the project name, and one `Tracks` child holding one `Track` node per track, in index order, with its name, gain, mute and solo |
| ProjectManagement.TracksFrom | Core/AudioEngine/ProjectManager.cpp:114-129 | a list of children yields at most one track per child |
| ProjectManagement.TracksFromTrackChildren | Core/AudioEngine/ProjectManager.cpp:114-129 | the tracks read back are exactly the `Track` children, read one by one in order; children of any other type are skipped |
| ProjectManagement.ParseDefaults | Core/AudioEngine/ProjectManager.cpp:108-126 | missing fields read back as name "Untitled Project" for the project, and name "Track", gain 1, not muted, not soloed for a track |
| ProjectManagement.Snapshot | Core/AudioEngine/ProjectManager.cpp:80-91 | the recorded state has one entry per engine track, in index order, holding that track's name, gain, mute and solo |
| ProjectManagement.TracksFromTrackTrees | Core/AudioEngine/ProjectManager.cpp:84-90 | in memory, before the tree is written out: reading back the typed `Track` nodes built for tracks whose gains are in `[0, 2]` gives exactly those tracks |
| ProjectManagement.SaveLoadRoundTrip | Core/AudioEngine/ProjectManager.cpp:72-133 | in memory, before the tree is written out: parsing the tree `createProjectXML` builds is accepted and reproduces the project name and the track list, given gains already clamped to `[0, 2]` |
| ProjectManagement.XmlForm | Core/AudioEngine/ProjectManager.cpp:43 | the tree `fromXml` rebuilds from the text written for a tree has the same types, property keys and children, and every property is the string it was printed as |
| ProjectManagement.TextConversions | Core/AudioEngine/ProjectManager.cpp:119-126 | a property read back from its printed text as the kind it was written as gives the value written: a name, a flag printed as "1" or "0", a gain with at most 14 decimals |
| ProjectManagement.XmlTrackRoundTrip | Core/AudioEngine/ProjectManager.cpp:84-127 | a `Track` node written to the file and read back gives the track, for a gain in `[0, 2]` with at most 14 decimals |
| ProjectManagement.TracksFromReadsAs | Core/AudioEngine/ProjectManager.cpp:114-129 | children that are all `Track` nodes, each reading as a given track, yield exactly those tracks in order |
| ProjectManagement.TracksFromXmlTrackTrees | Core/AudioEngine/ProjectManager.cpp:114-129 | reading back the `Track` nodes of a written file gives exactly the tracks written, for gains in `[0, 2]` with at most 14 decimals |
| ProjectManagement.FileRoundTrip | Core/AudioEngine/ProjectManager.cpp:72-133 | save then load through the file's text: the tree `fromXml` rebuilds has the project type and parses back to the project name and the track list, for gains in `[0, 2]` with at most 14 decimals |
| Numerals.DigitRun | Core/AudioEngine/ProjectManager.cpp:124 | the digits a numeral starts with: the longest prefix made only of digits |
| Numerals.NumberText | Core/AudioEngine/ProjectManager.cpp:86 | a number's printed text starts with a minus sign exactly when the number is negative, and otherwise with a digit |
| Numerals.IntValue | Core/AudioEngine/ProjectManager.cpp:125-126 | `getIntValue`: a negative result only after a leading minus sign (past white space), and text with no digit where the numeral should start reads as 0 |
| Numerals.RealValue | Core/AudioEngine/ProjectManager.cpp:124 | `getDoubleValue`: a negative result only after a leading minus sign (past white space), and text with neither a digit nor a point where the numeral should start, after an optional sign, reads as 0 |
| Numerals.NumberTextRoundTrip | Core/AudioEngine/ProjectManager.cpp:124 | a number with at most 14 decimals, printed, reads back through `getDoubleValue` as itself |
| Numerals.IntTextRoundTrip | Core/AudioEngine/ProjectManager.cpp:125-126 | an integer printed with its sign reads back through `getIntValue` as itself; this decides how a stored flag reads |
| ProjectManagement.ParsedGainsInRange | Core/AudioEngine/ProjectManager.cpp:124 | whatever the file holds, every gain read back lies in `[0, 2]`, because it passes through `setGain` |
| ProjectManagement.ProjectManager.constructor | Core/AudioEngine/ProjectManager.h:30-32 | a new manager is bound to its engine, with no file, the default name and nothing unsaved |
| ProjectManagement.ProjectManager.RemoveAllTracks | Core/AudioEngine/ProjectManager.cpp:104-105 | the `while` loop removing track 0 leaves the engine with no tracks |
| ProjectManagement.ProjectManager.CreateProjectXML | Core/AudioEngine/ProjectManager.cpp:72-96 | the loop builds the saved tree of the current name and the engine's tracks |
| ProjectManagement.ProjectManager.ParseProjectXML | Core/AudioEngine/ProjectManager.cpp:98-133 | a root of another type returns false and changes neither tracks nor name; otherwise it returns true, every old track is gone and the name and tracks are those read from the tree |
| ProjectManagement.ProjectManager.AddTracksFrom | Core/AudioEngine/ProjectManager.cpp:114-129 | the loop over the `Tracks` children, starting from an empty engine, leaves it holding exactly the tracks read from those children |
| ProjectManagement.ReadTrack | Core/AudioEngine/ProjectManager.cpp:119-126 | a track read from a node has a gain clamped to [0, 2]; a missing name reads as "Track", a missing gain as 1, and a missing mute or solo flag as off |
| ProjectManagement.AsText | Core/AudioEngine/ProjectManager.cpp:108-119 | a property read as text is the text itself, "1" or "0" for a flag, and the decimal numeral of a number |
| ProjectManagement.AsReal | Core/AudioEngine/ProjectManager.cpp:124 | a property read as a number is the number itself, 1 or 0 for a flag, and the value of the numeral that text starts with |
| ProjectManagement.AsBoolCases | Core/AudioEngine/ProjectManager.cpp:125-126 | a property read as a bool is a flag itself, true for a number iff it is not 0, and true for text iff its integer value is not 0 or it trims to "true" or "yes" in any letter case |
| ProjectManagement.ProjectManager.AddTrackFrom | Core/AudioEngine/ProjectManager.cpp:116-127 | one `Track` child appends one engine track carrying the fields read from it (defaults for missing ones, gain clamped) |
| ProjectManagement.ProjectManager.SaveProject | Core/AudioEngine/ProjectManager.cpp:13-32 | the tree written is the project's tree; success is the write's success, and only a success records the file and marks the project saved |
| ProjectManagement.ProjectManager.LoadProject | Core/AudioEngine/ProjectManager.cpp:34-55 | success iff the file exists, its text is a valid tree and the root has the project type; only then are the file recorded, the project marked saved and the name and tracks replaced by those read from the tree `fromXml` gives, whose properties are strings |
| ProjectManagement.ProjectManager.NewProject | Core/AudioEngine/ProjectManager.cpp:57-70 | returns true and leaves no tracks, no file, the name "Untitled Project" and nothing unsaved |
| Transport.FieldsExact | Source/GUI/TransportBarComponent.cpp:224-226 | the minutes, seconds and milliseconds fields describe the time exactly, with seconds below 60 and milliseconds a multiple of 100 below 1000 |
| Transport.DisplayRoundTrip | Source/GUI/TransportBarComponent.cpp:228 | the `%02d:%02d:%03d` display is at least 9 characters, its three fields are digits of widths at least 2, exactly 2 and exactly 3, and reading them back gives the minutes, seconds and milliseconds of the time shown |
| Transport.Display | Source/GUI/TransportBarComponent.cpp:224-228 | the display is at least nine characters: a run of at least two minute digits, a colon, exactly two second digits, a colon and exactly three millisecond digits |
| Transport.DecimalUpTo | Source/GUI/TransportBarComponent.cpp:228 | a seconds or milliseconds value below `10^width` prints in at most `width` digits, so zero-padding reaches exactly that width |
| Transport.TransportBar.constructor | Source/GUI/TransportBarComponent.cpp:3-4 | the bar starts not playing, not recording, not looping, at time 0 with tempo 120 |
| Transport.TransportBar.ButtonClicked | Source/GUI/TransportBarComponent.cpp:165-215 | Play toggles playback only; Stop stops playback and recording and rewinds to 0; Record toggles recording and, when that turns recording on while stopped, starts playback, never stopping it; Loop copies the button's toggle state; the AI buttons only raise their message box; the tempo and display are untouched |
| Transport.TransportBar.TimerCallback | Source/GUI/TransportBarComponent.cpp:217-234 | while playing each tick adds one tenth of a second and the display shows the new time; while stopped time and display stay; the tempo is read from the slider either way |
| Transport.RecordScenario | Source/GUI/TransportBarComponent.cpp:182-192 | record from a stopped transport starts playback, and a second record stops recording but not playback |
| Transport.DisplayExample | Source/GUI/TransportBarComponent.cpp:224-229 | 61.1 seconds of playing shows "01:01:100" |
| Text.TruncDiv | Source/GUI/TrackView.cpp:82 | integer division by a positive divisor truncates toward zero, as C++ `int` division and the dashboard's `differenceInDays` do: the quotient brackets the dividend between consecutive multiples from the side of zero |
| TrackViews.LaneAt | Source/GUI/TrackView.cpp:81-82 | for a position at or below the top edge, the lane is the one whose 60-pixel band contains it |
| TrackViews.LaneOfPosition | Source/GUI/TrackView.cpp:81-82 | a drop anywhere inside lane `k` (a height from `60k` to `60k + 59`) targets track `k` |
| TrackViews.DropCalls | Source/GUI/TrackView.cpp:84-91 | one callback per dropped file, in order, every file regardless of extension, the first to track `y / 60` and each later one to the next index |
| TrackViews.DropShift | Source/GUI/TrackView.cpp:82-90 | dropping the same files `k` lanes lower moves every target `k` tracks further |
| TrackViews.TrackView.constructor | Source/GUI/TrackView.h:21-24 | a new view shows no drag highlight and has no drop callback |
| TrackViews.TrackView.IsInterestedInFileDrag | Source/GUI/TrackView.cpp:45-59 | the drag is accepted iff some path ends, ignoring case, in .wav, .mp3, .aiff, .flac or .ogg |
| TrackViews.TrackView.FileDragEnter | Source/GUI/TrackView.cpp:61-66 | entering a drag sets the highlight flag |
| TrackViews.TrackView.FileDragExit | Source/GUI/TrackView.cpp:68-73 | leaving a drag clears the highlight flag |
| TrackViews.TrackView.FilesDropped | Source/GUI/TrackView.cpp:75-92 | a drop clears the highlight and, when a callback is installed, makes exactly the drop calls (none without a callback) |
| Api.Name | Core/API/APIManager.cpp:114-118 | each kind of job is stored under one of the type names "mixing", "mastering" or "stems" |
| Api.NamesDistinct | Core/API/APIManager.cpp:255-261 | two kinds of job share a type name only if they are the same kind, so the type name tells the poller which query to send |
| Api.QueryFor | Core/API/APIManager.cpp:255-261 | a job is polled for its own project, through the mixing, mastering or stem results query exactly when it is of that kind |
| Api.RemoveFirst | Core/API/APIManager.cpp:238-244 | taking out a job removes one entry when a pending entry has the same project and type, and changes nothing otherwise; no entry is ever added |
| Api.RemoveFirstAt | Core/API/APIManager.cpp:238-244 | the entry removed is the first match: the entries before it stay and those after it shift down by one |
| Api.ProjectRequest | Core/API/APIManager.cpp:71-76 | the project sent carries the name, the sample rate and bit depth as decimal strings, tempo 120 and 8 tracks |
| Api.CreateProjectReply | Core/API/APIManager.cpp:78-84 | the caller hears success iff the call succeeded and the reply has an id, with that id; otherwise failure and "" |
| Api.ApiManager.constructor | Core/API/APIManager.cpp:5-29 | a fresh manager holds the stored token (if any), is not signed in, has no pending jobs and no timer running |
| Api.ApiManager.OnAuthenticated | Core/API/APIManager.cpp:19-27 | the authentication reply sets the signed-in flag to its outcome, keeps the old user on failure, takes the new user on success, and announces the outcome |
| Api.ApiManager.HandleAuthComplete | Core/API/APIManager.cpp:207-220 | the token from the sign-in page is installed before it is checked |
| Api.ApiManager.Logout | Core/API/APIManager.cpp:45-54 | after `logout` nobody is signed in, user and token are empty, and `false` is announced |
| Api.ApiManager.IsLoggedIn | Core/API/APIManager.cpp:56-58 | the answer is the signed-in flag |
| Api.ApiManager.CreateProject | Core/API/APIManager.cpp:64-85 | without a session the call is refused, with one the project request is sent |
| Api.ApiManager.StartPolling | Core/API/APIManager.cpp:189-193 | after `startPolling` the timer is running, whether or not it already was |
| Api.ApiManager.StopPolling | Core/API/APIManager.cpp:195-197 | after `stopPolling` the timer is stopped |
| Api.ApiManager.Process | Core/API/APIManager.cpp:95-187 | the caller hears success iff signed in and both the upload and the job request succeed; then exactly one job of that kind for that project is appended and polling runs; otherwise the pending list and timer are unchanged |
| Api.ApiManager.CheckPendingOperations | Core/API/APIManager.cpp:222-226 | one results query per pending job, matching its kind, from the last job to the first |
| Api.ApiManager.TimerCallback | Core/API/APIManager.cpp:199-205 | every pending job is polled, and afterwards the timer runs iff it was running and some job is still pending |
| Api.ApiManager.OnPollResult | Core/API/APIManager.cpp:228-253 | a successful, non-empty reply whose first row has status "completed" removes only the first pending entry of the same project and type and announces that type with the row; any other reply changes nothing and announces nothing |
| Api.PollingScenario | Core/API/APIManager.cpp:199-249 | with a mixing and a mastering job for one project, completing the mixing job leaves only the mastering job, and the tick after the last completion stops the timer |
| Pages.DropTrailingSlash | WebInterface/src/pages/index.jsx:50-52 | a URL ending in "/" loses exactly that one character; any other URL is kept |
| Pages.LastSegment | WebInterface/src/pages/index.jsx:53 | the segment is a suffix of the path without any "/", and is preceded by a "/" whenever it is not the whole path |
| Pages.BeforeQuery | WebInterface/src/pages/index.jsx:54-56 | the part kept is a prefix without any "?", followed by a "?" whenever it is not the whole segment |
| Pages.FindPage | WebInterface/src/pages/index.jsx:58 | a key found is one of the keys and equals the segment ignoring case, no earlier key does, and nothing is found iff no key matches |
| Pages.CurrentPage | WebInterface/src/pages/index.jsx:49-60 | the page is always a key of `PAGES`; whenever some key matches the URL's last segment ignoring case, the page is a key that matches it; when none does, the page is the first key; and any page other than the first matches the segment |
| Pages.KeysDistinctIgnoringCase | WebInterface/src/pages/index.jsx:25-47 | no two page keys differ only in letter case |
| Pages.FindFirst | WebInterface/src/pages/index.jsx:58 | `find` returns the first key that matches |
| Pages.FindPageCanonical | WebInterface/src/pages/index.jsx:58 | a page key spelt in any letter case leads back to that key in its own spelling |
| Pages.LastSegmentOf | WebInterface/src/pages/index.jsx:53 | the last segment of a path ending in "/" followed by a slash-free name is that name |
| Pages.BeforeQueryOf | WebInterface/src/pages/index.jsx:54-56 | what precedes the first "?" after a name without one is that name |
| Pages.KeysArePlain | WebInterface/src/pages/index.jsx:25-47 | every page key is non-empty, without "/" or "?" |
| Pages.ResolvePath | WebInterface/src/pages/index.jsx:49-60 | "/" followed by a page key in any letter case, with or without one trailing "/", resolves to that key |
| Pages.ResolveUnderPrefix | WebInterface/src/pages/index.jsx:49-60 | under any leading path, a last segment that spells a page key in any letter case, with or without one trailing "/", resolves to that key |
| Pages.ResolveOwnPath | WebInterface/src/pages/index.jsx:58-59 | resolving "/" plus a resolved page, or its all-lower-case form, gives that page again |
| Pages.QueryIgnored | WebInterface/src/pages/index.jsx:54-56 | a query string after the page name does not change the page |
| Pages.UnknownFallsBack | WebInterface/src/pages/index.jsx:59 | a URL whose last segment names no page opens the first key, "APIDocumentation" |
| Pages.RootIsFirstPage | WebInterface/src/pages/index.jsx:27 | "/" opens "APIDocumentation" |
| CollaborativeControls.ActiveEditors | WebInterface/src/components/collaboration/CollaborativeControls.jsx:14-19 | the editors are exactly the collaborators whose view is the section and whose status is "active", in list order |
| CollaborativeControls.EditingIn | WebInterface/src/components/collaboration/CollaborativeControls.jsx:15-16 | a collaborator counts as editing a section if and only if their view is that section and their status is active; who they are never matters, so the viewer is not excluded |
| CollaborativeControls.Highlighted | WebInterface/src/components/collaboration/CollaborativeControls.jsx:21 | the section is highlighted iff some collaborator is active in it |
| CollaborativeControls.BadgeLabel | WebInterface/src/components/collaboration/CollaborativeControls.jsx:33-36 | the badge is the editor's name for exactly one editor, else "N users", always followed by " editing" |
| CollaborativeControls.ViewerCounted | WebInterface/src/components/collaboration/CollaborativeControls.jsx:15-17 | the viewing user's own active record in the section is not excluded: it counts as an editor and highlights the section |
| PresenceIndicator.SplitSpaces | WebInterface/src/components/collaboration/PresenceIndicator.jsx:10 | `split(' ')` yields at least one piece and no piece contains a space |
| PresenceIndicator.SplitJoin | WebInterface/src/components/collaboration/PresenceIndicator.jsx:10 | splitting at spaces loses nothing: joining the pieces with spaces gives back the name |
| PresenceIndicator.FirstLetters | WebInterface/src/components/collaboration/PresenceIndicator.jsx:11-12 | taking each piece's first character yields at most one letter per piece (an empty piece adds nothing) |
| PresenceIndicator.Initials | WebInterface/src/components/collaboration/PresenceIndicator.jsx:8-15 | the initials are the first characters of the space-separated words, upper-cased, cut to at most 2 |
| PresenceIndicator.InitialsStartWithName | WebInterface/src/components/collaboration/PresenceIndicator.jsx:8-15 | a name not starting with a space has initials beginning with its own first letter, upper-cased |
| PresenceIndicator.InitialsExample | WebInterface/src/components/collaboration/PresenceIndicator.jsx:8-15 | "al bo cy" gives "AB": one letter per word, no more than two |
| PresenceIndicator.StatusColor | WebInterface/src/components/collaboration/PresenceIndicator.jsx:17-24 | green iff the status is "active", yellow iff "idle", and slate for "away" and anything else |
| PresenceIndicator.ActiveUsers | WebInterface/src/components/collaboration/PresenceIndicator.jsx:26 | exactly the collaborators whose status is "active" |
| PresenceIndicator.OnlineLabel | WebInterface/src/components/collaboration/PresenceIndicator.jsx:33 | the caption opens with the count's digits, which read back as the count, and it is "1 user online" if and only if the count is one |
| PresenceIndicator.Render | WebInterface/src/components/collaboration/PresenceIndicator.jsx:26-82 | the online count is the number of active collaborators; the first at most 5 collaborators get avatars; "+(n-5)" appears iff n > 5; at most 3 name badges, for the first collaborators, and none for an empty list |
| PresenceIndicator.EveryoneAccounted | WebInterface/src/components/collaboration/PresenceIndicator.jsx:39-68 | every collaborator is either shown as an avatar or counted in the overflow bubble |
| ProjectsPage.OfProject | WebInterface/src/pages/Projects.jsx:89-92 | the records of one project are exactly the store's records with that `project_id` |
| ProjectsPage.FetchCollaborators | WebInterface/src/pages/Projects.jsx:85-96 | the fetched list holds exactly the project's records, most recent `last_seen` first |
| ProjectsPage.FindByEmail | WebInterface/src/pages/Projects.jsx:101 | a record found is in the list and has the user's email; none is found iff no record has it |
| ProjectsPage.Presence | WebInterface/src/pages/Projects.jsx:100-119 | the heartbeat updates iff the fetched list has a record with the user's email, and then that record with the new time and view; otherwise it creates an active record with project, email, name, time and view |
| ProjectsPage.TouchRecord | WebInterface/src/pages/Projects.jsx:104-108 | an update keeps the record's id, project, email and name, sets `last_seen`, `current_view` and status "active" on the record it names and leaves other records as they are |
| ProjectsPage.Apply | WebInterface/src/pages/Projects.jsx:103-118 | a create appends the record to the store; an update changes the named record in place and keeps the store's length |
| ProjectsPage.Heartbeat | WebInterface/src/pages/Projects.jsx:98-126 | a heartbeat writes only when a project is selected and a user is loaded, and then applies the presence write unless the store refuses it; otherwise the store is unchanged |
| ProjectsPage.TouchKeepsOthers | WebInterface/src/pages/Projects.jsx:104-108 | an update never changes any record's identity fields, and records other than the named one are untouched |
| ProjectsPage.HeartbeatNoDuplicate | WebInterface/src/pages/Projects.jsx:99-118 | from a store with at most one record per user and project and unique ids, a heartbeat on a list fetched from the current store keeps both properties, succeeding or not, and a successful one leaves the user's one record active with the new view and time |
| ProjectsPage.ShownCollaborators | WebInterface/src/pages/Projects.jsx:85-96 | the list the effect reads is the fetched list once the query has succeeded, and the `[]` default while it is pending or after it has failed |
| ProjectsPage.PendingHeartbeatDuplicates | WebInterface/src/pages/Projects.jsx:85-126 | while the list is pending or has failed, a heartbeat for a user who already has a record in the project creates a second one, so one record per user and project no longer holds |
| ProjectsPage.LoadingDuplicateExample | WebInterface/src/pages/Projects.jsx:85-126 | a store holding one active record for a@x in project "p", with unique ids and a fresh id 2, gets a duplicate for a@x from a heartbeat that runs before the list arrives |
| ProjectsPage.LoadedHeartbeat | WebInterface/src/pages/Projects.jsx:85-126 | the intended heartbeat: nothing is written until the list has been fetched, and from then on it is the heartbeat on that list |
| ProjectsPage.LoadedHeartbeatNoDuplicate | WebInterface/src/pages/Projects.jsx:85-126 | whether the list is pending, failed or fetched from the current store, the intended heartbeat keeps ids unique and one record per user and project |
| ProjectsPage.TouchPreserves | WebInterface/src/pages/Projects.jsx:103-108 | updating an existing record keeps ids unique and one record per user and project, and makes that record current |
| ProjectsPage.JoinPreserves | WebInterface/src/pages/Projects.jsx:109-118 | creating a record for a user the project lacks, under a fresh id, keeps ids unique and one record per user and project |
| ProjectsPage.NoHeartbeatWithoutUser | WebInterface/src/pages/Projects.jsx:99 | with no user loaded the heartbeat leaves the store alone |
| ProjectsPage.CreateProject | WebInterface/src/pages/Projects.jsx:128-145 | a record is created iff the store call succeeds, carrying the form and the opening time, and only then the form resets to an empty name, 48000 Hz, 24-bit, 120 BPM and 16 tracks, closed; on a failure the form keeps its contents and visibility |
| AdminPage.DurationLabel | WebInterface/src/pages/Admin.jsx:208-214 | trial reads "3 Days", yearly "12 Months", multi_year "24 Months", and every other type (custom and charity included) "{months} Months" |
| AdminPage.MonthsForType | WebInterface/src/pages/Admin.jsx:480 | choosing trial fills in 0 months, yearly 12, multi_year 24 and anything else 6 |
| AdminPage.LabelMatchesChosenMonths | WebInterface/src/pages/Admin.jsx:208-214 | for every type but trial, the label of the months the selector fills in reads that number of months; a trial stores 0 months yet reads "3 Days" |
| AdminPage.ChooseType | WebInterface/src/pages/Admin.jsx:479-482 | choosing a type sets the form's type and its months and keeps the other fields |
| AdminPage.CreateSubscription | WebInterface/src/pages/Admin.jsx:57-73 | the created subscription has the form's email, type, months and notes, status "active", `is_admin_created` true, starts today and ends 3 days later for a trial and `duration_months` months later otherwise |
| AdminPage.CreatedSubscriptionEndsLater | WebInterface/src/pages/Admin.jsx:59-62 | a subscription created through the type selector ends after it starts, exactly 3 days later for a trial |
| AdminPage.ToggledStatus | WebInterface/src/pages/Admin.jsx:106-110 | the new status is "cancelled" iff the old one is "active", and "active" for every other status |
| AdminPage.ToggleTwice | WebInterface/src/pages/Admin.jsx:109 | two toggles restore an active or cancelled subscription |
| AdminPage.SetActiveFlag | WebInterface/src/pages/Admin.jsx:168 | an update sets the active flag of exactly the records with that id and leaves every other record as it was |
| AdminPage.PlatformIds | WebInterface/src/pages/Admin.jsx:166 | the ids listed are exactly those of the platform's files |
| AdminPage.DeactivateAll | WebInterface/src/pages/Admin.jsx:167-169 | the loop clears the active flag of the listed records one update at a time and changes nothing else; when an update throws it stops there, with exactly the earlier updates made |
| AdminPage.SetActiveVersion | WebInterface/src/pages/Admin.jsx:163-172 | the mutation succeeds iff no store call throws; then the chosen file is active and is the platform's only active version; on a failure exactly the deactivations made before it stand; either way only active flags change and files of other platforms are untouched |
| AdminPage.DefaultRequirements | WebInterface/src/pages/Admin.jsx:142-146 | the default requirements text is the macOS text for macOS, the Windows text for Windows and the Linux text for any other platform |
| AdminPage.MegabytesRounded | WebInterface/src/pages/Admin.jsx:127 | the size in megabytes is the byte count divided by 1048576, rounded to the nearest whole number with halves rounded up |
| AdminPage.NewInstaller | WebInterface/src/pages/Admin.jsx:137-149 | the new record is active with the platform, address and release date, version "1.0.0" when none is given, the platform's default requirements when none are given, and size "{MB} MB" |
| AdminPage.ActivePlatformIds | WebInterface/src/pages/Admin.jsx:130-135 | the ids listed are those of the platform's files, and include every active one |
| AdminPage.CachedFiles | WebInterface/src/pages/Admin.jsx:34-37 | the versions the page reads are the fetched list once the query has succeeded, and the `[]` default while it is pending or after it has failed |
| AdminPage.UploadInstaller | WebInterface/src/pages/Admin.jsx:124-161 | the mutation succeeds iff none of the upload, the deactivations and the create throws; then the new version is appended and exactly the platform's active files in the page's list have been deactivated, so when that list is the store the new version is the platform's only active file; a failed upload changes nothing, a later failure leaves exactly the deactivations made before it and no new record; old records change at most their active flag and other platforms are untouched |
| AdminPage.PendingUploadKeepsOldActive | WebInterface/src/pages/Admin.jsx:124-149 | while the versions are pending or their query has failed, an upload deactivates nothing: an active version the platform already has stays active beside the new one |
| AdminPage.PendingUploadExample | WebInterface/src/pages/Admin.jsx:124-149 | a store holding one active macOS installer, uploaded to before the list arrives, ends with two active macOS versions |
| AdminPage.LoadedUploadInstaller | WebInterface/src/pages/Admin.jsx:124-161 | the intended upload sends nothing until the versions have been fetched; it succeeds iff they have and no store call throws, and then the new version is the platform's only active file; old records change at most their active flag and other platforms are untouched |
| AdminPage.SubmitNewVersion | WebInterface/src/pages/Admin.jsx:194-201 | a submission is rejected iff there is no file or the version is empty; otherwise exactly the form's platform, version, requirements and file are uploaded |
| AdminPage.SubmittedVersionKept | WebInterface/src/pages/Admin.jsx:139 | through the form the typed version is always the one stored: the "1.0.0" fallback is never reached |
| DownloadsPage.ActiveSubscription | WebInterface/src/pages/Downloads.jsx:21-23 | the subscription kept is one of the user's records with status "active", and no earlier record is active |
| DownloadsPage.UnlockedIffSomeActive | WebInterface/src/pages/Downloads.jsx:48 | the download buttons unlock if and only if at least one of the user's subscriptions is active |
| DownloadsPage.LoadDownloadFiles | WebInterface/src/pages/Downloads.jsx:39 | every file listed is active and comes from the store, and every active file in the store is listed |
| DownloadsPage.CurrentVersion | WebInterface/src/pages/Downloads.jsx:73 | the header shows the first file's version, or "1.0.0" when there is no file or its version is empty; it is never empty |
| DownloadsPage.ReleaseDate | WebInterface/src/pages/Downloads.jsx:74 | the header shows the first file's release date, or "January 2026" when there is none; it is never empty |
| DownloadsPage.CountDownload | WebInterface/src/pages/Downloads.jsx:190-192 | the list keeps its length; records with the clicked id get their counter raised by one, a missing counter counting as 0; every other record is unchanged |
| DownloadsPage.Click | WebInterface/src/pages/Downloads.jsx:186-202 | the user is sent to login iff not subscribed; a subscribed click stops without redirecting iff the platform has an active file and the count update or the event log throws, a failed count leaving the files untouched; otherwise the browser goes to the installer's address, and a "download_daw" event for that user, platform and version is logged iff the platform has an active file; with no such file the file list is untouched |
| DownloadsPage.ClickCountsOnce | WebInterface/src/pages/Downloads.jsx:188-199 | when ids are unique and exactly one active file serves the platform, a subscribed click whose count update goes through raises that file's counter by one and leaves all its other fields and every other file unchanged, and stops short of the download iff the event log throws |
| DashboardPage.CurrentSubscription | WebInterface/src/pages/Dashboard.jsx:21-32 | without an email there is no subscription; a subscription found is an active record of that user taken from the store |
| DashboardPage.SameSubscriptionAsDownloads | WebInterface/src/pages/Dashboard.jsx:25-29 | for any store and email, the dashboard picks the same subscription as the download page picks among the user's records |
| DashboardPage.FullDaysUntil | WebInterface/src/pages/Dashboard.jsx:41 | `differenceInDays` from the current instant to an end date's midnight, rounded toward zero: always the calendar days between the two dates or one fewer |
| DashboardPage.FullDaysCases | WebInterface/src/pages/Dashboard.jsx:41 | the whole days from now until an end date's midnight are its calendar days, less one once the day has begun and the end date is still ahead |
| DashboardPage.DaysRemaining | WebInterface/src/pages/Dashboard.jsx:39-42 | a count is given exactly when there is a subscription with a valid end date, and it is the whole days from the current instant to that date's midnight |
| DashboardPage.FreshTrialDays | WebInterface/src/pages/Dashboard.jsx:39-42 | a trial subscription created today, as the administrator's form creates it, shows three days remaining at midnight and two for the rest of the day |
| DashboardPage.SubscriptionBadge | WebInterface/src/pages/Dashboard.jsx:44-51 | "No Active Subscription" if and only if there is no subscription; otherwise each known plan type maps to its own label and back, and every other type to "Custom Plan" |
| DashboardPage.RecentProjects | WebInterface/src/pages/Dashboard.jsx:36 | at most five projects, exactly five when the store holds that many, ordered from the most recently opened; they are drawn from the store without repetition beyond its own (a sub-multiset), and no project left out was opened later than any project listed |
| LayoutPage.Navigation | WebInterface/src/pages/Layout.jsx:28-38 | no entries without a user; with one, every entry shown is a menu entry the user may see, and every such entry is shown |
| LayoutPage.NavigationSizes | WebInterface/src/pages/Layout.jsx:28-38 | a non-administrator sees exactly the first six entries in menu order, an administrator all nine |
| LayoutPage.PathsArePages | WebInterface/src/pages/Layout.jsx:29-37 | every menu entry's path is one of the router's page names |
| LayoutPage.NavigationPathsResolve | WebInterface/src/pages/Layout.jsx:93 | every entry shown is a router page, and its link resolves back to that entry's page, taking `createPageUrl(p)` to be "/" followed by `p`, kept as it is or lower-cased (both forms are proved) |
| LayoutPage.AtMostOneHighlighted | WebInterface/src/pages/Layout.jsx:89 | no two entries shown are highlighted at once, for any current page |
| LayoutPage.ShellFor | WebInterface/src/pages/Layout.jsx:40-60 | the loading screen if and only if loading; a signed-out user off the home page gets the bare page; the home page is unframed; a signed-in user off the home page gets the framed shell with exactly that user's navigation, which is never empty |
| FileManagement.FilteredFiles | WebInterface/src/pages/FileManagement.jsx:29-34 | the list shown is no longer than the fetched list, and every file in it matches the search term and the type filter |
| FileManagement.FilteredExactly | WebInterface/src/pages/FileManagement.jsx:29-34 | a fetched file is shown if and only if the term occurs, ignoring case, in its name or uploader's address and its type passes the filter |
| FileManagement.FilteredInOrder | WebInterface/src/pages/FileManagement.jsx:29 | the files shown sit at strictly increasing positions of the fetched list, so they keep its order |
| FileManagement.EmptySearchShowsAll | WebInterface/src/pages/FileManagement.jsx:29-34 | an empty search with type "all" shows the fetched list unchanged |
| FileManagement.TypeKey | WebInterface/src/pages/FileManagement.jsx:38 | a file is counted under its type, or under "undefined" when it has none |
| FileManagement.FilesByType | WebInterface/src/pages/FileManagement.jsx:37-40 | every type present has a count between one and the number of files, and each type's count is how many files have that key |
| FileManagement.FilesByTypeCounts | WebInterface/src/pages/FileManagement.jsx:37-40 | each type's count is the number of files of that type, a missing type being counted under "undefined"; a type is present if and only if some file has it |
| FileManagement.FilesByTypeTotal | WebInterface/src/pages/FileManagement.jsx:37-40 | the per-type counts add up to the number of files |
| FileManagement.ProcessedCount | WebInterface/src/pages/FileManagement.jsx:90 | the "Processed Files" card counts exactly the files of type mixed, mastered or stem |
| FileManagement.ProcessedAndOriginalBounded | WebInterface/src/pages/FileManagement.jsx:80-90 | the "Original Files" and "Processed Files" cards together never exceed the "Total Files" card |
| FileManagement.TotalSize | WebInterface/src/pages/FileManagement.jsx:36 | the total storage is never negative |
| FileManagement.TotalSizeProperties | WebInterface/src/pages/FileManagement.jsx:36 | every file's size is included in the total, and the total of two lists joined is the sum of their totals |
| KnowledgeBase.FetchArticles | WebInterface/src/pages/KnowledgeBase.jsx:18 | the fetched articles are exactly the store's published articles, as a multiset, in non-decreasing `order` |
| KnowledgeBase.PublishedAreFetched | WebInterface/src/pages/KnowledgeBase.jsx:18 | no published article of the store is missing from the fetch |
| KnowledgeBase.FilteredArticles | WebInterface/src/pages/KnowledgeBase.jsx:33-38 | the list shown is no longer than the fetched list, and every article in it matches the search and the selected category |
| KnowledgeBase.FilteredExactly | WebInterface/src/pages/KnowledgeBase.jsx:33-38 | a fetched article is shown if and only if the term occurs, ignoring case, in its title or content and its category is selected (or "all" is) |
| KnowledgeBase.FilteredInOrder | WebInterface/src/pages/KnowledgeBase.jsx:33 | the articles shown sit at strictly increasing positions of the fetched list |
| KnowledgeBase.FilteredStaySorted | WebInterface/src/pages/KnowledgeBase.jsx:18-38 | the articles shown remain in non-decreasing `order` |
| KnowledgeBase.EmptySearchShowsAll | WebInterface/src/pages/KnowledgeBase.jsx:33-38 | with no term and "all" selected every fetched article is shown, in the same order |
| KnowledgeBase.Preview | WebInterface/src/pages/KnowledgeBase.jsx:155 | the preview is the first 120 characters of the content (all of it when shorter) followed by "..." |
| KnowledgeBase.CategoryLabel | WebInterface/src/pages/KnowledgeBase.jsx:21-31 | a label exists if and only if the value is one of the categories, and a label given is that category's own label |
| KnowledgeBase.CategoryLabels | WebInterface/src/pages/KnowledgeBase.jsx:152 | "mixing" shows "Mixing", "ai_features" shows "AI Features", and an unknown category shows no badge text |
| AnalyticsPage.SuccessRate | WebInterface/src/pages/Analytics.jsx:40 | the rate is 0 with no actions and lies between 0 and 100; it is 100 if and only if every action succeeded, and 0 if and only if none did |
| AnalyticsPage.SuccessCount | WebInterface/src/pages/Analytics.jsx:40 | the successful actions number at most all actions, equal all if and only if every action succeeded, and are none if and only if none succeeded |
| AnalyticsPage.Percentage | WebInterface/src/pages/Analytics.jsx:40 | a part of a non-empty whole gives a percentage between 0 and 100, equal to 100 exactly for the whole and 0 exactly for nothing |
| AnalyticsPage.AverageProcessingTime | WebInterface/src/pages/Analytics.jsx:41 | the average is 0 with no actions, never negative, and times the number of actions gives the total processing time, a missing time counting 0 |
| AnalyticsPage.AverageAtMost | WebInterface/src/pages/Analytics.jsx:41 | when every action took at most a bound, the average is at most that bound |
| AnalyticsPage.ActionsByType | WebInterface/src/pages/Analytics.jsx:45-48 | the accumulated map counts, for each action type, how many actions have it |
| AnalyticsPage.ActionsByTypeTotal | WebInterface/src/pages/Analytics.jsx:45-48 | the per-type counts add up to the number of actions |
| AnalyticsPage.ActionsOverTime | WebInterface/src/pages/Analytics.jsx:56-64 | there is one point per day of the range, oldest first; point k labels the day `dateRange - 1 - k` days before today and counts the actions whose month and day match it |
| AnalyticsPage.ChartDaysConsecutive | WebInterface/src/pages/Analytics.jsx:57-58 | neighbouring points are exactly one calendar day apart, and the last point is today |
| AnalyticsPage.SameDateOtherYearCounted | WebInterface/src/pages/Analytics.jsx:59-61 | an action from the same month and day one year earlier is counted in today's point, because points match on `MM/dd` only |
| AnalyticsPage.LatestHealth | WebInterface/src/pages/Analytics.jsx:67-72 | the accumulated map keeps, for each metric name, the record the running comparison picks |
| AnalyticsPage.LatestMap | WebInterface/src/pages/Analytics.jsx:67-72 | each kept record is filed under its own metric name |
| AnalyticsPage.LatestKeepsEveryName | WebInterface/src/pages/Analytics.jsx:67-72 | every metric name that occurs is kept, and no record of that name is newer than the kept one |
| AnalyticsPage.LatestKeepsFirstNewest | WebInterface/src/pages/Analytics.jsx:67-72 | each kept record is one of the records and every earlier record of its name is strictly older, so ties keep the first |
| AnalyticsPage.LatestIsNewestFirst | WebInterface/src/pages/Analytics.jsx:67-72 | every metric name that occurs is kept; the kept record is one of the records, no record of that name is newer, and every earlier record of that name is strictly older, so ties keep the first |
| AnalyticsPage.RecentActivity | WebInterface/src/pages/Analytics.jsx:224 | the recent list is a prefix of the newest-first actions, of length ten or all of them when fewer |
| AnalyticsPage.UserList | WebInterface/src/pages/Analytics.jsx:27-36 | an administrator gets every user, anyone else an empty list |
| Stems.Toggle | WebInterface/src/components/mastering/StemMasteringBatch.jsx:24-30 | a toggled key ends up selected if and only if it was not selected before, and every other key keeps its state |
| Stems.ToggleKeepsDistinct | WebInterface/src/components/mastering/StemMasteringWorkflow.jsx:40-44 | toggling a selection without duplicates never creates one |
| Stems.ToggleTwice | WebInterface/src/components/mastering/StemMasteringWorkflow.jsx:40-44 | ticking an unticked stem and then unticking it restores the selection exactly, order included |
| Stems.StemUrl | WebInterface/src/components/mastering/StemMasteringBatch.jsx:52 | a URL is found if and only if the separation has stems and one for that key, and it is that stem's URL |
| Stems.JobTrackName | WebInterface/src/components/mastering/StemMasteringBatch.jsx:61 | the job's track name begins with the song's name and ends with the stem's label |
| PresetManager.CustomPreset | WebInterface/src/components/mastering/PresetManager.jsx:24-37 | the saved preset carries the given name, genre "custom" and is not a default; every setting is copied from the current settings, a missing EQ curve becoming an empty one |
| PresetManager.HandleSave | WebInterface/src/components/mastering/PresetManager.jsx:54-60 | nothing is saved if and only if the name is entirely whitespace; otherwise the custom preset is saved under the name as typed |
| PresetManager.SeedDefaults | WebInterface/src/components/mastering/PresetManager.jsx:69-148 | once loading has finished with no presets, the four genre presets are created in order; when the store refuses the create numbered `failAt`, seeding stops and exactly the presets before it are stored; the list is refreshed and the notice shown if and only if all four were created; with presets present or still loading nothing is created |
| PresetManager.DefaultsAreGenrePresets | WebInterface/src/components/mastering/PresetManager.jsx:73-138 | the seeded presets are pop, rock, electronic and hip-hop, in that order, each a default with a four-band EQ curve |
| PresetManager.DeleteOnlyCustom | WebInterface/src/components/mastering/PresetManager.jsx:213 | no seeded preset offers a delete button, and every saved custom preset does |
| PresetManager.HandleApply | WebInterface/src/components/mastering/PresetManager.jsx:62-67 | the preset is handed on if and only if an apply callback is given, and then unchanged |
| PresetManager.GenreLabel | WebInterface/src/components/mastering/PresetManager.jsx:150-156 | each of the five known genres shows its own label, and any other genre shows its raw name |
| StemMasteringWorkflow.StemLabel | WebInterface/src/components/mastering/StemMasteringWorkflow.jsx:33-38 | the label is the one configured for that stem key |
| StemMasteringWorkflow.TargetLufs | WebInterface/src/components/mastering/StemMasteringWorkflow.jsx:67-73 | the target is -14 unless the stem has a non-empty preset id naming a loaded preset, in which case it is that preset's target |
| StemMasteringWorkflow.JobsFor | WebInterface/src/components/mastering/StemMasteringWorkflow.jsx:60-86 | there is exactly one job per selected stem, in selection order |
| StemMasteringWorkflow.JobsOnePerStem | WebInterface/src/components/mastering/StemMasteringWorkflow.jsx:75-82 | every job is a stem job of the project for its own stem and carries that stem's URL; no stem is mastered twice in one run |
| StemMasteringWorkflow.IsMastered | WebInterface/src/components/mastering/StemMasteringWorkflow.jsx:145 | the "Mastered" badge shows if and only if some stem-mastering record has this stem type |
| StemMasteringWorkflow.OfferedPresets | WebInterface/src/components/mastering/StemMasteringWorkflow.jsx:198 | every preset offered is a loaded default preset, and every loaded default preset is offered |
| StemMasteringWorkflow.Workflow.constructor | WebInterface/src/components/mastering/StemMasteringWorkflow.jsx:14-16 | the panel starts with no stem selected, no preset chosen and not processing |
| StemMasteringWorkflow.Workflow.ToggleStem | WebInterface/src/components/mastering/StemMasteringWorkflow.jsx:40-44 | the selection becomes the toggled selection, stays free of duplicates, and the preset choices are kept |
| StemMasteringWorkflow.Workflow.SetPresetForStem | WebInterface/src/components/mastering/StemMasteringWorkflow.jsx:46-48 | only that stem's preset choice changes; the selection is kept |
| StemMasteringWorkflow.Workflow.HandleMasterStems | WebInterface/src/components/mastering/StemMasteringWorkflow.jsx:50-98 | an empty selection is refused with no job; otherwise the jobs go out in selection order up to and including the first failing call; only a run without failure clears the selection and preset choices and completes; processing is off afterwards |
| StemMasteringWorkflow.SendStemJobs | WebInterface/src/components/mastering/StemMasteringWorkflow.jsx:60-85 | the loop sends, in selection order, the job each selected stem calls for, up to and including the call that throws; it reports a failure iff that call is one the loop makes |
| StemMasteringBatch.StemOf | WebInterface/src/components/mastering/StemMasteringBatch.jsx:51 | the stem found has the key asked for and is one of the panel's stems |
| StemMasteringBatch.FixedTargets | WebInterface/src/components/mastering/StemMasteringBatch.jsx:15-22 | drums target -9, guitar -13, keys and other -15, vocals and bass -11 |
| StemMasteringBatch.BatchJobs | WebInterface/src/components/mastering/StemMasteringBatch.jsx:49-70 | a run sends at most one job per selected stem |
| StemMasteringBatch.JobsAreStemJobs | WebInterface/src/components/mastering/StemMasteringBatch.jsx:54-66 | every job sent has a non-empty URL and is the stem job of its own stem, titled with its label and carrying its fixed target |
| StemMasteringBatch.JobsSkipMissingStems | WebInterface/src/components/mastering/StemMasteringBatch.jsx:49-57 | the stems mastered are exactly the selected stems that have a URL, in selection order; the others are skipped without ending the run |
| StemMasteringBatch.BatchJobsPrefix | WebInterface/src/components/mastering/StemMasteringBatch.jsx:49-70 | the jobs for a prefix of the selection are a prefix of the jobs for the whole selection |
| StemMasteringBatch.BatchJobsStep | WebInterface/src/components/mastering/StemMasteringBatch.jsx:49-70 | one more selected stem adds exactly its own job when it has a URL, and nothing otherwise |
| StemMasteringBatch.SentBeforeFailure | WebInterface/src/components/mastering/StemMasteringBatch.jsx:49-70 | the calls made are a prefix of the run: the whole run when no call fails, otherwise the run up to and including the failing call |
| StemMasteringBatch.StopsAtFailure | WebInterface/src/components/mastering/StemMasteringBatch.jsx:49-70 | a loop that ends after the whole run without failure, or right after the failing call, has sent exactly the prefix above and reports failure if and only if a call of the run fails |
| StemMasteringBatch.SendJobs | WebInterface/src/components/mastering/StemMasteringBatch.jsx:49-70 | the jobs sent are the run's jobs up to and including the first failing call, and the loop reports failure if and only if such a call exists |
| StemMasteringBatch.Batch.constructor | WebInterface/src/components/mastering/StemMasteringBatch.jsx:12-13 | the panel starts with no stem selected and not processing |
| StemMasteringBatch.Batch.ToggleStem | WebInterface/src/components/mastering/StemMasteringBatch.jsx:24-30 | the selection becomes the toggled selection and stays free of duplicates |
| StemMasteringBatch.Batch.HandleBatchMaster | WebInterface/src/components/mastering/StemMasteringBatch.jsx:32-80 | no selection or no separation sends nothing and changes nothing; otherwise the latest separation's jobs go out up to the first failure, processing is off afterwards, and only a completed run clears the selection |
| MasteringResults.Bars | WebInterface/src/components/mastering/MasteringResults.jsx:35-42 | five bars named Low to High with their frequency ranges, in that order, and no bar ever shows zero |
| MasteringResults.BarValues | WebInterface/src/components/mastering/MasteringResults.jsx:35-42 | a band's bar shows the recorded value when it is present and non-zero, and 50 when it is missing, zero, or the whole balance is missing |
| MasteringResults.ColorOf | WebInterface/src/components/mastering/MasteringResults.jsx:44-48 | red if and only if above 70, green if and only if above 40 and at most 70, blue if and only if at most 40 |
| MasteringResults.ColorMonotone | WebInterface/src/components/mastering/MasteringResults.jsx:44-48 | a taller bar never shows a cooler colour than a shorter one |
| MasteringResults.RangeLabel | WebInterface/src/components/mastering/MasteringResults.jsx:115 | "Wide" if and only if above 12 dB, "Good" if and only if above 8 and at most 12, "Compressed" otherwise, including when the record has no figure |
| MasteringResults.RangeMonotone | WebInterface/src/components/mastering/MasteringResults.jsx:115 | more dynamic range never earns a worse verdict |
| MasteringResults.InitialSliders | WebInterface/src/components/mastering/MasteringResults.jsx:19-20 | each slider starts at the record's value when present and non-zero, and otherwise at -14 LUFS and -1 dB |
| MasteringResults.SlidersNeverZero | WebInterface/src/components/mastering/MasteringResults.jsx:19-20 | neither slider ever starts at zero |
| MasteringResults.HandleApply | WebInterface/src/components/mastering/MasteringResults.jsx:22-33 | when the record is gone or the update fails nothing changes and `onUpdate` is not called; otherwise exactly that record becomes applied, every other record is unchanged, and `onUpdate` is called if and only if given |
| MasteringResults.ApplyOnce | WebInterface/src/components/mastering/MasteringResults.jsx:319 | after a successful apply the card no longer offers its actions, and applying again changes nothing |
| RealTimeAnalyzer.Normalize | WebInterface/src/components/mixing/RealTimeAnalyzer.jsx:59 | one percentage per bin, between 0 and 100, equal to 0 exactly for a silent bin and 100 exactly for a full one |
| RealTimeAnalyzer.NormalizeMonotone | WebInterface/src/components/mixing/RealTimeAnalyzer.jsx:59 | a louder bin never shows a lower percentage |
| RealTimeAnalyzer.TotalBounds | WebInterface/src/components/mixing/RealTimeAnalyzer.jsx:79-81 | a band's total lies between its bin count times the smallest and times the largest bin value |
| RealTimeAnalyzer.TotalConstant | WebInterface/src/components/mixing/RealTimeAnalyzer.jsx:79-81 | bins all equal to one value add up to their count times that value |
| RealTimeAnalyzer.LiveSuggestion | WebInterface/src/components/mixing/RealTimeAnalyzer.jsx:78-87 | there is a suggestion if and only if the spectrum has more than 24 bins; each of the four suggestions is given if and only if its test is the first that holds: low above 70, mid below 30, high above 65, else balanced |
| RealTimeAnalyzer.BandsArePercentages | WebInterface/src/components/mixing/RealTimeAnalyzer.jsx:37 | on the analyser's 32 bins, each band's average lies between 0 and 100 |
| RealTimeAnalyzer.RestingSpectrumIsBalanced | WebInterface/src/components/mixing/RealTimeAnalyzer.jsx:11 | the initial spectrum of 32 bins at 50 yields the "Frequency balance looks good" suggestion |
| RealTimeAnalyzer.Peak | WebInterface/src/components/mixing/RealTimeAnalyzer.jsx:68 | the peak is one of the levels and no level exceeds it |
| RealTimeAnalyzer.LiveFeedback | WebInterface/src/components/mixing/RealTimeAnalyzer.jsx:63-71 | given the flag and time the trigger reads, feedback is sent if and only if playing, the frame's draw is lucky, the spectrum has more than 24 bins (fewer make a `reduce` throw), the mean level exceeds 40 and a callback is given; it carries that time, the peak level and the live suggestion |
| RealTimeAnalyzer.ClockFields | WebInterface/src/components/mixing/RealTimeAnalyzer.jsx:125-127 | minutes are non-negative, seconds lie in 0 to 59, and together they give the whole seconds of the time |
| RealTimeAnalyzer.FormatTime | WebInterface/src/components/mixing/RealTimeAnalyzer.jsx:125-129 | the clock text is minute digits, a colon at the third-last place, and exactly two second digits |
| RealTimeAnalyzer.FormatTimeRoundTrip | WebInterface/src/components/mixing/RealTimeAnalyzer.jsx:125-129 | the clock reads back as digits, a colon and two digits of seconds below 60, together the whole seconds played |
| RealTimeAnalyzer.ClockText | WebInterface/src/components/mixing/RealTimeAnalyzer.jsx:128 | the "m:ss" text of whole minutes and of seconds below 60 reads back as exactly those minutes and seconds |
| RealTimeAnalyzer.Player.constructor | WebInterface/src/components/mixing/RealTimeAnalyzer.jsx:8-9 | the panel starts paused at time 0, with no audio context and no drawing loop |
| RealTimeAnalyzer.Player.HandlePlayPause | WebInterface/src/components/mixing/RealTimeAnalyzer.jsx:89-102 | with the audio element present the playing flag flips and the first click starts the drawing loop, whose closure keeps that click's flag and time; without the element nothing changes; the time is kept |
| RealTimeAnalyzer.Player.HandleStop | WebInterface/src/components/mixing/RealTimeAnalyzer.jsx:104-111 | with the audio element present the panel is paused at time 0, without it nothing changes |
| RealTimeAnalyzer.Player.HandleTimeUpdate | WebInterface/src/components/mixing/RealTimeAnalyzer.jsx:113-117 | with the audio element present the time becomes the element's position; the playing flag is kept |
| RealTimeAnalyzer.Player.HandleEnded | WebInterface/src/components/mixing/RealTimeAnalyzer.jsx:147 | when playback ends the panel is paused and the time stays where it ended |
| RealTimeAnalyzer.Player.DrawFrame | WebInterface/src/components/mixing/RealTimeAnalyzer.jsx:43-76 | a frame of the loop as written applies the trigger to the closure's flag and time, and never sends feedback, because that flag is always false |
| RealTimeAnalyzer.Player.IntendedFrame | WebInterface/src/components/mixing/RealTimeAnalyzer.jsx:55-72 | a frame that reads the panel's current flag and time sends feedback exactly while playing, on a lucky frame, with more than 24 bins, a mean above 40 and a callback |
| RealTimeAnalyzer.StaleLoopScenario | WebInterface/src/components/mixing/RealTimeAnalyzer.jsx:63 | after the first play click, on the resting spectrum with a lucky frame and a callback, the loop as written sends nothing where the intended loop sends the balanced suggestion |
| RealTimeAnalyzer.StoppedClock | WebInterface/src/components/mixing/RealTimeAnalyzer.jsx:104-111 | a stopped panel's clock reads "0:00" |
| LiveFeedbackCard.NewestFirst | WebInterface/src/components/mixing/LiveFeedback.jsx:10-14 | the items received, all of them, in reverse order of arrival |
| LiveFeedbackCard.RecentPush | WebInterface/src/components/mixing/LiveFeedback.jsx:12 | putting a new item in front of at most four kept items gives exactly the five most recent items, newest first |
| LiveFeedbackCard.Card.constructor | WebInterface/src/components/mixing/LiveFeedback.jsx:8 | the card starts with no history |
| LiveFeedbackCard.Card.OnFeedback | WebInterface/src/components/mixing/LiveFeedback.jsx:10-14 | a present item goes in front of at most four earlier ones and the history stays the five most recent items received; a missing item changes nothing |
| LiveFeedbackCard.RecentBounded | WebInterface/src/components/mixing/LiveFeedback.jsx:12 | the history never exceeds five items, holds every item when at most five arrived, and runs from the latest received backwards |
| LiveFeedbackCard.IconOf | WebInterface/src/components/mixing/LiveFeedback.jsx:16-23 | warning, info and success each have their own icon, and the bolt is shown if and only if the type is missing |
| LiveFeedbackCard.ColorOf | WebInterface/src/components/mixing/LiveFeedback.jsx:25-32 | yellow for warnings, blue for info, green for success and purple for a missing type, each style used by that type only |
| LiveFeedbackCard.BadgeColorOf | WebInterface/src/components/mixing/LiveFeedback.jsx:34-41 | the badge is yellow, blue, green or purple for warning, info, success or a missing type, each colour used by that type only |
| LiveFeedbackCard.StylesDistinguishTypes | WebInterface/src/components/mixing/LiveFeedback.jsx:16-41 | two items get the same icon, the same colours or the same badge colour if and only if they have the same type |
| MixerView.DefaultTracks | WebInterface/src/components/mixing/MixerView.jsx:7-12 | given tracks are shown unchanged; with none, `trackCount` placeholders "Track 1" to "Track N" at level 75 and centred |
| MixerView.PlaceholderNamesDistinct | WebInterface/src/components/mixing/MixerView.jsx:8-12 | no two placeholder tracks share a name |
| MixerView.TrackAlert | WebInterface/src/components/mixing/MixerView.jsx:14-19 | a track is alerted if and only if there is a live suggestion whose message, lower-cased, contains the track's name, lower-cased; the alert is that suggestion's type |
| MixerView.AlertNeedsName | WebInterface/src/components/mixing/MixerView.jsx:14-19 | an alerted track's name is no longer than the message, and a track with an empty name is alerted by every suggestion |
| MixerView.BorderOf | WebInterface/src/components/mixing/MixerView.jsx:37-41 | yellow if and only if a warning, blue if and only if an info, plain for no alert or a success |
| MixerView.MeterColorOf | WebInterface/src/components/mixing/MixerView.jsx:49-53 | red if and only if above 85, yellow if and only if above 70 and at most 85, green if and only if at most 70 |
| MixerView.MeterMonotone | WebInterface/src/components/mixing/MixerView.jsx:49-53 | a higher level never shows a calmer colour, and the placeholder level 75 shows yellow |
| MixerView.ReadoutAsWritten | WebInterface/src/components/mixing/MixerView.jsx:96 | the readout as written ends in " dB" |
| MixerView.ReadoutAsWrittenDoubleSign | WebInterface/src/components/mixing/MixerView.jsx:96 | for a level strictly between 0 and 75 the readout as written begins "+-" and is no signed number; level 50 shows "+-25 dB" |
| MixerView.Readout | WebInterface/src/components/mixing/MixerView.jsx:96 | the corrected readout ends in " dB" |
| MixerView.IntToStringRoundTrip | WebInterface/src/components/mixing/MixerView.jsx:96 | the printed figure is a signed decimal that reads back as the number, and never begins with "+" |
| MixerView.ReadoutRoundTrip | WebInterface/src/components/mixing/MixerView.jsx:96 | the corrected readout is one signed number then " dB"; it shows "+" if and only if the level is above 75, "-" if and only if below, and the number is the level minus 75 |

## Left out

- Concurrency in the engine is not modelled: the FIFO's atomics and memory orders, the threaded FIFO test, the disk writer's thread, condition variable and exit handshake. The FIFO and the disk writer are modelled sequentially, one call at a time.
- File and device output is not modelled: the WAV writer, audio devices, JUCE plugins and the DSP chain. `DiskWriting.DiskWriter.DrainBlock` returns the de-interleaved channels instead of writing them.
- Tracks.Track.GetNextAudioBlock: the transport source, the built-in effects and the plugin host run on the whole buffer before the gain stage (Core/AudioEngine/Track.cpp:39-46); their DSP is not modelled, so the buffer the method receives stands for their output and the contract says nothing about samples outside the region on the unmuted path beyond the gain stage leaving them alone.
- Floating-point behaviour is not modelled. Gains, loudness figures and percentages are Dafny reals, and NaN, rounding and `toFixed` formatting are ignored.
- Network, authentication and OS plumbing become parameters: every store call, `base44` SDK call, HTTP request and keychain access. Where a handler writes to the store, a failing call enters as a flag (`ProjectsPage.Heartbeat`, `ProjectsPage.CreateProject`) or as a `failAt` index numbering the handler's calls in order (`AdminPage.SetActiveVersion`, `AdminPage.UploadInstaller`, `DownloadsPage.Click`, `PresetManager.SeedDefaults`, the stem-mastering sends). Members that only build the record a call sends (`AdminPage.CreateSubscription`, `PresetManager.CustomPreset`) say nothing about whether the store accepts it.
- Timers, intervals, toasts, animation, styling and progress text are not modelled.
- `LockFreeAudioFifo.Fifo.Write`: requires `numSamples <= |data|`, and `Read` requires room in `dest`. In the C++ these are caller obligations the code does not check.
- `ProjectManagement.ProjectManager.SaveProject`: the file write's success enters as a parameter. The same holds for `LoadProject`, whose file contents enter as the tree `fromXml` returns. For a file this program wrote, that tree is `ProjectManagement.XmlForm` of the saved tree.
- `ProjectManagement.TracksFromTrackTrees`: covers the typed tree `createProjectXML` builds in memory. The tree a loaded file yields has string properties; reading it back is `ProjectManagement.TracksFromXmlTrackTrees`, for gains with at most 14 decimals.
- `ProjectManagement.SaveLoadRoundTrip`: covers the typed tree before it is written out. The round trip through the file's text is `ProjectManagement.FileRoundTrip`, for gains with at most 14 decimals.
- `ProjectManagement.XmlForm`: XML escaping of names is taken to round trip, and the XML text itself is not modelled.
- `Numerals.NumberText`: prints a fixed 14 decimals and drops trailing zeros. JUCE prints up to 15 significant digits and switches to exponent form at or below 1e-5 and from 1e6; neither the exponent form nor its reading is modelled. `ProjectManagement.FileRoundTrip` therefore holds for gains with at most 14 decimals.
- `Numerals.IntValue`: the 32-bit wrap-around of a very long numeral is not modelled.
- `Transport.TransportBar.TimerCallback`: time is kept in whole tenths of a second. The drift of repeated floating-point `+= 0.1` is not modelled.
- The transport bar's rewind and fast-forward buttons have no handler in the source, so they are not modelled.
- `Api.ApiManager`: `syncProject` and `initiateLogin` are not modelled, because they are only network and browser calls. Results queries enter as replies to `OnPollResult`.
- `ProjectsPage`: the store assigns ids to created records; here an id enters as a parameter.
- `ProjectsPage.NoHeartbeatWithoutUser`: covers only the missing-user case. The missing-project case is stated by the heartbeat's own contract.
- `AnalyticsPage`: `totalActions` is the length of the list and appears as `|analytics|`. The chart's type labels (underscores replaced by spaces) are not modelled. The analytics page's storage figure is the same sum as `FileManagement.TotalSize`.
- `AnalyticsPage.ActionsOverTime`: dates are calendar days, so time of day and time zones are not modelled. Points match on month and day only, as the source does (see `AnalyticsPage.SameDateOtherYearCounted`).
- `DashboardPage.DaysRemaining`: an end date that is not a valid calendar date yields no count, where the browser would yield NaN. The end date is read as midnight UTC and compared with local time; the model takes the two clocks to coincide, and the current instant enters as a date and the milliseconds into it.
- `FileManagement.TotalSize`: sizes are whole megabytes (`nat`), where the source sums floating-point values.
- `FileManagement` and `PresetManager`: the delete mutations are not modelled; they are single store deletions. `PresetManager.DeleteOnlyCustom` states when the delete action is offered.
- `MasteringResults`: the `applying` flag, the fine-tune panel's visibility and the slider changes after the first render are not modelled.
- `StemMasteringWorkflow`: the export handlers, which only open browser windows, are not modelled.
- `RealTimeAnalyzer.LiveFeedback`: the frame's random draw (`lucky`) enters as a parameter. The flag and time the trigger reads are parameters too: `Player.DrawFrame` passes the closure's stale ones, `Player.IntendedFrame` the current ones (see Findings).
- `RealTimeAnalyzer.Player`: the analyser's initialisation is taken to succeed, so its `catch` path is not modelled. The audio context's other effects and the duration display are not modelled.
- `LayoutPage.NavigationPathsResolve`: `createPageUrl` comes from the pages' `utils` module, which is not part of this model. The link is taken to be "/" followed by the page name, kept as it is or lower-cased.
- `RealTimeAnalyzer.FormatTimeRoundTrip`: requires a non-negative time, which a media element's position always is.
- `RealTimeAnalyzer.Player.HandleTimeUpdate`: requires a non-negative position, for the same reason.
- `MixerView`: levels and pans are whole numbers, so fractional levels and `toFixed(0)` rounding are not modelled.
- Text: `toLowerCase`, `toUpperCase` and `trim` act on ASCII only. Unicode case mapping and Unicode whitespace are not modelled.
- `Calendar` models the date-fns arithmetic the pages use (`addDays`, `subDays`, `addMonths` with end-of-month clamping, `differenceInDays` on calendar days). Time zones are not modelled, and clock time only where the dashboard counts days left.
- `ProjectsPage.HeartbeatNoDuplicate`: holds only for a list fetched from the current store. Before the list arrives, or after its query fails, the list is `[]` and the heartbeat duplicates the user's record (see Findings); `ProjectsPage.LoadedHeartbeatNoDuplicate` states the intended behaviour. A fetched list older than the last create (the 3-second refetch racing the 5-second interval) is not modelled.
- `AnalyticsPage.AverageProcessingTime`: processing times are whole numbers. The fractional seconds a JavaScript number can hold are not modelled.
- `PresetManager.SeedDefaults`: a failed list query also leaves `presets` at its `[]` default once loading ends. The effect then seeds again on every run, and that window is not modelled; the model takes an empty list as a loaded, empty store.
- `AdminPage.UploadInstaller`: reads the platform's active versions from the page's list and writes to the store. Before that list arrives, or after its query fails, the list is `[]` and the upload leaves the old active version active (see Findings); `AdminPage.LoadedUploadInstaller` states the intended behaviour. A fetched list older than the store (another administrator's upload since the last fetch) is not modelled.
- `AdminPage.SetActiveVersion`: takes the page's list to be the store. The "Set Active" button is only drawn for a version in that list, so the list has been fetched; a list older than the store is not modelled.

## Findings

| source | as written | input that shows it | evidently intended | confidence | as-written member | corrected member |
|---|---|---|---|---|---|---|
| Core/AudioEngine/DiskWriter.cpp:134-155 | `run` always requests 1024 samples and de-interleaves `samplesRead / numChannels` frames, so when 1024 is not a multiple of the channel count the sample left over after the last whole frame is never written, and the next block starts on the wrong channel | 3 channels with 682 whole frames waiting: 1024 samples are read, 341 frames (1023 samples) are written, and the next block's channel 0 carries a channel-1 sample | request a whole number of frames, so that every sample read belongs to a frame that is written | not executed | DiskWriting.PartialFrameDropped | DiskWriting.WholeFramesRead |
| WebInterface/src/components/mixing/MixerView.jsx:96 | the readout's "+" is decided by `level > 0` while the figure is `level - 75` | level 50 reads "+-25 dB" | the sign follows the figure: "+" only above 75 | not executed | MixerView.ReadoutAsWrittenDoubleSign | MixerView.ReadoutRoundTrip |
| WebInterface/src/components/mixing/RealTimeAnalyzer.jsx:43-71 | the drawing loop is started once, by the first play click, and its closure keeps the `isPlaying` of that click's render, which is false; live feedback is never sent | play the resting spectrum: every frame reads `isPlaying` as false, so `onLiveFeedback` is never called, however long it plays | the trigger reads the current playing flag and time, so feedback is sent while playing | not executed | RealTimeAnalyzer.Player.DrawFrame | RealTimeAnalyzer.Player.IntendedFrame |
| WebInterface/src/pages/Projects.jsx:85-126 | the presence effect runs as soon as a project and a user are known, and reads `collaborators`, which is `[]` until the query has returned and after it has failed; finding no record for the user there, it creates one | a store already holding an active record for a@x in project "p": a heartbeat before the list arrives creates a second record for a@x | no heartbeat until the list has been fetched, so the lookup sees the user's record and updates it | not executed | ProjectsPage.PendingHeartbeatDuplicates | ProjectsPage.LoadedHeartbeatNoDuplicate |
| WebInterface/src/pages/Admin.jsx:124-149 | the upload form is drawn without waiting for the versions, and the upload deactivates the platform's active versions found in `downloadFiles`, which (line 34) is `[]` until the query has returned and after it has failed; the new version is then created active beside the old one | a store holding one active macOS installer: an upload before the list arrives leaves two active macOS versions | no upload until the versions have been fetched, so the old active version is found and deactivated | not executed | AdminPage.PendingUploadKeepsOldActive | AdminPage.LoadedUploadInstaller |
