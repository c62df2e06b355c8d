# Verified model of the TV tuner HAL

A Dafny model of the parts of this tuner HAL that keep state, loop and calculate: the DVR data path, the demux's packet
cache, PES assembly and filter registry, the descrambler's channel table, the id allocators of the tuner, and the PES,
EMM and record handlers of a filter. Every module has a model that follows the code (same branches, constants and error
conditions) and theorems over all inputs or all runs of it. `dafny verify dfyconfig.toml` checks the whole project.

Objects that the code updates in place are classes; their methods are proved against functions on the object's state,
and the theorems are about those functions. What drivers, other processes and libraries answer is a parameter: a reply
for each call, or a function from the number of the call to the reply. Where the code leaves a buffer, a table or the
range of a C integer, the model's outcome is `Undefined`.

| file | contents |
|---|---|
| `EsContainer.dfy` | the ES container: the parser of the playback DVR, a printer, and their round trip |
| `PlaybackFlush.dfy` | playback reader, `flush` and producer as an interleaved machine, and both functions as runs of it |
| `RecordLatch.dfy` | the record queue and its overflow latch |
| `RecordOffsets.dfy` | byte offsets of record events |
| `ScrambledCache.dfy` | the cache for packets of descramblers that are not ready |
| `PesAssembler.dfy` | start-code scan and PES reassembly over partial reads |
| `FilterRegistry.dfy` | the demux's filters, the playback and record ids and the DVR's copy |
| `ChannelTable.dfy` | the table of descrambling channels and the loops that fill and empty it |
| `DescramblerV10.dfy`, `DescramblerAidl.dfy` | the descramblers of HAL 1.0 and of the AIDL HAL over that table |
| `Tuner.dfy` | descrambler ids and internal demux ids |
| `FilterIds.dfy` | packed public filter ids |
| `PesChunks.dfy` | PES delivery in chunks |
| `EmmFilter.dfy` | EMM section matching |
| `IdSets.dfy`, `Options.dfy` | ascending iteration over a set; an optional value |

## What the proofs found

- ES container: the round trip holds for every list of frames whose container fits a C int, and every filter receives
  exactly the frames of its pid. A buffer that holds anything behind a good container, such as a second one, is
  rejected (`EsContainer.TrailingBytesRejected`), and `AnnouncedExactly` says what every other announcement leads to.
- A playback reader that is started after its loop has seen it stopped, and before the tail guard loads that flag,
  dispatches all that is left as one tail, however long it is (`PlaybackFlush.LateStartDispatchesAll`), even when a
  flush has raised its flag by then (`FlushAndStartDispatchesAll`). Exactly then a chunk is longer than a unit
  (`OversizeExactly`). The thread of a virtual frontend reads without being started, so this can happen.
- Once the record queue overflows, new writes are dropped, but a write that had tested the status before still gets in
  if it fits (`RecordLatch.LatchHolds`, `UnderWayExactly`).
- A flush of the scrambled cache writes packets of every descrambler, ready or not (`ScrambledCache.FlushIgnoresOwner`);
  a pid whose descrambler waits is written early exactly when a flush for another one finds it in the cache
  (`ScrambledCache.NothingBeforeReadyExactly`).
- Outside live usage a session handle of 0 is kept, and the poll then fills the channel table
  (`DescramblerAidl.HandleZeroFillsOutsideLive`); `closeDsmSession` under a ready descrambler breaks the table's
  invariant (`EndedSessionKeepsChannels`). `StepKeepsExactly` says which steps break it, and `StepSafeExactly` and
  `AlwaysSafeExactly` say when the safety that it is for is lost: for a handle of 0, not before a poll enters a channel
  (`HandleZeroExactly`).
- Opening a record DVR ends the session and sets the backed-up token again. A session is open afterwards exactly when
  that token is not the one in live use and the new session is open and live
  (`DescramblerAidl.RecordDvrSessionExactly`). A token that was set in live usage is the one in use, so while the usage
  stays live the session is lost (`LiveTokenIsBackedUp`, `RecordDvrLosesSession`).
- In HAL 1.0 `close` leaves the ready flag and the pids, so the channels disagree afterwards (`CloseAgreesExactly`), and
  a failed bind leaves a channel that nothing frees, at most one per failed `addPid` or poll
  (`DescramblerV10.OrphanIsAFailedBind`, `PollLeaksOne`).
- The last bytes of a PES packet are dropped when there are no fewer full chunks than tail bytes
  (`PesChunks.DeliversExactly`).
- A PES packet whose time stamp is zero, or whose optional fields cannot be read, is emitted with zeros behind the fields
  that were read (`PesAssembler.Reassembly`, `FailedHeader`).
- In HAL 1.1 the record thread remembers the pid of a detached video filter, also from a poll without data, and the
  events of the filters that are left carry no offset (`RecordOffsets.DetachedVideoLosesOffset`; `OffsetsAreSums` and
  `AimedExactly` give the exact condition).
- A filter's `close` frees its id at the device before it leaves the registry, so a filter opened in between can be a
  playback and a record filter at once (`FilterRegistry.CloseRace`).
- Filter id 0 does not always survive packing (`FilterIds.DecodesToFilter`). The code's own allocator starts at 1 in the
  AIDL HAL.

## Model

| member | source | states |
|---|---|---|
| EsContainer.GetMetaDataValue | aidl/Dvr.cpp:872-877 | the value and the end position are those of the decimal reading; leaving the buffer or the int range is reported |
| EsContainer.ProcessEs | aidl/Dvr.cpp:759-870 | for every byte buffer: rejected, undefined, or the frames, and what each media filter is given of them |
| EsContainer.ReadHeaderLoop | aidl/Dvr.cpp:782-838 | the header loop ends, with the parsed header or where it leaves the buffer |
| EsContainer.SendFrames | aidl/Dvr.cpp:846-867 | the frame loop cuts out every table entry and hands it to the filters of its pid, and to none while recording |
| EsContainer.ToUint64Exactly | aidl/Dvr.cpp:858-859 | a time stamp is handed on modulo 2 to the 64th |
| EsContainer.UpdateMediaFilters | aidl/Dvr.cpp:855-860 | one frame goes to exactly the filters of its pid |
| EsContainer.RoutedExactly | aidl/Dvr.cpp:849-865 | over all frames, a filter receives exactly those of its pid, in order, and nothing while recording |
| EsContainer.HeaderSwitch | aidl/Dvr.cpp:783-831 | one iteration of the header switch |
| EsContainer.Characters | aidl/Dvr.cpp:783-812 | the bytes the switch looks for are these characters |
| EsContainer.FrameSwitch | aidl/Dvr.cpp:807-828 | one frame line, with its two position jumps |
| EsContainer.ReadsNumber | aidl/Dvr.cpp:872-877 | a printed number is read back as its value |
| EsContainer.ReadsValueExactly | aidl/Dvr.cpp:872-877 | any bytes up to an end, digits or not, are read as a value exactly when no C int overflows on the way |
| EsContainer.NoEndNoValue | aidl/Dvr.cpp:872-877 | without an end in the buffer there is no value |
| EsContainer.ReadsItem | aidl/Dvr.cpp:783-831 | what any printed field does to the parser's variables, also when it comes again: its digits are appended |
| EsContainer.ReadsHeader | aidl/Dvr.cpp:782-806 | a header with each field once, sizes in the right order, leaves the announced values in the parser |
| EsContainer.ReadsLines | aidl/Dvr.cpp:807-838 | the frame lines fill the table; start indices are prefix sums |
| EsContainer.FrameOverflows | aidl/Dvr.cpp:816-824 | a frame length that moves the pointer of its kind out of the range of a C int makes the run undefined |
| EsContainer.VideoSizeOverflows | aidl/Dvr.cpp:793-796 | so does a video size that moves the pointer to the audio bytes out of range |
| EsContainer.AnnouncedExactly | aidl/Dvr.cpp:759-867 | for every readable header and every list of frame lines, with any bytes behind them: too few lines or sizes that do not add up are rejected, too many leave the table, and otherwise the frames are the slices at the prefix sums |
| EsContainer.TrailingBytesRejected | aidl/Dvr.cpp:840-844 | a good container with anything behind it is rejected |
| EsContainer.WrongSizesRejected | aidl/Dvr.cpp:840-844 | so is one whose announced sizes are not those of its payload |
| EsContainer.GarbledLineRejected | aidl/Dvr.cpp:807-812 | and one with a frame line that has no comma behind its letter |
| EsContainer.RoundTrip | aidl/Dvr.cpp:759-870 | for every well-announced container, parsing what was printed delivers exactly the frames in order |
| EsContainer.EncodeRoundTrip | aidl/Dvr.cpp:759-870 | every list of audio and video frames has a container that parses back to it |
| EsContainer.EncodeReachesFilters | aidl/Dvr.cpp:759-870 | printing, parsing and routing gives each filter the samples of its pid |
| EsContainer.SliceIsContent | aidl/Dvr.cpp:818-853 | the slice a table entry names is the frame's content |
| EsContainer.SlicesTile | aidl/Dvr.cpp:818-853 | slices do not overlap, and consecutive frames of a kind abut |
| EsContainer.SlicesCover | aidl/Dvr.cpp:818-853 | every payload byte belongs to a slice |
| PlaybackFlush.RunKeeps | aidl/Dvr.cpp:705-757 | in every interleaving, starts at any time included, the chunks taken and the queue are what was produced, no read fails, no chunk is empty |
| PlaybackFlush.NextKeeps | aidl/Dvr.cpp:705-757 | every atomic action keeps that invariant |
| PlaybackFlush.ReadFailsExactly | aidl/Dvr.cpp:734-750 | a read fails exactly when the queue has fewer bytes than it asks for |
| PlaybackFlush.TakesMutexExactly | aidl/Dvr.cpp:245 | who gets the mutex, and when the reader goes on with a whole unit |
| PlaybackFlush.FlagStopsReader | aidl/Dvr.cpp:733-747 | a reader that is at a guard when a flush raises its flag takes nothing more, in any interleaving |
| PlaybackFlush.ReaderEnds | aidl/Dvr.cpp:712-757 | a reader that holds the mutex releases it after a bounded number of its own actions |
| PlaybackFlush.LateExactly | aidl/Dvr.cpp:733-747 | with each load of a flag a step of its own: which action puts the reader before a tail read with more than a unit left, and which end that |
| PlaybackFlush.LateMeansStarted | aidl/Dvr.cpp:160-168 | in every run that is so exactly since a start that fell behind the reader's loop and before the last load of its tail guard |
| PlaybackFlush.OversizeExactly | aidl/Dvr.cpp:733-755 | in every run a dispatched chunk is longer than a unit exactly when such a start came before it and nothing stopped it |
| PlaybackFlush.StartsInTimeSizes | aidl/Dvr.cpp:733-755 | without such a start every chunk has at most a unit |
| PlaybackFlush.LateStartDispatchesAll | aidl/Demux.cpp:1496-1519 | a run in which the whole queue is dispatched as one tail |
| PlaybackFlush.FlushAndStartDispatchesAll | aidl/Dvr.cpp:747 | the same with a flush and a start between the two loads of the tail guard |
| PlaybackFlush.FlushLeavesNothingStale | aidl/Dvr.cpp:233-273 | nothing produced before a flush took the mutex is dispatched after it, in any continuation |
| PlaybackFlush.NoDispatchDuringFlush | aidl/Dvr.cpp:244-265 | while a flush holds the mutex no chunk is dispatched |
| PlaybackFlush.FlushEnds | aidl/Dvr.cpp:244-265 | a flush that holds the mutex releases it after a bounded number of its own actions |
| PlaybackFlush.Dvr.Flush | aidl/Dvr.cpp:233-265 | the loop is a run of the machine and empties the queue |
| PlaybackFlush.Dvr.ReadPlaybackFMQ | aidl/Dvr.cpp:727-757 | the function is a run of the machine; it takes everything, or nothing when it may not inject |
| RecordLatch.RunConserves | aidl/Dvr.cpp:908-922 | in every run bytes read, flushed and still queued are the accepted chunks in order, within the capacity |
| RecordLatch.OverflowBeginsExactly | aidl/Dvr.cpp:914-953 | a step sets OVERFLOW exactly if it is a status check that finds the queue full, with a callback |
| RecordLatch.OverflowEndsExactly | aidl/Dvr.cpp:266-270 | the steps that end it: a start, the reset of a flush, or an outstanding check after the client has read |
| RecordLatch.CheckExactly | aidl/Dvr.cpp:924-953 | which of the four statuses a check leaves, by the thresholds |
| RecordLatch.OtherStatusExactly | aidl/Dvr.cpp:180-270 | which other steps set the status |
| RecordLatch.TakesExactly | aidl/Dvr.cpp:250-262 | what a client read and a flush step take out of the queue |
| RecordLatch.QueueWriteExactly | aidl/Dvr.cpp:914 | a write that has passed its status test is queued exactly if its chunk fits then, whatever the status is by now |
| RecordLatch.WriteExactly | aidl/Dvr.cpp:908-922 | an uninterrupted write succeeds exactly if its chunk fits or the latch is set, and drops it in the second case |
| RecordLatch.LatchHolds | aidl/Dvr.cpp:908-914 | until such a step every new write is dropped with success, whatever the client reads, and at most the chunk of a write already under way is still queued |
| RecordLatch.UnderWayExactly | aidl/Dvr.cpp:908-914 | that chunk is queued exactly if it fits when its turn comes |
| RecordLatch.SettledLatchHolds | aidl/Dvr.cpp:908-953 | with no check outstanding, only a start or a flush ends it |
| RecordLatch.WriteAloneIsRun | aidl/Dvr.cpp:908-922 | an uninterrupted write is the run of its three steps |
| RecordLatch.FlushAloneEmpties | aidl/Dvr.cpp:246-270 | an uninterrupted flush empties the queue and releases the latch |
| RecordLatch.DrainIsRun | aidl/Dvr.cpp:251-270 | the flush loop is the run of its single steps |
| RecordLatch.FlushAloneIsRun | aidl/Dvr.cpp:244-270 | an uninterrupted flush is a run of the machine |
| RecordLatch.FlushBegins | aidl/Dvr.cpp:244-249 | a flush begins with all that is queued, and waits for another one's end |
| RecordLatch.Dvr.WriteRecordFMQ | aidl/Dvr.cpp:908-922 | the new queue, status and result of an uninterrupted write |
| RecordLatch.Dvr.MaySendRecordStatusCallback | aidl/Dvr.cpp:924-953 | the new status |
| RecordLatch.Dvr.Start | aidl/Dvr.cpp:149-185 | a start with a callback and settings resets the status |
| RecordLatch.Dvr.Flush | aidl/Dvr.cpp:233-272 | the state after an uninterrupted flush |
| RecordOffsets.OffsetsAreSums | 1.1/Dvr.cpp:326-381 | over every run with changing filters and polls without data, all PUSI events carry the sum of the earlier PUSI chunks' lengths exactly if every accepted chunk met a condition on the state before it |
| RecordOffsets.NextExact | 1.1/Dvr.cpp:326-381 | that condition, for one step |
| RecordOffsets.IterationSends | 1.1/Demux.cpp:1041-1110 | the event of an accepted chunk carries the chunk's offset and index, or what was left in the filter; a refused chunk sends none but is counted |
| RecordOffsets.AimedExactly | 1.1/Dvr.cpp:330-379 | the used pid is the dispatched filter's exactly under a condition on that filter and the remembered pid, for any filters |
| RecordOffsets.ConsistentAimed | 1.1/Filter.cpp:420-434 | what that means while filters record their own pids |
| RecordOffsets.DirectSends | 1.1/Demux.cpp:1005-1039 | in direct mode the dispatched filter's event carries the bytes and what was left in the filter; nothing is counted |
| RecordOffsets.ChosenExactly | 1.1/Demux.cpp:1081-1106 | which filter is dispatched, by the positions of those that record video or audio |
| RecordOffsets.ModeExactly | 1.1/Dvr.cpp:330-340 | when PUSI mode is chosen, what is remembered, and which pid is used |
| RecordOffsets.DispatchExactly | 1.1/Filter.cpp:1693-1813 | the event sent, the chosen filter's new state, and that the others stay |
| RecordOffsets.FiltersAfter | 1.1/Dvr.cpp:326-381 | every filter after one iteration |
| RecordOffsets.DetachedVideoLosesOffset | 1.1/Dvr.cpp:330-371 | a run from the start in which a poll without data makes a later event lose its offset |
| RecordOffsets.Recorder.GetRecordVideoPid | 1.1/Demux.cpp:1459-1468 | the first video pid in filter order |
| RecordOffsets.Recorder.GetRecordAudioPid | 1.1/Demux.cpp:1470-1479 | the first audio pid in filter order |
| RecordOffsets.Recorder.ChooseFilter | 1.1/Demux.cpp:1081-1106 | the first video filter, else the first audio filter, else the first |
| RecordOffsets.Recorder.SendFrontendInputToRecord | 1.1/Demux.cpp:1005-1039 | the bytes are appended to that filter |
| RecordOffsets.Recorder.SendWithOffset | 1.1/Demux.cpp:1041-1052 | exactly the filters of the pid are marked |
| RecordOffsets.Recorder.StartRecordFilterDispatcher | 1.1/Filter.cpp:1693-1813 | the event sent and the filter's new state, on success and on a refused write |
| RecordOffsets.Recorder.ChooseMode | 1.1/Dvr.cpp:330-340 | PUSI mode and the pids remembered |
| RecordOffsets.Recorder.RecordOnce | 1.1/Dvr.cpp:326-382 | the state after one iteration of the record thread, with or without data |
| ScrambledCache.Demux.StartBroadcastTsFilter | 1.0/Demux.cpp:791-869 | the cache, the device and the packets lost after one call, for every reply of device and descramblers |
| ScrambledCache.Demux.WriteTs | 1.0/Demux.cpp:841-853 | a write reaches the device or changes nothing |
| ScrambledCache.CacheBounded | 1.0/Demux.cpp:812-821 | in every run the cache is whole sync-aligned packets within 30 MiB |
| ScrambledCache.CacheOnlyOwned | 1.0/Demux.cpp:809-824 | it holds only pids that some descrambler had |
| ScrambledCache.AgreesWithPassThrough | 1.0/Demux.cpp:791-869 | written bytes and cache agree with pass-through for a pid exactly when, while one of its packets was there, the cache never grew beyond 30 MiB and no flush was refused 102 times |
| ScrambledCache.RunKeepsPid | 1.0/Demux.cpp:791-869 | what was accepted of a pid is what came in, in order |
| ScrambledCache.LossIsExact | 1.0/Demux.cpp:814-848 | what was written of a pid falls short of what was accepted exactly when a packet of it left unwritten |
| ScrambledCache.StepExactly | 1.0/Demux.cpp:791-869 | cache and device after every step: held, reset, flushed, lost in a flush, passed or left out |
| ScrambledCache.StepLosesExactly | 1.0/Demux.cpp:812-848 | a step loses a packet of a pid exactly on a reset or given-up flush that meets one |
| ScrambledCache.RunLosesExactly | 1.0/Demux.cpp:812-848 | so over every run |
| ScrambledCache.SmallRunsNeverDrop | 1.0/Demux.cpp:812-848 | a run that fits the cap, with every flush taken in time, loses nothing |
| ScrambledCache.BlockedWrites | 1.0/Demux.cpp:809-848 | what one packet writes of a pid whose descrambler is not ready: the pid's cached packets on a flush, else nothing |
| ScrambledCache.NothingBeforeReadyExactly | 1.0/Demux.cpp:809-848 | with any number of descramblers, nothing of such a pid is written in a run exactly if no flush finds a packet of it |
| ScrambledCache.NothingBeforeReady | 1.0/Demux.cpp:809-824 | so with one descrambler nothing of its pids is written before it is ready |
| ScrambledCache.FlushIgnoresOwner | 1.0/Demux.cpp:835-848 | a run with two descramblers in which a flush finds one |
| ScrambledCache.ReadPlaybackFMQ | 1.0/Dvr.cpp:280-318 | the packet-at-a-time reader runs the filter on every whole packet, until the queue is short or the thread is stopped |
| ScrambledCache.PlaybackAgrees | 1.0/Dvr.cpp:280-318 | playing a queue delivers every filtered pid's packets exactly under that condition |
| ScrambledCache.PidIsMasks | 1.0/Demux.cpp:793 | the pid is the code's masks and shift of two header bytes |
| ScrambledCache.ScramblingIsShift | 1.0/Demux.cpp:794 | the scrambling control is the upper two bits of the fourth |
| PesAssembler.ScanFindsFirst | 1.1/Demux.cpp:145-149 | of the positions scanned, exactly the last ends in a start code when one is found |
| PesAssembler.LocksAtFirst | 1.1/Demux.cpp:145-149 | the scan locks at the first start code, counting zeros before the first byte |
| PesAssembler.ScanExactly | 1.1/Demux.cpp:142-149 | by the driver's replies alone: the scan ends behind the first start code among the bytes delivered one by one, and finds none exactly if there is none |
| PesAssembler.PushIsShift | 1.1/Demux.cpp:146-148 | the register by its bytes is the shifted and masked 64-bit value |
| PesAssembler.ShiftMaskOr | 1.1/Demux.cpp:146 | shift, mask and or keep the low 32 bits and append a byte |
| PesAssembler.StartByValue | 1.1/Demux.cpp:148-149 | the start-code test on bytes is the comparison of the low 32 bits |
| PesAssembler.TimeStampIsShiftOr | 1.1/Demux.cpp:176-180 | the shifts and ors of the time stamp are a sum of disjoint parts |
| PesAssembler.TimeStampRoundTrip | 1.1/Demux.cpp:176-180 | the time stamp field of section 2.4.3.6 of ISO/IEC 13818-1 is read back as its value |
| PesAssembler.EncodeTimeStampOf | 1.1/Demux.cpp:176-180 | a field is the encoding of its value exactly when its marker bits are set |
| PesAssembler.Reassembly | 1.1/Demux.cpp:151-232 | with a nonzero time stamp the packet is emitted as it stands in the stream, however payload reads are split, exactly when all of it was read; with a zero one the payload is zeros |
| PesAssembler.SplitReadsAll | 1.1/Demux.cpp:214-228 | a payload that the replies bring in any split, with errors other than failures between, is read whole |
| PesAssembler.PayloadExactly | 1.1/Demux.cpp:214-228 | and it is read whole only so |
| PesAssembler.ReassemblyExactly | 1.1/Demux.cpp:151-232 | by the replies alone, when a packet with a time stamp is emitted and when nothing is |
| PesAssembler.SplitPacketEmitted | 1.1/Demux.cpp:151-232 | every split of a packet's payload emits it |
| PesAssembler.StartThenPacket | 1.1/Demux.cpp:132-249 | single bytes up to the first start code and then any split of a packet emit it |
| PesAssembler.UndefinedExactly | 1.1/Demux.cpp:172-206 | exactly which buffers are too short for the time stamps that the flags announce |
| PesAssembler.NoLength | 1.1/Demux.cpp:150-158 | without a length nothing is emitted and nothing more is read |
| PesAssembler.HalfLength | 1.1/Demux.cpp:150-158 | a missing second byte of the length counts as zero |
| PesAssembler.LengthIsShiftOr | 1.1/Demux.cpp:152-158 | the length is the shift and or of its two bytes |
| PesAssembler.ReadExactly | 1.1/Demux.cpp:145-152 | what the model takes a driver read to answer to each reply |
| PesAssembler.FixedFields | 1.1/Demux.cpp:151-209 | the fixed fields land in the buffer, and unusable ones end the read |
| PesAssembler.HeaderCases | 1.1/Demux.cpp:172-232 | what is emitted behind the fixed fields, by time stamp and bytes read |
| PesAssembler.FailedHeader | 1.1/Demux.cpp:172-232 | when the optional fields cannot be read, the fixed fields and zeros are emitted |
| PesAssembler.FirstPacket | 1.1/Demux.cpp:132-249 | the whole function emits the packet behind the first start code |
| PesAssembler.Device.AmDmxRead | 1.1/Demux.cpp:145-152 | what the model takes a driver read to be |
| PesAssembler.ReadPayload | 1.1/Demux.cpp:214-228 | the do-while loop fills the buffer with consecutive stream bytes |
| PesAssembler.ReadHeader | 1.1/Demux.cpp:172-232 | the outcome from the optional fields on |
| PesAssembler.ReadPacket | 1.1/Demux.cpp:150-232 | the outcome from the length field on |
| PesAssembler.CombinePesData | 1.1/Demux.cpp:132-249 | the outcome of the whole function |
| FilterRegistry.NextAgreesExactly | aidl/Demux.cpp:536-640 | a call keeps playback ids, record ids and the DVR's copy in agreement exactly when it does not open a filter over a registered one of another part |
| FilterRegistry.RunAgrees | aidl/Demux.cpp:1001-1043 | agreement and disjoint ids over every run of such calls |
| FilterRegistry.OrderlyRunAgrees | aidl/Demux.cpp:536-640 | if ids are given back after removal, every run agrees |
| FilterRegistry.RemoveAgrees | aidl/Demux.cpp:1001-1043 | a removed id is in none of the maps and sets |
| FilterRegistry.CloseRace | aidl/Filter.cpp:822-835 | the order in a filter's `close` breaks the agreement |
| FilterRegistry.NextFilters | aidl/Demux.cpp:536-640 | for every call and id, which filter is under the id afterwards, and whether there is an entry |
| FilterRegistry.NextPlayback | aidl/Demux.cpp:620-629 | and whether it is a playback id |
| FilterRegistry.NextRecord | aidl/Demux.cpp:1573-1598 | and whether it is a record id |
| FilterRegistry.NextDvrs | aidl/Demux.cpp:862-929 | and which DVRs there are and what the playback DVR has for it |
| FilterRegistry.NextUsed | aidl/Demux.cpp:566-572 | and whether the device has it in use |
| FilterRegistry.CallsSucceed | aidl/Demux.cpp:862-929 | when the calls succeed |
| FilterRegistry.RecordedExactly | aidl/Demux.cpp:1573-1598 | over every run, the record ids are those attached with success and since then neither detached nor removed |
| FilterRegistry.CloseClears | aidl/Demux.cpp:808-836 | after `close` no id is registered in any part and there is no DVR |
| FilterRegistry.NothingRecordedAfterClose | aidl/Demux.cpp:1573-1585 | until a record DVR is opened again, no filter can be attached |
| FilterRegistry.Demux.OpenFilter | aidl/Demux.cpp:536-640 | the registry after opening a filter, with its error paths |
| FilterRegistry.Demux.RemoveFilter | aidl/Demux.cpp:1001-1043 | the registry after removing a filter |
| FilterRegistry.Demux.AttachRecordFilter | aidl/Demux.cpp:1573-1585 | the record ids after attaching, and the entry a vain lookup leaves |
| FilterRegistry.Demux.DetachRecordFilter | aidl/Demux.cpp:1587-1598 | the record ids after detaching |
| FilterRegistry.Demux.OpenPlaybackDvr | aidl/Demux.cpp:862-904 | the new DVR holds the entries of all playback ids; without a callback nothing changes |
| FilterRegistry.Demux.OpenRecordDvr | aidl/Demux.cpp:862-929 | the registry after opening a record DVR, with its error paths |
| FilterRegistry.Demux.Close | aidl/Demux.cpp:808-836 | nothing stays registered |
| ChannelTable.PackIsShiftOr | 1.0/Descrambler.cpp:40 | the key macro is a sum for 13-bit pids |
| ChannelTable.PackInjective | 1.0/Descrambler.cpp:40 | keys of different types or pids differ |
| ChannelTable.KeysExactly | 1.0/Descrambler.cpp:40 | the keys of a pid in numbers |
| ChannelTable.SlotFields | 1.0/Descrambler.cpp:29-31 | algorithm type, slot and IV flag are the bit fields of the slot id |
| ChannelTable.MasksAreParts | 1.0/Descrambler.cpp:29-31 | those are what the macros' shifts and masks cut out |
| ChannelTable.KeyTypeExactly | 1.0/Descrambler.cpp:509-528 | the driver's number for a key type is made of parity and IV flag |
| ChannelTable.DscTypeExactly | 1.0/Descrambler.cpp:538-598 | the channel type of each algorithm type |
| ChannelTable.PickAlgoFirst | 1.0/Descrambler.cpp:638-646 | the algorithm is that of the first slot on the wanted side |
| ChannelTable.ReadModeExactly | 1.0/Descrambler.cpp:630-660 | the mode after the session's answers, and when they are complete |
| ChannelTable.NskSlotSound | 1.0/Descrambler.cpp:175-279 | one key slot keeps channels and table in step and touches only the pid's own channels, also when a call fails |
| ChannelTable.NskSlotsSound | 1.0/Descrambler.cpp:509-608 | so does the loop over all slots of a pid, wherever it stops |
| ChannelTable.NskSlotsProgram | 1.0/Descrambler.cpp:509-608 | a successful loop sets every slot on its own type's channel with the decoded slot id and IV flag |
| ChannelTable.NskSlotsSucceedExactly | 1.0/Descrambler.cpp:509-608 | the loop succeeds exactly if every slot has a key type and an algorithm type and the driver's next answers are fresh handles and zeros |
| ChannelTable.CommonChannelSound | 1.0/Descrambler.cpp:283-298 | common mode enters a fully programmed channel or none |
| ChannelTable.BindKeeps | 1.0/Descrambler.cpp:384-406 | binding changes one channel's keys only |
| ChannelTable.BindSucceedsExactly | 1.0/Descrambler.cpp:384-406 | binding succeeds exactly if every slot has a key type and every call answers zero |
| ChannelTable.AllocAllSound | 1.0/Descrambler.cpp:428-449 | filling the table for all pids is sound, and complete on success |
| ChannelTable.CommonLeak | 1.0/Descrambler.cpp:283-298 | a failed call loses no channel, or one of the pid with the settings before the one refused; a successful one loses none |
| ChannelTable.AllocAllLeaks | 1.0/Descrambler.cpp:428-449 | the loop over all pids loses at most one such channel, and only when it fails |
| ChannelTable.FillSound | aidl/Descrambler.cpp:839-849 | becoming ready programs every pid's channels or empties the table again |
| ChannelTable.AllocAllExactly | 1.0/Descrambler.cpp:428-449 | in common mode all channels are set up exactly if the slots have key types and the driver's next answers are fresh handles and zeros |
| ChannelTable.AllocAllHandles | 1.0/Descrambler.cpp:428-449 | the pids get the driver's handles in ascending order |
| ChannelTable.FillCommonExactly | 1.0/Descrambler.cpp:662-671 | so for becoming ready in common mode |
| ChannelTable.ClearEmpties | 1.0/Descrambler.cpp:408-426 | clearing frees exactly the table's channels |
| ChannelTable.DropExactly | 1.0/Descrambler.cpp:312-342 | dropping a pid frees exactly the channels under its keys and forgets exactly those keys and the pid |
| ChannelTable.KeysExact | aidl/Descrambler.cpp:252-405 | under agreement the keys are the pids, times the types present in NSK mode |
| ChannelTable.RecordAgrees | aidl/Descrambler.cpp:252-405 | a successful `addPid` keeps the agreement |
| ChannelTable.ForgetAgrees | aidl/Descrambler.cpp:441-473 | `removePid` keeps the agreement |
| ChannelTable.Channels.AllocNskChannels | 1.0/Descrambler.cpp:171-280 | the table and channels after the key-slot loop |
| ChannelTable.Channels.BindDscChannelToKeyTable | 1.0/Descrambler.cpp:384-406 | the channel after binding |
| ChannelTable.Channels.AllocCommonChannel | 1.0/Descrambler.cpp:283-298 | the table after allocating and binding one channel |
| ChannelTable.Channels.AllocDscChannels | 1.0/Descrambler.cpp:498-611 | the table after the loop over all pids |
| ChannelTable.Channels.ClearDscChannels | 1.0/Descrambler.cpp:451-496 | the table after freeing the channels of all pids |
| ChannelTable.Channels.FreePid | 1.0/Descrambler.cpp:312-342 | the table after freeing one pid's channels |
| ChannelTable.Channels.AddPidChannel | 1.0/Descrambler.cpp:153-299 | a pid that has a channel is left alone |
| ChannelTable.Channels.LoadSlots | 1.0/Descrambler.cpp:630-660 | mode, slots, algorithm and type after the session's answers |
| DescramblerV10.Conservation | 1.0/Descrambler.cpp:144-374 | in every run live channels are those of the table and failed binds; in NSK runs exactly those of the table |
| DescramblerV10.StepKeeps | 1.0/Descrambler.cpp:144-374 | what every call and poll keeps |
| DescramblerV10.CloseFreesAll | 1.0/Descrambler.cpp:349-374 | closing leaves no channel but those of failed binds |
| DescramblerV10.OrphanIsAFailedBind | 1.0/Descrambler.cpp:285-294 | `addPid` loses at most one channel, of its pid, with the settings before the one refused, and only when it fails |
| DescramblerV10.PollLeaksOne | 1.0/Descrambler.cpp:613-677 | a poll loses at most one such channel, of one of the pids, and only when it fails in common mode |
| DescramblerV10.Agreement | 1.0/Descrambler.cpp:144-347 | over runs without a failed call, keys are exactly pids or pids times types |
| DescramblerV10.StepAgrees | 1.0/Descrambler.cpp:144-347 | each such step keeps the agreement |
| DescramblerV10.CloseAgreesExactly | 1.0/Descrambler.cpp:349-374 | after `close` the agreement holds exactly when it was not ready or had no pid |
| DescramblerV10.AddExactly | 1.0/Descrambler.cpp:144-302 | `addPid` records the pid always, and works on channels only when ready and for a pid without one |
| DescramblerV10.RemoveExactly | 1.0/Descrambler.cpp:304-347 | `removePid` frees exactly the pid's channels and forgets exactly their keys and the pid |
| DescramblerV10.ReadyExactly | 1.0/Descrambler.cpp:613-677 | exactly when a poll makes the descrambler ready |
| DescramblerV10.CloseExactly | 1.0/Descrambler.cpp:349-374 | what `close` forgets, and that it keeps pids and ready flag |
| DescramblerV10.Descrambler.AddPid | 1.0/Descrambler.cpp:144-302 | the state after `addPid` |
| DescramblerV10.Descrambler.RemovePid | 1.0/Descrambler.cpp:304-347 | the state after `removePid` |
| DescramblerV10.Descrambler.IsDescramblerReady | 1.0/Descrambler.cpp:613-677 | the state after one poll |
| DescramblerV10.Descrambler.Close | 1.0/Descrambler.cpp:349-374 | the state after `close` |
| DescramblerAidl.StepKeepsExactly | aidl/Descrambler.cpp:125-537 | exactly the allowed steps keep the session-usage invariant |
| DescramblerAidl.StepSafeExactly | aidl/Descrambler.cpp:125-537 | for its safety part alone: the exact condition under which any step from any safe state keeps it |
| DescramblerAidl.AlwaysSafeExactly | aidl/Descrambler.cpp:125-537 | a run is safe after every step exactly if each of its steps meets that condition |
| DescramblerAidl.HandleZeroExactly | aidl/Descrambler.cpp:163-166 | a handle of 0 outside live usage stays safe exactly until a poll enters a channel |
| DescramblerAidl.SetTokenKeeps | aidl/Descrambler.cpp:125-221 | `setKeyToken` keeps it unless it gets handle 0 outside live usage |
| DescramblerAidl.CloseKeeps | aidl/Descrambler.cpp:478-537 | `close` empties the table, and keeps it unless live and ready |
| DescramblerAidl.SetTokenExactly | aidl/Descrambler.cpp:125-221 | what `setKeyToken` does to tokens, channels, session and usage, and what it returns |
| DescramblerAidl.AddExactly | aidl/Descrambler.cpp:223-408 | what `addPid` does and returns, by usage, readiness and the pid's channels |
| DescramblerAidl.RemoveExactly | aidl/Descrambler.cpp:410-476 | `removePid` frees and forgets exactly what belongs to the pid in live usage, and the pid alone in playback usage |
| DescramblerAidl.ReadyExactly | aidl/Descrambler.cpp:784-854 | exactly when a poll makes the descrambler ready |
| DescramblerAidl.CloseExactly | aidl/Descrambler.cpp:478-537 | what `close` and `closeDsmSession` forget, by usage |
| DescramblerAidl.RunSafe | aidl/Descrambler.cpp:125-537 | every allowed run is safe and conserves channels, and closing empties the table |
| DescramblerAidl.OrdinaryRunsAllowed | aidl/Descrambler.cpp:125-537 | runs without `close`, `closeDsmSession` and handle 0 are allowed |
| DescramblerAidl.RekeyStartsEmpty | aidl/Descrambler.cpp:784-854 | becoming ready starts from an empty table in live usage and programs every pid |
| DescramblerAidl.Agreement | aidl/Descrambler.cpp:223-476 | over allowed runs without a failed `addPid`, ready means live, in a session, and exact keys |
| DescramblerAidl.StepAgrees | aidl/Descrambler.cpp:223-476 | each such step keeps the agreement |
| DescramblerAidl.HandleZeroFillsOutsideLive | aidl/Descrambler.cpp:163-166 | a run that fills the table in playback usage |
| DescramblerAidl.EndedSessionKeepsChannels | aidl/Descrambler.cpp:913-918 | ending a session under a ready descrambler keeps live channels in playback usage |
| DescramblerAidl.RecordDvrSessionExactly | aidl/Demux.cpp:918-926 | opening a record DVR leaves a session open exactly if the backed-up token is not the one in live use and the new session is open and live |
| DescramblerAidl.RecordDvrLosesSession | aidl/Demux.cpp:918-926 | if it is in use, only the session is lost, and no poll brings it back |
| DescramblerAidl.LiveTokenIsBackedUp | aidl/Descrambler.cpp:137-160 | a token set in live usage is the one in use |
| DescramblerAidl.OtherTokenReopens | aidl/Descrambler.cpp:137-160 | one set outside live usage is not, and the DVR opens its session |
| DescramblerAidl.ReopenKeeps | aidl/Demux.cpp:918-926 | opening a record DVR keeps the invariant exactly under a condition on tokens, readiness and the new session |
| DescramblerAidl.Descrambler.SetKeyToken | aidl/Descrambler.cpp:125-221 | the state after `setKeyToken`, with the token that is backed up; tokens of one to three bytes are read out of range |
| DescramblerAidl.ReadToken | aidl/Descrambler.cpp:140-142 | the loop over the token's bytes gives the number of the first four, least significant first |
| DescramblerAidl.SameToken | aidl/Descrambler.cpp:140-146 | two tokens count as the same exactly if they begin with the same four bytes |
| DescramblerAidl.TokenIsShiftOr | aidl/Descrambler.cpp:141 | shifting and or-ing a byte is multiplying and adding |
| DescramblerAidl.Descrambler.OpenDsmSession | aidl/Descrambler.cpp:163-221 | the session and usage after its last part |
| DescramblerAidl.Descrambler.ReopenForRecordDvr | aidl/Demux.cpp:918-926 | the state after a record DVR has been opened |
| DescramblerAidl.Descrambler.AddPid | aidl/Descrambler.cpp:223-408 | the state after `addPid` |
| DescramblerAidl.Descrambler.RemovePid | aidl/Descrambler.cpp:410-476 | the state after `removePid` |
| DescramblerAidl.Descrambler.IsDescramblerReady | aidl/Descrambler.cpp:784-854 | the state after one poll |
| DescramblerAidl.Descrambler.Close | aidl/Descrambler.cpp:478-537 | the state after `close` |
| DescramblerAidl.Descrambler.CloseSession | aidl/Descrambler.cpp:913-918 | the state after `closeDsmSession` |
| Tuner.NextIdIsFirstFree | 1.1/Tuner.cpp:508-541 | in reachable states the id is the first free one after the last used, or 0 when all are taken, and below 16 |
| Tuner.RingReachable | 1.1/Tuner.cpp:508-541 | in every run the last-used id is -1 exactly when nothing is open |
| Tuner.RingHistory | 1.1/Tuner.cpp:508-656 | over every run the open ids are those given out and not removed since, and the last-used id is the one given out last while any is open |
| Tuner.SearchNeedsInvariant | 1.1/Tuner.cpp:519-531 | without that the search would not end |
| Tuner.Tuner.OpenDescrambler | 1.1/Tuner.cpp:508-541 | the search ends within 16 probes at that id, and only its entry changes |
| Tuner.Tuner.RemoveDescrambler | 1.1/Tuner.cpp:649-656 | the state after removing a descrambler |
| Tuner.Tuner.AllocateDemuxResource | 1.1/Tuner.cpp:769-779 | the search ends on every list with the least free id |
| Tuner.Tuner.RemoveDemuxResource | 1.1/Tuner.cpp:781-790 | every occurrence of the id is erased |
| Tuner.Pigeonhole | 1.1/Tuner.cpp:772-775 | why the search ends |
| Tuner.AllocateThenRemove | 1.1/Tuner.cpp:769-790 | removing the id just allocated restores the list |
| Tuner.IdsStayDistinct | 1.1/Tuner.cpp:769-790 | the list stays free of duplicates over every run |
| FilterIds.FieldsOfAll | 1.1/Filter.cpp:348-390 | after any calls each field holds exactly the bits configured for it |
| FilterIds.DecodesToFilter | 1.1/Demux.cpp:1282-1287 | decoding returns the filter id, except exactly for small ids of filter 0 |
| FilterIds.SmallIds | 1.1/Demux.cpp:1282-1287 | which ids those are |
| FilterIds.PackedFields | 1.1/Filter.cpp:202-214 | a new filter's fields |
| FilterIds.PidThenTypeRecoverable | 1.1/Filter.cpp:348-390 | after one call of each kind all fields can be read back |
| FilterIds.TypeThenPidRecoverable | 1.1/Filter.cpp:789-816 | the same in the other order |
| FilterIds.Filter.Configure | 1.1/Filter.cpp:348-390 | a passthrough filter adds its pid |
| FilterIds.Filter.ConfigureAvStreamType | 1.1/Filter.cpp:789-816 | a passthrough media filter adds its stream type |
| PesChunks.DeliversExactly | 1.0/Filter.cpp:1126-1185 | all of the packet is delivered exactly when there are fewer full chunks than tail bytes, else the full chunks only |
| PesChunks.SentIsPrefix | 1.0/Filter.cpp:1132-1134 | the chunks are consecutive |
| PesChunks.ChunkIsSlice | 1.0/Filter.cpp:1134-1159 | each chunk is the slice of the packet it should be |
| PesChunks.ShortestLoss | 1.0/Filter.cpp:1132-1133 | packets of one chunk are never cut, one of 65536 bytes is |
| PesChunks.EventIsExact | 1.0/Filter.cpp:1143-1149 | an event's 16-bit length is its chunk's |
| PesChunks.EventAt | 1.0/Filter.cpp:1153-1155 | the k-th event is the k-th chunk's |
| PesChunks.Filter.SendChunk | 1.0/Filter.cpp:1136-1157 | queue and events after one chunk, or the cleared buffers after a refused write |
| PesChunks.Filter.SendChunks | 1.0/Filter.cpp:1132-1184 | the loop sends every chunk or stops at the first refused one |
| PesChunks.Filter.StartPesFilterHandler | 1.0/Filter.cpp:1060-1188 | sequence number, queue, events and result; a packet of less than four bytes is read out of range exactly when its write is taken |
| EmmFilter.PostFilteredEmmSection | 1.1/Filter.cpp:1097-1258 | a section is posted exactly when the map is unused, its entry enables it, or it asks for addresses and one fits; and exactly when a byte is read out of range |
| EmmFilter.WantedExactly | 1.1/Filter.cpp:1097-1258 | the rule by cases, with every offset and flag in numbers |
| EmmFilter.BitsExactly | 1.1/Filter.cpp:1205-1240 | the two ways of comparing bytes |
| EmmFilter.MatchAddresses | 1.1/Filter.cpp:1194-1246 | the address loop accepts exactly when some address matches |
| EmmFilter.MatchAddress | 1.1/Filter.cpp:1199-1245 | masked equality by id, intersection by bitmap |
| EmmFilter.FindTableId | 1.1/Filter.cpp:1118-1127 | the last matching entry, or none |
| EmmFilter.CountFlags | 1.1/Filter.cpp:1109-1116 | the count is zero exactly when no flag is set |
| EmmFilter.FieldsAreShifts | 1.1/Filter.cpp:1165-1196 | the section's fields are the shifts and masks of the code |

## Left out

- Hardware and libraries (`AM_DMX_*`, `dvr_*`, `ca_*`, `DSM_*`, MediaSync): only what a call may answer is modelled. `ca_alloc_chan` answers a negative value or a handle that is not live; the closing of the CA device does not free channels in the model.
- EsContainer.ProcessEs: takes the filters as the list of their pids in map order; the dispatcher that runs after each frame is left out.
- DescramblerV10.Descrambler.AddPid: the theorems take pids as 13 bits wide, which HAL 1.0 leaves to its callers.
- DescramblerAidl.Descrambler.RemovePid: playback and record handles are represented by the result of the call that uses them.
- PlaybackFlush.RunKeeps: leaves out the secure-buffer path and a DVR without a queue, and takes each single load and store of `mFlushing` and `mDvrThreadRunning` as atomic.
- ScrambledCache.Demux.StartBroadcastTsFilter: leaves out null descramblers; a refused write of the device is taken to write nothing.
- PesAssembler.CombinePesData: the register is kept as its five bytes, which PushIsShift and StartByValue relate to the number; a driver that answers neither data nor failure for ever is not modelled, and the decoded DTS, which nothing uses, only matters for the bounds of the buffer.
- RecordLatch.Dvr.WriteRecordFMQ: describes a write that nothing interrupts, as a method must; the machine has the status test, the queue write and the status check as three steps. The status before the first start is taken as DATA_READY.
- RecordLatch.OverflowBeginsExactly: takes `maySendRecordStatusCallback`, which runs under a lock of its own, as one step; a client read, a start or the reset of a flush between its two queue sizes and its store is not modelled.
- RecordOffsets.Recorder.StartRecordFilterDispatcher: takes time stamp, I-frame and unit-start flag of the driver's index as given; the bit masks of an event that are made of them, and dump files, are left out.
- FilterRegistry.Demux.AttachRecordFilter: takes the filter id after decoding the public id; the PES, PCR and TEMI id sets, which nothing here depends on, are left out.
- FilterRegistry.Demux.OpenFilter: which free id the device allocates is a parameter.
- FilterIds.Filter.Configure: 32 bits are enough for the 64-bit field, so the model has those.
- HAL 1.1's DVR, its descrambler and the 1.0 filter's EMM matching are siblings of what is modelled here and would only repeat it.
- Frontend, LNB, time filter, callbacks, logging, sysfs and JSON configuration: thin wrappers or I/O.
- `postData`'s non-passthrough read, DMA buffers, native handles and the frontend-to-demux map of the tuner.
