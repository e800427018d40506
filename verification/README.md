# A verified model of the RTSP streaming server

The server takes RTSP requests over TCP (RFC 2326), demuxes an H.264 file, paces its frames by a wall
clock, packs them into RTP (RFC 3550, RFC 6184) and sends them inside the RTSP connection. This project
models the parts between FFmpeg, the sockets and epoll, and proves what they are for. FFmpeg, the kernel
and the clock are parameters: a list of packets, arbitrary answers of `recv`, `send` and `sendmsg`, and
arbitrary clock readings.

Code that works in place is modelled in place: `RTSPSession`, `Demuxer`, `ReceivePath`, `Connection`,
`BlockingQueue` and `NonBlockingQueue` are classes, and the loops of the splitter, the packetizer, the
request parser, the Base64 encoder and the scatter-gather sender are loops. Each of these methods is proved
equal to a function on values, and the properties are proved about those functions. Threads are step
systems: every atomic step of every thread is a label, and a theorem about `Run(Start(...), labels)` holds
for every interleaving.

| file | what it holds |
|---|---|
| `Basics` | bytes, big-endian fields, sequence algebra |
| `AnnexB`, `H264Packetizer`, `RtpPacket`, `RtpSender`, `Base64`, `Extradata` | the codecs and their inverses |
| `VideoStream`, `VideoReceiver` | from a frame to the bytes on the connection, against a strict receiver |
| `Text`, `Request`, `Receive`, `RequestStream`, `Response` | the request parser, the incremental receive path, printed request streams, printed responses |
| `EndlessDrain` | the buffers on which the receive loop never ends, and those on which it does |
| `MediaSource` | timestamps, seeks and the prefetched frame |
| `Session`, `SessionSafety`, `SessionStream`, `SessionTimestamps`, `SessionPacing` | the session state machine and its whole-run invariants |
| `SessionProtocol`, `SessionRange`, `SessionDurations` | which requests are granted, the end of a range, the length of the last frame |
| `SessionRestarts`, `SessionStale`, `SessionLostPause` | where timestamps step back and a pause is forgotten: exact conditions and runs from a new session |
| `RtspSession`, `NonBlockingQueue` | the session object that does the same in place |
| `Egress`, `EgressSteps`, `EgressProgress` | the outgoing byte queue, one call at a time and under interleaving, and that it is emptied |
| `Delivery`, `Answers` | session, outgoing queue and receiver in one theorem; the CSeqs the client reads |
| `BlockingQueue`, `Pool`, `PoolProgress` | the thread pool under interleaving, and that its tasks are run |
| `Reactor`, `ReactorOrder`, `ReactorProgress` | dispatcher, logic thread, pacer and workers under interleaving, and that requests get through |

Where the code does not do what it is for, the model keeps the code, a lemma says exactly when it does, and
where it helps another lemma gives the failing case:

- an MTU of two makes the fragment loop endless (`LoopEndsIff`, `TerminatesIff`); a NAL unit with the
  forbidden bit set, or a short one of a type outside 1..23, does not come back (`RoundTripIff`);
- the framer knows two spellings of Content-Length, the parser all of them (`SpellingDecides`); a length that
  wraps the size of the message so that it ends in front of its own field makes the drain loop endless
  (`EndlessDrain.SpinsIff`, `PrintedSpinsIff`), and a negative length reaches every place there
  (`NegativeLengthSpins`); no buffer does this in which no length wraps the sum (`NoneWrapsEnds`);
- no seek drops the prefetched frame, so a PLAY of an earlier position, with or without Scale, before any tick
  can send a stale frame first (`SeekThenRead`, `PlayInOrderIff`, `ScaleInOrderIff`, `StaleFrameStepsBack`);
- a pass over the file in which no frame is sent lets the timestamps step back (`LoopInOrderIff`,
  `LoopStepsBack`), and so does a change of Scale before the first frame of a pass that starts below the last
  frame sent (`ScaleInOrderIff`, `ScaleStepsBack`);
- a PLAY without Scale and without a file forgets a recorded pause, and so does a PAUSE on top of one; frames
  then come early (`NeverEarlyIff`, `LostPauseComesEarly`);
- a first frame at timestamp 0 does not count as a frame: after a pass of two frames the duration is unknown, and
  the next pass begins with the last timestamp again (`NextPassFollows`, `TwoFramesRepeat`); packets discarded in
  front of the first key frame shift the position that a change of Scale goes back to (`KeyPositionIff`);
- the epoll flag can be cleared behind the back of a push (`StrandedIffMissed`, `WaitingIsSentIff`, `LostWakeup`), and a close
  latch set when the dispatcher is asleep with nothing to send is not acted upon (`LatchOverlookedIffLate`,
  `LateLatchIsMissed`);
- of several calls of `shutdown` only the first waits (`OneShutdownWaits`); the others return at once, even
  with tasks still queued (`SecondShutdownReturnsEarly`), although the comment calls repeated calls safe;
- a tick that throws keeps its in-flight flag, and the session is never ticked again
  (`ThrowStopsTheSession`, `RequestAfterThrow`);
- a descriptor that is reused while requests of its former owner are queued passes them on
  (`AcceptInOrderIff`, `ReusedDescriptorMixesClients`).

## Model

| member | source | states |
|---|---|---|
| AnnexB.StartCodeLengthMeaning | include/rtspserver/media/AnnexBParser.hpp:102-110 | a result of 3 or 4 is a start code at that offset, 4 only with the extra zero byte, and 0 means that none begins there |
| AnnexB.SplitView | include/rtspserver/media/AnnexBParser.hpp:112-136 | the views are the non-empty units of the one tiling of the buffer |
| AnnexB.Split | include/rtspserver/media/AnnexBParser.hpp:138-164 | the copies are the bytes of the same units |
| AnnexB.TilingIsUnique | include/rtspserver/media/AnnexBParser.hpp:112-136 | whatever decomposes a buffer into units directly behind start codes, with no start code inside and no gap, is the same decomposition |
| AnnexB.SplitIsExact | include/rtspserver/media/AnnexBParser.hpp:112-164 | in every buffer the units of the tiling, empty ones included, are ordered and disjoint, each behind 00 00 01 and free of start codes, and joined with their start codes they are the buffer from its first start code on |
| AnnexB.ViewsAreExact | include/rtspserver/media/AnnexBParser.hpp:112-136 | the views returned are non-empty, in order, disjoint, each directly behind 00 00 01 and free of start codes |
| AnnexB.SplitOfJoin | include/rtspserver/media/AnnexBParser.hpp:112-164 | joining NAL units (no inner start code, no trailing zero) with 3 or 4 byte start codes and splitting returns those NAL units |
| H264Packetizer.Packetize | src/rtp/H264Packetizer.cpp:8-59 | where the loop ends, it yields the single packet or the FU-A fragments of the NAL unit; its state after every step is that of `LoopAfter` |
| H264Packetizer.LoopEndsIff | src/rtp/H264Packetizer.cpp:32-56 | some number of steps reaches the end of a NAL unit above the MTU if and only if the fragment size is not zero; otherwise every step adds a packet without bytes and stays where it is |
| H264Packetizer.TerminatesIff | src/rtp/H264Packetizer.cpp:16-36 | the call returns if and only if the NAL unit fits or the MTU is not two |
| H264Packetizer.FragmentCount | src/rtp/H264Packetizer.cpp:31-56 | the number of fragments is the number of bytes left divided by the fragment size, rounded up |
| H264Packetizer.FragmentedNal | src/rtp/H264Packetizer.cpp:25-56 | a NAL unit above the MTU gives ceil((n-1)/(mtu-2)) >= 2 fragments, the start bit only on the first, the end bit and the marker only on the last |
| H264Packetizer.MtuRespected | src/rtp/H264Packetizer.cpp:16-58 | the call returns with no payload above the MTU if and only if the MTU is at least three or nothing is fragmented |
| H264Packetizer.PacketsReassemble | src/rtp/H264Packetizer.cpp:8-59 | a receiver that is between NAL units gets a carriable NAL unit back from its packets |
| H264Packetizer.RoundTripIff | src/rtp/H264Packetizer.cpp:8-59 | the call returns and reassembly gives the NAL unit if and only if the loop ends and the NAL unit is carriable: type 1..23 when it fits, forbidden bit clear when it is fragmented |
| RtpPacket.Build | src/rtp/RTPPacket.cpp:5-36 | the buffer filled in place is the encoded header followed by the payload |
| RtpPacket.DecodeEncode | src/rtp/RTPPacket.cpp:14-35 | decoding by section 5.1 of RFC 3550 returns every field; of the payload type the low seven bits |
| RtpSender.Advance | src/rtp/RTPSender.cpp:151-163 | dropping n bytes from the vectors leaves exactly the bytes from n on |
| RtpSender.SendTcpInterleaved | src/rtp/RTPSender.cpp:117-166 | against every sequence of partial writes and errors the bytes sent are a prefix of header and data, the whole exactly when it reports success, none when the packet is too long |
| Base64.Base64Encode | src/utils/StringUtils.cpp:47-67 | the loop writes the encoding of the bytes |
| Base64.Base64RoundTrip | src/utils/StringUtils.cpp:45-67 | a decoder (section 4 of RFC 4648) returns the bytes, and the length is four characters for every three bytes begun |
| Extradata.ReadExtradata | src/media/MediaSource.cpp:156-214 | the parameter sets and the verdict, for every input, with all reads in bounds |
| Extradata.RecordParsed | src/media/MediaSource.cpp:163-198 | from every printed configuration record (section 5.2.4.1 of ISO/IEC 14496-15) the first parameter set of each kind is taken, whatever follows the record |
| VideoStream.ChooseNals | src/server/RTSPSession.cpp:775-792 | a key frame carries the known parameter sets in front and none of its own; empty NAL units are dropped |
| VideoStream.SentOfFrame | src/server/RTSPSession.cpp:775-792 | for every NAL unit, how often it is sent: as often as the frame holds it, and not at all if it is empty or, in a key frame, of type 7 or 8; the known sets come in front, and the order is that of the frame |
| VideoStream.SendVideoRtp | src/server/RTSPSession.cpp:236-279 | the frame queued for one payload, and the next sequence number modulo 2^16 |
| VideoStream.SendNal | src/server/RTSPSession.cpp:795-809 | the frames of one NAL unit, numbered from the given number, the marker on the last packet only if this is the last NAL unit |
| VideoStream.SendFrame | src/server/RTSPSession.cpp:774-811 | the frames of all NAL units with one timestamp, consecutive numbers, and the marker exactly on the last packet |
| VideoReceiver.FrameIsAccessUnit | src/server/RTSPSession.cpp:774-811 | the packets of a frame are accepted by a strict receiver as one access unit with the frame's timestamp and NAL units and the stream's source and payload type |
| VideoReceiver.EndToEnd | src/server/RTSPSession.cpp:236-279 | the receiver of a byte stream of frames and responses, with anything on other channels between them, gets back every access unit and every response, each in order |
| VideoReceiver.FileToReceiver | src/server/RTSPSession.cpp:774-811 | from Annex-B bytes to the receiver: parameter sets replaced on key frames, every other NAL unit unchanged and in order |
| Text.FindIsFirst | src/server/RTSPSession.cpp:118 | the search returns the first match, or none exists |
| Text.TrimString | src/utils/StringUtils.cpp:9-21 | the two loops yield the text without its white space at both ends |
| Text.TrimRemovesPadding | src/utils/StringUtils.cpp:9-21 | white space around a trimmed text is removed, and nothing else |
| Text.SplitString | src/utils/StringUtils.cpp:31-43 | the loop yields the tokens between delimiters |
| Text.SplitOfJoin | src/utils/StringUtils.cpp:31-43 | splitting undoes joining, for tokens without the delimiter |
| Text.NumberRoundTrip | src/rtsp/RTSPRequest.cpp:63 | printed numbers are read back by both conversions, as far as their types reach |
| Text.LowerIff | src/utils/StringUtils.cpp:23-29 | two texts are lower-cased to the same one if and only if they differ at most in A to Z against a to z |
| Text.NumberInFront | src/rtsp/RTSPRequest.cpp:74-90 | a number in front of something that is no digit is read like the number alone |
| Request.ParseRequest | src/rtsp/RTSPRequest.cpp:11-72 | the parser, its loops and its failures |
| Request.ParseFields | src/rtsp/RTSPRequest.cpp:43-57 | the header loop: later fields of the same lower-cased name win, lines without a colon are skipped |
| Request.ReadBody | src/rtsp/RTSPRequest.cpp:60-69 | the body is the announced number of bytes, or empty when they are not there or the number is malformed |
| Request.PrintThenParse | src/rtsp/RTSPRequest.cpp:11-72 | parsing a printed request returns its method, URL, version, fields and body |
| Request.AcceptedIff | src/rtsp/RTSPRequest.cpp:11-41 | a text is accepted if and only if its first line has at least three words and the third begins with RTSP/ |
| Request.HeaderIsLast | src/rtsp/RTSPRequest.cpp:43-57 | a field looked up in any spelling has the value printed last under that name, capital or small letters, and is empty without one |
| Request.CSeqIsRead | src/rtsp/RTSPRequest.cpp:74-90 | the number of a request is that of its last CSeq field, -1 without one or with one that is no number |
| Request.NegativeLengthTakesAll | src/rtsp/RTSPRequest.cpp:60-69 | a Content-Length of -n, n up to the size of the header, makes everything behind the header the body |
| Receive.GatherIff | src/server/RTSPSession.cpp:79-99 | a wake leaves a buffer if and only if neither end of file nor an error comes before EAGAIN and what arrives fits into 16384 bytes; it is the old buffer with that behind it |
| Receive.ReceivedUpTo | src/server/RTSPSession.cpp:79-99 | data and interruptions in front of the first EAGAIN are what arrives, and the connection stays open |
| Receive.WakesIff | src/server/RTSPSession.cpp:79-155 | the connection survives a list of wakes if and only if each of them finds it open, with room for what arrives, and a buffer that can be drained |
| Receive.ReceivePath.OnReadable | src/server/RTSPSession.cpp:79-155 | success if and only if the connection stays open and what arrives fits; then the requests and the leftover of the old buffer with that behind it |
| Receive.ReceivePath.ParseBuffer | src/server/RTSPSession.cpp:101-154 | the parse loop drains the buffer |
| Receive.ReceivePath.TakeMessage | src/server/RTSPSession.cpp:145-150 | one complete message leaves the front of the buffer |
| Receive.ReceivePath.SkipFrames | src/server/RTSPSession.cpp:104-112 | complete interleaved frames at the front are dropped |
| Receive.DrainInTwo | src/server/RTSPSession.cpp:101-154 | feeding a and then b yields the requests and the leftover of feeding a + b, for all a and b |
| Receive.ChunkingInvariance | src/server/RTSPSession.cpp:79-155 | however a stream that can be drained is cut into wakes and recv calls that fit, the connection survives and the requests and the leftover are those of the stream |
| RequestStream.FramerReads | src/server/RTSPSession.cpp:125-140 | on every printed header the framer reads the first field in one of its two spellings |
| RequestStream.FrontOfPrinted | src/server/RTSPSession.cpp:118-143 | the same for any first line: what stands in front of a printed header, of a request or of a response |
| RequestStream.FrontOfMessage | src/server/RTSPSession.cpp:118-143 | a buffer that begins with a printed header waits for, or gives out, exactly the framed size |
| RequestStream.SpellingDecides | src/server/RTSPSession.cpp:126-140 | a printed request with one length field comes through whole if and only if its spelling is one the framer knows, or the body is empty |
| RequestStream.StreamRoundTrip | src/server/RTSPSession.cpp:101-152 | printed requests with arbitrary binary frames between them are received as exactly those requests, with nothing left over |
| RequestStream.ChunkedStreamRoundTrip | src/server/RTSPSession.cpp:79-155 | the same however the bytes arrive, as long as there is room for them; the connection survives |
| EndlessDrain.SpinsIff | src/server/RTSPSession.cpp:101-152 | on every header with one length field in a spelling of the framer, the drain loop never ends if and only if the size, header plus length modulo 2^64, does not reach past the line end in front of that field and the byte it falls on begins no binary frame |
| EndlessDrain.PrintedSpinsIff | src/server/RTSPSession.cpp:101-152 | the same for every printed message, with the offset of its length field |
| EndlessDrain.SpinningStays | src/server/RTSPSession.cpp:101-152 | whatever is received afterwards does not end the loop |
| EndlessDrain.NoneWrapsEnds | src/server/RTSPSession.cpp:101-152 | on every buffer, messages and frames mixed, in which no announced length plus the size of the buffer reaches 2^64, the loop ends |
| EndlessDrain.NegativeLengthSpins | src/server/RTSPSession.cpp:132-146 | every place k in front of the length field where no binary frame begins is reached by a negative Content-Length, k less the size of the header, and the loop never ends |
| RequestStream.CSeqRead | src/rtsp/RTSPRequest.cpp:74-90 | the CSeq a client prints, under a name in any spelling, is the one read from the parsed text |
| Response.WriteReply | src/rtsp/RTSPResponse.cpp:12-31 | the text written: status line, Server, the headers, a Content-Length if a body has none, the empty line, the body |
| Response.ReplyIsFramed | src/rtsp/RTSPResponse.cpp:12-31 | every response with clean headers is taken as one message by a receiver, whatever follows it |
| Response.DescribeIsClean | src/rtsp/RTSPResponse.cpp:55-67 | the response to DESCRIBE announces the length of its body |
| Answers.AllReadable | src/rtsp/RTSPResponse.cpp:12-118 | for every list of outputs: with clean header texts, each response printed with its reason and CSeq is one message to a receiver |
| Answers.ReplyRead | src/rtsp/RTSPResponse.cpp:12-118 | the CSeq in a printed response is read back as the number answered, negative ones included, and its first line as the status |
| Answers.EveryRequestIsAnswered | src/server/RTSPSession.cpp:158-299 | over every run and every interleaving of the outgoing queue that drops nothing: once it is drained, the client has read exactly one response for every request of the run, in order, each with its CSeq and its status |
| MediaSource.Demuxer.ReadPacket | src/media/MediaSource.cpp:232-270 | the prefetched frame first, then the next packet stamped relative to the first packet after a seek |
| MediaSource.Demuxer.SeekTo | src/media/MediaSource.cpp:343-356 | position, offset and first packet are reset, the prefetched frame is kept |
| MediaSource.Demuxer.SeekSeconds | src/media/MediaSource.cpp:370-451 | a seek to a time takes the offset from the position found, a negative time starts at zero |
| MediaSource.Demuxer.AdjustOffset | src/media/MediaSource.cpp:453-461 | the offset moves on modulo 2^32 |
| MediaSource.Demuxer.PeekTimestamp | src/media/MediaSource.cpp:463-475 | the next frame is prefetched once and its timestamp returned, zero at the end |
| MediaSource.SeekThenRead | src/media/MediaSource.cpp:234-238 | the frame read after a seek is the one landed on if and only if nothing was prefetched |
| MediaSource.PeekIsNext | src/media/MediaSource.cpp:463-475 | the timestamp announced is that of the frame read next, and which frame that is does not change |
| MediaSource.RescaleIsNearest | src/media/MediaSource.cpp:216-223 | the value on the 90 kHz clock is the integer nearest to the exact one, halves away from zero |
| MediaSource.NearestIsUnique | src/media/MediaSource.cpp:216-223 | there is only one such integer |
| MediaSource.FrameIsStamped | src/media/MediaSource.cpp:232-270 | a frame read carries, modulo 2^32, the offset plus the distance of its packet from the first one after the seek, to the nearest tick; that first packet carries the offset itself |
| MediaSource.RescaleMono | src/media/MediaSource.cpp:216-223 | conversion to 90 kHz keeps the order of all time stamps, and the sign |
| MediaSource.ReadFileKeepsAhead | src/media/MediaSource.cpp:251-255 | within a pass without wrap, each timestamp is at least what was promised, and so are all later ones |
| Session.EveryRequestAnswered | src/server/RTSPSession.cpp:653-662 | over every run of pushes and ticks: the CSeqs answered, then those still queued, are the CSeqs asked, in order |
| Session.ActsAnswer | src/server/RTSPSession.cpp:282-299 | each handled request gives exactly one response with its CSeq, and frames give none |
| Session.OnlyPlayTouchesPacing | src/server/RTSPSession.cpp:282-477 | every request but PLAY leaves frames, timestamps, numbers and the wall clock alone; only PAUSE records a time |
| SessionSafety.RunsAreSafe | src/server/RTSPSession.cpp:384-477 | in every run, outside Init the session has been described and its transport set up |
| SessionSafety.NotPlayingIsSilent | src/server/RTSPSession.cpp:664-671 | no video leaves outside Playing, and the mode leaves Init only by a video SETUP |
| SessionSafety.NoVideoAfterTeardown | src/server/RTSPSession.cpp:642-671 | after a TEARDOWN any video is preceded by a new video SETUP and, after it, a PLAY |
| SessionSafety.ErrorsChangeNothing | src/server/RTSPSession.cpp:309-477 | a request answered with an error leaves mode, clocks and counters alone; it can only close the file (DESCRIBE) or switch to UDP (SETUP) |
| SessionSafety.StartsWithKeyFrame | src/server/RTSPSession.cpp:682-748 | after a PLAY, a seek or a loop, whatever happens meanwhile, the first frame sent is a key frame |
| SessionSafety.RtpInfoIsTruthful | src/server/RTSPSession.cpp:590-612 | the seq and rtptime announced by a fresh PLAY are those of the first frame sent afterwards and of its first packet, if the prefetched frame is a key frame with NAL units before the end of the range, no DESCRIBE follows and no later PLAY ends before it |
| SessionSafety.AnnouncedFrameSentIff | src/server/RTSPSession.cpp:697-748 | the next tick sends the announced frame if and only if that condition holds |
| SessionProtocol.StatusIff | src/server/RTSPSession.cpp:282-646 | 200 is answered exactly to what can be granted, 501 exactly to unknown methods, 455 exactly to what does not fit the state, 400, 461 and 500 exactly to the SETUPs they are for |
| SessionProtocol.PlayAcceptedIff | src/server/RTSPSession.cpp:504-509 | in every run of a new session a PLAY is accepted if and only if a video SETUP was, and no TEARDOWN since |
| SessionProtocol.ClosingIff | src/server/RTSPSession.cpp:642-647 | over every run: a session is to be closed if and only if a TEARDOWN was handled |
| SessionProtocol.OrdinarySession | src/server/RTSPSession.cpp:282-825 | for every file that begins with a key frame: the whole exchange of an ordinary session, from OPTIONS to TEARDOWN, with its statuses, the announced RTP-Info and the first frame on the channel asked for |
| SessionRange.RangeIsKept | src/server/RTSPSession.cpp:724-733 | after a PLAY with an end, until the file ends or a PLAY starts afresh, every frame sent lies before that end on the 90 kHz clock, in every run |
| SessionDurations.NextPassFollows | src/server/RTSPSession.cpp:700-712 | when a pass ends whose two last frames sent were stamped f and g, 0 < f < g, the next pass begins at g + (g - f) modulo 2^32 |
| SessionDurations.TwoFramesRepeat | src/server/RTSPSession.cpp:820-824 | after a first pass of two frames at 0 and g the next pass begins at g again |
| SessionDurations.KeyPositionIff | src/server/RTSPSession.cpp:811-824 | the position remembered of a key frame is its own place on the clock if and only if the pass began with its first packet |
| SessionStream.RunIsNumbered | src/server/RTSPSession.cpp:236-247 | over every run the packets are numbered consecutively modulo 2^16, across pauses, seeks and loops |
| SessionStream.SetupChooses | src/server/RTSPSession.cpp:384-477 | in every state with a described and open file, a video SETUP over the connection is accepted, and in every run without another one that reconfigures it all video goes over the connection on the channel asked for, or on the one before if none was |
| SessionStream.UdpChosen | src/server/RTSPSession.cpp:384-477 | after an accepted SETUP over UDP no frame goes over the connection until a SETUP asks for that |
| SessionStream.RunStreams | src/server/RTSPSession.cpp:384-477 | while no SETUP asks for UDP or for another video channel, every frame goes out over the channel that the video has, or that a SETUP at the start of the run chooses, the audio one included |
| SessionStream.RunReceived | src/server/RTSPSession.cpp:651-825 | for every such run, DESCRIBEs of other files included, a strict receiver of what is queued gets back every frame sent as one access unit and every response, each in order |
| Delivery.RunIsDelivered | src/server/RTSPSession.cpp:158-279 | composed with every interleaving of the outgoing queue that drops nothing: once it is drained, the receiver of the bytes given to the kernel has every frame and every response of the run, in order |
| Delivery.DeliveredSoFar | src/server/RTSPSession.cpp:158-279 | until then the kernel has been given a prefix of those bytes |
| Delivery.TeardownCloses | src/server/RTSPSession.cpp:158-202 | with the latch asked for when the session is to be closed: once the dispatcher has run, everything queued is sent and the connection is closed if and only if a TEARDOWN was handled or a frame was dropped |
| SessionTimestamps.TimestampsNeverDecrease | src/server/RTSPSession.cpp:698-825 | over every good run (loops of passes that sent something, pauses, changes of Scale after a frame, no wrap) timestamps never decrease; it keeps the invariant that after a sent frame nothing is prefetched |
| SessionRestarts.LoopInOrderIff | src/server/RTSPSession.cpp:700-712 | at the end of the file: every good run that follows sends timestamps in order if and only if no frame the next pass can start with, counted from the last timestamp plus the last duration modulo 2^32, lies below the last timestamp sent |
| SessionRestarts.LoopContinuesIff | src/server/RTSPSession.cpp:700-712 | with a key frame where the seek lands: if and only if the new start itself is not below it |
| SessionRestarts.LoopStepsBack | src/media/MediaSource.cpp:343-356 | a run from a new session in which a rewind does not land, a pass sends nothing, and the timestamps step back |
| SessionStale.PlayInOrderIff | src/server/RTSPSession.cpp:574-614 | after a fresh PLAY: every good run that follows sends timestamps in order if and only if nothing from before the seek is prefetched, or the start does not send it, or no frame that can be sent from the new position on lies below it |
| SessionStale.PlayContinuesIff | src/server/RTSPSession.cpp:574-614 | with a frame to send where the seek lands: if and only if the new start itself is not below a prefetched frame that the start sends |
| SessionStale.ScaleInOrderIff | src/server/RTSPSession.cpp:485-501 | after a PLAY with Scale: every good run that follows is in order if and only if no frame to be sent from the new position on lies below the prefetched frame, if the start sends that, and otherwise below the last timestamp sent; always, once the pass has sent a frame |
| SessionStale.ScaleContinuesIff | src/server/RTSPSession.cpp:485-501 | with a key frame to send where the seek lands: if and only if the new start itself is not below that |
| SessionRestarts.ScaleStepsBack | src/server/RTSPSession.cpp:492-496 | a run from a new session: end of the file, PLAY with Scale, and the next tick steps back |
| SessionStale.StaleFrameStepsBack | src/media/MediaSource.cpp:232-238 | a run from a new session: PLAY, PLAY of an earlier position with or without Scale before a tick, and two ticks send the stale frame and then an earlier timestamp |
| SessionPacing.RunIsOnTime | src/server/RTSPSession.cpp:673-680 | over every sound run the wall clock start is where a stopwatch, reset by the first frame, stopped while paused and started by PLAY (with Scale and no file, by the first tick that can play), reads zero |
| SessionPacing.RunNeverEarly | src/server/RTSPSession.cpp:664-825 | in every sound run, from a new session on, no tick sends a frame before so many ninety-thousandths of a second have passed on the stopwatch as its timestamp lies behind the first one, to the nanosecond |
| SessionPacing.NeverEarlyIff | src/server/RTSPSession.cpp:558-629 | after any request, all sound runs that follow send no frame early if and only if the request forgets no pause of a started stream: it is no PLAY without Scale and without a file, and no PAUSE on top of a recorded one |
| SessionLostPause.PauseIsForgotten | src/server/RTSPSession.cpp:574-588 | such a PLAY is reached from a new session by PLAY, PAUSE, SETUP and a refused DESCRIBE |
| SessionLostPause.LostPauseComesEarly | src/server/RTSPSession.cpp:574-588 | the run from a new session (PLAY, PAUSE, SETUP, refused DESCRIBE, PLAY, DESCRIBE) after which a frame is sent whose time, without the pause, has not passed |
| SessionPacing.HeldFrameSentWhenDue | src/server/RTSPSession.cpp:750-759 | a held frame goes out with a tick if and only if the stopwatch shows that this time has passed |
| SessionPacing.RunShifted | src/server/RTSPSession.cpp:651-825 | the same run with all clock readings later by d sends the same, so only differences of readings matter |
| SessionPacing.PauseShiftsTheRest | src/server/RTSPSession.cpp:558-564 | PAUSE, any ticks, PLAY: everything sent afterwards is what would have been sent without the pause, later by its length |
| RtspSession.RTSPSession.constructor | include/rtspserver/server/RTSPSession.hpp:111-171 | a new session is in the initial state with nothing queued |
| RtspSession.RTSPSession.PushCommand | src/server/RTSPSession.cpp:219-222 | a request joins the end of the queue |
| RtspSession.RTSPSession.HandleDescribe | src/server/RTSPSession.cpp:358-381 | the state and the response of a DESCRIBE |
| RtspSession.RTSPSession.HandleSetup | src/server/RTSPSession.cpp:384-477 | the state and the response of a SETUP, with its error cases |
| RtspSession.RTSPSession.SeekAndResetTo | src/server/RTSPSession.cpp:485-501 | the seek, with timestamps continued from the last frame if asked |
| RtspSession.RTSPSession.HandlePlay | src/server/RTSPSession.cpp:504-618 | the state and the response of a PLAY: resume, Scale, or fresh start with RTP-Info |
| RtspSession.RTSPSession.HandlePause | src/server/RTSPSession.cpp:621-640 | the state and the response of a PAUSE |
| RtspSession.RTSPSession.HandleRequest | src/server/RTSPSession.cpp:282-299 | dispatch by method, 501 for unknown ones |
| RtspSession.RTSPSession.FetchFrame | src/server/RTSPSession.cpp:697-733 | reading: loop at the end of the file, key frame gate, end of the range |
| RtspSession.RTSPSession.EmitPending | src/server/RTSPSession.cpp:738-825 | anchoring, timing and sending of the held frame; the frames queued are those of the frame's packets |
| RtspSession.RTSPSession.PaceFrame | src/server/RTSPSession.cpp:664-825 | one tick past the requests |
| RtspSession.RTSPSession.PacerTick | src/server/RTSPSession.cpp:651-825 | one tick: the queued requests in order up to a TEARDOWN, otherwise one frame step, as the run of the state machine, with exactly its responses and frames queued |
| NonBlockingQueue.NonBlockingQueue.Push | include/rtspserver/utils/NonBlockingQueue.hpp:22-26 | the item joins the end |
| NonBlockingQueue.NonBlockingQueue.TryPop | include/rtspserver/utils/NonBlockingQueue.hpp:34-42 | the front leaves, or nothing happens |
| Egress.Connection.SendResponse | src/server/RTSPSession.cpp:225-233 | the response joins what is queued, and the socket is watched |
| Egress.Connection.PushTcpFrame | src/server/RTSPSession.cpp:260-279 | above the watermark the frame is dropped and the latch set; otherwise it is queued, and the count stays within watermark and frame |
| Egress.Connection.EnableWrite | src/server/RTSPSession.cpp:205-216 | the socket is watched afterwards |
| Egress.Connection.OnWritable | src/server/RTSPSession.cpp:158-202 | against every answer of the kernel: sent bytes, unsent rest and outbox remain what was queued, in order; as many bytes are sent as the kernel says it takes; the socket stays watched exactly while something waits; with nothing left to send it asks to close exactly if the latch is set |
| EgressSteps.OutboundStream | src/server/RTSPSession.cpp:158-279 | under every interleaving: conservation of the stream, frames in the outbox within watermark plus one frame, the byte count exact and never clipped |
| EgressSteps.OfferedIsDelivered | src/server/RTSPSession.cpp:158-279 | under every interleaving that drops nothing, the kernel has a prefix of what was offered, and all of it at rest with nothing waiting |
| EgressSteps.LatchStaysSet | src/server/RTSPSession.cpp:262-266 | the close latch, once set, stays set in every run |
| EgressSteps.CloseLosesNothingQueuedBefore | src/server/RTSPSession.cpp:162-172 | a close by the latch finds everything sent that was queued before the outbox was last found empty |
| EgressSteps.StrandedIffMissed | src/server/RTSPSession.cpp:162-216 | at rest, bytes wait unwatched if and only if a claim of the flag failed while the dispatcher was leaving and no later one succeeded |
| EgressSteps.LostWakeup | src/server/RTSPSession.cpp:165-169 | a run in which a response stays unsent |
| EgressSteps.LatchOverlookedIffLate | src/server/RTSPSession.cpp:165-172 | at rest, the latch is set on an unwatched connection with nothing to send if and only if it was set when the dispatcher was already asleep with nothing to wake it for, and no claim of the flag has succeeded since |
| EgressSteps.LateLatchIsMissed | src/server/RTSPSession.cpp:645-647 | a run in which that happens to the latch of a TEARDOWN |
| EgressProgress.EverythingIsSent | src/server/RTSPSession.cpp:158-202 | from every reachable state with the dispatcher in its loop or watched: if the socket takes at least a byte each time, everything queued is sent, and the connection closed exactly if the latch is set |
| EgressProgress.CallsEnd | src/server/RTSPSession.cpp:225-279 | every call of the pacer ends within five steps |
| EgressProgress.WaitingIsSentIff | src/server/RTSPSession.cpp:162-216 | bytes waiting at rest can still be sent, without a new call, if and only if no claim of the flag was missed |
| EgressProgress.TakenIsSent | src/server/RTSPSession.cpp:174-198 | a write moves on by what the kernel says it took |
| EgressProgress.DroppedIff | src/server/RTSPSession.cpp:260-266 | a frame is dropped if and only if more than 5 MiB are queued in front of it or being taken |
| EgressProgress.LatchIff | src/server/RTSPSession.cpp:262-266 | between calls the latch is set if and only if a TEARDOWN asked for it or a frame was dropped |
| BlockingQueue.BlockingQueue.Push | include/rtspserver/utils/BlockingQueue.hpp:60-71 | a push throws exactly on a closed queue, waits exactly on a full one, and otherwise appends |
| BlockingQueue.BlockingQueue.TryPush | include/rtspserver/utils/BlockingQueue.hpp:108-117 | success exactly when open and not full |
| BlockingQueue.BlockingQueue.Pop | include/rtspserver/utils/BlockingQueue.hpp:124-129 | the front, or a wait when open and empty, or the end when closed and empty |
| BlockingQueue.BlockingQueue.TryPop | include/rtspserver/utils/BlockingQueue.hpp:153-157 | the front leaves even when closed |
| BlockingQueue.BlockingQueue.Close | include/rtspserver/utils/BlockingQueue.hpp:163-171 | the queue is closed and keeps its items |
| Pool.EveryTaskRunsOnce | include/rtspserver/utils/ThreadPool.hpp:79-95 | when the first shutdown has returned, every task stored by a submit has finished exactly once and the queue is empty, in every interleaving |
| Pool.StartedInOrder | include/rtspserver/utils/ThreadPool.hpp:109-117 | tasks start in the order stored; each started one is finished or held by a worker; a bounded queue keeps its bound |
| Pool.ExitIsFinal | include/rtspserver/utils/BlockingQueue.hpp:124-129 | once a worker has exited the queue is closed and empty, and nothing is accepted ever after |
| Pool.NoTaskStranded | include/rtspserver/utils/BlockingQueue.hpp:62-70 | no reachable state has a queued task and a sleeper without a worker about to look, a pending notification or a pending wake-up of all |
| Pool.NoSubmitterStranded | include/rtspserver/utils/BlockingQueue.hpp:233-241 | nor a blocked submitter beside free room without one on its way or a pending wake-up |
| Pool.OneShutdownWaits | include/rtspserver/utils/ThreadPool.hpp:79-95 | in every interleaving one call of shutdown at most waits for the workers, and a call has returned at once only if another one does |
| Pool.SecondShutdownReturnsEarly | include/rtspserver/utils/ThreadPool.hpp:79-86 | in a pool of any shape a second shutdown can return with a task still queued |
| PoolProgress.StoredTasksCanFinish | include/rtspserver/utils/ThreadPool.hpp:109-117 | from every reachable state of a pool with a worker there is a run, without a submit and without a spurious wake-up, at whose end every stored task has been run once |
| PoolProgress.AnyWorkerRuns | include/rtspserver/utils/ThreadPool.hpp:109-117 | any worker that asks takes the task in front and runs it |
| PoolProgress.ShutdownCanReturn | include/rtspserver/utils/ThreadPool.hpp:79-95 | from every reachable state the call of shutdown that waits has a run in which it returns |
| Reactor.SingleRunner | src/server/Reactor.cpp:361-372 | each session has at most one tick claimed, queued or running, even if a tick throws; the flag is set if and only if it has one, when none has thrown |
| Reactor.ThrowStopsTheSession | include/rtspserver/server/RTSPSession.hpp:59-74 | after a tick has thrown, no tick of that session and no handling of its requests ever follows |
| Reactor.RequestAfterThrow | src/server/Reactor.cpp:366-372 | a run from the start of the server in which a tick throws and a request received later stays queued in every run that follows |
| Reactor.NoRequestStranded | src/server/Reactor.cpp:275-300 | a request in the global queue implies a non-zero eventfd, a dispatcher about to write it, or a logic thread not blocked |
| ReactorProgress.EverySessionIsTicked | src/server/Reactor.cpp:344-372 | in every reachable state with the pacer asleep: after a wake and its walk every session of the snapshot has exactly one tick, unless it was stuck |
| ReactorProgress.QueuedCanBeHandled | src/server/Reactor.cpp:361-372 | from every reachable state, and with any worker, a session that is not stuck has a run in which everything held and queued for it is handled, in that order |
| ReactorProgress.ReceivedCanBeHandled | src/server/Reactor.cpp:271-372 | from every reachable state an open session that is not stuck, and not begun by early reuse, has a run in which all requests received for it have been handled, in order |
| ReactorOrder.RequestsStayInOrder | src/server/Reactor.cpp:271-321 | in every interleaving, for every session that was not begun by an early reuse of a descriptor: handled, held by a worker, queued and held by the logic thread are requests parsed for it, in order from the first; while its connection is open, those in the global queue and not routed yet are all the rest |
| ReactorOrder.AcceptInOrderIff | src/server/Reactor.cpp:410-419 | in every reachable state: every later run brings a session accepted there only requests parsed for it if and only if no request of an earlier owner of its descriptor is being looked up or queued |
| ReactorOrder.ReusedDescriptorMixesClients | src/server/Reactor.cpp:300-315 | a run in which a client's request ends in the queue of the next client |

## Left out

- FFmpeg: demuxing, bitstream filters and SDP parsing are a list of packets with time stamps, key flags and NAL units; where a seek lands is arbitrary.
- Sockets, epoll, eventfd, timerfd, signals and thread start-up are reduced to their answers, counters and an armed bit; UDP sending is not modelled beyond the choice of transport.
- Audio: its queue, its packets and step 9 of the tick are not part of this model; an audio SETUP is, because it selects the transport of the video too.
- Session.EveryRequestAnswered: takes requests with their fields already read; numbers in Transport that `std::stoi` rejects throw in the source, which `Reactor` models as a tick that throws.
- Session.Handle: the text of Transport, Range and SDP, the echoed Range and the file path resolution are parameters or left out; a fractional NPT is a real number, not a double.
- SessionPacing.RunNeverEarly: a run is sound while no request forgets a recorded pause, which `NeverEarlyIff` shows to be the exact condition; media time is rounded down to nanoseconds exactly, where the source multiplies doubles; lateness is not bounded, since at most one frame leaves for each tick.
- SessionStream.RunReceived: excludes a SETUP that moves the video to UDP or to another channel, since the receiver listens to one channel; the text of the responses is any that `Response.ReplyIsFramed` covers, such as those of `Answers`.
- Answers.EveryRequestIsAnswered: the other header texts (URLs, dates, session names, the description) are parameters that must be clean; a response is for any status, with the reason phrases of the source.
- Delivery.RunIsDelivered: excludes frames dropped above the watermark, which leave a gap in the sequence numbers that a strict receiver refuses.
- VideoStream.SendVideoRtp: models the interleaved transport; over UDP the packet would go to a socket unframed.
- MediaSource.Demuxer.ReadPacket: leaves out the audio packets collected on the way.
- MediaSource.Demuxer.SeekTo: leaves out the audio offset and queue.
- MediaSource.Demuxer.SeekSeconds: takes the position found by the demuxer as a parameter and leaves out audio.
- MediaSource.Demuxer.AdjustOffset: leaves out the audio offset.
- RtspSession.RTSPSession.constructor: leaves out identifiers, sockets and audio fields.
- RtspSession.RTSPSession.HandleDescribe: takes the opened file or the error status as a parameter; the SDP text is left out.
- RtspSession.RTSPSession.HandleSetup: takes the transport as read; the echoed transport text and audio channels are left out.
- RtspSession.RTSPSession.SeekAndResetTo: leaves out the held audio packet.
- RtspSession.RTSPSession.HandlePlay: leaves out the echoed Range and the audio part of RTP-Info.
- RtspSession.RTSPSession.HandlePause: leaves out the Range header.
- RtspSession.RTSPSession.FetchFrame: leaves out the audio loop state.
- RtspSession.RTSPSession.EmitPending: leaves out the audio loop offset.
- RtspSession.RTSPSession.PaceFrame: leaves out step 9, paced audio.
- Receive.ReceivePath.ParseBuffer: requires, like `OnReadable`, that the loop ends.
- SessionTimestamps.TimestampsNeverDecrease: a run is good while it has no wrap of 2^32, no DESCRIBE and no fresh PLAY in between, and no pass without a frame; `SessionRestarts` and `SessionStale` say what happens at each restart.
- ReactorOrder.RequestsStayInOrder: says nothing of a session begun by an early reuse of a descriptor; `AcceptInOrderIff` is the exact condition at each accept.
- Receive.ReceivePath.OnReadable: requires that the buffer does not make the loop spin, because there the source does not return; `EndlessDrain.SpinsIff` says when that is for a header with one length field, and `NoneWrapsEnds` covers every buffer with lengths below 2^64 less its own size.
- SessionRange.RangeIsKept: a PLAY without a file leaves a frame held from before in place; then the session must hold none.
- RtspSession.RTSPSession.SendPending: the position handed to the demuxer on a change of Scale is compared with zero only, since where the demuxer lands is arbitrary; `SessionDurations.KeyPositionIff` states its value.
- EgressProgress.EverythingIsSent, PoolProgress.StoredTasksCanFinish, ReactorProgress.ReceivedCanBeHandled: that the steps of these runs are taken is up to the scheduler; fairness is not modelled.
- H264Packetizer.Packetize: requires that the fragment loop ends, since a method that does not return has no result; `LoopEndsIff` is about all inputs.
- RtspSession.RTSPSession.PacerTick: leaves out paced audio; the outbox of this object holds the responses as records and the video frames as bytes; the queue of bytes with its accounting is `Egress.Connection`.
- EgressSteps.OutboundStream, Pool.EveryTaskRunsOnce, ReactorOrder.RequestsStayInOrder: the interleavings are step systems on values, since a method cannot be interrupted; aliasing of shared pointers is a session number.
- EgressSteps.StrandedIffMissed: weak memory order is not modelled, each atomic operation is one step, and byte counts are unbounded.
- MediaSource.ReadFileKeepsAhead: assumes non-decreasing time stamps within a pass and no wrap of 2^32 in it; B-frame reordering is left out.
- Pool.NoTaskStranded: timed pushes and pops are left out; spurious wake-ups are included.
- Reactor.NoRequestStranded: the wake-up from the logic thread to the pacer is backed by a 30 ms timer and is not claimed.
- URL decoding, paths, logging, random identifiers, dates and server configuration are plumbing.
