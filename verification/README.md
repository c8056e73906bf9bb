# Verified models of the robot's perception and chassis code

This project models the stateful cores of the repository in Dafny and proves what they are for.
Each component has a file or two; an object of the source that updates its fields is a class
whose methods are proved against functions on its state, and the properties are proved of those
functions, over every input and every run.

- `Basics.dfy`: notions several components share.
- `CrcTable.dfy`, `Crc.dfy`: the checksum tables and loops of the FDILink AHRS driver, against
  section 2 of ITU-T V.41 and the 1-Wire polynomial of Maxim Application Note 27.
- `AhrsDriver.dfy`: the FDILink byte-stream parser, its loss counter and its frame buffers.
- `SerialLines.dfy`: `readline` and `readlines` for an end of line of any length.
- `FeatureExtraction.dfy`: corner and surface selection of LIO-SAM, with its in-place arrays.
- `ImageProjection.dfy`: the range image and its compaction to ring-indexed arrays.
- `Deskew.dfy`: the rotation table from the gyroscope and its lookup.
- `ImuPreintegration.dfy`: the two integrators over one stream of samples and the optimiser whose
  variables are recycled at 100.
- `MapOptimization.dfy`: key frames, pose graph, cloud cache and path, and the loop-closure thread,
  as an interleaving of the locked and unlocked parts of both; `MapRuns.dfy`: what holds in every run;
  `MapSteps.dfy`: what one scan and one search of that thread do; `MapNode.dfy`: the node.
- `AngleFilter.dfy`, `SweepSplitter.dfy`: the azimuth filter of the LSLidar driver and the split of
  its packets into sweeps.
- `ChassisCan.dfy`: the chassis frames: codec, check byte, rolling counter.
- `SyncQueue.dfy`, `PointCloudPool.dfy`: the two-thread ring queue of the RoboSense driver, load by
  load, and the message pool built on two of them, event by event and load by load.

Library results (kd-tree, voxel filter, ICP, scan matching, the optimiser's estimate, sorting of
azimuth ranges, rigid motions) are parameters that may be anything the library's contract allows.
Floating-point numbers are reals, and indices that the source keeps in a float `intensity` are
integers, which is exact up to 2^24.

## What was found

- `ExtractFeatures` reads position 4 of the smoothness array, which `CalculateSmoothness` never
  refreshes, exactly when the first non-empty ring has at least 22 points
  (`FeatureExtraction.CompactedScan`). Until a sort moves an entry there it names position 0, and
  choosing position 0 looks at position -1. While it does, a message leaves the arrays exactly when
  some sector holds that entry and position 0 is not marked and is flat, or sharp with fewer than
  20 corners taken (`FeatureExtraction.Extractor.HandleCloud`, `FeatureExtraction.CompactedIsFresh`).
- An AHRS body that fails its CRC-16 stays in the frame buffer and goes out as the orientation of
  the next good IMU frame (`AhrsDriver.RejectedBodyIsPublished`,
  `AhrsDriver.OrientationIsAcceptedIff`).
- A stream that begins with INS/GPS or ignored frames miscounts the loss: the first frame is charged
  for the numbers before it, and the first frame of another type overwrites the stored number, so the
  gap before that one is never counted. The total is right exactly when the two errors cancel
  (`AhrsDriver.LossIsExactIff`, `AhrsDriver.LateStart`).
- `readline` tests its size only once it has as many bytes as the end of line, so a smaller size is
  never met, and it writes past its buffer exactly when more bytes than the size are pending
  (`SerialLines.Port.Readline`). `readlines` stops at the size instead. For an end of line that does
  not overlap itself, and a size that can hold it, the two therefore agree exactly where no
  `readline` is left with a budget smaller than the end of line and more bytes than that pending
  (`SerialLines.AgreesIff`, `SerialLines.SecondReadlineTakesMore`), and on all streams only for one
  of at most one byte (`SerialLines.AlwaysAgreesIff`).
- The first live IMU sample after the first correction is charged 1/500 s whatever its stamp
  (`ImuPreintegration.FirstLiveSample`), and a correction that leaves no sample keeps the old live
  integrator (`ImuPreintegration.EmptyCorrectionGoesStale`, `ImuPreintegration.StaleRun`).
- A requested angle interval that ends at 0 turns the whole filter off unless another range starts
  at 0, and then the order in which the sort leaves equal starts decides
  (`AngleFilter.FilterIsExactIff`, `AngleFilter.EndAtZeroTurnsItOff`,
  `AngleFilter.OrderOfEqualStartsDecides`). After an interval with equal ends the log lists every
  azimuth as usable (`AngleFilter.UsableAfterEmptyRequest`).
- The c32_3 correction can give azimuth 36000, one past the trigonometric tables, exactly when the
  sum is 36000 (`SweepSplitter.AdjustedAzimuth`).
- A frame for backing up carries the negated angle, which the receiving side does not negate back
  (`ChassisCan.CommandReadsBack`); the receiving side does not test the check byte either.
- A message that meets a full queue leaves the pool; below 102400 messages outstanding none does
  (`PointCloudPool.AllocationsAreThePeak`).

## Model

| member | source | states |
|---|---|---|
| `CrcTable.Crc16EntryIsEightShifts` | fdilink_ahrs_ROS2/src/crc_table.cpp:22-56 | each of the 256 CRC-16 entries is eight steps of the bit-serial register for x^16+x^12+x^5+1 |
| `CrcTable.Crc8EntryIsOneWire` | fdilink_ahrs_ROS2/src/crc_table.cpp:4-20 | each of the 256 CRC-8 entries is eight clocks of the 1-Wire register |
| `Crc.Crc8Table` | fdilink_ahrs_ROS2/src/crc_table.cpp:126-136 | the loop over a buffer returns the 1-Wire register fed with its bytes |
| `Crc.Crc16Table` | fdilink_ahrs_ROS2/src/crc_table.cpp:139-148 | the loop over a buffer returns the V.41 remainder of its bytes |
| `Crc.Crc16IsV41Remainder` | fdilink_ahrs_ROS2/src/crc_table.cpp:139-148 | for every message the table loop equals the remainder of bit-by-bit long division of M(x) x^16 |
| `Crc.Crc16SelfCheck` | fdilink_ahrs_ROS2/src/crc_table.cpp:139-148 | two appended bytes bring the register to 0 if and only if they are the checksum, high byte first |
| `Crc.Crc16DetectsTwoByteBurst` | fdilink_ahrs_ROS2/src/crc_table.cpp:139-148 | different messages of one length that differ only inside two adjacent bytes never share a CRC |
| `Crc.Crc8IsOneWire` | fdilink_ahrs_ROS2/src/crc_table.cpp:126-136 | for every message the CRC-8 loop equals the bit-serial 1-Wire register |
| `Crc.Crc8DetectsByteError` | fdilink_ahrs_ROS2/src/crc_table.cpp:126-136 | replacing one byte keeps the CRC-8 if and only if the byte is the same |
| `AhrsDriver.ParseTransmit` | fdilink_ahrs_ROS2/src/ahrs_driver.cpp:149-484 | any run of good, ignored and spoilt frames and stray bytes comes back as exactly its contents, in order, whatever follows; a spoilt frame loses two bytes at an unknown type, three at a wrong length, seven at a wrong CRC-8 or at type 0xff, and all of itself at a wrong CRC-16 or end |
| `AhrsDriver.EveryStreamIsTransmitted` | fdilink_ahrs_ROS2/src/ahrs_driver.cpp:149-484 | every stream is such a run and then the beginning of a segment; the driver gets exactly what the run holds and waits at the beginning |
| `AhrsDriver.IncompleteWaits` | fdilink_ahrs_ROS2/src/ahrs_driver.cpp:149-484 | the beginning of a segment yields nothing and stays unread |
| `AhrsDriver.LengthByteIsLength` | fdilink_ahrs_ROS2/src/ahrs_driver.cpp:212-231 | the length byte of a checked type is the length of its body |
| `AhrsDriver.ParseSound` | fdilink_ahrs_ROS2/src/ahrs_driver.cpp:149-484 | on any bytes, each frame seen is a contiguous span, accepted if and only if it is byte for byte a well-formed frame, and spans do not overlap |
| `AhrsDriver.LossIsSkippedFrames` | fdilink_ahrs_ROS2/src/ahrs_driver.cpp:614-705 | when the sender counts up by 1 to 256 between frames, the loss counter gains exactly the frames not heard, over any number of wraps |
| `AhrsDriver.LossExactly` | fdilink_ahrs_ROS2/src/ahrs_driver.cpp:296-367 | for every stream the loss is the frames skipped, plus the charge of a first frame that does not start the count, minus the gap before the frame that does |
| `AhrsDriver.LossIsExactIff` | fdilink_ahrs_ROS2/src/ahrs_driver.cpp:296-367 | for every stream the loss is the frames skipped if and only if that charge equals that gap |
| `AhrsDriver.LateStart` | fdilink_ahrs_ROS2/src/ahrs_driver.cpp:296-367 | numbers 1 and 10 give no loss though eight frames were skipped; 5 and 10 give the right total by accident |
| `AhrsDriver.FirstFrameLoss` | fdilink_ahrs_ROS2/src/ahrs_driver.cpp:296-367 | the first frame alone is charged nothing if and only if it is of a type that starts the count or carries number 1 |
| `AhrsDriver.BuffersHoldLastBodies` | fdilink_ahrs_ROS2/src/ahrs_driver.cpp:369-484 | the IMU and AHRS buffers hold the latest body whose header passed, accepted or not |
| `AhrsDriver.OrientationIsLastBody` | fdilink_ahrs_ROS2/src/ahrs_driver.cpp:369-520 | the orientation published with an accepted IMU frame is the latest AHRS body whose header passed |
| `AhrsDriver.RejectedBodyIsPublished` | fdilink_ahrs_ROS2/src/ahrs_driver.cpp:400-520 | from the bytes of an AHRS frame with any wrong CRC-16 or end and a good IMU frame, the one message published carries the rejected body |
| `AhrsDriver.MessagesAreAcceptedBodies` | fdilink_ahrs_ROS2/src/ahrs_driver.cpp:400-520 | one message goes out for each accepted body, in order, with its bytes, and none for any other |
| `AhrsDriver.MagneticFieldIsLastBody` | fdilink_ahrs_ROS2/src/ahrs_driver.cpp:400-520 | the magnetic field sent with an accepted AHRS frame is of the latest IMU body whose header passed |
| `AhrsDriver.OrientationIsAcceptedIff` | fdilink_ahrs_ROS2/src/ahrs_driver.cpp:400-520 | the orientation published is that of the latest accepted AHRS body if and only if the latest AHRS body at all was accepted or has the same bytes |
| `AhrsDriver.Driver.CheckSn` | fdilink_ahrs_ROS2/src/ahrs_driver.cpp:614-705 | the stored number and the loss move by the forward distance in eight bits |
| `AhrsDriver.Driver.CheckHeader` | fdilink_ahrs_ROS2/src/ahrs_driver.cpp:281-361 | the header goes to the buffer of its type and passes if and only if its CRC-8 matches |
| `AhrsDriver.Driver.CountFrame` | fdilink_ahrs_ROS2/src/ahrs_driver.cpp:296-367 | IMU, AHRS and geodetic frames start the count, INS/GPS frames only continue it |
| `AhrsDriver.Driver.CheckBody` | fdilink_ahrs_ROS2/src/ahrs_driver.cpp:369-484 | the body goes to the buffer of its type and passes if and only if CRC-16 and end byte match |
| `AhrsDriver.Driver.ProcessOnce` | fdilink_ahrs_ROS2/src/ahrs_driver.cpp:149-484 | one pass consumes the bytes, counts, stores and publishes as the parse of the stream says |
| `AhrsDriver.Driver.ProcessLoop` | fdilink_ahrs_ROS2/src/ahrs_driver.cpp:149-484 | the loop leaves the unread rest, the loss tally, the buffers and the published messages of the whole parse |
| `SerialLines.Port.Readline` | serial/src/serial.cc:176-202 | for every size takes the bytes up to the first end of line, the size or the timeout and leaves the rest; writes past its buffer if and only if the size is below the end of line, or zero, and more bytes are pending |
| `SerialLines.Port.Readlines` | serial/src/serial.cc:212-252 | takes up to `size` bytes and returns them cut after each end of line |
| `SerialLines.LineEndMeaning` | serial/src/serial.cc:176-202 | the line ends at the first place that ends with `eol`, or at the size, or where the bytes run out |
| `SerialLines.ReadlinesLosesNothing` | serial/src/serial.cc:212-252 | the lines joined are exactly the bytes consumed if and only if the buffer can hold an `eol`, or it does not fill, or is empty |
| `SerialLines.LineEndIgnoresSize` | serial/src/serial.cc:187-195 | below the length of the end of line the size never ends a line |
| `SerialLines.AgreesIff` | serial/src/serial.cc:176-252 | for an `eol` without border, every stream and every size: `readlines` gives the lines of repeated `readline` if and only if no `readline` runs over or, for a size below `eol`, the bytes run out before it |
| `SerialLines.ReadlinesIsRepeatedReadline` | serial/src/serial.cc:176-252 | `readlines` and repeated `readline` agree wherever none runs over, for every buffer that can hold an `eol`, if and only if `eol` has no proper border |
| `SerialLines.AlwaysAgreesIff` | serial/src/serial.cc:176-252 | they agree on every stream and every such size if and only if `eol` has at most one byte |
| `SerialLines.SecondReadlineTakesMore` | serial/src/serial.cc:176-252 | on "abcd" with size 3 and `eol` "ab" the second line is "c" for `readlines` and "cd" for `readline` |
| `SerialLines.BorderSeparates` | serial/src/serial.cc:176-252 | for every `eol` with a border there is a stream and size on which the two differ though no `readline` runs over |
| `SerialLines.ReadlinesEndsAtFirst` | serial/src/serial.cc:212-252 | without a border every line but the last ends at its first `eol` |
| `FeatureExtraction.Extractor.CalculateSmoothness` | LIO-SAM/src/featureExtraction.cpp:87-107 | exactly the positions with five neighbours each side get curvature, a fresh entry and cleared marks |
| `FeatureExtraction.Extractor.MarkOccludedPoints` | LIO-SAM/src/featureExtraction.cpp:109-144 | a position is suppressed if and only if it was or some pair of neighbours or a jump on both sides occludes it |
| `FeatureExtraction.Extractor.MarkNeighbors` | LIO-SAM/src/featureExtraction.cpp:183-197 | suppresses exactly the positions within five whose columns follow without a jump above ten |
| `FeatureExtraction.PickKeepsSeparation` | LIO-SAM/src/featureExtraction.cpp:169-225 | labelling a point still in the race and suppressing its reach keeps labelled points separated |
| `FeatureExtraction.SectorsTile` | LIO-SAM/src/featureExtraction.cpp:158-165 | the six sectors cover start to end-1 of a ring, each position once |
| `FeatureExtraction.SectorsAreEqual` | LIO-SAM/src/featureExtraction.cpp:158-165 | each sector has a sixth of the ring, but for less than one position |
| `FeatureExtraction.CurvatureMeaning` | LIO-SAM/src/featureExtraction.cpp:87-107 | the curvature is the square of how much farther the ten neighbours are, all together |
| `FeatureExtraction.Extractor.SortRange` | LIO-SAM/src/featureExtraction.cpp:167 | the in-place sort orders and permutes [sp, ep) and leaves position ep alone |
| `FeatureExtraction.Extractor.PickCorners` | LIO-SAM/src/featureExtraction.cpp:169-199 | at most 20 distinct sharp points, in order in the corner cloud; every sharp entry looked at ends suppressed, and it stops early only at a 21st candidate or where a choice would leave the arrays, which is stated exactly |
| `FeatureExtraction.Extractor.PickSurface` | LIO-SAM/src/featureExtraction.cpp:201-225 | labels flat points not suppressed before, without cap, and every flat entry ends suppressed unless a choice would leave the arrays, which is stated exactly |
| `FeatureExtraction.Extractor.CollectSurface` | LIO-SAM/src/featureExtraction.cpp:227-232 | exactly the positions of the sector that are no corner, in order |
| `FeatureExtraction.Extractor.ProcessSector` | LIO-SAM/src/featureExtraction.cpp:158-233 | an untouched sector leaves the arrays if and only if it holds a never written entry and position 0 is exposed, and else ends with every position corner or surface, never both, at most 20 corners, below the cap every sharp one taken or suppressed; the rest is unchanged |
| `FeatureExtraction.Extractor.ProcessRing` | LIO-SAM/src/featureExtraction.cpp:153-241 | the six sectors keep the progress of the frame: sound sectors done so far stay finished, those ahead stay clean, and leaving the arrays means an exposed sector |
| `FeatureExtraction.Extractor.ExtractFeatures` | LIO-SAM/src/featureExtraction.cpp:146-241 | over all rings labelled points stay separated and every sound sector ends finished, whatever the others hold; when all are sound the arrays are left if and only if one is exposed |
| `FeatureExtraction.Extractor.HandleCloud` | LIO-SAM/src/featureExtraction.cpp:72-85 | after any message curvatures are those of its ranges; points on the far side of a depth step or grazed by the beam are suppressed and bare; every other point is suppressed if and only if a labelled one reaches it; labels stand on sharp and flat points, two at most five apart with a column jump above ten between them; every sector that no old entry touches is finished, and when that is all of them the arrays are left if and only if a sector exposes position 0, never marked and flat or sharp |
| `FeatureExtraction.CompactedScan` | LIO-SAM/src/imageProjection.cpp:653-676 | with the ring bounds the projection publishes, every scanned position but 4 has five neighbours each side, and 4 is scanned if and only if the first non-empty ring has 22 points |
| `FeatureExtraction.CompactedSectors` | LIO-SAM/src/imageProjection.cpp:653-676 | with these bounds a sector is free of old entries if and only if it does not hold position 4 with an entry once written, nor the position a scanned entry at 4 names |
| `FeatureExtraction.CompactedIsFresh` | LIO-SAM/src/imageProjection.cpp:653-676 | while the entry at 4 was never written every sector of every such message is free of old entries and lies in the arrays |
| `ImageProjection.ColumnsInOrder` | LIO-SAM/src/imageProjection.cpp:656-676 | the extracted columns of a row are its filled columns, ascending, all of them |
| `ImageProjection.RowRoundTrip` | LIO-SAM/src/imageProjection.cpp:656-676 | a row of the range image is recovered from its columns and ranges |
| `ImageProjection.ImageRoundTrip` | LIO-SAM/src/imageProjection.cpp:653-676 | the whole range image is recovered from the published arrays and ring bounds |
| `ImageProjection.CellsAreFilled` | LIO-SAM/src/imageProjection.cpp:653-676 | the output names each filled cell exactly once, by ring and then column |
| `ImageProjection.CompactionOfCells` | LIO-SAM/src/imageProjection.cpp:653-676 | ring i occupies positions start-4 to end+5 of the arrays |
| `ImageProjection.CompactionFeedsFeatures` | LIO-SAM/src/imageProjection.cpp:653-676 | the published bounds are what feature extraction assumes |
| `ImageProjection.FirstIsEarliest` | LIO-SAM/src/imageProjection.cpp:599-651 | the point kept for a cell is the earliest of the scan that lands in it |
| `ImageProjection.FirstLandingIsEarliest` | LIO-SAM/src/imageProjection.cpp:582-586 | the point all rotations are relative to is the earliest that lands anywhere |
| `ImageProjection.LandsInMeaning` | LIO-SAM/src/imageProjection.cpp:610-637 | a point lands if and only if range and ring pass, in the column half a turn on, less a turn past the last |
| `ImageProjection.EveryAzimuthLands` | LIO-SAM/src/imageProjection.cpp:622-637 | over the whole range of the horizontal angle no point is lost, and its column is the azimuth modulo a turn |
| `ImageProjection.Projector.ProjectPointCloud` | LIO-SAM/src/imageProjection.cpp:599-651 | from an empty image, each cell holds range and point, deskewed or as it came, of the first point that lands there, and is empty if none does |
| `ImageProjection.Projector.DeskewPoint` | LIO-SAM/src/imageProjection.cpp:567-597 | without rotations point and flag stay as they are; with them the first deskewed point of a scan is the reference of all later ones |
| `ImageProjection.Projector.ResetParameters` | LIO-SAM/src/imageProjection.cpp:167-187 | every cell is empty again; `fullCloud` is not touched |
| `ImageProjection.Projector.CloudExtraction` | LIO-SAM/src/imageProjection.cpp:653-676 | the arrays written are the compaction of the image and the cloud its filled cells |
| `ImageProjection.Projector.HandleCloud` | LIO-SAM/src/imageProjection.cpp:220-235 | one scan gives the compaction of its own image, and no extracted point comes from an earlier scan |
| `Deskew.Projector.ImuDeskewInfo` | LIO-SAM/src/imageProjection.cpp:384-440 | the table holds the stamps and running sums of rate times time of the samples used, and is available if and only if there are two; the initial attitude is that of the last sample looked at that is not later than the scan |
| `Deskew.DroppedMeaning` | LIO-SAM/src/imageProjection.cpp:388-394 | exactly the front samples more than 0.01 s older than the scan are dropped |
| `Deskew.UsedMeaning` | LIO-SAM/src/imageProjection.cpp:409-410 | the samples used go up to the first more than 0.01 s later than its end |
| `Deskew.AngleOnStretch` | LIO-SAM/src/imageProjection.cpp:524-549 | between two samples the lookup is linear at the rate of the later one |
| `Deskew.Projector.FindRotation` | LIO-SAM/src/imageProjection.cpp:524-549 | for increasing stamps the lookup is the piecewise-linear integral of the rates on each axis |
| `Deskew.AngleAtSample` | LIO-SAM/src/imageProjection.cpp:524-549 | at a sample time the lookup is the cumulative sum up to it |
| `Deskew.AngleClamps` | LIO-SAM/src/imageProjection.cpp:524-549 | before the first and after the last sample the lookup is the first and last value |
| `Deskew.AngleIsLipschitz` | LIO-SAM/src/imageProjection.cpp:524-549 | between any two times the angle changes by at most the largest rate times the time between |
| `Deskew.BlendIsLinear` | LIO-SAM/src/imageProjection.cpp:539-548 | the weighted blend of the two neighbours is the linear form |
| `ImuPreintegration.RunKeepsInv` | LIO-SAM/src/imuPreintegration.cpp:289-513 | every interleaving of samples and corrections keeps key set, sample accounting and live agreement |
| `ImuPreintegration.LiveIntegratorAgrees` | LIO-SAM/src/imuPreintegration.cpp:443-513 | the live integrator is the re-integration of the whole queue from the latest bias, once a live sample precedes the correction or while there is none |
| `ImuPreintegration.LiveSinceCorrection` | LIO-SAM/src/imuPreintegration.cpp:441-513 | from a good correction that leaves samples to the next, the live integrator holds exactly the samples left and all later ones at the new bias, each over the time from the sample before it, the first from the last one popped; only the first when none was popped, and the first live one when none had come before, get 1/500 s |
| `ImuPreintegration.LiveSpan` | LIO-SAM/src/imuPreintegration.cpp:446-466 | after a good correction that pops some samples and leaves some, the live steps last from the last one popped to the last one queued |
| `ImuPreintegration.CutIsTheSampleBefore` | LIO-SAM/src/imuPreintegration.cpp:446-452 | in every run the recorded cut time is the stamp of the sample that arrived just before the live queue, or -1 when the correction popped none |
| `ImuPreintegration.FirstLiveSample` | LIO-SAM/src/imuPreintegration.cpp:495-513 | the first live sample keeps agreement if and only if it came 1/500 s after the one before |
| `ImuPreintegration.EmptyCorrectionGoesStale` | LIO-SAM/src/imuPreintegration.cpp:446-472 | a correction that leaves no sample keeps the live integrator, which then agrees if and only if it was empty at the new bias |
| `ImuPreintegration.StaleRun` | LIO-SAM/src/imuPreintegration.cpp:289-513 | from the start of the node, a sample on each side of the first correction and a later second one leave a live integrator with a step and an empty queue |
| `ImuPreintegration.CorrectionAgrees` | LIO-SAM/src/imuPreintegration.cpp:441-472 | after a good correction that leaves a sample the live integrator is the re-integration of what is left |
| `ImuPreintegration.KeysStayBounded` | LIO-SAM/src/imuPreintegration.cpp:308-472 | in every run an initialised optimiser holds exactly variables 0..key-1 with 1 <= key <= 100 |
| `ImuPreintegration.GraphIsAChain` | LIO-SAM/src/imuPreintegration.cpp:356-426 | in every run the optimiser of an initialised system holds one prior, on variable 0, and binds each variable to the one before it by one set of measurements, one bias step over the time they span, and one pose |
| `ImuPreintegration.CorrectionMeaning` | LIO-SAM/src/imuPreintegration.cpp:356-452 | a correction uses exactly the queued samples older than itself, adds those three factors from key-1 to key with its own pose, starts over at the last estimated pose after 100 variables, gives up if and only if the estimate is faster than 30 or has a bias above 1, and else pops the older live samples |
| `ImuPreintegration.InitializationMeaning` | LIO-SAM/src/imuPreintegration.cpp:308-354 | a first correction drops exactly the older samples and leaves a prior at its pose, key 1 and zero biases |
| `ImuPreintegration.FactorsNameVariables` | LIO-SAM/src/imuPreintegration.cpp:356-426 | at every update the new variable is missing and the one before it present |
| `ImuPreintegration.EverySampleOnce` | LIO-SAM/src/imuPreintegration.cpp:289-513 | in every run each sample was dropped at an initialisation, went into one factor, or is queued, in order of arrival |
| `ImuPreintegration.EveryStepSpansFromTheSampleBefore` | LIO-SAM/src/imuPreintegration.cpp:387-406 | in every run each sample is integrated with its own measurement over the time from the sample that arrived before it; only the very first gets 1/500 s |
| `ImuPreintegration.FactorSpansItsSamples` | LIO-SAM/src/imuPreintegration.cpp:387-409 | the measurements of a factor span exactly the time from the sample before them to their last |
| `ImuPreintegration.IMUPreintegration.ImuHandler` | LIO-SAM/src/imuPreintegration.cpp:495-513 | queues the sample twice and, once live, integrates it with the time since the last live one |
| `ImuPreintegration.IMUPreintegration.UpdateOptimizer` | LIO-SAM/src/imuPreintegration.cpp:422-426 | accepts only new values and factors on known variables, and empties both lists |
| `ImuPreintegration.IMUPreintegration.StartGraph` | LIO-SAM/src/imuPreintegration.cpp:357-384 | leaves exactly variable 0 and key 1 |
| `ImuPreintegration.IMUPreintegration.DropOld` | LIO-SAM/src/imuPreintegration.cpp:315-325 | drops exactly the leading samples older than the correction |
| `ImuPreintegration.IMUPreintegration.IntegrateOld` | LIO-SAM/src/imuPreintegration.cpp:387-406 | integrates exactly those, each with the time since the one before |
| `ImuPreintegration.IMUPreintegration.CutLiveQueue` | LIO-SAM/src/imuPreintegration.cpp:446-452 | drops them from the live queue and remembers the last stamp |
| `ImuPreintegration.IMUPreintegration.IntegrateLiveQueue` | LIO-SAM/src/imuPreintegration.cpp:453-469 | the live integrator becomes the re-integration of the queue from that stamp |
| `ImuPreintegration.IMUPreintegration.OdometryHandler` | LIO-SAM/src/imuPreintegration.cpp:289-472 | a correction initialises, or recycles, optimises and re-propagates or resets, and keeps the invariant |
| `MapRuns.RunKeeps` | LIO-SAM/src/mapOptmization.cpp:341-743 | every interleaving of handler steps and loop-thread steps keeps key frames, cache, path, graph, queues and loop records consistent |
| `MapRuns.LoopFactorsAreSound` | LIO-SAM/src/mapOptmization.cpp:575-743 | in every run each loop factor joins two different existing key frames, and no key frame is the source of two |
| `MapRuns.EveryConstraintOnce` | LIO-SAM/src/mapOptmization.cpp:597-650 | in every run the constraints handed over, each from the copied pose of the newer key moved by a fitting alignment to the copied pose of the older, are once and in order the loop factors added and then those queued |
| `MapRuns.KeyFramesAreConsistent` | LIO-SAM/src/mapOptmization.cpp:1429-1683 | in every run poses, clouds, path and variables 0..n-1 have one length, intensity is index, path entry i is pose i |
| `MapSteps.KeyFrameAdded` | LIO-SAM/src/mapOptmization.cpp:341-375 | a scan too soon after the last changes nothing; one that is still changes only the local map; any other adds one key frame with its thinned clouds, its time, the newest estimate and its variances |
| `MapSteps.MotionAdded` | LIO-SAM/src/mapOptmization.cpp:1429-1443 | such a scan adds one prior at the matched pose if it is the first, and else one motion from the last key to the new one, from the pose of the last key frame before the scan to the matched pose |
| `MapSteps.EachKeyFrameIsBoundOnce` | LIO-SAM/src/mapOptmization.cpp:1429-1443 | in every run key 0 has the one prior and each later key exactly one motion, from the key before it |
| `MapRuns.LocalMapNeedsNoCache` | LIO-SAM/src/mapOptmization.cpp:946-985 | in every run the fused local map equals the one built without a cache |
| `MapSteps.ScanIsLocated` | LIO-SAM/src/mapOptmization.cpp:341-375 | every scan taken up is matched against the map of its chosen points, built without a cache |
| `MapSteps.ChosenMeaning` | LIO-SAM/src/mapOptmization.cpp:909-944 | those points are the found ones with the index of their nearest key pose, then the key poses under ten seconds old, newest first |
| `MapSteps.DirectMeaning` | LIO-SAM/src/mapOptmization.cpp:946-985 | the map holds exactly the points of the key frames named by points within the radius of the newest key pose, moved to the pose the key frame has now |
| `MapOptimization.FuseIsDirect` | LIO-SAM/src/mapOptmization.cpp:946-985 | fusing with any right cache gives the cacheless map and a right cache |
| `MapRuns.ClosedLoopMovesEveryPose` | LIO-SAM/src/mapOptmization.cpp:1634-1665 | after a closed loop every pose is the estimate and nothing is cached; otherwise no earlier pose moves |
| `MapSteps.LoopMovesEveryPose` | LIO-SAM/src/mapOptmization.cpp:1547-1665 | a key frame that brings a loop or a position moves all key poses and the path to the estimate and empties the cache; any other leaves the earlier ones |
| `MapRuns.NoStepIsRefused` | LIO-SAM/src/mapOptmization.cpp:341-743 | in every run the array accesses of the next step are within bounds |
| `MapRuns.FoundPairsAreTaken` | LIO-SAM/src/mapOptmization.cpp:587-589 | a pair of keys found is always taken up, none being negative |
| `MapRuns.ExternalMeaning` | LIO-SAM/src/mapOptmization.cpp:691-743 | the two times select the earliest key frame at or after one, else the newest, and the latest at or before the other, else the oldest |
| `MapSteps.DetectMeaning` | LIO-SAM/src/mapOptmization.cpp:656-743 | the thread takes a pair if and only if the times sent point at it and it is usable, or none is and it is the newest key with the first one near it that is far in time |
| `MapSteps.ReceivedMeaning` | LIO-SAM/src/mapOptmization.cpp:563-573 | two times are kept behind those that wait, and of six the oldest goes |
| `MapRuns.FirstOldMeaning` | LIO-SAM/src/mapOptmization.cpp:672-680 | the key found by distance is the first of the search that is far in time, and none if all are near |
| `MapOptimization.RecentMeaning` | LIO-SAM/src/mapOptmization.cpp:932-942 | the newest key poses, all under ten seconds old, up to the first that is not |
| `MapNode.MapOptimizer.ReceiveCloudInfo` | LIO-SAM/src/mapOptmization.cpp:341-351 | the unlocked start changes the scan only |
| `MapNode.MapOptimizer.TransformPointCloud` | LIO-SAM/src/mapOptmization.cpp:392-412 | the cloud moved point by point |
| `MapNode.MapOptimizer.ExtractCloud` | LIO-SAM/src/mapOptmization.cpp:946-985 | fused clouds equal the cacheless map of the points within the radius; the cache stays right and at most 1000 large |
| `MapNode.MapOptimizer.ExtractNearby` | LIO-SAM/src/mapOptmization.cpp:909-944 | the points are the chosen ones with the index of their nearest key pose, then those under ten seconds old, newest first |
| `MapNode.MapOptimizer.AddOdomFactor` | LIO-SAM/src/mapOptmization.cpp:1429-1443 | a prior on key 0 for the first frame, else a motion from the last key to the new one |
| `MapOptimization.SearchMeaning` | LIO-SAM/src/mapOptmization.cpp:1469-1524 | the position taken is the first on time, quiet and 5 m from the last one used, unless one that is too new stands before it; all before it are dropped and nothing else is |
| `MapSteps.FixMeaning` | LIO-SAM/src/mapOptmization.cpp:1445-1525 | a key frame is bound to a position only when the key frames have moved 5 m and the newest is uncertain, and then to a queued one within 0.2 s, quiet, not the origin and 5 m from the last; that one and all before it leave the queue |
| `MapSteps.FixIsFound` | LIO-SAM/src/mapOptmization.cpp:1445-1525 | when such a position is queued and none before it is too new, the key frame is bound to one |
| `MapRuns.GpsPositionsAreSpaced` | LIO-SAM/src/mapOptmization.cpp:1445-1525 | in every run no two positions bind one key frame, each is within 0.2 s of its key frame, and each is 5 m or more from the one before |
| `MapNode.MapOptimizer.GpsHandler` | LIO-SAM/src/mapOptmization.cpp:377-382 | a position is queued when the parameter says so |
| `MapNode.MapOptimizer.AddGpsFactor` | LIO-SAM/src/mapOptmization.cpp:1445-1525 | the loop leaves queue, last position, factors and loop flag as the search says, and does nothing before the key frames have moved 5 m or while the newest pose is certain |
| `MapNode.MapOptimizer.AddLoopFactor` | LIO-SAM/src/mapOptmization.cpp:1527-1545 | every queued constraint becomes a factor in order, the queues empty, and a loop is closed if there was any |
| `MapNode.MapOptimizer.UpdateOptimizer` | LIO-SAM/src/mapOptmization.cpp:1565-1586 | accepts only a new key and factors on known keys |
| `MapNode.MapOptimizer.SaveFrame` | LIO-SAM/src/mapOptmization.cpp:1402-1427 | a scan is kept if it is the first, turned or moved by a threshold since the last key frame, or for a LIVOX sensor a second later |
| `MapNode.MapOptimizer.SaveKeyFramesAndFactor` | LIO-SAM/src/mapOptmization.cpp:1547-1632 | such a scan adds factors, key frame, thinned clouds and path entry; any other changes nothing |
| `MapNode.MapOptimizer.CorrectPoses` | LIO-SAM/src/mapOptmization.cpp:1634-1665 | after a closed loop the cache is empty, poses are the estimates, the path is redrawn and the flag is down |
| `MapNode.MapOptimizer.LaserCloudInfoHandler` | LIO-SAM/src/mapOptmization.cpp:352-375 | the locked part acts only after the processing interval and keeps the invariant from any state that has it |
| `MapNode.MapOptimizer.LoopInfoHandler` | LIO-SAM/src/mapOptmization.cpp:563-573 | a message of two times is kept among the last five |
| `MapNode.MapOptimizer.CopyKeyPoses` | LIO-SAM/src/mapOptmization.cpp:580-583 | the copy is of both pose arrays |
| `MapNode.MapOptimizer.BeginLoopClosure` | LIO-SAM/src/mapOptmization.cpp:575-578 | the thread goes on only when there is a key frame |
| `MapNode.MapOptimizer.DetectLoopClosure` | LIO-SAM/src/mapOptmization.cpp:585-590 | a pair from the times sent is taken first, then one found by distance, else the thread rests |
| `MapNode.MapOptimizer.DetectLoopClosureExternal` | LIO-SAM/src/mapOptmization.cpp:691-743 | consumes one message and gives its pair of keys unless equal, too close in time, or already a source |
| `MapNode.MapOptimizer.DetectLoopClosureDistance` | LIO-SAM/src/mapOptmization.cpp:656-689 | gives the newest key with an old one nearby unless it is already a source |
| `MapNode.MapOptimizer.AddConstraint` | LIO-SAM/src/mapOptmization.cpp:597-650 | a fitting alignment adds to the queues the motion from the moved copied pose of the newer key to the copied pose of the older, any other nothing |
| `MapNode.MapOptimizer.RecordConstraint` | LIO-SAM/src/mapOptmization.cpp:652-653 | the source is noted after the constraint is queued |
| `AngleFilter.MergeRanges` | lidar_ros2/lslidar_ros/lslidar_driver/src/lslidar_driver.cpp:284-297 | sorted ranges become disjoint ones with the same union |
| `AngleFilter.CalculateDisableAngles` | lidar_ros2/lslidar_ros/lslidar_driver/src/lslidar_driver.cpp:300-322 | the ranges are those of all requests, merged, or those before the first request with equal ends |
| `AngleFilter.IsSkipAngle` | lidar_ros2/lslidar_ros/lslidar_driver/src/lslidar_driver.cpp:570-575 | true if and only if no range contains the azimuth |
| `AngleFilter.UsableAngles` | lidar_ros2/lslidar_ros/lslidar_driver/src/lslidar_driver.cpp:240-251 | the gaps between the ranges, and the rest up to 36000 |
| `AngleFilter.WrappedIsModulo` | lidar_ros2/lslidar_ros/lslidar_driver/src/lslidar_driver.cpp:303-304 | the double remainder is the residue in [0, 36000) for negative angles too |
| `AngleFilter.CutAllCoversArcs` | lidar_ros2/lslidar_ros/lslidar_driver/src/lslidar_driver.cpp:300-317 | the ranges of the requests cover exactly the requested arcs around the circle |
| `AngleFilter.MergedMeaning` | lidar_ros2/lslidar_ros/lslidar_driver/src/lslidar_driver.cpp:284-297 | merging keeps the union and leaves sorted, disjoint ranges |
| `AngleFilter.FilterIsExactIff` | lidar_ros2/lslidar_ros/lslidar_driver/src/lslidar_driver.cpp:284-322 | without equal ends the filter drops exactly the requested arcs if and only if the sorted ranges do not begin with (0, 0) |
| `AngleFilter.NoEndAtZeroIsExact` | lidar_ros2/lslidar_ros/lslidar_driver/src/lslidar_driver.cpp:284-322 | with no end at 0 it is exact whatever order the sort leaves equal starts in |
| `AngleFilter.EndAtZeroTurnsItOff` | lidar_ros2/lslidar_ros/lslidar_driver/src/lslidar_driver.cpp:740-742 | with an end at 0 and no other range starting there nothing is dropped |
| `AngleFilter.OrderOfEqualStartsDecides` | lidar_ros2/lslidar_ros/lslidar_driver/src/lslidar_driver.cpp:287 | two requests for which one order of equal starts drops an azimuth and another keeps it |
| `AngleFilter.EmptyRequestEndsTheList` | lidar_ros2/lslidar_ros/lslidar_driver/src/lslidar_driver.cpp:305-309 | a request with equal ends drops itself and all later ones; exactly the earlier ones count |
| `AngleFilter.UsableIsComplement` | lidar_ros2/lslidar_ros/lslidar_driver/src/lslidar_driver.cpp:240-251 | the usable ranges are exactly the azimuths on no requested arc |
| `AngleFilter.UsableAfterEmptyRequest` | lidar_ros2/lslidar_ros/lslidar_driver/src/lslidar_driver.cpp:240-251 | after a request with equal ends every azimuth is listed as usable |
| `SweepSplitter.NothingIsLost` | lidar_ros2/lslidar_ros/lslidar_driver/src/lslidar_driver.cpp:674-924 | over any run the clouds handed off and then the current one are all kept firings since the first start, in order, each once |
| `SweepSplitter.SweepsAreBetweenStarts` | lidar_ros2/lslidar_ros/lslidar_driver/src/lslidar_driver.cpp:674-924 | each cloud handed off is exactly the kept firings from one start to the next, more than the threshold of packets apart |
| `SweepSplitter.ScanMeaning` | lidar_ros2/lslidar_ros/lslidar_driver/src/lslidar_driver.cpp:676-684 | the start found is the first azimuth jump above 35000 in the packet |
| `SweepSplitter.JumpsAreFound` | lidar_ros2/lslidar_ros/lslidar_driver/src/lslidar_driver.cpp:674-687 | when more than the threshold of packets came since the last start and two neighbouring firings of a packet lie more than 35000 apart, a sweep starts in that packet, at them or before |
| `SweepSplitter.StartsAreJumps` | lidar_ros2/lslidar_ros/lslidar_driver/src/lslidar_driver.cpp:674-687 | a packet brings a start if and only if the scan does not rest and there is such a jump, and then at the first; the first firing is compared with the azimuth remembered |
| `SweepSplitter.LastAzimuthIsMemory` | lidar_ros2/lslidar_ros/lslidar_driver/src/lslidar_driver.cpp:676-684 | the azimuth remembered is the last of the latest packet scanned, or that before the very first start, or the corrected last one of a packet with a later start |
| `SweepSplitter.FilteredMeaning` | lidar_ros2/lslidar_ros/lslidar_driver/src/lslidar_driver.cpp:740-742 | exactly the firings in range and on no disabled arc are kept |
| `SweepSplitter.AdjustedAzimuth` | lidar_ros2/lslidar_ros/lslidar_driver/src/lslidar_driver.cpp:704-721 | the c32_3 correction turns the azimuth by just its amount, stays within 0 and 36000, and is 36000 if and only if the sum is |
| `SweepSplitter.OffsetTurns` | lidar_ros2/lslidar_ros/lslidar_driver/src/lslidar_driver.cpp:725-738 | the C32W turns eight rings by 389 and the MSC16 each ring by its angle, within [0, 36000) |
| `SweepSplitter.Driver.FindBoundary` | lidar_ros2/lslidar_ros/lslidar_driver/src/lslidar_driver.cpp:676-684 | the scan remembers each azimuth before the jump and resets the packet count at it |
| `SweepSplitter.Driver.AdjustAzimuths` | lidar_ros2/lslidar_ros/lslidar_driver/src/lslidar_driver.cpp:704-721 | all 384 azimuths are corrected in place |
| `SweepSplitter.Driver.AddFirings` | lidar_ros2/lslidar_ros/lslidar_driver/src/lslidar_driver.cpp:724-742 | the firings of a stretch are offset in place once and those in range and outside the disabled arcs are added |
| `SweepSplitter.Driver.HandOff` | lidar_ros2/lslidar_ros/lslidar_driver/src/lslidar_driver.cpp:852-924 | the cloud goes out whole and the rest of the packet starts the next |
| `SweepSplitter.Driver.PollPacket` | lidar_ros2/lslidar_ros/lslidar_driver/src/lslidar_driver.cpp:674-924 | one packet moves the driver as the run specification says |
| `ChassisCan.ParseInvertsBuild` | wtb_car_driver/src/wtb_car.cpp:230-321 | parsing a built frame gives the gear for all five, the speed if and only if it has 16 bits, the angle if and only if it has 16 signed bits |
| `ChassisCan.FieldsBack` | wtb_car_driver/src/wtb_car.cpp:230-314 | for any words a frame carries the low 16 bits of both and the counter modulo 16 |
| `ChassisCan.FrameLayout` | wtb_car_driver/src/wtb_car.cpp:230-267 | as one number, lowest byte first, a frame has the gear from bit 0, 16 bits of speed from bit 4, 16 of angle from bit 20, the counter from bit 52, and zeros elsewhere |
| `ChassisCan.CommandLayout` | wtb_car_driver/src/wtb_car.cpp:334-367 | a command goes out as gear 4, or 2 to back up, its unsigned speed in mm/s, its whole degrees in hundredths, negated to back up, and the counter |
| `ChassisCan.DegreesMeaning` | wtb_car_driver/src/wtb_car.cpp:334-338 | the angle is cut to whole degrees toward zero |
| `ChassisCan.FrameCancels` | wtb_car_driver/src/wtb_car.cpp:262-264 | the eight bytes of every frame cancel |
| `ChassisCan.ChangedByteShows` | wtb_car_driver/src/wtb_car.cpp:262-264 | a frame with one byte replaced cancels if and only if nothing changed |
| `ChassisCan.EveryFrame` | wtb_car_driver/src/wtb_car.cpp:334-367 | over any run frame n is of command n/3, carries n modulo 16 and cancels |
| `ChassisCan.CommandReadsBack` | wtb_car_driver/src/wtb_car.cpp:180-193 | a command read back from its frame has its signed speed in mm/s and its whole degrees, negated when backing up |
| `ChassisCan.WtbCar.BuildCtrlCmdData` | wtb_car_driver/src/wtb_car.cpp:230-267 | the bytes filled are the frame for the counter, which moves on |
| `ChassisCan.WtbCar.SendSpeedToAKM` | wtb_car_driver/src/wtb_car.cpp:334-367 | three frames of the command are published, and the published frames are those of all commands so far |
| `SyncQueue.FirstInFirstOut` | rslidar_sdk/src/rs_driver/src/rs_driver/utility/sync_queue.hpp:50-81 | for every interleaving of the loads and stores of one push and one pop thread, the popped values and then the ring are the accepted values in order |
| `SyncQueue.RefusedIffFull` | rslidar_sdk/src/rs_driver/src/rs_driver/utility/sync_queue.hpp:52-58 | a push is refused if and only if all slots but one are taken when it looks |
| `SyncQueue.NothingIffEmpty` | rslidar_sdk/src/rs_driver/src/rs_driver/utility/sync_queue.hpp:69-75 | a pop finds nothing if and only if the ring is empty when it looks |
| `SyncQueue.CallsAreAtomic` | rslidar_sdk/src/rs_driver/src/rs_driver/utility/sync_queue.hpp:50-81 | every interleaving of loads and stores answers its calls, in the order of their last steps, as a queue would on which each call is one piece, and leaves the same contents |
| `SyncQueue.WrapIsModulo` | rslidar_sdk/src/rs_driver/src/rs_driver/utility/sync_queue.hpp:53-53 | stepping around the ring is the remainder by the capacity |
| `SyncQueue.Queue.Push` | rslidar_sdk/src/rs_driver/src/rs_driver/utility/sync_queue.hpp:50-64 | appends unless full, and says so |
| `SyncQueue.Queue.Pop` | rslidar_sdk/src/rs_driver/src/rs_driver/utility/sync_queue.hpp:66-81 | takes the oldest, or nothing when empty |
| `PointCloudPool.OnePlaceEach` | rslidar_sdk/src/source/source_driver.hpp:191-264 | in every run each message made is in exactly one of free queue, driver, stuffed queue, consumer, or refused |
| `PointCloudPool.DeliveredInOrder` | rslidar_sdk/src/source/source_driver.hpp:217-264 | what the consumer took and what waits is what was put, in order |
| `PointCloudPool.AllocationsAreThePeak` | rslidar_sdk/src/source/source_driver.hpp:191-200 | below the capacity nothing is refused and the messages made equal the most ever outstanding |
| `PointCloudPool.PeakIsTheMost` | rslidar_sdk/src/source/source_driver.hpp:191-264 | the recorded peak is reached at some point of the run and passed at none |
| `PointCloudPool.LoadByLoad` | rslidar_sdk/src/source/source_driver.hpp:191-264 | with both queues taken load by load, in any interleaving of the two threads, queues and threads are always as a run of whole events has them |
| `PointCloudPool.SourceDriver.GetPointCloud` | rslidar_sdk/src/source/source_driver.hpp:191-200 | gives the oldest free message, and a new one only when there is none |
| `PointCloudPool.SourceDriver.PutPointCloud` | rslidar_sdk/src/source/source_driver.hpp:217-220 | moves the message to the end of the stuffed queue |
| `PointCloudPool.SourceDriver.ProcessPointCloud` | rslidar_sdk/src/source/source_driver.hpp:251-264 | sends the oldest stuffed message, if any, and returns it to the free queue |

## Left out

- ROS publishers, subscriptions, parameters, TF, launch files, logging, PCD saving: plumbing around the modelled code.
- GTSAM, iSAM2, ICP, kd-tree, VoxelGrid, Eigen and OpenCV numerics and the scan-to-map optimisation: their results are parameters.
- Floating-point rounding: times, ranges, rotations, speeds and angles are reals; a float division such as angle / 0.01 may truncate one step lower than here.
- Memory-level races: the cloud vectors the loop thread reads without the mutex, the data-race side of `timeLaserInfoCur`, the parameters `difopPoll` writes while `poll` reads them, and relaxed memory ordering (queue steps are sequentially consistent).
- `CRC32_Table`: it uses the CRC-16 table and a 16-bit register, so there is no CRC-32 to state anything about.
- AhrsDriver.ReadOne: assumes complete reads, because the driver does not check several of its read counts.
- The messages of the AHRS driver: which fields are converted into which topic; the model keeps the two bodies a message is made from.
- ImageProjection: the LIVOX branch, because its per-ring column counters are never sized in the repository; `cachePointCloud` and the odometry part of deskewing.
- ImageProjection.Projector.DeskewPoint: the motion between two points is a parameter.
- FeatureExtraction.Extractor.HandleCloud: where a choice would look outside the arrays the source goes on with undefined behaviour; the model ends the frame there and says so.
- SerialLines.Port.Readline: nothing is said of the line once it is written past its buffer.
- Deskew.Projector.ImuDeskewInfo: more than 2000 samples in one scan, which the source writes past its tables.
- Deskew.Projector.FindRotation: is called only when the table is available, and states its meaning for strictly increasing stamps.
- MapNode.MapOptimizer.AddConstraint: the clouds near the two key frames and their alignment are inputs; the constraint is kept as the pair of poses it relates. Time is read once in the distance search.
- MapNode.MapOptimizer.GpsHandler: a queued position is one step; the handler takes no lock.
- MapOptimization: fields are grouped in records (scan, frames, fusion, graph, queues, loop thread) that the methods reassign, so aliasing of cloud pointers is not modelled.
- ImuPreintegration: noise models and covariances, the predicted first values and the published odometry; one variable stands for pose, velocity and bias of a key, and the pose of a correction is given in the frame of the IMU.
- ImuPreintegration.IMUPreintegration.ImuHandler: stamps are not negative, as times since an epoch are.
- SweepSplitter: packet decoding, the point's time, the conversion to coordinates and the laser scan built beside the cloud; a cloud keeps each firing and its place in the packet.
- SweepSplitter.Driver.HandOff: the hand-off itself; whether the publishing thread is done before the next one is not modelled.
- AngleFilter.CalculateDisableAngles: the sorted list is an input that may be any sorting of the ranges.
- ChassisCan.WtbCar.BuildCtrlCmdData: conversions of values outside the machine type, which the source leaves undefined, give the low bits here.
- ChassisCan: gear names are a datatype; odometry, battery messages and the `run_static` gate would only add easy members.
- PointCloudPool: the waiting time of `popWait`, and the packet and IMU queues, which work the same way.
- wtb_vehicle_interface, can_bridge, the serial port's system calls, Qt scripts: small or outside the scope of proof.
