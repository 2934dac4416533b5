# rustkube-node: protocols, allocators and formats, modelled and proved

rustkube-node is a Kubernetes node agent. This project models the parts of it that hold state,
follow a protocol or do arithmetic, and proves what they promise over every input and every run.
`dafny verify dfyconfig.toml` checks all of it.

| file | models |
|---|---|
| `PodStatus.dfy` | writing a pod's status: optimistic concurrency against an apiserver that others also write |
| `Admission.dfy` | startup admission: the conditions asked one by one, park and look again, and the two loops that wake the parked |
| `CrashLoop.dfy` | the crash-loop backoff, its file, and its rate bound |
| `LogNames.dfy`, `LogDirectory.dfy`, `LogHistory.dfy` | a container's log files: names, numbering, pruning, rotation, and whole runs of them |
| `Crc32.dfy`, `Gzip.dfy` | the CRC loop as polynomial division, and the gzip member around it |
| `Ipam.dfy`, `Bridge.dfy` | the host-local allocator and the bridge plugin's ADD and DEL with their rollback |
| `EngineToken.dfy` | which credential an engine call presents, and when it waits |
| `CsiPlugins.dfy` | the CSI registration scan and the CSINode record |
| `MountInfo.dfy` | the kernel's mount table: reader against printer |
| `MountLists.dfy` | mount lists on the command line: text against direct lookup |

Objects whose methods change fields are classes; each method is tied by its `ensures` to a
function of the old state, and the promises are proved about those functions and about runs of
them. What the outside world does (other writers, the transport, clocks, the answers of a
server, files that change, which step of the plumbing fails, bytes that arrive while a file is
copied) is an arbitrary input of every step. Times are whole nanoseconds (backoff) or
milliseconds (CSI); 32-bit and 8-bit arithmetic wraps where the model says so.

## Where the code does something else than its documentation says

The code was followed each time; the lemma named states the finding.

- Startup admission's parked workloads are to be woken when the pod or VMI list opens it, their
  retry being only the fallback. Admission can also open between two lists, when an adopted pod
  without a spec or a machine without its object goes, and it can close again; no release follows,
  and a workload waits for its retry (`Admission.AdoptedPodStrands`,
  `Admission.StoppingMachineStrands`). Who is stranded, exactly: `Admission.StrandedExactly`; and
  nobody is once the conditions have settled (`Admission.SettledAdmissionStrandsNone`).
- While the watch has not delivered the kubelet's last status write, that write is to be the status
  to compare with. It is only while the watched copy is at the revision that write was made on: after
  two writes in a row, or one that met a 409, a repeated report is sent again
  (`PodStatus.SecondReportIsNotSkipped`, `PodStatus.ReportAfterConflictIsNotSkipped`; exactly when:
  `PodStatus.RepeatIsSkippedExactly`). The server does not change (`PodStatus.RepeatWritesNothing`).
- A saved backoff is to be dropped only when it is forgiven, after 600 s. It is reckoned in whole
  seconds and can be dropped up to a second early (`CrashLoop.UnforgivenCanBeDropped`; exactly
  when: `CrashLoop.ExpiredExactly`).
- The engine client's `accepted` is described as set by any answer but a 401. An answer to the
  admin token does not set it, so a later call can still wait
  (`EngineToken.AdminAcceptanceIsNotRecorded`).
- A CSINode write that landed but whose answer was lost leaves the record of the last published
  set in place. If the drivers then return to that set, the next scan writes nothing and asks for
  no retry while CSINode lists something else (`CsiPlugins.UnheardWriteCanStand`); this happens
  only after such a write (`CsiPlugins.QuietScan`).
- Two sockets that give one driver name displace each other: one of them is then present and not
  registered, with no retry asked for (`CsiPlugins.QuietScanRegistersAll`, exactly when names
  collide).
- `is_mount_point` never finds `/` (`MountInfo.RootIsNeverFound`).
- Log rotation means to keep both of two rotations of one second, but its check for an existing
  file comes after every older file was compressed under another name. The pass after that
  compresses the newer over the older (`LogHistory.SharedStampLosesData`). A rotated run stays good
  exactly if its pass is stamped later than every rotation left
  (`LogHistory.RotatedRunIsGoodExactly`); with stamps that increase it always does
  (`LogHistory.LogsAreKept`).
- The allocator is to hand an address to one container at a time, to give a container its own again,
  and to free it on DEL. An allocation file that cannot be read or parsed is skipped, and then it does
  none of these (`Bridge.UnreadAddressIsGivenAgain`, `Bridge.SuccessfulAdd`,
  `Bridge.DelOfUnreadKeeps`; exactly when addresses stay distinct: `Bridge.RunIsSound`).
- A repeated ADD whose plumbing fails releases the address the container already held
  (`Bridge.FailedAdd`).
- An optional mount-list entry written as `? name:volume`, with a space, keeps that space and is
  lost on the command line (`MountLists.SpacedOptionalEntryIsLost`).

## Model

| member | source | states |
|---|---|---|
| PodStatus.MergeByField | pkg/kubelet/src/kubelet.rs:2997-3007 | Field by field: ours replace the base's, the rest stay, and `message` and `reason` go when ours has no message |
| PodStatus.MergeIsIdempotent | pkg/kubelet/src/kubelet.rs:2997-3007 | Merging the same report again changes nothing |
| PodStatus.ApiServer.Serve | pkg/kubelet/src/kubelet.rs:2883-2896 | The apiserver's side of one PUT call delivered any number of times with others acting in between: only the right uid at the live revision is stored, the last answer counts |
| PodStatus.ApiServer.Get | pkg/kubelet/src/kubelet.rs:2905-2912 | The re-read sees the pod as it is after whatever others did |
| PodStatus.Kubelet.Round | pkg/kubelet/src/kubelet.rs:2886-2922 | One PUT and, on a 409 that is not the last, the re-read: a pod gone or replaced or already saying the report ends the write, otherwise the new merge goes on at the new revision |
| PodStatus.Kubelet.NextRound | pkg/kubelet/src/kubelet.rs:2883-2922 | A round as the next step of a whole write; the last attempt always ends it |
| PodStatus.Kubelet.WritePodStatus | pkg/kubelet/src/kubelet.rs:2873-2923 | The loop's result, deliveries, PUT count and server are those of the recursive specification of a write, for every schedule of other actors and transport failures |
| PodStatus.WriteEnds | pkg/kubelet/src/kubelet.rs:2883-2923 | A write told turn by turn: each next PUT carries the report merged onto what the re-read found, at its revision; it ends in an error exactly if some PUT it made got no usable answer or found no pod, or a re-read was lost, or the fifth PUT was a 409; with nothing to write exactly if a re-read was served and found the pod gone, replaced or saying the report; and written exactly if the last PUT was stored |
| PodStatus.Kubelet.ReportPodStatus | pkg/kubelet/src/kubelet.rs:1757-1789 | A pass picks its base and revision, skips, writes or finds no revision, and updates its record of acknowledged writes |
| PodStatus.PassEnds | pkg/kubelet/src/kubelet.rs:1757-1789 | When a pass skips, has no revision, or writes, onto which status and revision; and its record after: dropped when there was nothing to write, replaced when a new one is acknowledged, otherwise, after an error too, as it was |
| PodStatus.UnreachableIsAnError | pkg/kubelet/src/kubelet.rs:2895-2897 | A first PUT that gets no usable answer is an error, and the record of the last write stays |
| PodStatus.ApplyLands | pkg/kubelet/src/kubelet.rs:2883-2903 | A PUT grounded on a held status changes the server only by storing the merge onto the status held at that moment, on the pod with that uid |
| PodStatus.WriteLands | pkg/kubelet/src/kubelet.rs:2873-2923 | In every interleaving every PUT of a write that lands is such a merge, never on another uid; at most five PUTs; a written result names a version the server held |
| PodStatus.BaseWasHeld | pkg/kubelet/src/kubelet.rs:3014-3020 | The base of a pass is a version of this pod the server held, at or after the watched one |
| PodStatus.PassIsGood | pkg/kubelet/src/kubelet.rs:1757-1789 | One pass keeps the record sound, and skips only if some version at or after the watched one already said the report |
| PodStatus.EveryRunIsGood | pkg/kubelet/src/kubelet.rs:1757-1789 | Over any run of passes with an arbitrarily late watch and any other actors, every recorded write was held by the server and every pass is as above |
| PodStatus.RepeatIsSkippedExactly | pkg/kubelet/src/kubelet.rs:1756-1766 | A report just written and made again from any later copy of that pod is skipped exactly if the copy is at the revision written on or its status says the report |
| PodStatus.RepeatWritesNothing | pkg/kubelet/src/kubelet.rs:1756-1789 | Made again from any version the server ever held, while others leave the pod alone and the transport works, it changes nothing: if not skipped, its PUT is a 409 and the re-read ends it |
| PodStatus.SaidIsNotWritten | pkg/kubelet/src/kubelet.rs:1756-1789 | The same for any report the server already says, whoever wrote it: one PUT, no change, and the record of the last write is dropped |
| PodStatus.WrittenIsSettled | pkg/kubelet/src/kubelet.rs:2883-2903 | In every interleaving a write that reports success leaves the server holding that pod, saying the report |
| PodStatus.SecondReportIsNotSkipped | pkg/kubelet/src/kubelet.rs:1751-1766 | Two reports written in a row, the watch delivering neither: the second made again is not skipped, although it is what the server holds and the last write acknowledged |
| PodStatus.ReportAfterConflictIsNotSkipped | pkg/kubelet/src/kubelet.rs:1751-1766 | The same after one write that met a 409 |
| PodStatus.WriteSettles | pkg/kubelet/src/kubelet.rs:2883-2922 | Over a working transport a write of a pod nobody deletes ends without error with the server saying the report, if nobody touches the pod between some re-read and its PUT |
| PodStatus.ThreeChangesAreWithstood | pkg/kubelet/src/kubelet.rs:2883-2928 | So at most three other changes after the first PUT never defeat a write |
| PodStatus.WriteErrsExactly | pkg/kubelet/src/kubelet.rs:2883-2928 | While others never make the status say the report, a write ends in an error exactly if its first PUT is outdated and the pod is changed before each of the four later PUTs |
| Admission.FoundAllOpen | pkg/kubelet/src/kubelet.rs:2062-2066 | A worker or a release that found admission open had read, in this order, both flags set, no pod without a spec, and an object for every machine there was |
| Admission.NoneThroughEarly | pkg/kubelet/src/kubelet.rs:1830-1839 | No worker gets past admission before both flags are set |
| Admission.OpenAdmissionLetsThrough | pkg/kubelet/src/kubelet.rs:1830-1841 | A desired workload taken up once every condition holds for good is past admission with the fifth step of its pass, whatever is interleaved |
| Admission.SecondLookLetsThrough | pkg/kubelet/src/kubelet.rs:1830-1841 | One that has parked then is past it with six more steps, and no longer parked |
| Admission.ClosedAdmissionParks | pkg/kubelet/src/kubelet.rs:1830-1839 | A first look that meets any condition closed leads to the parked set and a second look, a second to waiting |
| Admission.OthersAreNotAsked | pkg/kubelet/src/kubelet.rs:1826-1830 | A static pod without claims, a workload not desired and a pass with something else to do neither park nor wait |
| Admission.ListsRelease | pkg/kubelet/src/kubelet.rs:1133-1146 | A list that answers sets its flag and then releases; one whose claims or publication fail releases nothing |
| Admission.ReleaseTakesAll | pkg/kubelet/src/workload.rs:419-428 | A release that found everything open empties the parked set and queues those of it still desired |
| Admission.FlagsNeedLists | pkg/kubelet/src/kubelet.rs:936-941 | In every run a flag is set, and a loop at work, only after that list has answered; without VMs the VMI flag is set all along and no machine closes admission |
| Admission.ConditionsFollow | pkg/kubelet/src/vm_manager.rs:1902-1937 | What each event does to the pods without a spec, the machines recorded and the objects known |
| Admission.NoneLost | pkg/kubelet/src/workload.rs:407-428 | In every interleaving a desired workload that parked, looking again or waiting, is still parked, in the hand of a release, or queued |
| Admission.StrandedExactly | pkg/kubelet/src/kubelet.rs:2062-2078 | For every run: a desired workload that waits is queued, or about to be, exactly if since it parked something else than admission woke it, or a release found every condition open, or it was queued already when it parked |
| Admission.WaitingHasParked | pkg/kubelet/src/kubelet.rs:1830-1839 | Every workload that waits parked at some event of the run, and no pass of it began since |
| Admission.SettledAdmissionStrandsNone | pkg/kubelet/src/kubelet.rs:2062-2078 | Once every condition holds for good, the first release to begin and end after that leaves nobody waiting unqueued, whoever parks when, without any retry timer |
| Admission.AdoptedPodStrands | pkg/kubelet/src/pod_manager.rs:797-799 | A run with both flags set and both releases done in which a pod without a spec goes, every condition then holds, and a desired workload waits with no release to come |
| Admission.StoppingMachineStrands | pkg/kubelet/src/vm_manager.rs:1902-1937 | The same for a workload that comes while a machine whose object is gone still stops, long after both releases |
| CrashLoop.CrashLoopBackoff.Wait | pkg/kubelet/src/crashloop.rs:171-177 | The time left until the container may restart, none without an entry or once it is due |
| CrashLoop.CrashLoopBackoff.Restarted | pkg/kubelet/src/crashloop.rs:179-197 | The next delay: the base after nothing or after a forgiven entry, else doubled up to the cap; the file follows |
| CrashLoop.CrashLoopBackoff.Running | pkg/kubelet/src/crashloop.rs:199-206 | A stable container's entry, and only that, is dropped |
| CrashLoop.CrashLoopBackoff.ForgetPod | pkg/kubelet/src/crashloop.rs:210-221 | The new entries and file after a pod is forgotten |
| CrashLoop.CrashLoopBackoff.PersistTo | pkg/kubelet/src/crashloop.rs:98-130 | Restoring adds each unexpired saved entry that no live one stands for, and writes the file |
| CrashLoop.CrashLoopBackoff.Save | pkg/kubelet/src/crashloop.rs:132-157 | The file holds every entry in whole wall-clock seconds, or stays as it was when the write fails |
| CrashLoop.ForgetDropsExactlyThePod | pkg/kubelet/src/crashloop.rs:210-221 | Forgetting a pod drops the entries of that pod and of no other |
| CrashLoop.KeysDiffer | pkg/kubelet/src/crashloop.rs:159-162 | Different containers have different keys |
| CrashLoop.DelaysInARow | pkg/kubelet/src/crashloop.rs:32-40 | Restarts in a row set 10, 20, 40, 80, 160 and then 300 seconds for ever, from the first on or from one 600 s after the last |
| CrashLoop.RunningForgetsExactly | pkg/kubelet/src/crashloop.rs:199-206 | Seen running, exactly that container's entry goes, and only 600 s or more after its last restart |
| CrashLoop.RunWithoutRunning | pkg/kubelet/src/crashloop.rs:171-206 | A run answers every `wait` and sets every delay as the same run without its `running` calls does |
| CrashLoop.ForgettingIsInvisible | pkg/kubelet/src/crashloop.rs:171-206 | So any two runs that differ only in `running` calls agree on every answer and every delay |
| CrashLoop.GapPaysForSlack | pkg/kubelet/src/crashloop.rs:179-195 | One gap between restarts, amortised: what it lacks of 150 s comes off a slack of at most 450 s |
| CrashLoop.GapsTakeTime | pkg/kubelet/src/crashloop.rs:171-195 | Any m gaps between restarts that respect `wait` take at least 150 m - 450 s, forgiveness included |
| CrashLoop.RestartsPerWindow | pkg/kubelet/src/crashloop.rs:171-195 | So at most T/150 + 4 restarts in any T seconds |
| CrashLoop.RateBoundIsTight | pkg/kubelet/src/crashloop.rs:179-195 | For every k some run from a clean start takes exactly 150 m - 450 s for its m = 4 + 5 k gaps, with k forgivenesses |
| CrashLoop.InstantSurvives | pkg/kubelet/src/crashloop.rs:73-88 | An instant taken to the wall clock and back at another moment moves by less than two seconds |
| CrashLoop.WallExactly | pkg/kubelet/src/crashloop.rs:73-79 | The wall-clock second saved for an instant, and none before the epoch |
| CrashLoop.ExpiredExactly | pkg/kubelet/src/crashloop.rs:98-130 | A saved entry is dropped exactly if it is 600 old in the whole seconds of the two wall clocks and of its age at the save |
| CrashLoop.ExpiryIsNearStable | pkg/kubelet/src/crashloop.rs:98-130 | which is the age of forgiveness to within a second |
| CrashLoop.RestoreAfterSave | pkg/kubelet/src/crashloop.rs:98-157 | Save then restore: an entry comes back exactly if it is younger than that, its delay exact and both times within two seconds, a live entry never overwritten, nothing invented |
| CrashLoop.RestoredWait | pkg/kubelet/src/crashloop.rs:81-88 | A restored entry makes wait until its saved second, and not at all once that has come, even before the clock began |
| CrashLoop.RestoredBeforeBoot | pkg/kubelet/src/crashloop.rs:81-88 | A restart from before the clock began counts as made at the restore |
| CrashLoop.UnforgivenCanBeDropped | pkg/kubelet/src/crashloop.rs:107-110 | An entry 599.1 s old, not forgiven, that a restore drops |
| LogNames.PruningTakesOneRun | pkg/kubelet/src/container_logs.rs:94-103 | The prefix test of pruning holds of a file name exactly if the file is of that run, shared digits or not |
| LogNames.RotationsAreListed | pkg/kubelet/src/container_logs.rs:123-137 | The listing's test holds exactly of that run's rotations |
| LogNames.RunsAreLiveFiles | pkg/kubelet/src/container_logs.rs:69-79 | A name counts as run n exactly if it is n's live file |
| LogNames.ParsesExactly | pkg/kubelet/src/container_logs.rs:69-79 | A text is a run number exactly if it is digits, a plus before them allowed, below 2^32 |
| LogNames.Endings | pkg/kubelet/src/container_logs.rs:146-168 | The endings `.tmp`, `.log` and `.gz` tell leftovers, live files and compressed rotations apart |
| LogNames.NamesDiffer | pkg/kubelet/src/container_logs.rs:121-176 | Different files have different names, when different stamps are written differently |
| LogDirectory.LogDir.Runs | pkg/kubelet/src/container_logs.rs:69-79 | The run numbers on disk, ascending, none missing |
| LogDirectory.LogDir.NextRun | pkg/kubelet/src/container_logs.rs:83-85 | The least number above every run on disk and not below `at_least` |
| LogDirectory.LogDir.PruneRuns | pkg/kubelet/src/container_logs.rs:89-105 | Exactly the files of runs with more than `keep` newer runs go; what went is reported |
| LogDirectory.LogDir.NewRun | pkg/kubelet/src/container_logs.rs:110-119 | The number of a new run, with the directory pruned as if it were there |
| LogDirectory.LogDir.Rotations | pkg/kubelet/src/container_logs.rs:123-137 | Exactly the run's rotations, oldest first |
| LogDirectory.Excess | pkg/kubelet/src/container_logs.rs:157-162 | With the new rotation the run's files are at most max(max_files, 2), and exactly that many if any rotation goes |
| LogDirectory.LogDir.MakeRoom | pkg/kubelet/src/container_logs.rs:158-162 | The first of the listed rotations are deleted and nothing else |
| LogDirectory.LogDir.Compress | pkg/kubelet/src/container_logs.rs:203-211 | The plain file is replaced by its gzip member, through a temporary file that is gone afterwards |
| LogDirectory.LogDir.CompressAll | pkg/kubelet/src/container_logs.rs:163-169 | Every plain rotation of the run is compressed, in listing order |
| LogDirectory.LogDir.CopyTruncate | pkg/kubelet/src/container_logs.rs:182-200 | The copy holds what was caught up to the last look, the live file is empty; what comes after that look is on neither; an existing target or missing live file changes nothing |
| LogDirectory.LogDir.RotateContainer | pkg/kubelet/src/container_logs.rs:141-177 | A pass rotates the newest run exactly if its file is over the limit, and the directory after it is the one specified |
| LogHistory.RotationKeepsExactly | pkg/kubelet/src/container_logs.rs:155-177 | A rotating pass over a good run with k rotations leaves exactly min(k + 1, max(max_files, 2) - 1): the new one and the newest of the old, in order, with their data |
| LogHistory.RoomDeletesNothing | pkg/kubelet/src/container_logs.rs:155-162 | so nothing is deleted while there is room for one more file |
| LogHistory.SmallFileIsLeft | pkg/kubelet/src/container_logs.rs:145-154 | A live file at the limit or below it is left, and so is everything but leftovers |
| LogHistory.LeftoversGo | pkg/kubelet/src/container_logs.rs:145-150 | After a pass no file of a compression cut short is left, in any run |
| LogHistory.CopyTakesAllUntilQuiet | pkg/kubelet/src/container_logs.rs:182-200 | A copy takes the live file and everything added to it up to the first later look that finds nothing new, or up to the eighth |
| LogHistory.PassRecords | pkg/kubelet/src/container_logs.rs:141-200 | What a rotation records for its run is what reached the file up to that look; for other runs nothing |
| LogHistory.PruningCounts | pkg/kubelet/src/container_logs.rs:89-105 | Pruning leaves exactly `keep + 1` runs, or all if there are fewer |
| LogHistory.PruningKeepsTheNewest | pkg/kubelet/src/container_logs.rs:89-105 | Every pruned run is older than every run that stays |
| LogHistory.StartedRuns | pkg/kubelet/src/container_logs.rs:110-119 | With the new run's file created there is one run more than before, or six |
| LogHistory.RunNumbersIncrease | pkg/kubelet/src/container_logs.rs:83-119 | Over any run of starts, writes, crashes and rotation passes, run numbers strictly increase, pruned ones never coming back |
| LogHistory.PackingKeepsData | pkg/kubelet/src/container_logs.rs:163-211 | Compressing a run's rotations keeps their order and the data they hold |
| LogHistory.RotatedRunIsGood | pkg/kubelet/src/container_logs.rs:141-200 | After a rotation stamped later than those it leaves, the run's files still end as all that was recorded for it does |
| LogHistory.RotatedRunIsGoodExactly | pkg/kubelet/src/container_logs.rs:141-200 | and a rotated run is good again exactly if the pass is stamped later than every rotation it leaves |
| LogHistory.PassTouchesOneRun | pkg/kubelet/src/container_logs.rs:141-177 | A pass leaves the files of every other run as they are |
| LogHistory.PassIsForeseen | pkg/kubelet/src/container_logs.rs:123-177 | While no two rotations of a run share a stamp, what a pass does does not depend on the order it lists files in |
| LogHistory.EveryRunIsGood | pkg/kubelet/src/container_logs.rs:69-211 | The invariant of the directory over every run with increasing stamps |
| LogHistory.LogsAreKept | pkg/kubelet/src/container_logs.rs:123-211 | From an empty directory: each live run's rotations in order and then its live file are the last part of all recorded for it, within max(max_files, 2) files, at most one, the newest, uncompressed |
| LogHistory.SharedStampMakesTwins | pkg/kubelet/src/container_logs.rs:163-176 | For every good run and limit: a pass stamped like a rotation it leaves keeps the older data compressed and the newer plain under that stamp |
| LogHistory.SharedStampLosesData | pkg/kubelet/src/container_logs.rs:163-176 | and the next rotating pass that leaves both loses the older: every file with that stamp then holds the newer data |
| LogHistory.SharedStampInput | pkg/kubelet/src/container_logs.rs:163-176 | Three passes after which no file holds what the first took, although there is room for it |
| Crc32.Compute | pkg/kubelet/src/container_logs.rs:223-232 | The nested loops compute the register function, complemented |
| Crc32.RegisterIsRemainder | pkg/kubelet/src/container_logs.rs:223-232 | The register is a remainder of the padded message by the generator over GF(2) |
| Crc32.RemainderIsUnique | pkg/kubelet/src/container_logs.rs:223-232 | There is one such remainder |
| Crc32.CrcIsRemainder | pkg/kubelet/src/container_logs.rs:223-232 | The value is the complement of that remainder, lowest bit first, and of no other polynomial (CRC32, section 2.3.1 of RFC 1952) |
| Crc32.CheckValue | pkg/kubelet/src/container_logs.rs:223-232 | The digits one to nine have the value CBF43926 |
| Crc32.BurstChangesRegister | pkg/kubelet/src/container_logs.rs:223-232 | Different bursts of up to 32 bits lead one register to different ones |
| Crc32.BurstChangesCrc | pkg/kubelet/src/container_logs.rs:223-232 | Equal-length inputs that differ only within four consecutive bytes have different values |
| Gzip.MakeMember | pkg/kubelet/src/container_logs.rs:214-220 | The bytes appended are header, deflated data, CRC and length, lowest byte first |
| Gzip.GunzipUndoesGzip | pkg/kubelet/src/container_logs.rs:214-220 | A reader that checks the trailer gets the data back |
| Gzip.MemberReads | pkg/kubelet/src/container_logs.rs:214-220 | The ten header bytes of section 2.3 of RFC 1952, the data, and eight more bytes |
| Gzip.TrailerReads | pkg/kubelet/src/container_logs.rs:214-220 | The trailer's words, read lowest byte first, are the CRC and the length modulo 2^32 |
| Gzip.BurstIsRefused | pkg/kubelet/src/container_logs.rs:214-220 | and refuses a member whose data comes out changed within four consecutive bytes |
| Ipam.SubnetFits | pkg/cni/src/ipam.rs:147-148 | A subnet, from its network to its broadcast address, lies inside the address space, whatever the prefix |
| Ipam.DefaultPool | pkg/cni/src/ipam.rs:141-192 | A configuration that names only a subnet of at most 30 bits serves exactly its host addresses but the first, the gateway |
| Ipam.SubnetIsBlock | pkg/cni/src/ipam.rs:147-148 | A subnet is the block of 2^(32 - prefix) addresses around its address |
| Ipam.ResolvesExactly | pkg/cni/src/ipam.rs:141-176 | Which configurations resolve, and which part of another is reported |
| Ipam.ServesConfigured | pkg/cni/src/ipam.rs:141-229 | A configuration serves the least address inside its range and subnet that is neither network, broadcast, gateway nor taken, its start, end and gateway as configured or left to the subnet, and none exactly if there is none |
| Ipam.HostLocalIpam.Allocate | pkg/cni/src/ipam.rs:195-229 | The existing address, or the first assignable one not taken from the range's start on, or exhaustion; terminates on every range; the store and the table follow |
| Ipam.HostLocalIpam.Release | pkg/cni/src/ipam.rs:232-239 | The container's address goes from the table and, if the removal works, from the store |
| Ipam.DiskStore.Load | pkg/cni/src/ipam.rs:74-92 | The files read, in whatever order they are listed; a file that cannot be read or parsed is skipped, a listing that fails is an error |
| Ipam.DiskStore.Persist | pkg/cni/src/ipam.rs:94-100 | One container's file is written, or nothing changes |
| Ipam.DiskStore.Remove | pkg/cni/src/ipam.rs:102-109 | Removing is idempotent: a missing file is no failure |
| Ipam.SearchFindsTheLeast | pkg/cni/src/ipam.rs:195-229 | The search finds an address exactly if it is the least free assignable one of the range, and nothing exactly if there is none |
| Bridge.ApplyPlan | pkg/cni/src/bridge.rs:116-130 | The steps run in order and stop at the first that fails |
| Bridge.StepsInOrder | pkg/cni/src/bridge.rs:116-130 | Which step is where, with and without gateway and masquerade |
| Bridge.CmdAdd | pkg/cni/src/bridge.rs:184-211 | ADD's result and disk for every way each part can fail, including any set of allocation files skipped |
| Bridge.CmdDel | pkg/cni/src/bridge.rs:224-240 | DEL's result and disk likewise |
| Bridge.AddKeepsSoundExactly | pkg/cni/src/bridge.rs:184-211 | An ADD keeps the addresses held pairwise distinct and assignable exactly if it leaves the container none that the skipped file of another holds |
| Bridge.RunIsSound | pkg/cni/src/bridge.rs:184-239 | Over any run of commands failing anywhere and skipping any files, they are so throughout exactly if no ADD of the run does that |
| Bridge.WholeReadsStaySound | pkg/cni/src/ipam.rs:74-92 | so they are whenever no file is skipped, whatever else fails |
| Bridge.UnreadAddressIsGivenAgain | pkg/cni/src/ipam.rs:74-92 | Under every configuration with an address to give: while the one allocation file cannot be read, a second container is given the address it holds |
| Bridge.FirstAddress | pkg/cni/src/ipam.rs:147-229 | In a subnet of at most 30 bits that is the address after the gateway (10.0.0.2 in 10.0.0.0/24) |
| Bridge.SuccessfulAdd | pkg/cni/src/bridge.rs:184-211 | A successful ADD leaves the container exactly the address returned, its old one if its file was read, else the least one free of the files read; no file read holds it for another, and no other container changes |
| Bridge.AddSucceedsExactly | pkg/cni/src/bridge.rs:184-211 | An ADD succeeds exactly if the configuration resolves, the disk can be listed, the container has an address or there is one to give and to write, and every step of the plumbing works |
| Bridge.NewContainerIsServed | pkg/cni/src/ipam.rs:195-229 | A new container gets the least address its configuration may give that no file read holds |
| Bridge.FailedAdd | pkg/cni/src/bridge.rs:184-211 | What each failure leaves: only failed plumbing touches the disk, a release that works leaves the container nothing, no other container changes |
| Bridge.ExhaustedExactly | pkg/cni/src/ipam.rs:195-229 | Exhaustion is reported exactly when the files read hold every assignable address of the range |
| Bridge.DelUndoesAdd | pkg/cni/src/bridge.rs:184-239 | DEL after the ADD of a new container leaves the disk as before exactly if the ADD left it no address or the DEL reads and removes its file |
| Bridge.DelExactly | pkg/cni/src/bridge.rs:224-240 | What a DEL answers, when it releases, and that no other container's file changes |
| Bridge.DelOfUnreadKeeps | pkg/cni/src/ipam.rs:231-239 | A DEL answers success and yet leaves the container its address exactly if its file was skipped |
| EngineToken.EngineClient.SendAuthorised | pkg/kubelet/src/engine.rs:486-540 | A call's requests, waits, answer and cached state are those of the call specification, for every engine and every token file that changes |
| EngineToken.EngineClient.CurrentToken | pkg/kubelet/src/engine.rs:568-584 | The cached token, or a fresh read while there is none |
| EngineToken.EngineClient.AwaitNewToken | pkg/kubelet/src/engine.rs:586-610 | The polling loop stops at the first new token or gives up and remembers on which |
| EngineToken.RenewalWaits | pkg/kubelet/src/engine.rs:586-616 | A renewal waits exactly if the files still say the same, nothing was accepted yet, and the last give-up was on another token |
| EngineToken.CallWaits | pkg/kubelet/src/engine.rs:486-540 | When a call waits, exactly, and that it never gives up twice running on one token |
| EngineToken.RequestsOfACall | pkg/kubelet/src/engine.rs:486-540 | One to three requests, each on a refusal of the one before with another credential; the admin token at most once, last, on no GET, after a node token was refused |
| EngineToken.CallExactly | pkg/kubelet/src/engine.rs:486-616 | Exactly which credentials a call presents: the cached token or the file's; after a 401 the last value it read, if that is another; then the admin token, for a call that is no GET and had a node token refused; what it waited for, cached and recorded |
| EngineToken.AdminTokenIsKept | pkg/kubelet/src/engine.rs:515-525 | An admin token in no token file is presented on no GET, and otherwise only last, after a node token was refused |
| EngineToken.SaysExactly | pkg/kubelet/src/engine.rs:511-536 | When a missing token, and a missing admin token, count as reported, and when no longer |
| EngineToken.NextCallCanWait | pkg/kubelet/src/engine.rs:182-184 | Over any run of calls: the next call can wait exactly if no node-token request was answered by anything but a 401 and its token is not the one given up on |
| EngineToken.AdminAcceptanceIsNotRecorded | pkg/kubelet/src/engine.rs:182-184 | A run in which the engine accepts the admin token and the next call can still wait |
| EngineToken.ConsecutiveGiveUpsDiffer | pkg/kubelet/src/engine.rs:586-610 | Two consecutive give-ups of a run are never on one token |
| CsiPlugins.CsiPlugins.DropGone | pkg/kubelet/src/csi_plugins.rs:160-177 | A driver stays exactly if its socket, by path and mtime, is still listed |
| CsiPlugins.CsiPlugins.Look | pkg/kubelet/src/csi_plugins.rs:183-217 | One socket is left alone, registered, or recorded as failed |
| CsiPlugins.CsiPlugins.PublishCsiNode | pkg/kubelet/src/csi_plugins.rs:323-385 | CSINode is written when the record differs, and recorded when acknowledged |
| CsiPlugins.CsiPlugins.EarliestRetry | pkg/kubelet/src/csi_plugins.rs:222-232 | The least time until a failed socket is due, never none at all |
| CsiPlugins.CsiPlugins.ScanOnce | pkg/kubelet/src/csi_plugins.rs:150-238 | A scan's whole effect, when it is to be repeated (the least time until a failed socket is due, else a second after a failed listing or publication, else not), and how often subscribers are told |
| CsiPlugins.UntoldMeansUnchanged | pkg/kubelet/src/csi_plugins.rs:160-217 | A scan that tells subscribers of nothing has changed no registration |
| CsiPlugins.QuietScanRegistersAll | pkg/kubelet/src/csi_plugins.rs:150-279 | A scan that asks for no retry registered every present socket exactly if no two give one name |
| CsiPlugins.ScanTreats | pkg/kubelet/src/csi_plugins.rs:160-217 | What a scan makes of every listed socket: a registered one stays; another is asked unless it failed under this mtime less than 1000 ms ago, and is then registered with no failure on record, or recorded as failed; nothing else stays on record |
| CsiPlugins.AsksExactly | pkg/kubelet/src/csi_plugins.rs:150-238 | A scan asks for no retry exactly if the directory was listed, no failure is on record, and CSINode needed no write or it was acknowledged |
| CsiPlugins.UnlistedIsLeft | pkg/kubelet/src/csi_plugins.rs:151-157 | A directory that cannot be listed changes nothing, tells nobody and asks for a retry |
| CsiPlugins.DueIsAskedAgain | pkg/kubelet/src/csi_plugins.rs:222-232 | The retry asked for comes when the failed socket is due, not sooner unless within the millisecond, and that scan asks it |
| CsiPlugins.ToldExactly | pkg/kubelet/src/csi_plugins.rs:160-210 | Subscribers are told once for each driver dropped and each socket newly registered |
| CsiPlugins.PublishesChanges | pkg/kubelet/src/csi_plugins.rs:323-385 | CSINode is written exactly if there is an API and the record differs, and the record follows exactly an acknowledged write |
| CsiPlugins.PublishedLists | pkg/kubelet/src/csi_plugins.rs:387-402 | What is published lists exactly the registered drivers, each as it answered, with a volume limit exactly if it gave a positive one |
| CsiPlugins.EveryRun | pkg/kubelet/src/csi_plugins.rs:150-279 | Over any run, every registered driver's socket and mtime were in the last successful listing, and the record of CSINode is right unless a write went unheard |
| CsiPlugins.QuietScan | pkg/kubelet/src/csi_plugins.rs:323-385 | After a scan that asks for no retry the record is the registered set, and CSINode is exactly if no write landed unheard since |
| CsiPlugins.UnheardWriteCanStand | pkg/kubelet/src/csi_plugins.rs:323-385 | A run in which CSINode stays wrong with no retry asked for |
| MountInfo.UnescapeMountinfo | pkg/kubelet/src/csi.rs:459-474 | The index loop decodes each backslash with three octal digits to a byte, and keeps every other byte |
| MountInfo.UnescapeUndoesEscape | pkg/kubelet/src/csi.rs:459-474 | Decoding undoes the kernel's escaping |
| MountInfo.MountPointExactly | pkg/kubelet/src/csi.rs:451-457 | On every printed table a path is a mount point exactly if, less its trailing slashes, it is one of the table's |
| MountInfo.PathExactly | pkg/kubelet/src/csi.rs:451-457 | so a path is judged by the table, with any number of slashes after it |
| MountInfo.OctalReads | pkg/kubelet/src/csi.rs:459-474 | Every byte written as a backslash and three octal digits is read back |
| MountInfo.OthersRead | pkg/kubelet/src/csi.rs:459-474 | and a byte that begins no such escape is kept |
| MountInfo.LinesEnd | pkg/kubelet/src/csi.rs:453 | A line ends at a newline, with or without a return before it, or with the text |
| MountInfo.RootIsNeverFound | pkg/kubelet/src/csi.rs:451-457 | and `/` never is one |
| MountLists.AppendedExactlyIfClean | pkg/kubelet/src/container_roots.rs:105-140 | Entries written onto a line are read back after the line's own exactly if none holds white space or a comma |
| MountLists.AppendedKeepsWords | pkg/kubelet/src/container_roots.rs:134-140 | Appending keeps the line's words and adds one list after them, or nothing for a file without entries |
| MountLists.LineReads | pkg/kubelet/src/container_roots.rs:82-93 | A list among a line's words gives its entries, in order, between those of the words before and after |
| MountLists.NoListReads | pkg/kubelet/src/container_roots.rs:82-93 | A line none of whose words begins `rd.stormblock.mount=` gives none |
| MountLists.ListEntriesUndoesPrint | pkg/kubelet/src/container_roots.rs:105-111 | A list file gives back the entries printed into it, in order, without marks, comments, blanks and the space around them |
| MountLists.EntryNamesVolume | pkg/kubelet/src/container_roots.rs:82-93 | An entry names its volume for a path exactly if it mounts it at one of the two places of that pallet |
| MountLists.TextAgreesWithLookup | pkg/kubelet/src/container_roots.rs:82-140 | Through the command line's text or directly in order, every pallet path gets the same volume |
| MountLists.FirstMatchIsFirst | pkg/kubelet/src/container_roots.rs:82-94 | The direct lookup gives the first entry's volume that names the path |
| MountLists.PalletGolden | pkg/kubelet/src/container_roots.rs:68-80 | A pallet image is cloned from the first volume listed for it, else from its own name |
| MountLists.GoldenExactly | pkg/kubelet/src/container_roots.rs:68-80 | What every image is cloned from: a named template, a pallet by its path without slashes, or nothing |
| MountLists.SpacedOptionalEntryIsLost | pkg/kubelet/src/container_roots.rs:105-140 | An optional entry with a space after its mark does not survive the text: the line names for every path what it named without the file |

## Left out

- File-system, network and process effects: a file operation happens whole or not at all; the one
  exception is the temporary file a kubelet leaves that dies while compressing. A kubelet that
  dies between giving a compressed log its name and deleting the plain one is not modelled.
- DEFLATE: an abstract pair of functions, the second undoing the first.
- Lossy UTF-8 decoding of mount tables and file names: mount tables are bytes, log file names the
  ones the kubelet writes. Run numbers are unbounded; the increment past 2^32 - 1 is not modelled.
- Rotation stamps: a number that sorts as the text does. `LogHistory` requires them to increase;
  the second spelling with milliseconds is never reached, as its check comes after compression.
- `rotate_all` and `monitor`: one pass after another over independent directories.
- Pod status: building the JSON and its `startTime` (the report is an input), Events, mirror pods.
  Deliveries of one PUT by the transport and the actions of others are arbitrary; the retry helper
  itself is not part of this model, and server errors other than 409 and 404 are calls without a
  usable answer.
- Admission: that two flags set and two releases run leave nobody stranded is not promised, because
  the code does not keep it. Publishing a list and queueing what it changed is one step; what a
  worker does once through, and claims held by others, are not modelled.
- Crash-loop backoff: one reading of both clocks serves a whole call, and the clocks advance
  together; clock steps and a poisoned lock are not modelled.
- IPAM: concurrent commands (each builds its own lock) and the in-memory store; a range that runs
  backwards is searched as the code does, through the wrap at 2^32, but the least-free claims are
  about ranges that do not. The parsing of addresses and of the network configuration is an input.
- Bridge: link names, the result document, and what a failed step leaves on the links.
- Engine: concurrent calls on one client, TLS, streams, and the reading of token files.
- CSI: the wrap of the subscribers' counter at 2^64, admission of a plugin's versions and endpoint, other writers of CSINode, and gRPC.
- Mount tables and lists: reading the files themselves, cloning of roots and the orphan sweep.
- `capacity.rs`, `fs_watch.rs`, `image_config.rs`, `dns.rs`, `cgroups.rs`, `multus.rs`, `health.rs`
  and the event router: floating point, kernel behaviour, or single-branch rules.
