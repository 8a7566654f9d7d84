# What a Govee BLE light library keeps

This project models the parts of the library where a wrong step is easy to miss, and proves what they keep over every
run. Each Dafny module follows one source file or one mechanism.

- **Zone power** (`Fold`, `Library`, `Devices`, `FixtureFirmware`, `FixtureStamps`, `FixtureRuns`, `FixtureGuard`,
  `PowerOutcomes`): the optimistic zone power of one device, the `zone_power_confirmed` stamps that vouch for it, and the
  H60A6 firmware, which acknowledges a power write when it queues it and applies it later. `Devices.Device` is the object
  with its fields updated in place; `Library` is the specification each of its methods meets; `FixtureRuns` is the system
  of library, link and firmware; `PowerOutcomes` says what each call leaves, and that it forgets no more than it must.
- **Bars** (`BarPower`, `BarOutcomes`): the H6047, whose one `33 36` frame carries both bars, so that switching one bar is
  a read-modify-write of the other.
- **Reads** (`PowerReads`, `StaleReads`): the counters behind `power_read_at` and the doubt flag, and the rule that a
  read-back is discarded when a setter committed while it was in flight.
- **Locks** (`Locks`, `LockedUse`, `LinkRuns`): the programs the operations follow over the Device's locks, the FIFO lock protocol, and
  `release()`.
- **Wire** (`Bytes`, `Framing`, `Cipher`, `L2cap`, `FrameLog`): the 0xAC status burst, the AES-ECB + RC4 frame cipher
  written twice, L2CAP reassembly over interleaved handles, and the bounded drop-oldest frame-capture queue.
- **Scenes** (`Sorting`, `Texts`, `SceneStore`, `SceneFiles`, `SceneLoading`, `SceneLists`, `SceneFilter`, `SceneGroups`,
  `SceneNames`, `SceneNaming`, `SceneMatching`, `SceneOrder`, `SceneKeeping`, `SceneRuns`): the content-addressed scene
  store and its loader, what the library lists at each scene set, the multi-pass matching of listed scenes to stored names
  and when it keeps one, and what any sequence of fetches keeps of those names.
- **Rows** (`RowFacts`, `RowCompiler`, `RowReading`): the resolver's compiled form of a device-table row against the
  reference reading of that row, and what either reads off it.

A state machine over steps stands for everything concurrent: a run is a sequence of states joined by steps, and a
theorem about runs holds of every interleaving. Functions are the specification; methods and classes follow the source's
own loops and field updates and are proved to compute those functions.

## What the proofs found

- **H60A6 stamps.** A stamp can be wrong after one race only: a scene activation acknowledged ahead of a power-off that is
  acknowledged but still queued. The scene folds in "on", nothing counts as a wake any more, the queued off then darkens
  the fixture, and a brightness write followed by a status reply that predates its wake stamps every zone off while the
  fixture ends lit. `FixtureRuns.StampsSound` proves that every other run keeps the stamps; `FixtureRuns.OffThenScene`
  reaches the race and `FixtureRuns.OvertakingBreaks` ends every occurrence of it with a false stamp.
  `FixtureRuns.SafeNotOvertaken` gives a guard the library can test before it sends a scene, and
  `FixtureGuard.UnsafeOvertakes` shows no weaker test of its own fields would do: where the guard fails, a run that leaves
  the library in the same state has the scene overtake the off. `FixtureRuns.SceneZonesMatter` shows which part of the
  guard rests on a scene leaving a lit fixture's zone flags as they are.
- **H6047 bars.** A brightness or colour write does not take `_bar_lock`. Over two dark bars it lights both, so a bar write
  whose frame was built before then darkens the other bar. `BarPower.OtherBarKept` says exactly when a bar write keeps the
  other bar, `BarPower.DarkExactly` that the loss is possible exactly while both bars are dark, and
  `BarPower.LockedNoLostUpdate` that taking the lock there would rule it out.
- **Cipher.** The module functions accept a key that is not 16 bytes for data under one block (they fail at the first whole
  block, or on an empty key); `FrameCipher` refuses it when it is built, although its documentation says the two give the
  same output; the reference refuses the keys AES does not take and accepts 24 and 32 bytes. The three agree on every data
  exactly for 16-byte keys (`Cipher.AgreeExactly`), and `Cipher.DifferAt` gives the data on which they differ.
- **Scene names.** A fetch whose tombstone write succeeds and whose store write then fails loses exactly the names it was
  taking back from the tombstone (`SceneRuns.RunKeeps`, `SceneRuns.NextKeeps`); `SceneRuns.LostName` loses the name of any
  scene in three fetches. Every other run keeps every name (`SceneRuns.NamesForever`), and so does any run that lists no
  scene which could take it back (`SceneRuns.NotListedKept`).
- **Kelvin by firmware.** The compiled list is searched from the highest version down, the reference applies the row's
  items in list order, so the two agree at all versions exactly when the row's entries are settled
  (`RowCompiler.KelvinAgreesExactly`); ascending order is enough, and `RowCompiler.NewerFirstDiffers` gives an accepted row,
  the newer version's item first, on which they differ.

## Model

| member | source | states |
|---|---|---|
| FixtureRuns.StampsSound | src/govee_ble_local/models.py:112-174 | In every state of every run in which no scene is acknowledged over a queued power-off, each stamped zone ends, once all queued messages are applied, at the power the library holds for it; while a write is in flight, even if that write then raises, and whichever writes are cancelled while they wait for the link |
| FixtureRuns.OvertakingBreaks | src/govee_ble_local/devices/device.py:1188-1220 | Conversely, every run that acknowledges a scene over a queued power-off continues to a state with a stamp that does not hold |
| FixtureRuns.OffThenScene | src/govee_ble_local/devices/device.py:1894-1920 | That race is reached from any start with the fixture on: a power-off, then a scene acknowledged before the off is applied |
| FixtureRuns.SafeNotOvertaken | src/govee_ble_local/devices/device.py:1188-1212 | A test on the library's own fields (known on, in doubt, an "on" posted, or nothing posted) that rules the race out before a scene is sent |
| FixtureGuard.SafeUntilAcked | src/govee_ble_local/devices/device.py:1188-1212 | A scene for which that test held when it took the link finds it holding when it is acknowledged |
| FixtureGuard.UnsafeOvertakes | src/govee_ble_local/devices/device.py:1188-1212 | And no weaker test of those fields does: from every state of every guarded run with the link free where it fails, another guarded run leaves the library in the same state and a scene then sent overtakes a queued power-off |
| FixtureGuard.LaggingRun | src/govee_ble_local/devices/device.py:1162-1186 | Wherever the test fails, the message thread may be so far behind that the power-off is still queued, with all the library holds the same |
| FixtureRuns.AnySceneNotOvertaken | src/govee_ble_local/devices/device.py:1162-1186 | In doubt, with an "on" posted or with nothing posted, no race follows whatever the scene does to the zone flags of a lit fixture |
| FixtureRuns.SceneZonesMatter | src/govee_ble_local/devices/device.py:1162-1186 | Known on alone is not enough there: a scene that left lit only a zone whose zone-off is still queued would be overtaken |
| FixtureRuns.CancelStep | src/govee_ble_local/devices/device.py:1098-1112 | A write that ends in an error before its first frame went out keeps the invariant, whatever write or read holds the link |
| FixtureRuns.DarkBreaks | src/govee_ble_local/devices/device.py:2300-2326 | A dark fixture the library takes for on, with no "on" posted: one brightness write and one status reply end with every zone stamped off and lit |
| FixtureRuns.RunKeeps | src/govee_ble_local/devices/device.py:1039-1130 | The invariant behind the stamps holds along every guarded run, with any interleaving of writes, raised writes, writes cancelled while another call holds the link, message pops, reads and stale replies |
| FixtureStamps.AckKeeps | src/govee_ble_local/devices/device.py:1103-1130 | An acknowledged power, zone, brightness, colour or scene write keeps the invariant, but for a scene over a queued off |
| FixtureStamps.RaiseKeeps | src/govee_ble_local/devices/device.py:1089-1102 | A raised write keeps it, whether or not any of its frames landed |
| FixtureStamps.DispatchKeeps | src/govee_ble_local/devices/device.py:1162-1212 | The firmware taking any frame of a write keeps the invariant of the library as it stands if that write raises |
| FixtureStamps.PopKeeps | src/govee_ble_local/devices/device.py:2298-2312 | The message thread applying one queued write keeps it |
| FixtureStamps.InDoubtWake | src/govee_ble_local/devices/device.py:1188-1220 | A frame that finds the fixture dark is counted as a wake, unless every stamp is gone and every zone posted on anyway |
| FixtureStamps.AdjustWakes | src/govee_ble_local/devices/_fold.py:155-162 | A write counted as a wake leaves a stamp only on zones held lit, and posts every zone on if it sets the brightness |
| FixtureStamps.AnswerFaithful | src/govee_ble_local/devices/device.py:2298-2312 | A status reply from the flags as they are tells, for each zone the posted writes settle, the power the zone ends at |
| FixtureStamps.FoldKeeps | src/govee_ble_local/devices/device.py:2313-2332 | Every stamp a folded status reply gives holds once the queue is applied |
| FixtureStamps.ZoneOffKnown | src/govee_ble_local/devices/device.py:1125-1128 | After an acknowledged zone-off the fixture counts as on, with no "on" posted, only if another zone was stamped lit |
| FixtureFirmware.DrainLit | src/govee_ble_local/devices/device.py:1164-1171 | A zone's final flag is the last queued power that sets it, or its flag now where none does |
| FixtureFirmware.DrainKeeps | src/govee_ble_local/devices/device.py:1069-1075 | Over any queue the main flag never says on over a dark fixture, and a lit fixture with the main flag on keeps it |
| PowerOutcomes.StatusStamps | src/govee_ble_local/devices/_fold.py:344-359 | A zone a status reply carries is held at the reported power, and stamped now if and only if every power posted for it is that one and, for a lit zone, the same reply says on |
| PowerOutcomes.StatusRest | src/govee_ble_local/devices/_fold.py:346-359 | A reply without zones leaves the zones alone, one with zones forgets every other; it takes the postings of the zones it carries |
| PowerOutcomes.StatusDoubt | src/govee_ble_local/devices/device.py:2313-2332 | A reply with an on/off ends the doubt there was when its read was issued, unless a posted power is still to be applied, which raises it; it gives the read of the on/off exactly if nothing dropped since |
| PowerOutcomes.WakeExactly | src/govee_ble_local/devices/device.py:1188-1220 | A write counts as a wake if and only if it has a brightness or mode frame and the fixture was not known on, or had an "on" posted, before the write waited or when it ended |
| PowerOutcomes.WritesTaken | src/govee_ble_local/devices/device.py:1039-1102 | The H60A6 runs take in every write without a power or scene frame, and whatever a write finds before it waits for the link |
| PowerOutcomes.TurnOutcome | src/govee_ble_local/devices/device.py:1103-1130 | An acknowledged on or off leaves every zone held and stamped at it, that power alone posted for each, and no doubt |
| PowerOutcomes.ZoneOutcome | src/govee_ble_local/devices/device.py:1103-1130 | An acknowledged zone write sets, stamps and posts its zone alone; its doubt is exactly that of a zone-off that may have darkened the last lit zone |
| PowerOutcomes.AdjustOutcome | src/govee_ble_local/devices/device.py:1089-1130 | A brightness or colour write, acknowledged or raised, takes the stamps of zones not held lit and posts "on" exactly where it may wake the fixture, and otherwise changes nothing |
| PowerOutcomes.SceneOutcome | src/govee_ble_local/devices/_fold.py:239-255 | An acknowledged scene reads every zone lit, stamps none and posts nothing |
| PowerOutcomes.RaisedTurn | src/govee_ble_local/devices/device.py:1089-1102 | A raised on or off changes no power held, takes every stamp, joins its power to each posting, and leaves doubt if it was an off |
| PowerOutcomes.RaisedZoneWrite | src/govee_ble_local/devices/device.py:1089-1102 | A raised zone write does so for its zone alone |
| PowerOutcomes.RaisedScene | src/govee_ble_local/devices/device.py:1089-1102 | A raised scene takes every stamp and nothing else |
| Fold.ZoneWriteCarries | src/govee_ble_local/devices/_fold.py:128-143 | A zone write stamps its zone and carries every other zone's power and stamp along; the on/off follows the zones only once all are known |
| Fold.OnlyZoneWrite | src/govee_ble_local/devices/_fold.py:189-198 | On a one-zone profile a zone write is the on/off |
| Devices.Device.constructor | src/govee_ble_local/devices/device.py:161-230 | A new device holds nothing: no power, no stamp, no posting, zero counters |
| Devices.Device.StampZones | src/govee_ble_local/devices/_fold.py:128-143 | The fields after `_set_zone_power`: vouched zones stamped now, a kept value keeps its stamp, a changed or forgotten one loses it |
| Devices.Device.UnconfirmEach | src/govee_ble_local/devices/_fold.py:144-154 | Exactly the given zones lose their stamps |
| Devices.Device.FoldPower | src/govee_ble_local/devices/_fold.py:171-188 | The fields after a whole-device on/off, on each kind of zoned fixture |
| Devices.Device.FoldZonePower | src/govee_ble_local/devices/_fold.py:189-199 | The fields after a zone power, with the on/off the zones give |
| Devices.Device.FoldStatus | src/govee_ble_local/devices/_fold.py:328-376 | The power part of a status reply: what it stamps, what it leaves unstamped, whether it carried the on/off |
| Devices.Device.PostEach | src/govee_ble_local/devices/device.py:1176-1185 | One posting loop, in any zone order: an acknowledged power replaces, any other joins |
| Devices.Device.Post | src/govee_ble_local/devices/device.py:1162-1186 | What the write hands the message thread is what the library remembers posting |
| Devices.Device.EndRaised | src/govee_ble_local/devices/device.py:1089-1102 | The whole new state after a commit that raised |
| Devices.Device.EndAcked | src/govee_ble_local/devices/device.py:1103-1130 | The whole new state after an acknowledged commit |
| Devices.Device.EndStatusRead | src/govee_ble_local/devices/device.py:2313-2332 | A status reply is folded in exactly if no setter committed since its read was issued, and then the whole new state |
| Devices.Device.EndPowerRead | src/govee_ble_local/devices/device.py:2341-2350 | The same for a polled on/off (aa 01, aa 34, a relay) or both bars (aa 36) |
| BarPower.OtherBarKept | src/govee_ble_local/devices/device.py:1738-1808 | A bar write built from a fresh stamp or an applied re-read leaves the other bar as the device holds it if and only if no wake whose hold had not ended at the build has lit both bars since; otherwise it darkens a lit bar |
| BarPower.DarkExactly | src/govee_ble_local/devices/device.py:1738-1808 | From a built bar write with the link free, a run that changes the other bar exists if and only if both bars are dark |
| BarPower.WakeOvertakes | src/govee_ble_local/devices/device.py:1491-1530 | The run that loses it: a brightness write takes the link first |
| BarPower.DarkBarWrite | src/govee_ble_local/devices/device.py:1762-1822 | Such a bar write is reached from the start, by switching one bar on while both are unknown and dark |
| BarPower.AskedBarSet | src/govee_ble_local/devices/device.py:1798-1808 | In every run a bar write, when its frame goes out, leaves the bar it was asked for at the power it was asked for, whatever it was built from |
| BarOutcomes.AskedBarHeld | src/govee_ble_local/devices/device.py:1738-1761 | Once it is acknowledged, the library holds both bars as the device does, the one asked for at the power asked for, stamped now, with the on/off and no doubt |
| BarOutcomes.FreshLearned | src/govee_ble_local/devices/device.py:1762-1797 | A bar write that sends no re-read builds on an acknowledgement or a reply of the last 120 s |
| BarOutcomes.FreshNoReread | src/govee_ble_local/devices/device.py:1762-1797 | And it sends none wherever both bars are held and the other bar has such a stamp |
| BarOutcomes.RereadEnds | src/govee_ble_local/devices/device.py:1780-1805 | A re-read, folded in, discarded or lost, ends with a frame if and only if the library holds the other bar, and the frame carries it as held |
| BarOutcomes.PollEndsDoubt | src/govee_ble_local/devices/device.py:957-975 | A folded poll ends, once it is over, the doubt there was when it was issued |
| BarOutcomes.WritesTaken | src/govee_ble_local/devices/device.py:1039-1102 | The H6047 runs take in every write without a power or scene frame, and whatever a write finds before it waits |
| BarPower.LockedNoLostUpdate | src/govee_ble_local/devices/device.py:1027-1033 | If every brightness and colour write took the bar lock, no bar write would change the other bar, in any run |
| BarPower.BarStampsSound | src/govee_ble_local/models.py:130-160 | Between writes, in every run, every bar's stamp holds and a trusted "on" is on |
| BarPower.RunKeeps | src/govee_ble_local/devices/device.py:1039-1130 | The bars' invariant holds along every run of writes, re-reads, polls and losses |
| BarPower.PowerAcked | src/govee_ble_local/devices/_fold.py:171-199 | An acknowledged off or bar write stamps both bars at its powers; an on or a scene forgets them |
| BarOutcomes.PowerOutcome | src/govee_ble_local/devices/_fold.py:171-188 | An acknowledged off leaves both bars held off and stamped, an on leaves none held; either ends all doubt |
| BarOutcomes.AdjustOutcome | src/govee_ble_local/devices/device.py:1089-1130 | A brightness or colour write, acknowledged or raised, takes the stamp of a bar not held on exactly where it may wake the bars, and changes nothing else |
| BarOutcomes.RaisedOutcome | src/govee_ble_local/devices/device.py:1089-1102 | A raised power, bar or scene write changes no power held, takes every stamp, and leaves doubt exactly where it may have switched both bars off |
| BarOutcomes.FoldOutcome | src/govee_ble_local/devices/_fold.py:321-326 | An aa 36 reply holds and stamps both bars; an aa 01 reply takes a stamp exactly where it contradicts what is held |
| BarPower.FoldAgrees | src/govee_ble_local/devices/_fold.py:321-327 | An aa 36 or aa 01 reply leaves the held bars and their stamps true of the device |
| BarPower.WakeCounted | src/govee_ble_local/devices/device.py:1207-1220 | A write that lit both dark bars is counted as a wake when it ends |
| BarPower.CancelKeeps | src/govee_ble_local/devices/device.py:1098-1112 | A write, or the bar write, that ends in an error before its first frame went out keeps the bars' invariant |
| PowerReads.PowerReadVouches | src/govee_ble_local/devices/device.py:525-558 | In every interleaving, `power_read_at` is the time of a read that returned what `is_on` holds, begun after the last step that may have put the device elsewhere or left it in doubt, a status reply that leaves a posted power unsettled among them |
| PowerReads.PowerReadKept | src/govee_ble_local/devices/device.py:525-558 | Conversely a read folded in is what `power_read_at` names from then on, until a step may put the device elsewhere or in doubt, or another read is folded in |
| PowerReads.FoldsExactly | src/govee_ble_local/devices/device.py:1222-1232 | A read of the on/off still in flight is folded in if and only if no setter was acknowledged since it was issued |
| PowerReads.DoubtAfter | src/govee_ble_local/devices/device.py:957-995 | After any step the on/off is in doubt if and only if the step raised the doubt, or found it and did not end it |
| PowerReads.DoubtCleared | src/govee_ble_local/devices/device.py:960-975 | Doubt ends only with an acknowledged write over every zone, or a read issued after the last step that raised it |
| PowerReads.CountersMove | src/govee_ble_local/devices/device.py:977-995 | The drop counter moves with exactly the steps that may change the on/off or put it in doubt, the doubt counter with exactly the latter, each time by one |
| StaleReads.LiveFrom | src/govee_ble_local/devices/device.py:2425-2439 | Every live value is the last setter's, or from a read-back all of whose requests went out after the last setter before it |
| StaleReads.DiscardedExactly | src/govee_ble_local/devices/device.py:1222-1232 | A read-back is discarded, whole, if and only if a setter committed while it was in flight |
| Locks.Disciplined | src/govee_ble_local/devices/device.py:232-258 | Every operation takes the locks in one order, holds those its I/O needs, keeps the scene and read locks from upload to activation, and releases everything |
| LockedUse.OpDoes | src/govee_ble_local/devices/device.py:232-258 | What every operation does on the link, request by request in order, and exactly the locks it holds for each: a bar write reads and writes the bars under one hold, a scene its upload and activation, a release drops the link under all of them |
| LinkRuns.NoDeadlock | src/govee_ble_local/devices/device.py:232-258 | In every run, with cancellations and lost links, some call in progress can take its next step |
| LinkRuns.SceneWhole | src/govee_ble_local/devices/device.py:1954-2005 | Between a scene's upload and its activation no other call's read, release or scene write goes out |
| LinkRuns.ReleaseKeepsExactly | src/govee_ble_local/devices/device.py:913-950 | A release keeps the link that is up if and only if a write called after it was acknowledged or refused on that link; otherwise it drops it |
| LinkRuns.Recorded | src/govee_ble_local/devices/device.py:997-1008 | The record of a write stays, or a later call's replaces it, until another link is written on |
| LinkRuns.RecordStep | src/govee_ble_local/devices/device.py:997-1003 | No step takes the record back to an earlier link, or on one link to an earlier call; a write records its own call or a later one |
| LinkRuns.WithoutAt | src/govee_ble_local/devices/device.py:232-258 | A call that gives up leaves a lock's queue, and every other call keeps its place |
| LinkRuns.WriteRecord.Ticket | src/govee_ble_local/devices/device.py:1010-1014 | The next call number |
| Bytes.XorTwice | spec/govee_reference.py:40-69 | XOR with a byte undoes itself on either side, so it never merges two bytes |
| Bytes.XorBitwise | spec/govee_reference.py:40-50 | Bit by bit it is exclusive or |
| Framing.Bcc | spec/govee_reference.py:40-50 | The loop gives the XOR of the first 19 bytes |
| Framing.AppendBcc | spec/govee_reference.py:52-66 | A payload over 19 bytes is refused; any other becomes a padded 20-byte frame whose check holds |
| Framing.FramePadded | spec/govee_reference.py:52-66 | A frame is its payload, then zeros to byte 18 |
| Framing.OneByteWrong | spec/govee_reference.py:68-70 | A frame with any one byte changed never passes the check |
| Framing.ChunkAc | spec/govee_reference.py:180-198 | The burst of a buffer, refused exactly past 255 packets |
| Framing.ReassembleAc | spec/govee_reference.py:145-177 | The loop gives the buffer of a burst, or the refusal, of the specification function |
| Framing.RoundTrip | spec/govee_reference.py:145-198 | Every buffer up to 12 + 17 * 254 bytes comes back from its burst, whatever follows it, and each of its frames passes the check |
| Framing.DrawnFrames | spec/govee_reference.py:145-177 | Frames drawn from a burst, dropped, repeated or reordered, are accepted if and only if the whole burst comes first, and then give exactly its buffer |
| Cipher.StateHoldsEach | src/govee_ble_local/crypto.py:44-66 | For every non-empty key, through the schedule and any length of keystream, the state holds each of 0..255 once |
| Cipher.CryptBack | src/govee_ble_local/crypto.py:74-103 | Decryption undoes encryption and encryption undoes decryption, at every length, given AES blocks that invert |
| Cipher.PrgaTwice | src/govee_ble_local/crypto.py:56-66 | The keystream XOR undoes itself |
| Cipher.Schedule | src/govee_ble_local/crypto.py:44-53 | The key schedule, swapped in place |
| Cipher.Keystream | src/govee_ble_local/crypto.py:56-66 | The keystream XOR, on the state in place |
| Cipher.RunKsa | src/govee_ble_local/crypto.py:44-53 | The schedule of a non-empty key; an empty one is refused |
| Cipher.RunPrga | src/govee_ble_local/crypto.py:56-66 | The keystream from the start on a copy of the schedule |
| Cipher.Transform | src/govee_ble_local/crypto.py:74-103 | The module functions on every key and length: the cipher for a 16-byte key, and exactly when any other key is refused |
| Cipher.BindKey | src/govee_ble_local/crypto.py:106-122 | FrameCipher refuses exactly the keys that are not 16 bytes, whatever is encrypted later |
| Cipher.FrameCipher.Run | src/govee_ble_local/crypto.py:124-139 | The bound cipher gives what the module functions give |
| Cipher.CryptV1 | spec/govee_reference.py:110-125 | The reference codec on every key: refused exactly where AES does not take the key, else the same cipher |
| Cipher.ReferenceRc4 | spec/govee_reference.py:94-107 | And the reference's RC4 |
| Cipher.RunBound | src/govee_ble_local/crypto.py:106-139 | Binding a key and running it once |
| Cipher.AgreeExactly | spec/govee_reference.py:110-125 | The three agree, in acceptance and in output, on every data if and only if the key is 16 bytes; so do the module functions and either other; FrameCipher and the reference if and only if it is not 24 or 32 bytes |
| Cipher.DifferAt | src/govee_ble_local/crypto.py:74-122 | The data on which they differ under any other key: none at all, or one block |
| L2cap.AttPdus | tools/decrypt_btsnoop.py:78-120 | The one pass over the records, its two dictionaries updated as it goes, emits what the specification does |
| L2cap.HandlesIndependent | tools/decrypt_btsnoop.py:78-120 | What comes out for a handle depends on that handle's records alone, however they are interleaved |
| L2cap.FragmentsReassembled | tools/decrypt_btsnoop.py:99-120 | Any well-formed fragmentation of a PDU sequence (Vol 3 Part A, sections 3.1 and 7.2 of the Bluetooth Core Specification) yields exactly its non-empty ATT PDUs, in order |
| L2cap.CaptureDecoded | tools/decrypt_btsnoop.py:78-120 | So a capture of many connections gives, for each handle, the ATT payloads its fragments carried |
| L2cap.OnAir | tools/decrypt_btsnoop.py:101-108 | An ACL packet with these header bytes carries its fragment, first or continuing |
| L2cap.LinkUp | tools/decrypt_btsnoop.py:89-97 | A connection event with these bytes names its handle and peer; the other LE events name none |
| FrameLog.UnfinishedCounts | src/govee_ble_local/transport/framelog.py:113-145 | Under every interleaving, unfinished tasks are queued plus in-flight items plus those being dropped, and the queue stays within its bound |
| FrameLog.FlushedAll | src/govee_ble_local/transport/framelog.py:148-159 | When flush sees none unfinished, every record put before was handed to a write, skipped for a failed check, or dropped as oldest |
| FrameLog.FilesInOrder | src/govee_ble_local/transport/framelog.py:97-110 | Each path holds exactly the lines handed to it, in the order they were put |
| FrameLog.CheckFails | src/govee_ble_local/transport/framelog.py:202-209 | A directory check that runs and fails switches its capture off |
| FrameLog.FailedCaptureSilent | src/govee_ble_local/transport/framelog.py:97-110 | Once it has, no line of that capture is in any file, then or later |
| FrameLog.Writer.Group | src/govee_ble_local/transport/framelog.py:97-109 | One batch's checks in order, and its lines grouped by path in arrival order |
| FrameLog.Writer.ProcessBatch | src/govee_ble_local/transport/framelog.py:97-110 | The captures off and every file after a batch |
| FrameLog.Queue.Enqueue | src/govee_ble_local/transport/framelog.py:128-145 | The item goes last; the oldest one goes exactly where the queue was full; the task count keeps step |
| FrameLog.RunKeeps | src/govee_ble_local/transport/framelog.py:113-145 | The queue's invariant holds along every run of producers and the writer |
| Texts.SetKeyInjective | src/govee_ble_local/scenes/__init__.py:254-273 | Different scene sets have different keys |
| Texts.DecimalReads | src/govee_ble_local/scenes/__init__.py:254-273 | A number's text reads as that number, without a leading zero |
| Sorting.TextLessExactly | tools/fetch_scenes.py:704 | One text is less than another if and only if it is a proper prefix of it, or has the lesser character at the first place they differ |
| SceneStore.ReadLayout | tools/fetch_scenes.py:198-266 | Catalogs the tool may write come back from the store exactly |
| SceneStore.PoolByName | tools/fetch_scenes.py:226-229 | The pool is in name order, the entries of one name in the order of their texts, none twice |
| SceneStore.LayoutRead | tools/fetch_scenes.py:198-266 | Every store the loader accepts is reproduced exactly by laying out what it reads as |
| SceneStore.LayoutAccepted | src/govee_ble_local/scenes/__init__.py:285-337 | The loader accepts every store laid out from such catalogs: sorted, unique, increasing indexes, no orphan |
| SceneFiles.LayOut | tools/fetch_scenes.py:198-237 | The loops refuse exactly a catalog that is empty or holds an entry the check refuses, and otherwise write the specified store |
| SceneFiles.GatherCatalog | tools/fetch_scenes.py:211-229 | One SKU's pool entries, its overrides' pool entries, and its results by set and name, or a refusal |
| SceneLoading.CheckStore | src/govee_ble_local/scenes/__init__.py:302-336 | The loops accept exactly the stores the rules accept, and find each name's index |
| SceneLoading.CheckRefs | src/govee_ble_local/scenes/__init__.py:311-319 | One SKU's indexes: increasing, in the pool and no two of one name, told by neighbours and a count |
| SceneLoading.CheckOverrides | src/govee_ble_local/scenes/__init__.py:321-334 | One SKU's sets: accepted exactly by the rules, with the pool entries they play |
| SceneLoading.LoadCatalogs | src/govee_ble_local/scenes/__init__.py:285-345 | Every SKU's list at every scene set, as the specification reads it, or a refusal |
| SceneLoading.ReadBack | tools/fetch_scenes.py:240-266 | The catalogs read back, or a refusal, for exactly the accepted stores |
| SceneLists.ListsAgree | tools/fetch_scenes.py:511-527 | End to end: for a fetched catalog stored beside any others, the library lists at each of the SKU's scene sets, their union among them, exactly the scenes the app's list shows there, each with the effect it plays, an effect that can't be stored counting as hidden |
| SceneFilter.AdmittedExactly | tools/fetch_scenes.py:435-447 | Which effects a set admits, told by kind: RGBIC by 2 or 3 as it has a cmdVersion, graffiti and cube by 4, DIY by 5 with codes, an unknown type never, a base-0 effect always |
| SceneFilter.FirstPlays | tools/fetch_scenes.py:508-529 | The list plays the first effect admitted and in force; its version rules decide exactly where it has some under a filter |
| SceneFilter.NothingExactly | tools/fetch_scenes.py:508-529 | It shows nothing if and only if no effect is admitted and in force |
| SceneFilter.ListsShown | tools/fetch_scenes.py:508-529 | End to end in those terms: at each of the SKU's sets the library lists a scene with an entry if and only if it is that of the first effect the set admits and that is in force, no version rules decide it, and it can be stored |
| SceneLists.LoadedAt | src/govee_ble_local/scenes/__init__.py:431-458 | What the loader lists from a laid out store is what the catalog plays at that set |
| SceneLists.FetchedShows | tools/fetch_scenes.py:949-971 | A fetched scene plays, at each smaller set, what the app's list shows |
| SceneLists.FetchedStorable | tools/fetch_scenes.py:949-971 | What fetch writes for a scene is what the tool may store |
| SceneLists.PickSets | tools/fetch_scenes.py:949-971 | The loop over the smaller sets records each result that differs from the union's, under its set's key |
| SceneGroups.Walk | tools/fetch_scenes.py:643-665 | The worklist walk gathers exactly the connected group of its first scene, and the group's names |
| SceneGroups.GroupsApart | tools/fetch_scenes.py:643-665 | Two groups that share a name are one |
| SceneGroups.OneToOne | tools/fetch_scenes.py:728-731 | A group is one scene and one name if and only if that scene fits that name alone and no other scene fits it |
| SceneNames.PassesKeep | tools/fetch_scenes.py:706-739 | After any number of matches, each name given is one the match's rules allow, no two scenes share one, and it has left both pools |
| SceneNames.GivenDistinct | tools/fetch_scenes.py:726-735 | No match gives two scenes one name |
| SceneNaming.StoredNames | tools/fetch_scenes.py:668-764 | All names are distinct; a matched scene keeps a stored or retired name its match allows; any other gets a name neither the store nor the tombstone holds |
| SceneKeeping.EntryKept | tools/fetch_scenes.py:590-611 | A listed scene keeps a stored or retired name by its whole entry or as its placeholder, where no other of its sceneName is so |
| SceneKeeping.BlobParamKept | tools/fetch_scenes.py:590-611 | By code, category, blob and param id, stored or retired |
| SceneKeeping.BlobKept | tools/fetch_scenes.py:590-611 | By code, category and blob, stored or retired, where neither is a placeholder |
| SceneKeeping.ParamKept | tools/fetch_scenes.py:590-611 | By code, category and param id, a stored name |
| SceneKeeping.IdentityKept | tools/fetch_scenes.py:590-611 | By code and category, a stored name, where no other stored or listed scene of its sceneName shares them |
| SceneKeeping.CodeKept | tools/fetch_scenes.py:712-720 | By one of its own effects' codes, a stored name not dropped |
| SceneKeeping.BlobMoved | tools/fetch_scenes.py:629-641 | By category and blob, a stored name not answered as it was, and not dropped unless its param id is back too |
| SceneKeeping.ParamGuessed | tools/fetch_scenes.py:712-720 | By category and param id, where its code is not answered and its param id is on no other listed scene |
| SceneKeeping.CategoryGuessed | tools/fetch_scenes.py:712-720 | By category alone, under the same condition |
| SceneKeeping.SoleFollowed | tools/fetch_scenes.py:706-739 | Where a sceneName has one listed scene and one stored name, the scene keeps the name if and only if one of those holds, on its fields and the tombstone |
| SceneKeeping.SoleReturns | tools/fetch_scenes.py:706-739 | Where it has one listed scene and one retired name, the scene takes it back if and only if it is its exact return |
| SceneKeeping.SharedNotGuessed | tools/fetch_scenes.py:728-735 | A scene two stored ones share code and category with, with no blob or param id to tell them by, takes a new name: no guess |
| SceneKeeping.TwinsKept | tools/fetch_scenes.py:726-727 | Of alike listed scenes, as many of whose entry are stored, each keeps one of their names |
| SceneKeeping.NewPlain | tools/fetch_scenes.py:742-750 | The only scene of a sceneName nothing stored or retired is of or named by is stored under it |
| SceneKeeping.NewHigher | tools/fetch_scenes.py:742-750 | Of two the higher takes it, the other does not |
| SceneKeeping.NewApart | tools/fetch_scenes.py:751-763 | A new scene that does not take its sceneName gets the first of "<own> (<category>)", "<own> (<category>, 2)" and so on that is not stored, retired, taken as a sceneName, or taken by a scene sooner in the order of sceneName and entry |
| SceneNaming.NextFree | tools/fetch_scenes.py:754-761 | The first free number, and that every number before it is taken |
| SceneMatching.RunPass | tools/fetch_scenes.py:707-738 | One match over the groups, the pools and the unsure scenes updated group by group, gives the specified state |
| SceneMatching.PairInOrder | tools/fetch_scenes.py:726-727 | The whole-entry pairs of a group: each scene by its place in the group, as far as the names go |
| SceneMatching.FindTops | tools/fetch_scenes.py:742-749 | The top scene of each sceneName's new ones, the first listed of equals |
| SceneMatching.GivePlain | tools/fetch_scenes.py:746-750 | Each free sceneName goes to its top scene, before any name is given apart |
| SceneMatching.GiveNames | tools/fetch_scenes.py:740-764 | Every scene's name by rank, with names apart numbered past every name taken |
| SceneMatching.StoreNames | tools/fetch_scenes.py:668-764 | The whole function gives the specified names |
| SceneOrder.AnyOrder | tools/fetch_scenes.py:668-704 | Any permutation of the listing stores the same multiset of scene and name pairs, given equal code sets for equal entries and no listed entry another's placeholder form |
| SceneOrder.NamesOfRanked | tools/fetch_scenes.py:704-739 | The names by rank of a listing are those of its sorted form |
| SceneRuns.RunKeeps | tools/fetch_scenes.py:1483-1560 | One fetch keeps each stored or retired name, under its sceneName, if and only if it is not a name being taken back by a run whose store write fails |
| SceneRuns.NamesForever | tools/fetch_scenes.py:1483-1560 | Over any sequence of fetches a name once stored is in the store or the tombstone, under the same sceneName, until such a run |
| SceneRuns.NextKeeps | tools/fetch_scenes.py:1543-1560 | The next fetch of any sequence loses a name exactly in that one way |
| SceneRuns.LostName | tools/fetch_scenes.py:1543-1560 | Such a loss happens to any scene: stored by one fetch, retired by the next, and listed again by a third whose store write fails |
| SceneRuns.ReclaimedByReturn | tools/fetch_scenes.py:668-690 | A retired name comes back only on a listed scene of its sceneName, code and category, and of its blob or placeholder where no listed entry is another's placeholder form |
| SceneRuns.NotListedKept | tools/fetch_scenes.py:1483-1560 | A retired name no listed scene of its sceneName, code and category could take back is kept, however the run's writes end |
| SceneRuns.ListedStored | tools/fetch_scenes.py:1158-1184 | A listed scene that is no placeholder and is not cut is stored under its name as listed |
| SceneRuns.BlobStored | tools/fetch_scenes.py:1158-1184 | A listed placeholder whose blob was baked in is stored with it, but for a new name the cut would then drop |
| SceneRuns.UnlistedKept | tools/fetch_scenes.py:1483-1560 | A stored scene no longer listed stays as it is, unless it is refused for good or cut, and then it is retired |
| SceneRuns.MergeScenes | tools/fetch_scenes.py:1158-1184 | The merge of a fetch with the stored catalog, and the placeholder kept where the cut would drop another's blob |
| SceneRuns.RunMain | tools/fetch_scenes.py:1483-1560 | One SKU's step of main: the store and the tombstone after each way its writes end |
| RowFacts.ResolveRow | spec/govee_reference.py:445-491 | The reference reading: layers, then the pact's branch, then every firmware item that holds, in list order |
| RowReading.VersionsTotal | spec/govee_reference.py:437-443 | Versions compare field by field: any two compare, and two each at least the other are one |
| RowReading.AtLeastExactly | spec/govee_reference.py:437-443 | One is at least another if and only if it extends it or is greater at the first field they differ in |
| RowReading.VersionsExtend | spec/govee_reference.py:437-443 | A version that extends another is at least it |
| RowReading.LastItemApplies | spec/govee_reference.py:477-491 | An item without a Kelvin range gives its facts if and only if each of its gates is a known version's own or an earlier one; elsewhere the row reads as without it |
| RowReading.OwnVersionApplies | spec/govee_reference.py:482-485 | So it applies at exactly its own version |
| RowReading.LaterVersionApplies | spec/govee_reference.py:482-485 | And at every later one |
| RowReading.LastKelvinApplies | spec/govee_reference.py:480-482 | A Kelvin item gives its range if and only if the version text is its gate's or later as text |
| RowReading.LayersRead | spec/govee_reference.py:463-476 | Which layer each fact comes from: the pact's branch, the row, the model (ranges only), the family |
| RowReading.ModelItemYields | spec/govee_reference.py:465-488 | A model's item gives no range the row has of its own |
| RowCompiler.Resolve | src/govee_ble_local/devices/_resolve.py:966-1030 | The resolver gives fields its checks accept, and refuses a row exactly where no fields would pass them |
| RowCompiler.Compile | src/govee_ble_local/devices/_resolve.py:1472-1506 | The fields of a row, built branch by branch and item by item, are the compiled form and the only one |
| RowCompiler.FindGate | src/govee_ble_local/devices/_resolve.py:1553-1600 | The colour-group gate: the least listed pact that keeps the groups, none where every pact does, a refusal where there is no such pact |
| RowCompiler.ScenesAgree | src/govee_ble_local/devices/_fold.py:51-73 | At every pact and all known versions the compiled scene set is the reference's |
| RowReading.LastGateApplies | src/govee_ble_local/devices/_fold.py:51-73 | The last compiled gate's set is in use if and only if each version known reaches its own or later; elsewhere the earlier gates decide |
| RowReading.SceneRowAccepted | src/govee_ble_local/devices/_resolve.py:966-1030 | The resolver accepts every row without branches whose items are served and carry scene sets |
| RowReading.AcceptedReads | src/govee_ble_local/devices/_resolve.py:966-1030 | Conversely an accepted row gives, at every pact and any versions, the scene set and brightness range its kind needs, and no Kelvin range that is not one |
| RowReading.AcceptedBranch | src/govee_ble_local/devices/_resolve.py:966-1030 | Each of its branches is for a pact the row lists, no two for one, with a brightness range only where the SKU has brightness |
| RowReading.ModelHeard | src/govee_ble_local/devices/_resolve.py:966-1030 | Its model's range is the one in use before a pact or version is known |
| RowReading.GateOrTable | src/govee_ble_local/devices/_resolve.py:1553-1600 | A row whose branches only drop the colour groups compiles to a gate, exactly if one does, and no table; any other to a table and no gate, refused on the older pact fallback |
| RowCompiler.BrightnessAgrees | src/govee_ble_local/devices/_fold.py:95-104 | At every pact and any versions the compiled brightness range is the reference's, [1, 100] being percent |
| RowCompiler.StatusAgrees | src/govee_ble_local/devices/device.py:2260-2278 | At every listed pact, and before one is heard, the status read asks for exactly the types the reference gives, by the gate or by the table |
| RowCompiler.GateDecides | src/govee_ble_local/devices/_resolve.py:1579-1600 | The gate asks for the groups at exactly the listed pacts that keep them |
| RowCompiler.KelvinAgreesExactly | src/govee_ble_local/devices/_fold.py:22-48 | Whatever is known of the other versions, the compiled Kelvin range is the reference's at every value of the version the entries are gated on if and only if, at each entry's own version, the last entry met in list order has that entry's range |
| RowCompiler.NewerFirstDiffers | src/govee_ble_local/devices/_resolve.py:1509-1528 | An accepted row, its item for 2.00.00 before the one for 1.00.00, whose compiled range at 2.00.00 is not the reference's |
| RowCompiler.AscendingAgrees | spec/govee_reference.py:456-462 | Items in ascending version order are enough for that |
| RowCompiler.KelvinNarrows | src/govee_ble_local/devices/_resolve.py:1509-1528 | Whatever is known of versions and pact, the range in use lies inside the one used once more is known |
| RowCompiler.KelvinNonEmpty | src/govee_ble_local/devices/_resolve.py:1523-1528 | And it is never empty |
| RowCompiler.RouteAgrees | src/govee_ble_local/devices/_resolve.py:947-963 | A pact route's own fields give what the reference gives for the whole row at that pact |
| RowCompiler.EvalSceneVersions | src/govee_ble_local/devices/_fold.py:51-73 | The two loops give the specified scene set |
| RowCompiler.EvalKelvin | src/govee_ble_local/devices/_fold.py:22-48 | The loops give the specified Kelvin range, before and after the pact and the version are known |
| RowCompiler.EvalBrightness | src/govee_ble_local/devices/_fold.py:95-104 | The loop gives the specified brightness range |

## What the models take as given

- Zone power: the library is the only controller and there are no advertisements; a frame dispatched after a status reply
  finds every message applied that was posted before the reply's request (without it, a reply that empties the posted
  powers lets a pending off and on be taken for settled); a lit main flag starts with a lit zone; what a scene does to the
  zone flags of a lit fixture is not traced, so it leaves them (`FixtureRuns.SceneZonesMatter` says what rests on that); a
  write's frames and its commit are one hold of the connection lock.
- Cipher: AES is any pair of functions on 16-byte blocks, each undoing the other under a key AES takes.
- Scenes: an entry of the store is its canonical JSON text, and which texts are valid entries and which keys are well
  formed are parameters shared by tool and loader; the order of entries is any total order; the decisions which stored
  scenes are refused for good, which placeholder keeps an earlier blob, and which entries the sceneType-5 cut drops are
  arbitrary.
- Rows: version texts parse by any function both sides share.

## Left out

- FixtureRuns.StampsSound: the guard on scene acknowledgements is the exact exception, with both directions proved.
- Framing.DrawnFrames: frames after the announced packet count are ignored, as the source ignores them.
- RowCompiler.ScenesAgree: an unknown version passes the compiled gate and fails the reference's, so the versions are known here.
- RowCompiler.Resolve: the resolver's checks are one decision over the facts modelled here, not its loops over the row.
- RowCompiler.KelvinAgreesExactly: relay rows and the numeric gate of goodsType 235 are not modelled.
- SceneFiles.LayOut: a SKU's key is taken in its one upper-case spelling; an entry has no `name` or `by_set` key of its own.
- SceneLoading.LoadCatalogs: the order of a catalog's scenes and the index of names by code are not modelled.
- SceneRuns.RunMain: the dropped list, per-set results re-cut or reconciled in main, and the pairing hash are not modelled.
- SceneMatching.StoreNames: the sort of the listing is a parameter, the sequence Python's stable sort gives.
- BLE, asyncio, retries, connection set-up and the heartbeat: only a lock, acknowledged or raised, a link number, requests and replies remain.
- Advertisements, the app or a remote changing the device, and wall-clock time other than the 120 s bar freshness.
- The zones of fixtures other than H60A6 and H6047 in the run theorems.
- `_commit_once` and per-command sessions, beyond their lock.
- The order of a pending unlock against overlapping operations, which the source names as an exception.
- AES itself, JSON and SHA-256, HTTP, command lines and printing, file replacement.
- The generated readers and frame builders: frames and replies are datatypes.
- The frame log's warning flags, a writer thread that dies, and failing writes.
- The byte-bounded float arithmetic of brightness and the fixed colour-temperature table.
- Colour, segment and mode state, device information and the section count.
- Whether running the merge twice changes nothing.
- Capabilities, wire layouts, form checks and the other facts of a device-table row.
