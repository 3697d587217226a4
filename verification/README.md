# Callback coherence of a whole-file-caching file system

Clients download whole files from one server, work on local copies, and upload them on close. The
server remembers which clients hold which path and notifies them when a file is closed with
changes, renamed or unlinked; a notified client drops its copy. This project models that protocol
with the loops and maps it rests on, and proves what it keeps over whole runs.

`dafny verify dfyconfig.toml` verifies everything.

## Layout

* `Wire`, `Keys`, `KeyOrder`: chunks and positioned writes; the names of a file at both ends; the
  order of `std::string`.
* `RenameKeys`, `Mirror`: the loop that rewrites the keys of an ordered map while iterating over
  it, and what it does to local keys as opposed to server paths.
* `Notifications` (file `NotificationQueue.dfy`): the queue between callbacks and one subscriber.
* `ServerModel`, `ClientModel`: each handler and each client operation as a function on a value.
  `FileServer`, `FileClient`: the same operations as classes whose methods update maps, files and
  queues in place, each proved to change its view as the function says. `ClientEffects`: what each
  client operation answers and does, and that it leaves other files alone.
* `System`, `Coherence`, `Draining`, `RunInvariants`, `Session`, `Transfers`: the server, any number
  of clients and the notes in flight as one transition system, and the theorems about its runs.
* `FineServer`, `FineCoherence`: one path in small steps, without the assumption that operations
  are atomic.
* `CallbackOrder`, `Locks`: concurrent callbacks push by push, and that they come to the handlers of
  `ServerModel` one at a time; the mutexes.
* `Departures`, `Deafness`, `FineDepartures`: runs in which the protocol falls short of its intent.

## What holds, and what does not

An entry of a live client is *sound* if the file is modified locally, or a note about it is on its
way, or the client is registered for it and has the server's bytes. `Strong Consistency`
(README.md:9) is not true of the code without conditions, and `EntryKeptExactlyWhen` and
`SoundExactlyWhen` give them exactly: a few kinds of step can make a sound entry unsound, each under
a condition on the state before it, and every other step keeps it. `UnsoundEntryHasCulprit` finds
the step behind any unsound entry, `Departures` gives reachable runs that end with old bytes for
five of them, and `DeafEntryCanGoStale` says why being registered is part of soundness. A client
that is not registered stays deaf to the file for as long as `DeafExactlyAsLong` says. A second claim,
about the registration alone, is treated by the same lemmas (`Claim` in `Coherence`).

The rename of a file nobody is registered for never returns and keeps `file_map_mutex`
(`RenameOfUnregisteredPathHangs`). The server is then *jammed*: later closes, unlinks and renames still
change files before they block, and nobody is told. Runs contain this, and what follows it.

`unsent` and `synced` in `System.Node` only record history, as `RecordsFollow` says; no operation reads
them.

The small-step model has its own exact theorem (`FineCoherence.SoundExactlyWhen`). There a note can
also be lost before a download becomes a cache entry, and while the file's own upload is under way;
one that comes while a file is being opened empties it; and an abandoned upload attempt can cut a
later one (`FineDepartures`). `OpenFilesAreCachedExactlyWhen` and `LawsHoldExactlyWhen` say when the
client's maps fit together in all states of a run.

Moving a path below itself makes the rename loop run for ever for some maps only:
`TerminatesExactlyWhen` gives the condition, `HangsOnItsOwnKey` and `CanEndBelowItself` an example
on each side.

In `FileServer` and `FileClient` the network is a parameter: how many messages get through before
a stream breaks, and what status comes back.

## Model

| member | source | states |
|---|---|---|
| `Coherence.EntryKeptExactlyWhen` | Basic_Operation/server_code/filesystem_server.cpp:80-177 | For every step, client and file, whatever the state of everything else: a sound entry stays sound if and only if the step is safe for it. Unsafe are only: reading a note for the open file with no other to come and the registration or the bytes gone; finishing an upload while others are registered and the client is neither registered nor told; renaming onto the entry, unless the bytes and the registration that come with it match; and, once a rename of an unregistered file has jammed the server, or by that rename itself, changing the file, of which nobody is told. |
| `Coherence.SoundExactlyWhen` | README.md:9 | Strong consistency, exactly: in every run of any number of clients with the network cut anywhere, an entry is sound in all states if and only if all steps are safe for it. |
| `Coherence.CoherenceKeptExactlyWhen` | README.md:9 | The same for the whole system: a step from a coherent state leads to a coherent state if and only if it is safe for every entry. |
| `Coherence.CachesAreCoherent` | README.md:9 | After a run whose steps are safe for one entry, if a live client caches the file unmodified it has the server's bytes, or a notification for it is queued or in flight; other entries may have been treated in any way. |
| `Coherence.UnsoundEntryHasCulprit` | Basic_Operation/client_code/client_subscriber.hpp:33-55 | In every run, without hypotheses: behind an entry that is not sound there is a delivery, an upload, a rename or, on a jammed server, a deletion that was unsafe for it when it was still sound, and it has not been sound since. |
| `Coherence.RegistrationCoversCaching` | Basic_Operation/server_code/filesystem_server.cpp:80-216 | After a run whose steps are safe for the registration of the entry, the server has a live client registered for what it caches, modified or not, or is telling it, unless the file was created locally and never uploaded; in every run, no registry entry is ever an empty set. |
| `Coherence.StepKeepsStruct` | Basic_Operation/client_code/filesystem_client.cpp:126-262 | Each of the twelve kinds of step keeps the registry free of empty entries, open files cached and on disk, and modified files open. |
| `Coherence.InvalidationKeepsUnflushedWrites` | Basic_Operation/client_code/client_subscriber.hpp:33-45 | In every run, delivering a notification never loses a locally modified file: it stays cached, modified, open, with the same bytes. |
| `Coherence.UploadEffect` | Basic_Operation/client_code/filesystem_client.cpp:677-715 | However its attempts are cut, an upload keeps all registrations of the uploader, leaves its own queue alone, changes no other file, and on success leaves its bytes. |
| `Coherence.UploadKeeps` | Basic_Operation/server_code/filesystem_server.cpp:361-432 | And every other client either hears about the file or keeps its registration and the bytes, except of the uploaded file itself on a jammed server. |
| `Draining.DrainingBringsCoherence` | Basic_Operation/server_code/subscriber_handler.hpp:38-50 | In whatever order the notes of all clients are forwarded and read, once nothing is left a client whose entry was sound caches exactly what it did, less the closed files it was told about, and every unmodified one of those is the server's, except files that were open when a note for them arrived; files and registry are untouched. |
| `Draining.EveryScheduleEnds` | Basic_Operation/server_code/subscriber_handler.hpp:38-50 | Every schedule of forwarding and reading runs out after the same number of steps, two for each queued note and one for each forwarded one, and not before. |
| `Draining.NotesAreConserved` | Basic_Operation/server_code/subscriber_handler.hpp:38-50 | In every run of the whole system, what a client reads followed by what is still on its way to it begins with what was on its way at first: no note is lost, read twice or overtaken while the client stays, and nothing is on its way to one that has left. |
| `Draining.StepKeepsNotes` | Basic_Operation/server_code/filesystem_server.cpp:91-106 | A client reads its oldest note first; every other step leaves its notes as they are with new ones at the end, and none for what it did itself; leaving drops them all. |
| `Draining.InvalidateAllMeaning` | Basic_Operation/client_code/client_subscriber.hpp:33-55 | Reading a stretch of notes removes exactly the entries of closed files it mentions, with their attributes, and changes nothing else cached, known, open or on disk. |
| `Draining.RenamePreservesCoherence` | Basic_Operation/client_code/filesystem_client.cpp:829-897 | Renaming a registered file with nothing pending to a name nobody caches keeps every sound entry of every client sound: the renamer holds the server's bytes under the new name and is registered there, and every other live registrant has been told about the old name. |
| `Departures.RenameOverCachedTarget` | Basic_Operation/server_code/filesystem_server.cpp:140-141 | A reachable state: after another client renames onto it, a live client keeps the old bytes of the target, unregistered, with nothing pending. |
| `Departures.DroppedNoteLeavesStaleFile` | Basic_Operation/client_code/client_subscriber.hpp:34-38 | A reachable state: a notification dropped for an open file leaves the client with old bytes after it closes the file. |
| `Departures.RenameUnderPendingNote` | Basic_Operation/client_code/filesystem_client.cpp:881-885 | A reachable state: renaming with a notification pending for the old name keeps old bytes under the new name after the notification was read. |
| `Departures.CloserLeftUnregistered` | Basic_Operation/server_code/filesystem_server.cpp:86-112 | A reachable state: a client that uploaded a file others hold is not registered, and keeps old bytes, with nothing pending, after the next change. |
| `Departures.UnregisteredRenameIsSilent` | Basic_Operation/server_code/filesystem_server.cpp:142-146 | A reachable state: renaming a file nobody registered onto one a client caches, and is registered for, leaves that client with old bytes, untold, and the server jammed. |
| `Departures.DeafEntryCanGoStale` | Basic_Operation/server_code/filesystem_server.cpp:86-106 | Why soundness includes the registration: from any state in which a live client caches a file unregistered with nothing pending, a newcomer can leave it with other bytes than the server's. |
| `Deafness.DeafExactlyAsLong` | Basic_Operation/server_code/filesystem_server.cpp:86-141 | An unregistered client with nothing pending stays so for exactly as long as every step leaves it so: it stays, does not change, delete or rename its copy, and nobody renames onto the path a file it is registered for. Meanwhile its copy keeps its bytes, whatever others do to the file. |
| `Departures.RenamedOpenFileIsStranded` | Basic_Operation/client_code/filesystem_client.cpp:881-885 | Because the mutexes are not renamed, a renamed open file can no longer be read, written or closed, and reopening changes nothing. |
| `Departures.RenameCanEmptyCachedTarget` | Basic_Operation/client_code/filesystem_client.cpp:812-839 | Renaming an uncached file onto a cached one removes the target's local copy and keeps its cache entry, which can then not be opened. |
| `Departures.FailedOpenReportsPartialSize` | Basic_Operation/client_code/filesystem_client.cpp:190-212 | After three failed attempts, cached attributes of the file hold the size of the last partial download. |
| `FineServer.NoLostInvalidation` | Basic_Operation/server_code/filesystem_server.cpp:306-432 | Opens and closes of one path in pieces and in any interleaving: once all closes have finished, an opener that reads to the end, subscribes, and runs no close from its registration on has either read the file as it is now or been sent a note since it registered, torn reads included. |
| `FineServer.NoSilentOverwrite` | Basic_Operation/server_code/filesystem_server.cpp:361-432 | Once all closes have finished, a subscribed client that was registered when its close began and runs no other from then on either finds its bytes in the file, or has been sent a note since its close began. |
| `FineServer.TornReadIsAnnounced` | Basic_Operation/server_code/filesystem_server.cpp:339-387 | A run in which an open reads one old and one new byte, and is told. |
| `FineServer.RegisterIsOpens` | Basic_Operation/server_code/filesystem_server.cpp:314-318 | The small step that registers an opener is the registration of the atomic model. |
| `FineServer.ScanIsTheCallback` | Basic_Operation/server_code/filesystem_server.cpp:80-115 | The small step that ends a close is the close callback of the atomic model: same registry, same notes in the same queues. |
| `FineCoherence.SoundKeptExactlyWhen` | Basic_Operation/client_code/filesystem_client.cpp:126-262 | Without assuming that open_file or close_file are atomic, for every step and client: an entry for the path, downloaded, being downloaded or uploaded, that matches the server's file, or whose client will still hear, stays so if and only if the step is safe. Unsafe are only: reading the last note when it is dropped and the bytes differ; the acknowledgement of an upload that was overwritten; and a late write of the client's own abandoned attempt that changes the file. |
| `FineCoherence.SoundExactlyWhen` | Basic_Operation/client_code/filesystem_client.cpp:126-262 | In every interleaving of any number of opens, uploads and deliveries the entry is sound in all states if and only if all steps are safe for it. |
| `FineCoherence.CachedBytesAreCoherent` | Basic_Operation/client_code/filesystem_client.cpp:126-262 | After a run whose steps are safe for it, what a client caches unmodified of the path is the server's file now, or a close by another client has not announced itself yet, or a note is unread. |
| `FineCoherence.OpenFilesAreCachedExactlyWhen` | Basic_Operation/client_code/filesystem_client.cpp:184-258 | In all states of a run open files are cached, if and only if no client reads a note between the moment open_file has the entry, found or made, and the moment it has the streams. |
| `FineCoherence.LocalStepsAreTheOperations` | Basic_Operation/client_code/filesystem_client.cpp:126-262 | The client's small steps do to entry, streams and bytes what the operations of ClientModel do: reading a note, writing, closing an unmodified file, finishing an upload, entering the download and opening the streams; no other client step changes them. |
| `FineDepartures.NoteBeforeEntryIsLost` | Basic_Operation/client_code/filesystem_client.cpp:175-187 | A reachable state: a note read between the download and the cache entry is lost, and the client keeps the old bytes with nothing under way. |
| `FineDepartures.NoteBeforeStreamsEmptiesOpenFile` | Basic_Operation/client_code/filesystem_client.cpp:184-231 | A reachable state: a note read between the cache entry and the streams leaves a file that is open and not cached. |
| `FineDepartures.NoteDuringUploadIsLost` | Basic_Operation/client_code/filesystem_client.cpp:647-757 | A reachable state: a note about a close that overwrote the upload is dropped because the file still counts as open; the client then marks clean bytes that the server no longer has. |
| `FineDepartures.AbandonedAttemptCutsUpload` | Basic_Operation/client_code/filesystem_client.cpp:677-715 | A reachable state: an attempt the client has abandoned reaches the file after a later one was acknowledged, cuts the upload short, and its announcement leaves the client out. |
| `CallbackOrder.ClientsSeeOneOrder` | Basic_Operation/server_code/filesystem_server.cpp:80-177 | In every interleaving of concurrent callbacks, push by push, what a client pops is an increasing sequence of positions in one log, the order in which callbacks held file_map_mutex, one for each pop, and only events it was to be told. |
| `CallbackOrder.NoOppositeOrders` | Basic_Operation/server_code/filesystem_server.cpp:80-177 | No two clients see two common events in opposite orders. |
| `CallbackOrder.EveryTargetToldOnce` | Basic_Operation/server_code/filesystem_server.cpp:91-106 | When nobody holds the mutex, each event was pushed once to each client its callback found when it took the mutex, and to nobody else. |
| `CallbackOrder.EveryRegistrantToldOnce` | Basic_Operation/server_code/filesystem_server.cpp:91-106 | Whatever happened before and happens until the mutex is free again: an event has been pushed exactly once to each client that was registered for the path and subscribed when the callback took the mutex, except the initiator, and to nobody else. |
| `CallbackOrder.CallbacksAreTheHandlers` | Basic_Operation/server_code/filesystem_server.cpp:80-177 | Whenever the mutex is free, after any interleaving, the registry, the subscribers and the notes pushed to each of them since it subscribed are those of the handlers of ServerModel applied one at a time in the order of the mutex. |
| `Notifications.QueueConservesNotes` | Basic_Operation/server_code/filesystem_server.hpp:28-48 | For every interleaving of push, pop and cancel: popped followed by queued equals pushed, and a pop reports the end exactly when cancelled and everything pushed was popped. |
| `Notifications.DrainAfterCancel` | Basic_Operation/server_code/filesystem_server.hpp:34-48 | After a cancel with no further pushes, pops give exactly the remaining notes in order and then the end every time. |
| `Notifications.NotificationQueue.Push` | Basic_Operation/server_code/filesystem_server.hpp:28-32 | Appends at the end, in place. |
| `Notifications.NotificationQueue.Pop` | Basic_Operation/server_code/filesystem_server.hpp:34-43 | Takes the front, also after a cancel, and reports the end only when cancelled and empty. |
| `Notifications.NotificationQueue.Cancel` | Basic_Operation/server_code/filesystem_server.hpp:44-48 | Sets the shutdown flag and keeps the contents. |
| `ServerModel.FanOutExactlyOnce` | Basic_Operation/server_code/filesystem_server.cpp:91-106 | Close, unlink and rename of a registered path append one note to each subscribed registrant other than the initiator and touch no other queue. |
| `ServerModel.CloserRegisteredExactlyWhen` | Basic_Operation/server_code/filesystem_server.cpp:86-112 | A closer is registered afterwards if and only if it was before or nobody was. |
| `ServerModel.CleanupRemovesOneClient` | Basic_Operation/server_code/filesystem_server.cpp:182-216 | Cleanup removes exactly one client from all entries and queues, and leaves no empty entry. |
| `ServerModel.RegisterEffect` | Basic_Operation/server_code/filesystem_server.cpp:314-318 | open adds its caller to the registrants of its path, and changes no other registration, file or queue. |
| `ServerModel.CloseEffect` | Basic_Operation/server_code/filesystem_server.cpp:361-432 | The messages replace the file and no other; nobody loses a registration; the closer gains one exactly if the path had no entry, and then nobody is told. |
| `ServerModel.UnlinkEffect` | Basic_Operation/server_code/filesystem_server.cpp:608-635 | An existing file goes, with its registry entry, and nothing else does; an absent one changes nothing. |
| `ServerModel.RenameEffect` | Basic_Operation/server_code/filesystem_server.cpp:568-605 | The bytes and the registrants end up under the new name, in place of what was there, and neither stays under the old one; all other files and entries are as before. |
| `ServerModel.JammedEffect` | Basic_Operation/server_code/filesystem_server.cpp:118-149 | Exactly the rename of an existing file that nobody is registered for jams the server; from then on registry and queues stay as they are, while closes, unlinks and renames still change files. |
| `FileServer.StreamFile` | Basic_Operation/server_code/filesystem_server.cpp:333-357 | The chunk loop sends exactly the chunks of the file that the stream takes, and succeeds when it takes all. |
| `FileServer.FileSystem.constructor` | Basic_Operation/server_code/filesystem_server.hpp:51-74 | An empty registry and no subscribers. |
| `FileServer.RequestsNameServerPaths` | Basic_Operation/server_code/filesystem_server.cpp:311 | The path the server builds from a request is the server path by which the client and the notes know the file. |
| `FileServer.FileSystem.Subscribe` | Basic_Operation/server_code/subscriber_handler.hpp:14-21 | Installs a fresh, open, empty queue for the client and changes nothing else. |
| `FileServer.FileSystem.NotifyAll` | Basic_Operation/server_code/filesystem_server.cpp:91-106 | The loop over the registrants pushes once to each subscribed one except the initiator, in place. |
| `FileServer.FileSystem.FileChangeCallbackClose` | Basic_Operation/server_code/filesystem_server.cpp:80-115 | The close callback, in place: fan-out if the path is registered, otherwise the closer is registered; stuck on a jammed server. |
| `FileServer.FileSystem.FileChangeCallbackRename` | Basic_Operation/server_code/filesystem_server.cpp:118-149 | The rename callback, in place: fan-out, then the registrants move to the new path; on an unregistered path it jams the server, with the registry as it was. |
| `FileServer.FileSystem.FileChangeCallbackUnlink` | Basic_Operation/server_code/filesystem_server.cpp:151-177 | The unlink callback, in place: fan-out, then the entry is removed; stuck on a jammed server. |
| `FileServer.FileSystem.Open` | Basic_Operation/server_code/filesystem_server.cpp:306-358 | Registers the client even when the file is absent, then streams the file; the status tells absence, interruption and completion apart; on a jammed server it does nothing and never answers. |
| `FileServer.FileSystem.ReceiveMessages` | Basic_Operation/server_code/filesystem_server.cpp:371-396 | The receive loop: opening truncates, the messages are appended in order, and an upload without messages or to an unopenable path changes nothing. |
| `FileServer.FileSystem.Close` | Basic_Operation/server_code/filesystem_server.cpp:361-432 | Whatever messages arrive replace the file and are announced, complete or not; no message at all, or a path that ends in a slash, is refused and changes nothing; on a jammed server the file is replaced and nobody told. |
| `FileServer.FileSystem.Unlink` | Basic_Operation/server_code/filesystem_server.cpp:608-635 | Removes the file and announces it; an absent file is reported and changes nothing; on a jammed server the file goes and nobody is told. |
| `FileServer.FileSystem.Rename` | Basic_Operation/server_code/filesystem_server.cpp:568-605 | Moves the file over the target and runs the callback; an absent source is reported and changes nothing; it is stuck, with the file moved, exactly if the server was jammed or nobody is registered for the existing source. |
| `FileServer.FileSystem.CleanupRegistry` | Basic_Operation/server_code/filesystem_server.cpp:193-203 | The erase-while-iterating loop removes the client everywhere and drops the entries it emptied. |
| `FileServer.FileSystem.CleanupSubscription` | Basic_Operation/server_code/filesystem_server.cpp:206-213 | The client's queue is shut down and taken out; the queues of all others are as they were. |
| `FileServer.FileSystem.CleanupClient` | Basic_Operation/server_code/filesystem_server.cpp:182-216 | Registry and subscription of one client are gone, its queue is shut down, all else is kept; stuck, with nothing changed, on a jammed server. |
| `FileServer.Drain` | Basic_Operation/server_code/subscriber_handler.hpp:40-47 | The pop loop after a cancel writes the notes in order, up to a failing write, whose note is lost too. |
| `FileServer.FileSystem.DrainAndForget` | Basic_Operation/server_code/subscriber_handler.hpp:38-50 | After the cancel the remaining notes are written in order, up to a failing write, and then the client is cleaned up. |
| `Transfers.UploadUnderRetries` | Basic_Operation/client_code/filesystem_client.cpp:677-722 | Over any number of cut attempts: the server's file is unchanged if nothing arrived, else a whole-chunk prefix from the last attempt that delivered anything, or all the bytes after a success, which takes max(1, ceil(n/4096)) messages. |
| `Transfers.DownloadUnderRetries` | Basic_Operation/client_code/filesystem_client.cpp:154-231 | A missing file is opened exactly when the server has it and some attempt arrives and finishes; then the local bytes are the server's, cached, clean and open; otherwise neither entry nor local file remains. |
| `Transfers.OpenRegisters` | Basic_Operation/server_code/filesystem_server.cpp:314-318 | Over all attempts of an open: its client is registered, for that file alone, exactly if the file was not cached and some attempt arrived, finished or not; files and notes are untouched. |
| `ClientModel.DownloadMeaning` | Basic_Operation/client_code/filesystem_client.cpp:154-206 | The retry loop leaves what the deciding attempt received, an entry exactly on success, and a matching cached size. |
| `Wire.JoiningChunksGivesTheFile` | Basic_Operation/client_code/filesystem_client.cpp:688-707 | Splitting into messages and joining them again gives the file, in max(1, ceil(n/4096)) messages. |
| `Wire.CutUploadIsPrefix` | Basic_Operation/client_code/filesystem_client.cpp:688-707 | The first k messages are the first min(4096k, n) bytes. |
| `Wire.OverlayMeaning` | Basic_Operation/client_code/filesystem_client.cpp:464-483 | A positioned write changes exactly its range, fills a gap with zeros, and grows the file to max(n, offset + length) unless it is empty. |
| `Wire.SliceMeaning` | Basic_Operation/client_code/filesystem_client.cpp:410-429 | A positioned read returns min(size, n - offset) bytes, none from the end on, byte i being byte offset + i of the file; it comes up short exactly if it asks for bytes beyond the end. |
| `FileClient.SendFile` | Basic_Operation/client_code/filesystem_client.cpp:687-707 | The chunk loop writes exactly the messages of the file that the stream takes, at least one being attempted. |
| `FileClient.UploadWithRetries` | Basic_Operation/client_code/filesystem_client.cpp:673-715 | At most three attempts, stopping at the first acknowledged one, each sending a prefix of the same messages. |
| `FileClient.ReceiveFile` | Basic_Operation/client_code/filesystem_client.cpp:163-174 | The receive loop leaves the chunks joined in order. |
| `Session.ReadsSeeTheSession` | Basic_Operation/client_code/filesystem_client.cpp:408-430 | Whatever others do meanwhile, after an open that downloads the file or finds it cached, a read returns min(size, n - offset) bytes, byte i being byte offset + i of the opened file with the session's writes laid over it, exactly if no earlier read of the session asked for bytes beyond the end or failed to seek. |
| `Session.SessionEndsOnTheServer` | Basic_Operation/client_code/filesystem_client.cpp:636-733 | Open, by download or of a cached file, any writes, a close with a finished upload attempt: the server holds the opened bytes with the writes laid over them in order; with no write the server is left alone. |
| `Session.SessionRun` | Basic_Operation/client_code/filesystem_client.cpp:436-520 | During a session of any length, interleaved with other clients and notes, the local bytes are the fold of the writes, and the read stream has failed exactly if some read spoiled it. |
| `Session.CloseAnswersTruly` | Basic_Operation/client_code/filesystem_client.cpp:719-733 | If close_file of a modified file answers true, the server holds the local bytes and the entry is clean and closed; if it answers false, the file is still open, cached and modified with the same bytes. In a session it answers true exactly if an upload attempt was finished. |
| `ClientEffects.OpenHitEffect` | Basic_Operation/client_code/filesystem_client.cpp:233-260 | open_file of a cached file succeeds exactly if it is open or has a local copy; a file that was not open gets fresh streams and a mutex, and nothing else changes. |
| `ClientEffects.OpenMissEffect` | Basic_Operation/client_code/filesystem_client.cpp:133-231 | open_file of an uncached file succeeds exactly if one of three attempts does; then the file is open, cached and clean with that attempt's bytes and their size, otherwise entry and local copy are gone; other files are untouched. |
| `ClientEffects.ReadEffect` | Basic_Operation/client_code/filesystem_client.cpp:381-433 | When read_file answers, which bytes, and when the stream fails for later reads; nothing else changes. |
| `ClientEffects.WriteEffect` | Basic_Operation/client_code/filesystem_client.cpp:436-520 | When write_file succeeds; it marks the file modified and brings a known size up to date; a refused write clears the stream's failure and no more. |
| `ClientEffects.CreateEffect` | Basic_Operation/client_code/filesystem_client.cpp:522-602 | Refused, with nothing changed, exactly if the file is cached or open; otherwise the file is empty, whatever an earlier local copy held, modified, open and of size 0. |
| `ClientEffects.CloseEffect` | Basic_Operation/client_code/filesystem_client.cpp:605-763 | close_file answers true exactly if the file was open, and is afterwards closed and cached; it is then clean, without mutex, and was unmodified or acknowledged. |
| `ClientEffects.FailedCloses` | Basic_Operation/client_code/filesystem_client.cpp:647-722 | After one failed upload the file cannot be read or written but can be closed again; after two no close reaches an upload any more, until a refused write clears the failure. |
| `ClientEffects.DeleteEffect` | Basic_Operation/client_code/filesystem_client.cpp:946-1004 | Entry, streams, mutex and attributes go whatever the server answers; the local copy goes exactly if the server deleted the file, which is the answer; other files are untouched. |
| `ClientEffects.AttributesEffect` | Basic_Operation/client_code/filesystem_client.cpp:74-123 | The answer is the cached size if there is one, else the server's reply, which is remembered exactly if it is a size. |
| `RunInvariants.LawsHoldExactlyWhen` | Basic_Operation/client_code/filesystem_client.cpp:812-885 | Four laws, each holding in all states of a run if and only if all steps obey it. The files with a mutex are the open ones: no open file is renamed. Cached files have local copies, and their sizes are known, and unmodified ones hold what was last transferred: a rename of an uncached file onto a cached one brings a copy, of the right size, with those bytes; and, for the sizes, attributes are fetched before a download. |
| `RunInvariants.LawKeptExactlyWhen` | Basic_Operation/client_code/filesystem_client.cpp:812-885 | The same for a single step of any kind. |
| `RunInvariants.OpenFilesKeepTheirMutexes` | Basic_Operation/client_code/filesystem_client.cpp:224-230 | In every run open files are cached and on disk; in runs that rename no open file those with a mutex are exactly the open ones. |
| `RunInvariants.CachedSizesAreRight` | Basic_Operation/client_code/filesystem_client.cpp:190-203 | In runs that obey the law of sizes the cached size of a cached file is the length of its local bytes. |
| `RunInvariants.QuietSizesAreTheServers` | Basic_Operation/client_code/filesystem_client.cpp:74-123 | With nothing pending, the law of sizes obeyed and all steps safe for it, get_attributes of an unmodified cached file answers with the size of the server's file, whatever the server would reply. |
| `RunInvariants.UnknownSizesAreFetched` | Basic_Operation/client_code/filesystem_client.cpp:85-122 | If the size is not cached, an answered call makes it the size of the server's file, or leaves it unknown if there is no file; an unanswered one leaves it unknown. |
| `RunInvariants.UnmodifiedFilesAreSynced` | Basic_Operation/client_code/filesystem_client.cpp:719-733 | In runs that obey the law, whatever closes failed, an unmodified file holds the bytes of its latest successful download or upload. |
| `RunInvariants.RecordsFollow` | Basic_Operation/client_code/filesystem_client.cpp:126-262 | What the records used above mean: the bytes of the latest transfer are, after a download, the server's and the local copy's, after an acknowledged upload, those uploaded and now on the server, and otherwise unchanged; a file counts as never uploaded from its creation until it is uploaded or deleted. |
| `Keys.AllKeysAgree` | Basic_Operation/client_code/filesystem_client.cpp:59-72 | The keys built by open, the editing operations, the subscriber and delete are the same string, and delete names the same server path, for every nonempty root, normalised directory and good name. |
| `Keys.RootSpellingsAgree` | Basic_Operation/client_code/filesystem_client.cpp:59-72 | "" and "/" name the same directory. |
| `Keys.ServerPathMeaning` | Basic_Operation/client_code/filesystem_client.cpp:59-72 | However many slashes the directory starts with, the server path is the root, the directory and the name with one slash between them, and the local key is that path below the cache directory. |
| `Keys.LocalKeyInjective` | Basic_Operation/client_code/client_subscriber.hpp:24-25 | Different server paths have different local keys. |
| `Keys.ServerPathInjective` | Basic_Operation/server_code/filesystem_server.cpp:311 | Different directories (up to leading slashes) or names have different server paths. |
| `Keys.TruncateAgreesExactlyAtTheRoot` | Basic_Operation/client_code/filesystem_client.cpp:915-919 | The path truncate_file builds is the file's key if and only if the file is in the root directory. |
| `RenameKeys.UpdateMapKeys` | Basic_Operation/client_code/filesystem_client.cpp:849-877 | The insert-and-erase loop over the ordered map, proved against its step machine, equals the simultaneous substitution whenever no image is met again. |
| `RenameKeys.MatchesMeaning` | Basic_Operation/client_code/filesystem_client.cpp:855-868 | A key matches exactly if it is the old path or lies below it with a slash between, and is then the new path with the same rest. |
| `RenameKeys.SimultaneousMeaning` | Basic_Operation/client_code/filesystem_client.cpp:855-871 | Each matching key is at its new name with its value, every other key keeps its value unless a new name lands on it, and there is nothing else. |
| `RenameKeys.SimultaneousExactlyWhen` | Basic_Operation/client_code/filesystem_client.cpp:849-877 | The loop is the simultaneous substitution if and only if every image that matches the old path sorts before its key. |
| `RenameKeys.UnrelatedPathsAreSubstituted` | Basic_Operation/client_code/filesystem_client.cpp:855-872 | For paths neither of which is the other or above it, the loop ends, is the substitution on every map, and leaves no matching key behind. |
| `RenameKeys.TerminatesExactlyWhen` | Basic_Operation/client_code/filesystem_client.cpp:849-877 | The loop ends on every map unless the new path lies below the old one and some matching key sorts before its own image, and then it never ends. |
| `RenameKeys.HangsOnItsOwnKey` | Basic_Operation/client_code/filesystem_client.cpp:849-877 | Moving a path below itself never ends if the path itself is a key. |
| `RenameKeys.CanEndBelowItself` | Basic_Operation/client_code/filesystem_client.cpp:849-877 | A concrete map on which moving a path below itself does end. |
| `RenameKeys.LocalKeysFollowPaths` | Basic_Operation/client_code/filesystem_client.cpp:881-884 | A local key matches and is rewritten exactly as its server path is. |
| `Mirror.MirrorRename` | Basic_Operation/client_code/filesystem_client.cpp:881-884 | Rewriting local keys and rewriting server paths commute: the map still mirrors the map by server paths. |
| `Mirror.RenameTreeEffect` | Basic_Operation/client_code/filesystem_client.cpp:812-885 | For paths neither of which is the other or above it: refused, with nothing changed, exactly if something on disk lies below the target; otherwise on disk and in each of the three maps all keys at and below the old path are under the new one with their values, every other key keeps its value unless one of those landed on it, and there is nothing else; the mutexes stay. |
| `Mirror.FileRenameMovesOneEntry` | Basic_Operation/client_code/filesystem_client.cpp:827-884 | With nothing below the source or target, renaming a subtree is renaming one entry. |
| `FileClient.FileSystemClient.constructor` | Basic_Operation/client_code/filesystem_client.hpp:20-48 | An empty client. |
| `FileClient.FileSystemClient.DownloadWithRetries` | Basic_Operation/client_code/filesystem_client.cpp:154-206 | The retry loop in place: at most three attempts, ending at the first that succeeds. |
| `FileClient.FileSystemClient.OpenFile` | Basic_Operation/client_code/filesystem_client.cpp:126-262 | open_file in place: its change of the maps and files, and its result, are ClientModel.OpenFile on hit and miss, for all outcomes of three attempts. |
| `FileClient.FileSystemClient.ReadFile` | Basic_Operation/client_code/filesystem_client.cpp:381-433 | read_file in place: the checks, the seek, the sticky failure bit and the bytes returned. |
| `FileClient.FileSystemClient.WriteFile` | Basic_Operation/client_code/filesystem_client.cpp:436-520 | write_file in place: the checks, the overlay, the modified flag and the size. |
| `FileClient.FileSystemClient.CreateFile` | Basic_Operation/client_code/filesystem_client.cpp:522-602 | create_file in place: refused if cached or open, otherwise an empty, modified, open file of size 0. |
| `FileClient.FileSystemClient.CloseFile` | Basic_Operation/client_code/filesystem_client.cpp:605-763 | close_file in place, with the messages of every upload attempt: each early exit leaves what the code leaves, only an acknowledged upload marks the file clean. |
| `FileClient.FileSystemClient.DeleteFile` | Basic_Operation/client_code/filesystem_client.cpp:946-1004 | delete_file in place, for any path: entries go before the call, the local file only if it succeeds; a trailing slash is dropped for the local key only. |
| `FileClient.FileSystemClient.GetAttributes` | Basic_Operation/client_code/filesystem_client.cpp:74-123 | get_attributes in place: the cached size if there is one, else the answer, which is then cached. |
| `FileClient.FileSystemClient.RunSubscriber` | Basic_Operation/client_code/client_subscriber.hpp:7-56 | The subscriber's loop in place: notes are dropped for open and uncached files, otherwise entry and attributes go. |
| `FileClient.FileSystemClient.RenameFile` | Basic_Operation/client_code/filesystem_client.cpp:794-911 | rename_file of a file or a directory in place: the target removed, the subtree moved on disk, three maps rewritten, the mutexes not. |
| `Locks.NoDeadlock` | Basic_Operation/server_code/filesystem_server.cpp:84-101 | In every state that any number of threads with ranked scripts can reach, if a thread is not finished some thread can move. |
| `Locks.NoWaitCycle` | Basic_Operation/server_code/filesystem_server.cpp:84-101 | The waits-for relation has no cycle in any reachable state. |
| `Locks.ServerOperationsRanked` | Basic_Operation/server_code/filesystem_server.cpp:80-216 | Open, close, unlink, rename of a registered path and subscribe with its cleanup take file_map_mutex, subscriber_mutex and the queue mutexes in that order. |
| `Locks.ClientOperationsRanked` | Basic_Operation/client_code/filesystem_client.cpp:605-763 | Read, write, close, failed close and delete take the file's mutex before cache_mutex under it; the other operations take only cache_mutex. |
| `Locks.TakenByCallbacks` | Basic_Operation/server_code/filesystem_server.cpp:84-101 | A callback takes the queue mutex of each of its clients once, in order, under exactly file_map_mutex and subscriber_mutex, and ends holding nothing. |
| `Locks.TakenByTheServer` | Basic_Operation/server_code/filesystem_server.cpp:80-216 | For every handler, which mutexes it takes, in which order, and which it holds when it takes each. |
| `Locks.TakenByTheClient` | Basic_Operation/client_code/filesystem_client.cpp:381-763 | The same for the client's operations: the file's mutex is taken alone, and cache_mutex alone or under it. |
| `Locks.RenameOfUnregisteredPathGetsStuck` | Basic_Operation/server_code/filesystem_server.cpp:121-146 | The rename of an unregistered path is not ranked, and gets stuck as soon as its first lock succeeds. |
| `Locks.RenameOfUnregisteredPathHangs` | Basic_Operation/server_code/filesystem_server.cpp:142-146 | Under every schedule from then on, with any threads and scripts: the thread of such a rename never moves again and waits for itself, nobody else ever holds file_map_mutex, and whoever wants it waits for that thread. |

## Left out

- RenameKeys.UpdateMapKeys: requires that the loop ends, because a method must; TerminatesExactlyWhen says when it does.
- FileClient.FileSystemClient.RenameFile: only for paths neither of which is the other or above it; the operating system refuses the others, and the rename of a path to itself is modelled in ClientModel.RenameFile and RenameKeys only.
- FileServer.FileSystem.Unlink: errors other than a missing file, for some of which the handler reports success, do not occur, and paths are files.
- FileClient.FileSystemClient.ReadFile: after the client has renamed a file onto one it has open, the source's stream still reads the replaced file; the method reads what now has the name.
- FileClient.FileSystemClient.WriteFile: in the same situation the source's stream still writes the replaced file; the method writes what now has the name, or refuses if nothing has.
- Coherence.SoundExactlyWhen: a client operation is one step, so a note arriving inside open_file or close_file is covered by FineCoherence only; a call that a jammed server never answers is one that was cut, after which the client goes on; runs contain no truncate_file and no rename onto a file the renamer has open.
- Coherence.RegistrationCoversCaching: the two lock sections of cleanup_client are one step.
- RunInvariants.CachedSizesAreRight: attributes of files that are not cached can be out of date, because get_attributes does not register and a note for an uncached file leaves the attributes alone.
- FineServer.NoLostInvalidation: one path, which exists throughout; no unlink, rename or cleanup of it meanwhile.
- FineCoherence.SoundExactlyWhen: one open_file of the path at a time per client, and clients upload what they have fetched before, not files they created.
- CallbackOrder.ClientsSeeOneOrder: the targets of a callback are determined when it takes file_map_mutex; a client that subscribes between that and the loop is not told.
- Locks.NoDeadlock: waits for the network under a file's mutex, the join of threads and the dashboard's handler are not part of it.
- Session.ReadsSeeTheSession: every seek is taken to discard what the stream had read ahead, so that a read sees all earlier writes.
- truncate_file beyond the path it builds: it leaves the modified flag and the cached size alone.
- ls, mkdir, directory listings, and directories on the server: thin wrappers, and the registry does not track directories.
- file_map_open, clients_db, GetStatus and the dashboard: monitoring only.
- Timestamps, permissions, owners, link counts and failures of the local or the server's disk; the only local failures modelled are missing files.
- Crashes of the server, and clients that subscribe twice or share an id.
- Widths of integers: offsets and sizes are unbounded.
- Lifetimes of iterators and raw pointers held across unlocks in close_file, read_file and write_file.
- The order of keys is that of Dafny's characters; std::string compares unsigned bytes.
- FUSE, gRPC and protobuf as libraries: a call is a step, a stream a sequence that may be cut.
