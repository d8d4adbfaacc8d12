# Verification of the inference node and the console's connections

A Dafny 4.11 model of the parts of this repository that keep state under
interleaving, failure and restart, with proofs of what they promise. `dafny
verify dfyconfig.toml` checks everything.

## What is modelled

**The model download pipeline** (`inference/src/pull.rs`, `hub.rs`,
`catalog.rs`; modules `Library`, `Selection`, `Transfer`, `Models`,
`Catalogue`, `Handles`, `Records`, `LateWrites`, `Pipeline*`). An administrator starts a
download; an attempt fetches every file of one commit into a staging directory,
checks lengths, renames the directory into place, and lists the model. Calls
(`start`, `cancel`, `resume`, `forget`, and the catalogue's `update` and
`remove`) interleave with the attempts one lock section or one file-system step at
a time, and the process may be killed and restarted between any two steps.
`Pipeline` is that machine; `PipelineInvariant`, `PipelineSteps` and
`PipelineCalls` prove one invariant over it; `PipelineTheorems` says what
follows for every run, `PipelineBytes` what the counters never exceed,
`PipelineProgress` and `PipelineFuture` what can still be reached from every
state of every run, `PipelineForget` what `forget` does and does not undo,
`PipelineRecords` what every step makes of what a poller reads,
`PipelineCatalogue` how the catalogue in memory and on the disk go together, and
`PipelineListing` and `PipelineClash` when two listed models share a handle or a
commit. `LateWrites` is one staged file and the chunks that land after a call-off.
The classes `Records.Pulls`, `Catalogue.Catalog` and `Transfer.Staging` are the
code's own objects, changed in place. The first two are proved against the
values the machine uses; the third against the run of the fetch loop, which
`PipelineTransfer` proves is what an attempt's steps in the machine come to.

**The reconnecting socket** (`admin-ui/src/lib/reconnecting-socket.ts`; modules
`Socket`, `SocketClient`, `SocketTheorems`, `SocketRecovery`). A client as a
class over a browser that makes connections and timers; the same behaviour as a
function of events; its guarantees over every run of them; and exactly when it
can still come to work.

**Enrolment and trust** (`inference/src/join.rs`, `inference/src/tls.rs`;
module `Enrolment`). How a machine decides whom an answer must come from, what
it keeps of an answer, and what it holds after any replies, failed writes,
kills and restarts.

**Redaction** (`inference/src/error.rs`; modules `Ascii`, `Redaction`,
`RedactionCase`, `RedactionWords`). The rewrite loop that removes the names of the
stack from what a person reads, in any letter case; and when that is what the
comment on it promises, the removal of whole words.

**The console's session** (`admin-ui/src/lib/api.ts`; modules `Session`,
`SessionClient`, `SessionTheorems`). One refresh at a time against a
single-use cookie, for any number of concurrent requests. `ConsoleSocket` runs
the session and the socket together, as `admin-ui/src/lib/ws.ts` joins them.

## Assumptions

- The library's sizes are right and a commit's files never change. A 206 answer
  carries bytes from the requested offset on; a 200 answer carries the file from
  its start, because a server may ignore Range (RFC 9110, sections 14.2 and
  15.3.7). Either may end early.
- A crash is a process kill, not power loss: what was written stays written.
  A `rename` is one step. Removing a directory tree is one step.
- In the machine a write is complete when it is counted. The code flushes only
  when a stream ends well (`inference/src/hub.rs:548-551`), so after a call-off the
  last chunk may land late. `LateWrites` models that for one file:
  `LateWrites.PrefixExactly` says for every run when the file stays a prefix of
  its remote, `LateWrites.ContinuingIsSafe` that it does unless it is created
  afresh with a chunk outstanding, and `LateWrites.LateChunkSpoils` is a run in
  which it then passes the length test with the wrong bytes. Writing through a handle whose file was removed changes nothing in the
  directory. Aborting the progress ticker takes effect at once.
- A `model.json` that parses is in its own model's directory; others may be
  anything. `Catalogue.Catalog.Open` does without this.
- Whether a file-system step succeeds is the world's choice: a parameter of the
  classes' methods, and an action or its argument in the machines.
- Fresh identifiers (a download's, a model's) are new: they are taken from those
  never used before.
- The paths of a plan are plain names: none is a directory of another.
- The closure given to `Catalog::update` keeps the entry's uid, repository,
  revision and handle, as the three in `inference/src/api/models.rs:122-193` do.
- A browser delivers no timer that was cleared, opens only a connection that is
  still dialling, and delivers no message before a connection opened. The
  socket's callbacks do not call back into it before they return (`ws.ts` passes
  no `onState`, the one callback that runs in the middle of a method), and the
  refresh it waits on resolves rather than throws, as `refreshSession` does.
- Code between two awaits runs without interruption in the console; between two
  locks or file-system calls anything may happen in the node.

## Where the code and its words differ

The model follows the code.

- `inference/src/tls.rs:135` says both files or neither. They are two renames:
  `Enrolment.KilledBetweenTheWrites` says for every run when what is left is not
  a pair, and `Enrolment.MixedPairIsReached` is a run that comes to it. Trust is
  not affected (`Enrolment.TrustIsInductive`).
- `inference/src/join.rs:419-430` asks who was just talked to, and answers by the
  first certificate of the authority (`inference/src/tls.rs:210-216`). The whole
  text is kept (`inference/src/join.rs:437-445`) and every certificate of it is made
  a root (`inference/src/tls.rs:163-168`). `Enrolment.RootsExactly` says for every
  run when all roots are trusted; `Enrolment.FurtherRootIsKept` is a run after
  which one is not.
- `inference/src/catalog.rs:113` says a handle is unique on the node. It is minted
  free (`inference/src/pull.rs:483`) and listed later (`inference/src/pull.rs:497`):
  `PipelineClash.HandlesCanClash` is a run that lists two models under one.
  `PipelineListing.HandleTakenExactly` and `PipelineListing.HandlesStayDistinct`
  say exactly when that happens, and `PipelineListing.TakingTurnsIsEnough` what
  would prevent it.
- `inference/src/catalog.rs:257-258` says the same commit is not wanted twice. It is
  looked up when a download starts and listed when it ends: the run of
  `PipelineClash.HandlesCanClash` may be of one commit, and
  `PipelineListing.CommitTakenExactly` says exactly when a commit is listed twice.
- `inference/src/pull.rs:293-297` says `forget` never races the download that is
  writing, and removes whatever it fetched. It asks the download to stop and does
  not wait. Of any download it can leave a directory that nothing tracks, the
  one `inference/src/pull.rs:655-657` warns of
  (`PipelineForget.ForgetCanLeaveADirectory`), and a model can still come of it
  (`PipelineForget.ForgottenCanBecomeAModel`). `PipelineForget.AfterTheWipe` says
  exactly when, by where the attempt stood, for every run; the promises about
  models hold all the same.
- `inference/src/catalog.rs:268-272` says a model's id is minted before its
  download starts. It is minted after verification (`inference/src/pull.rs:473`).
- `inference/src/error.rs:182-185` says whole words are matched. Any occurrence
  is (`inference/src/error.rs:210-213`): "cargoes" becomes "the enginees"
  (`RedactionWords.CargoesIsChanged`). The two agree exactly on the texts in which
  every name stands as a word (`RedactionWords.WordsExactly`).
- `inference/src/hub.rs:612-616` takes the text after the last dot for the
  extension, and a path without a dot for its own: a file called just `gguf` is
  weights (`Selection.ExtensionIsASuffix`).
- `admin-ui/src/lib/api.ts:457-467` keeps a session that arrived while a refused
  refresh was in flight. One that arrives after the refusal is concluded, and
  before a waiting request goes on, is ended
  (`SessionTheorems.ArrivalInTheGapIsLost`);
  `SessionTheorems.SessionEndsExactly` is the condition, for every run.
- `admin-ui/src/lib/api.ts:371` says that silence is not a refusal and the socket
  will ask again. `refreshSession` answers false for both, and on false the
  socket stops and reports the session dead
  (`admin-ui/src/lib/reconnecting-socket.ts:211-214`): a run in which a gateway
  that refused nothing ends it, `ConsoleSocket.SilenceEndsTheSocket`; exactly
  when a refresh ends it, `ConsoleSocket.SocketEndsExactly`.
- `admin-ui/src/lib/reconnecting-socket.ts:209-215`: a refresh asked for before
  `stop` can end what was started after it
  (`SocketTheorems.OldRefreshEndsNewStart`).

## Model

| member | source | states |
|---|---|---|
| PipelineTheorems.NeverHalfLoadable | inference/src/pull.rs:17-19 | In every state of every run, every model listed in memory or readable from the disk has a weights directory holding exactly the described files with exactly their remote bytes at that commit |
| PipelineTheorems.ModelsWereAskedFor | inference/src/pull.rs:333-441 | The plan every record, attempt and placed model carries is one some earlier `start` was asked for |
| PipelineTheorems.KeepStep | inference/src/pull.rs:242-664 | Every step (33 kinds, calls and attempts and restarts) keeps the machine's invariant |
| PipelineTheorems.OneWriterPerDownload | inference/src/pull.rs:260-327 | At most one unsettled attempt a download; a tracked download is unfinished exactly when it has one |
| PipelineTheorems.StagedIsAlwaysAPrefix | inference/src/pull.rs:528-561 | Through any cancels, failures and resumes, every staged file of a tracked or fetched download is a prefix of its remote file |
| PipelineTheorems.CheckedLengthsAreCheckedBytes | inference/src/pull.rs:719-735 | An attempt that passed the length test holds the remote, byte for byte |
| PipelineTheorems.ByteConservation | inference/src/pull.rs:455-566 | The byte counter is the staged length of the files visited, plus the part in hand, plus what the library would not continue; bounded by, and at the end equal to, the total plus what was discarded |
| PipelineBytes.NeverPastTheTotal | inference/src/hub.rs:494-546 | In every run in which each range an attempt asked for was honoured, it has discarded nothing and its counter is at most the download's size |
| PipelineBytes.RecordNeverPastTheTotal | inference/src/pull.rs:575-594 | In every run in which each range asked for on a download was honoured, the `bytes_done` a poller reads never exceeds `bytes_total`, through any cancels and resumes |
| PipelineBytes.DiscardsAreCounted | inference/src/hub.rs:505-528 | At every point of every run, what an attempt has discarded is the sum of the parts it held whenever it opened a file afresh because the library would not continue it |
| PipelineTheorems.RecordsAreConsistent | inference/src/pull.rs:597-651 | `model_uid` is set exactly in Ready, `error` exactly in Failed or Cancelled, `files_done` never exceeds `files_total`; Ready has full counts, a listed model and no staging directory |
| PipelineTheorems.OnlyLegalTransitions | inference/src/pull.rs:267-285 | A record moves only along Downloading, Verifying, Ready, or to Failed or Cancelled, or from those back to Downloading |
| PipelineRecords.RecordsExactly | inference/src/pull.rs:575-664 | In every run, what each step makes of a record: a tick publishes its attempt's counter, a file that landed counts one more, the checks say Verifying, an end says where it got to or why it did not and whether it was called off, a resume takes it up again; nothing else changes it; and what drops it is a `forget`, a restart, or a start that finds it Ready for an hour |
| PipelineRecords.RecordsBegin | inference/src/pull.rs:400-440 | A record appears exactly by its start, Downloading with nothing counted, under a token nobody has cancelled |
| PipelineRecords.CancelsExactly | inference/src/pull.rs:242-303 | In every run, a token comes to be cancelled exactly by a cancel of the unfinished download that holds it or a `forget` of it |
| PipelineRecords.StopsExactly | inference/src/hub.rs:531-541 | In every run, an attempt can be stopped by its token exactly while it writes and once such a call was made |
| PipelineRecords.RestartsExactly | inference/src/main.rs:107-125 | A restart keeps the models, exactly the staging directories that survive the clearing, and no record and no attempt |
| PipelineTheorems.SweepDropsOnlyReady | inference/src/pull.rs:653-664 | The sweep drops no record that has an attempt or bytes to resume from |
| PipelineTheorems.CancelledNeverFails | inference/src/pull.rs:614-620 | The record of an attempt a cancel succeeded on never says Failed; a record that says Cancelled was called off |
| PipelineTheorems.TokenCancelledByItsOwn | inference/src/pull.rs:242-252 | A live attempt's token is cancelled by a call on its own download and by no other step |
| PipelineTheorems.EarlierCancelsDoNotReach | inference/src/pull.rs:279-281 | An attempt's token stays uncancelled as long as nobody cancels or forgets its download after it was spawned |
| PipelineTheorems.FailureIsNotACancel | inference/src/pull.rs:279-281 | In every run, a tracked attempt that ends badly without a cancel or forget of its download since it was spawned leaves a record that says Failed, whatever was cancelled before |
| PipelineTheorems.ResumeTakesAFreshToken | inference/src/pull.rs:260-291 | A resume that goes ahead spawns an attempt whose token nobody has cancelled |
| PipelineTheorems.ForgottenForGood | inference/src/pull.rs:298-327 | Once a download is dropped and no attempt works on it, no call and no restart ever tracks it or works on it again |
| PipelineForget.ForgetCanLeaveADirectory | inference/src/pull.rs:293-310 | Of any download: a run in which `forget` removes the directory, and which ends with no record, no attempt and the directory there again |
| PipelineForget.AfterTheWipe | inference/src/pull.rs:298-310 | In every run, after `forget` has removed the directory: the download has no record and no directory; one can come back if and only if an attempt on it had a file left to create; and an attempt on it can still become a model if and only if it had no file behind it yet, or its model was already in place |
| PipelineForget.ForgottenCanBecomeAModel | inference/src/pull.rs:298-310 | Of any download: a run in which `forget` went through and the attempt can still end with its model listed |
| PipelineForget.NothingComesBack | inference/src/pull.rs:298-327 | Once a download has no record, no attempt and no staging directory, it never has one again, in any run |
| PipelineCatalogue.DiskIsTheMap | inference/src/catalog.rs:278-329 | After any step of any interleaving, a boot lists the map before it with exactly the entry that was renamed or the directory that was removed; what is listed in memory is on the disk word for word, unless an update of it has just been renamed; and what is on the disk is listed, unless it is being removed or an attempt has just renamed it |
| PipelineListing.HandleTakenExactly | inference/src/pull.rs:479-497 | In every run, when an attempt lists its model, the handle it minted free is taken if and only if somebody listed another model under it since, and that one is still listed |
| PipelineListing.HandlesStayDistinct | inference/src/catalog.rs:110-113 | In every run, handles are distinct in every state if and only if no attempt listed a model under a handle that was taken, and no boot found two entries under one |
| PipelineListing.TakingTurnsIsEnough | inference/src/catalog.rs:209-253 | Handles are distinct in every run in which attempts take turns from minting to listing, and no boot falls in such a turn or in a removal |
| PipelineListing.CommitTakenExactly | inference/src/catalog.rs:255-266 | In every run, when a download lists its model, its commit, not listed when the download started, is listed already if and only if somebody listed it since, and that model is still listed |
| PipelineClash.HandlesCanClash | inference/src/pull.rs:479-497 | Of any two downloads of one file from repositories of one name, of one commit or of two: a run without a restart that lists both, under one handle that was free each time it was minted |
| PipelineProgress.NeverStuck | inference/src/pull.rs:445-510 | In every reachable state, an attempt whose directory no `forget` took has a step forward open to it, which closes no file short, or waits for an update that can itself go on |
| PipelineFuture.CanStillBecomeAModel | inference/src/pull.rs:445-510 | In every state of every run, some continuation ends an attempt with its model listed if and only if every file behind it has its length, the file it is writing was not removed under it unless it is whole, and, before it begins, its record is still there |
| PipelineFuture.EveryDownloadCanFinish | inference/src/pull.rs:256-291 | In every state of every run, every tracked download can still come to Ready: by its own attempt, or by letting that end and resuming |
| PipelineTransfer.FetchIsSteps | inference/src/pull.rs:517-568 | From any file on, for any answers: an attempt's own steps, undisturbed, lead to the directory, the counter, the discarded bytes and the outcome that the run of the fetch loop computes |
| PipelineSteps.KeepOwnAction | inference/src/pull.rs:517-568 | Every step of an attempt on its own (stat, request, open, chunk, stop, failure, tick, check) keeps the invariant of the whole machine |
| PipelineSteps.KeepMintUid | inference/src/pull.rs:473-475 | Minting a model's id and making its directory keeps the invariant |
| PipelineSteps.KeepMoved | inference/src/pull.rs:471-477 | The rename of the staging directory to the weights directory keeps the invariant |
| PipelineSteps.KeepEntryCommitted | inference/src/catalog.rs:351-362 | Renaming an entry into place keeps the invariant: what it names is whole |
| PipelineSteps.KeepSettled | inference/src/pull.rs:597-635 | Settling keeps the invariant: a Ready record names a listed model |
| PipelineCalls.KeepStart | inference/src/pull.rs:400-440 | Starting, sweep included, keeps the invariant |
| PipelineCalls.KeepResume | inference/src/pull.rs:260-291 | Resuming keeps the invariant: the new attempt is the only writer, and starts from prefixes |
| PipelineCalls.KeepForgetWipe | inference/src/pull.rs:298-310 | Removing a staging tree under whatever attempt is using it keeps the invariant |
| PipelineCalls.KeepRestart | inference/src/main.rs:107-125 | A kill and a boot, with any of the staging directories surviving the clearing, keeps the invariant |
| PipelineCalls.KeepRemoveDirectory | inference/src/catalog.rs:316-329 | Deleting a removed model's directory, at any later time, keeps the invariant |
| Library.LengthsImplyBytes | inference/src/pull.rs:715-735 | For a staged directory the length test passes exactly when every described file is there with its remote bytes |
| Transfer.ResumedIsStraight | inference/src/pull.rs:528-568 | Whatever earlier attempts staged, an attempt answered to the end leaves exactly the remote, and counts its size plus what was discarded; its size alone, if every ranged request was answered with a part |
| Transfer.InterruptedIsResumable | inference/src/pull.rs:528-568 | However an attempt ends, what it leaves can be continued, and its counter is the staged length of the files it visited plus what was discarded; at most the total, if every ranged request was answered with a part |
| LateWrites.LateLanding | inference/src/hub.rs:531-553 | A chunk that lands after the call-off, on whatever prefix the file holds by then, leaves a prefix if and only if the file still reaches to its offset or the remote is zeros in between |
| LateWrites.PrefixExactly | inference/src/hub.rs:511-553 | Over any openings, chunks, call-offs with a chunk under way, late landings and removals, the file stays a prefix of its remote if and only if every late chunk finds the file reaching to it, or zeros in between |
| LateWrites.ContinuingIsSafe | inference/src/hub.rs:521-528 | In every run in which the file is created afresh only with nothing outstanding, it is always a prefix of its remote |
| LateWrites.LateChunkSpoils | inference/src/hub.rs:527-553 | Of any file of two bytes or more that does not begin with a zero: a run that ends with nobody writing, nothing outstanding, the right length and the wrong bytes |
| Transfer.OneFileFetched | inference/src/hub.rs:494-546 | One answer, partial or whole, broken off anywhere, keeps every staged file a prefix and accounts for every byte |
| Transfer.Staging.DownloadFrom | inference/src/hub.rs:478-553 | The chunk loop leaves the file continued after a 206 to a ranged request and replaced otherwise, with exactly what arrived before the stream ended, broke or was called off; and counts exactly that |
| Transfer.Staging.FetchFile | inference/src/pull.rs:529-561 | A file of the right size is skipped and counted; a shorter one is continued from its length; a longer one is fetched again from the start, like an absent one |
| Transfer.Staging.Fetch | inference/src/pull.rs:517-568 | The fetch loop computes the run the lemmas are about: directory, outcome, counter and files landed |
| Transfer.Staging.Verify | inference/src/pull.rs:715-735 | Reports nothing exactly when every file has its described length, and otherwise the first that has not |
| Selection.PlanIsExact | inference/src/hub.rs:619-717 | A plan is a question exactly when nothing is named, there are no safetensors and at least two gguf; refused exactly when the named file is absent or nothing is readable; otherwise it is not empty, strictly sorted, and holds the first mention of exactly the wanted paths |
| Selection.PlanIsUnique | inference/src/hub.rs:669-675 | Strict order and membership leave one plan |
| Selection.PlanIsDistinct | inference/src/hub.rs:669-675 | No plan names a path twice |
| Selection.PlansAreTruthful | inference/src/hub.rs:450-465 | The description of a truthful listing meets what the pipeline asks of a download exactly when it has files |
| Selection.ExtensionIsASuffix | inference/src/hub.rs:612-616 | A path has an extension exactly when it ends in its letters, each small or capital, after a dot, or is nothing else |
| Selection.BeforeIs | inference/src/hub.rs:669-675 | The order of a plan is that of dictionaries, by the first character in which two paths differ |
| Selection.FirstIsFirst | inference/src/hub.rs:669-675 | Of the mentions of a path a plan takes the earliest |
| Catalogue.Catalog.Open | inference/src/catalog.rs:158-184 | Of any disk, a boot lists every entry that parses, under the uid it gives, and nothing else; where each is in its own directory, that is the map of the directories |
| Catalogue.Catalog.WriteEntry | inference/src/catalog.rs:347-362 | Succeeds exactly when the directory, the temporary file and the rename do; whatever else is on the disk, a reader finds the entry whole or the one before: and killed after any file-system step, the map before or the map after |
| Catalogue.Catalog.Insert | inference/src/catalog.rs:278-286 | Lists the model exactly when all three steps of the write succeed; a failure changes nothing a boot would see; before-or-after at every kill |
| Catalogue.Catalog.Update | inference/src/catalog.rs:293-308 | Refines a map update; not found, refused and not stored each come exactly when they should, and change nothing; before-or-after at every kill |
| Catalogue.Catalog.Remove | inference/src/catalog.rs:316-329 | Drops the entry always; the directory is gone exactly when its deletion succeeded, and then alone memory and disk agree |
| Models.StepsSeenByABoot | inference/src/catalog.rs:158-184 | Making a directory or writing a temporary file is invisible to a boot; the rename and the removal are seen as one change of the map |
| Handles.BaseIsUsable | inference/src/catalog.rs:215-231 | A base is never empty, at most 96 safe characters, never starts with `-` or `.`, and is `model` when the name offers nothing |
| Handles.BaseIsTheName | inference/src/catalog.rs:215-231 | A base is the name from its first character that is more than a dash or a dot to its last, cut at 96, each character itself if it is a letter, a digit, a dash, a dot or an underscore, and a dash otherwise |
| Handles.CandidateIs | inference/src/catalog.rs:244-252 | A candidate is the base, a dash and the number in decimal digits without a leading zero |
| Handles.UsableNamesAreKept | inference/src/catalog.rs:215-231 | A name that is already a usable handle is its own base |
| Handles.RoomBelowTheLimit | inference/src/catalog.rs:242-252 | With fewer than 999 handles taken one of the base and its suffixes is free; with 999 there may be none |
| Handles.MintHandle | inference/src/catalog.rs:215-253 | The base if free, else the least free suffix below 1000, else the unique fallback; free whenever fewer than 999 are taken |
| Records.Pulls.Start | inference/src/pull.rs:342-441 | Refuses in the order of the checks and changes nothing; otherwise sweeps and tracks a new download under a fresh token |
| Records.Pulls.Cancel | inference/src/pull.rs:242-252 | Cancels the token of an unfinished download, and nothing else; a finished one is a conflict |
| Records.Pulls.Resume | inference/src/pull.rs:260-291 | Goes ahead exactly from Failed or Cancelled, with a fresh token; a running one is answered and not spawned again |
| Records.Pulls.AskToStop | inference/src/pull.rs:299-303 | The first lock section of `forget` |
| Records.Pulls.Drop | inference/src/pull.rs:304-306 | The second lock section of `forget` |
| Records.Pulls.FilesDone | inference/src/pull.rs:637-643 | Sets the count of a tracked download and touches no other; a dropped one is left alone |
| Records.Pulls.SetState | inference/src/pull.rs:645-651 | Sets the state of a tracked download and touches no other; a dropped one is left alone |
| Records.Pulls.Tick | inference/src/pull.rs:584-592 | Publishes the counter on a tracked download and touches no other |
| Records.Pulls.Settle | inference/src/pull.rs:597-635 | Ready with full counts, or Cancelled or Failed by the record's own token at that moment; a dropped record is left alone |
| Records.Pulls.ForgetOld | inference/src/pull.rs:658-664 | Keeps exactly the unfinished, the stopped and the recently ready |
| Records.Pulls.Active | inference/src/pull.rs:228-235 | How many downloads are unfinished |
| SocketTheorems.NeverSilentlyDead | admin-ui/src/lib/reconnecting-socket.ts:112-227 | In state connecting, open or reconnecting there is a connection, an outstanding timer or an unresolved refresh |
| SocketTheorems.AtMostOneConnection | admin-ui/src/lib/reconnecting-socket.ts:10-11 | No connection but the current one is or can become usable; at most one timer is outstanding, and none beside a connection; open with a connection means that one was acknowledged |
| SocketTheorems.DialsExactly | admin-ui/src/lib/reconnecting-socket.ts:143-155 | In every run a connection is made exactly when a timer goes off while there is a token that is not empty, and then one; without one the client rests |
| SocketTheorems.AuthenticatesWithItsToken | admin-ui/src/lib/reconnecting-socket.ts:143-164 | In every run the first message on every connection authenticates with the whole token the session had when it was dialled |
| SocketTheorems.OpensExactly | admin-ui/src/lib/reconnecting-socket.ts:170-186 | In every run a client comes to be open exactly when the server confirms the connection it has; any other message changes no field |
| SocketTheorems.FailureHangsUp | admin-ui/src/lib/reconnecting-socket.ts:167 | A connection that fails is hung up, and nothing else changes |
| SocketTheorems.GrantedRefreshRetries | admin-ui/src/lib/reconnecting-socket.ts:209-218 | A refresh that got a session sets one timer of 250 milliseconds, unless the client is stopped or has a connection or a timer; then it changes nothing |
| SocketTheorems.StaleChangesNothing | admin-ui/src/lib/reconnecting-socket.ts:170-189 | No open, message, error or close of a replaced connection changes anything but that connection |
| SocketTheorems.StoppedUntilStarted | admin-ui/src/lib/reconnecting-socket.ts:121-130 | Once stopped, nothing opens a connection or sets a timer until `start` or `subscribe` |
| SocketTheorems.NoTopicIsLost | admin-ui/src/lib/reconnecting-socket.ts:132-168 | On every connection nothing is sent before it opens, the first message authenticates, the rest join; and on a usable one the topics joined are exactly those `subscribe` was ever called with |
| SocketTheorems.RetriesAreCounted | admin-ui/src/lib/reconnecting-socket.ts:178-204 | `attempt` counts the drops, and `authFailures` the refreshes, since the last acknowledgement or stop; never more than three refreshes |
| SocketTheorems.DropsBackOff | admin-ui/src/lib/reconnecting-socket.ts:220-234 | A drop sets one timer, of the delay the curve and the random number give for the drops since the last acknowledgement or stop, between half of the curve and all of it |
| SocketTheorems.RejectionsAreBounded | admin-ui/src/lib/reconnecting-socket.ts:200-218 | Close code 1008 (RFC 6455, section 7.4.1) asks for a refresh three times in a row; the next reports the session dead |
| SocketTheorems.NeverStopsInSilence | admin-ui/src/lib/reconnecting-socket.ts:200-218 | A client that was not told to stop stops only by reporting the session dead |
| SocketTheorems.CallsTakeEffect | admin-ui/src/lib/reconnecting-socket.ts:111-137 | `start` and `subscribe` leave a connection or a timer behind from any state; `stop` leaves neither, and hangs up |
| SocketTheorems.OldRefreshEndsNewStart | admin-ui/src/lib/reconnecting-socket.ts:209-215 | A resolved refresh leaves the client stopped exactly when it already was or the refresh got no session, refused or not answered; and a run in which a refresh from before a stop ends what was started after it |
| SocketRecovery.RecoverableExactly | admin-ui/src/lib/reconnecting-socket.ts:112-227 | In every state of every run, with a token and a server that confirms it, some course of events leads to an open, confirmed connection with no call to `start`, if and only if the client is not stopped and has a connection, a timer or an unresolved refresh |
| SocketRecovery.AlwaysRecoverable | admin-ui/src/lib/reconnecting-socket.ts:10-19 | In every state of every run, connecting, open and reconnecting can each still lead to a confirmed connection; and so can any state after `start` |
| ConsoleSocket.SocketEndsExactly | admin-ui/src/lib/reconnecting-socket.ts:209-215 | In every run of session and socket together, a refresh that resolves stops a running socket and reports the session dead exactly when the gateway refused it and no session that arrived meanwhile was held, or answered with an error, with something unreadable, or not at all; and leaves the session as it is |
| ConsoleSocket.SilenceEndsTheSocket | admin-ui/src/lib/api.ts:367-374 | A run in which the gateway refuses no refresh, the session is still held, and the socket is stopped and the session reported dead |
| Socket.DelayIsJittered | admin-ui/src/lib/reconnecting-socket.ts:229-234 | Every delay lies between half of the curve and all of it |
| Socket.CurveDoubles | admin-ui/src/lib/reconnecting-socket.ts:229-234 | The curve starts at 1000 milliseconds and doubles with every drop, up to 30000 |
| Socket.EveryDelayCanCome | admin-ui/src/lib/reconnecting-socket.ts:229-234 | Every whole number of milliseconds from half of the curve on, short of all of it, is a delay that some random number gives |
| SocketClient.ReconnectingSocket.Start | admin-ui/src/lib/reconnecting-socket.ts:112-119 | In place, the step the theorems are about: idempotent while a connection or timer exists |
| SocketClient.ReconnectingSocket.Stop | admin-ui/src/lib/reconnecting-socket.ts:122-130 | In place, the step the theorems are about |
| SocketClient.ReconnectingSocket.Subscribe | admin-ui/src/lib/reconnecting-socket.ts:133-137 | In place, the step the theorems are about; sends only on a connection that is up |
| SocketClient.ReconnectingSocket.OnTimer | admin-ui/src/lib/reconnecting-socket.ts:115-118 | In place, the step the theorems are about: clears the field, whichever timer went off, and opens |
| SocketClient.ReconnectingSocket.OnError | admin-ui/src/lib/reconnecting-socket.ts:167 | Hangs up that connection and changes nothing else |
| SocketClient.ReconnectingSocket.Open | admin-ui/src/lib/reconnecting-socket.ts:143-155 | In place, the step the theorems are about |
| SocketClient.ReconnectingSocket.OnOpen | admin-ui/src/lib/reconnecting-socket.ts:157-164 | The send loop: authenticate, then every topic in order, each sent on a connection that is up |
| SocketClient.ReconnectingSocket.HandleMessage | admin-ui/src/lib/reconnecting-socket.ts:170-186 | In place, the step the theorems are about |
| SocketClient.ReconnectingSocket.HandleClose | admin-ui/src/lib/reconnecting-socket.ts:188-198 | In place, the step the theorems are about |
| SocketClient.ReconnectingSocket.OnRefreshed | admin-ui/src/lib/reconnecting-socket.ts:209-218 | In place, the rest of an auth rejection once the refresh has answered |
| SocketClient.ReconnectingSocket.BackoffDelay | admin-ui/src/lib/reconnecting-socket.ts:230-234 | A delay between half of the curve and all of it, one drop further along |
| Enrolment.FingerprintIsNamed | inference/src/join.rs:178-189 | A token names the authority f exactly when it is f, which has no underscore and is not empty, an underscore and a secret that is not empty |
| Enrolment.Proofs | inference/src/join.rs:338-361 | A machine that holds a certificate signs as itself first, with its own key and the authority it holds; a configured token is always tried, last; and there is nothing else |
| Enrolment.BootsExactly | inference/src/tls.rs:91-105 | In every run a boot holds what both files say or nothing, and a round begins with every proof there is |
| Enrolment.AsksExactly | inference/src/join.rs:363-374 | In every run a proof is sent exactly if it names somebody: the token's fingerprint, or the first certificate of the authority held; and that is who must answer |
| Enrolment.HearsExactly | inference/src/join.rs:405-436 | In every run an answer is gone on with exactly when its authority's first certificate is the expected one and its certificate has a character that is no space, tab or line end; it changes nothing yet |
| Enrolment.WritesExactly | inference/src/tls.rs:137-142 | In every run each write changes its own file exactly if it succeeds; what is held changes with the second; a failure goes on to the next proof |
| Enrolment.TrustIsInductive | inference/src/join.rs:345-447 | For any replies, failed writes, kills and restarts, the fingerprint an authority held, on the disk or about to be kept is recognised by, its first certificate's, was named by a token the machine was configured with, or is that of the authority first on its disk |
| Enrolment.RootsExactly | inference/src/tls.rs:163-168 | In every run, everyone a machine takes callers from, or would after a boot, may be trusted if and only if no authority that was stored carried a further certificate that may not |
| Enrolment.SingleCertificatesAreTrusted | inference/src/tls.rs:163-168 | In every run in which each authority kept holds one certificate, every root may be trusted |
| Enrolment.FurtherRootIsKept | inference/src/join.rs:419-447 | A run of a new machine in which every authority is recognised as it must be, and which ends with a root that no token names |
| Enrolment.NobodyWithoutAToken | inference/src/join.rs:371-374 | A machine that starts with no authority and is never given a token that names one trusts nobody |
| Enrolment.RefusalsChangeNothing | inference/src/join.rs:405-435 | Over any stretch of a run in which every reply is refused, through rounds, kills and restarts, the files do not change, and what is held is what was held or what a boot reads of them |
| Enrolment.KilledBetweenTheWrites | inference/src/tls.rs:133-142 | In every run, a kill or a failure between the two writes leaves the new certificate with the old authority, and the second write completes the pair; what a boot then holds is a pair exactly when there was no authority, or it is the new one, or the certificate is the old one |
| Enrolment.MixedPairIsReached | inference/src/tls.rs:133-142 | A run of an enrolled machine, moved to another gateway and killed between the writes, after which a boot holds a certificate and an authority that never came together |
| Enrolment.Credentials.Load | inference/src/tls.rs:91-105 | A boot holds both files or nothing |
| Enrolment.Credentials.Store | inference/src/tls.rs:137-142 | Two writes in order; memory changes only after both; killed anywhere, the files are as before, half stored or stored |
| Enrolment.Credentials.JoinOnce | inference/src/join.rs:363-447 | Returns the pair that was answered exactly when it comes from whom the proof names, with a certificate that is not white space alone, and both writes succeed; says of each file and of what is held when it changes |
| Enrolment.Credentials.KeepJoining | inference/src/join.rs:280-336 | Returns the first answer won, by the first proof of the first round that wins; it is then held and on the disk, and otherwise the authority is what it was; no authority is ever kept that is recognised by a fingerprint not trusted, and without a proof nothing is tried |
| Redaction.RedactedIsClean | inference/src/error.rs:199-217 | The result has no name of the stack in any letter case; redacting is idempotent, and leaves a text unchanged exactly when it is clean |
| Redaction.RedactedSplits | inference/src/error.rs:196-217 | What stands on either side of "the engine" is redacted independently |
| Redaction.NamesAreApart | inference/src/error.rs:182-197 | No name can straddle an edge of the replacement or lie in it |
| Redaction.MatchesStayAside | inference/src/error.rs:199-217 | Around a replacement a name stands exactly where it stands in the text before it or in the text after it |
| Redaction.Redact | inference/src/error.rs:207-217 | The loop that searches from the start after every replacement ends on every text, and computes one pass from left to right for each name in turn |
| RedactionCase.NoSpellingIsLeft | inference/src/error.rs:199-217 | No stretch of the result spells a name, each letter small or capital; and a text is left unchanged exactly when it has none |
| RedactionCase.NameIsReplaced | inference/src/error.rs:207-217 | Of a text in which one name stands, in any letter case, the name becomes "the engine" and everything around it is kept |
| RedactionCase.NameAloneIsReplaced | inference/src/error.rs:207-217 | A name alone, in any letter case, becomes "the engine" |
| RedactionWords.WordsAreGone | inference/src/error.rs:182-185 | What the comment promises, as a pass of its own: it leaves no name standing as a word, and changes exactly the texts in which one does |
| RedactionWords.WordsExactly | inference/src/error.rs:182-217 | Redacting is redacting whole words if and only if every name that stands in the text stands there as a word |
| RedactionWords.CargoesIsChanged | inference/src/error.rs:207-217 | "cargoes", in which no name stands as a word, becomes "the enginees" |
| SessionTheorems.OneRefreshAtATime | admin-ui/src/lib/api.ts:230-311 | For any number of callers at most one refresh is in flight, at most one GET for each path, and no request is sent more than twice |
| SessionTheorems.SendsExactly | admin-ui/src/lib/api.ts:236-251 | In every run a call sends one request, unless it is a GET and one of its path is under way; then it sends none |
| SessionTheorems.FirstAnswerExactly | admin-ui/src/lib/api.ts:264-283 | In every run a 401 makes its request, whatever its method, wait on a refresh: the one under way, or one that begins with the session and the cookie of that moment; any other answer ends it, sent once |
| SessionTheorems.RetryEnds | admin-ui/src/lib/api.ts:291-293 | In every run a retry is the second sending of its request, and its answer ends it |
| SessionTheorems.FinishedExactly | admin-ui/src/lib/api.ts:264-293 | In every run a request is finished exactly when it was answered otherwise than 401, or its retry was answered, or the refresh it waited on got no session |
| SessionTheorems.ConcludesExactly | admin-ui/src/lib/api.ts:434-473 | In every run a refresh answered with a new cookie, readably, leaves a new session held and hands it to all who waited; anything else leaves the session as it is; a refusal with no newer session held is told from no answer |
| SessionTheorems.OnlyARefusalEndsTheSession | admin-ui/src/lib/api.ts:271-289 | Requests and refreshes end a session only after a refused refresh, not a 5xx and not silence, during whose flight no session arrived that was still held |
| SessionTheorems.RefusalDefersToAnArrival | admin-ui/src/lib/api.ts:455-471 | A refused refresh hands over the session that arrived meanwhile exactly when there is one held |
| SessionTheorems.NoDuplicateIsRefused | admin-ui/src/lib/api.ts:296-311 | In every run in which only refresh rotates the cookie, no spent cookie is put back, and every answer that rotated it is delivered, no refresh presents a spent cookie; other answers may be lost, and a sign-in may put in a new cookie |
| SessionTheorems.LostAnswerSpendsTheCookie | admin-ui/src/lib/api.ts:443-449 | Each condition is needed: a run in which one lost rotating answer, every other event being allowed, makes a refresh present a spent cookie |
| SessionTheorems.RotationElsewhereSpendsTheCookie | admin-ui/src/lib/api.ts:296-305 | The same of one rotation by another tab |
| SessionTheorems.ChangedJarSpendsTheCookie | admin-ui/src/lib/api.ts:434-446 | The same of one spent cookie put back |
| SessionTheorems.SessionEndsExactly | admin-ui/src/lib/api.ts:271-289 | In every run, a waiting request that goes on while a session is held ends it if and only if the refresh it waited on was refused with no newer session held at that moment; the end is reported once; and the session ended is one that arrived since exactly when one has been made since |
| SessionTheorems.ArrivalInTheGapIsLost | admin-ui/src/lib/api.ts:279-289 | A run in which a session that arrives between a refusal and a waiting request's turn is ended with the old one; when it happens is `SessionEndsExactly` |
| SessionTheorems.WaitersShareTheAnswer | admin-ui/src/lib/api.ts:269-311 | In every run, any two requests that waited on one refresh, however far apart they resume, both go on with its one outcome: one retry with the session it got, or the end of the request |
| SessionClient.Console.Refresh | admin-ui/src/lib/api.ts:306-311 | In place, the step the theorems are about: join the attempt there is or begin one |
| SessionClient.Console.FinishRefresh | admin-ui/src/lib/api.ts:434-473 | In place, the step the theorems are about: what a refresh makes of its answer |
| SessionClient.Console.ApiFetch | admin-ui/src/lib/api.ts:236-251 | In place, the step the theorems are about; a GET's answer is the one its path is shared through |
| SessionClient.Console.OnFirstAnswer | admin-ui/src/lib/api.ts:264-283 | In place, the step the theorems are about |
| SessionClient.Console.OnRefreshed | admin-ui/src/lib/api.ts:279-293 | In place, the step the theorems are about |

## Left out

- "A forgotten download never becomes a model", and that nothing is left of it: the code promises neither. What can come and when is proved (`PipelineForget.AfterTheWipe`), and that a model that does come is whole like any other.
- `files_done` never decreasing across a resume: it restarts with the loop, so the code does not promise it.
- Handles.MintHandle: the fallback suffix is a parameter, so that a handle minted past 999 collisions is free rests on the identifier being unique.
- PipelineListing.HandleTakenExactly: that a handle is free when it is minted is a condition on the run; `Handles.MintHandle` meets it below 999 handles, and beyond them as far as the fallback is unique.
- LateWrites.PrefixExactly: late landings are modelled for one file on its own; in the machine of `Pipeline` a write is complete when it is counted, so its byte counts do not speak of them.
- Transfer.Staging.Fetch: the library's answers are a function given beforehand, and cancellation is an event of the stream; interleaving with other calls is in `Pipeline`.
- Enrolment.Credentials.KeepJoining: the world is a finite list of rounds, because the source's loop need not end; failing to make a certificate request fails every attempt alike and is not modelled.
- Enrolment.Credentials.JoinOnce: `fp` gives the fingerprints of the certificates of a text; reading them, and what the TLS library asks of a caller beyond its root, is not part of this model.
- SessionTheorems.NoDuplicateIsRefused: other tabs are the events that rotate the cookie elsewhere or put a spent one back, and the condition excludes them; a run for each excluded event shows that one is enough.
- `bootstrap`, which asks the same single refresh again up to ten times: it adds callers and no state.
- Records.Pulls.Start: the checks of disk, gate and engine are booleans; `machine.rs`, `form.rs` and `config.rs` are comparisons and tables.
- Whole Unicode white space in the certificate test: space, tab and line ends only.
- Requests, TLS, signatures, hashing, JSON and PEM parsing, DNS probing, logging: uninterpreted functions or choices of the environment.
- The engine, and the retry of the rename on Windows in `put_in_place`.
- Minting and keeping the node's identity and key files, and their permissions.
- `chain`, `status` and `code` of `error.rs`, the search and validation functions of `hub.rs`, `ModelKind::infer`, and the catalogue's plain reads: short and pure.
- Pages, components, themes, build configuration and seed scripts; the Go orchestrator.
