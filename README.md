# rTorrent download factory and choke-group registry, in Dafny

This project models two pieces of rTorrent's command layer and proves
properties of the models.

**The download factory** (`core::DownloadFactory`) turns a URI or raw data
into a registered download:

- It classifies the URI as network, magnet or local file.
- It fills a single stream slot, and refuses a load while that slot is taken.
- It waits until both the load and the commit have happened. Whichever arrives
  second runs the success path. A commit that arrives first drops
  `immediate`.
- The success path prepares the document root: the magnet stash, the session
  sidecars or the erased bookkeeping section, and both sections present.
- It then merges the bookkeeping ("rtorrent") section key by key, configures
  the download and registers it.
- It runs the post-creation commands until the first one that throws, flags
  a failed download only when it is still registered, and reports the info
  hash to a caller that waits.
- The failure handler logs, fires the finished slot, and re-throws only for
  a waiting caller.

`DownloadFactory` is a class whose methods update its fields in place.  Each
entry point is proved against a specification function of the request fields
and the environment:

- `SuccessPath` for `receive_success`;
- `FailedEffect` for `receive_failed`;
- `InitializedSection` for `initialize_rtorrent`;
- `PrepareRoot` for the root edits.

Lemmas prove what these functions promise.

**The choke-group registry** is the active branch of `src/command_groups.cc`.
It holds a vector of groups that are addressed three ways: by name, by
index, or by an index counted from the end.  The read-only operations are
functions on the sequence of names.  Insertion, seeding, listing and cleanup
are methods of a `Registry` class that holds the sequence.

Modules:

- `Wrappers`: `Option` and `Result`.
- `Bencode`: `torrent::Object` as a `Value`, the map edits and the string
  codec.
- `Uri`: the classifier and the magnet stream.
- `Engine`: the recorded calls against the new download.
- `Bookkeeping`: the section merge and the root edits.
- `Factory`: the state machine.
- `ChokeGroups`: the registry.
- `Scenarios`: whole runs of a fresh factory.

What the factory asks of everything outside it is a parameter (`Env`,
`FileOutcome`), or an `Action` appended to the factory's `actions` log.  This
covers the engine, the download list, the file system, the HTTP queue,
`random()` and the clock.  The registry takes `rpc::parse_whole_value_nothrow`
as a function parameter (`Parser`).

Three behaviours of the code are easy to miss:

- The try block encloses the whole post-creation command loop.  So the
  first command that throws ends the loop, and the start call and the insert
  event are skipped.
- The double-load guard tests only `m_stream`.  So a second load after a
  local-file load is not refused.
- No flag marks the success path as done.  So a second `commit()` on a
  loaded factory runs `receive_success` again (src/core/download_factory.cc:118-123,
  179-183).  The model does the same: `Commit` on a loaded factory always
  adds one run of the success path.

## Model

| member | source | states |
|---|---|---|
| Uri.StrNCmpIsPrefix | src/core/download_factory.cc:36-49 | for a literal with no NUL, the `strncmp(..., n) == 0` test holds exactly when the literal is a prefix of the URI |
| Uri.Find | src/core/download_factory.cc:37 | `find(pat, from)` returns the first occurrence at or after `from`, and None only when there is none |
| Uri.IsDataUri | src/core/download_factory.cc:34-38 | holds iff the URI starts with "data:" and "base64," occurs at some position of at least 5 |
| Uri.IsMagnetUri | src/core/download_factory.cc:40-43 | holds iff the URI starts with "magnet:?" |
| Uri.IsNetworkUri | src/core/download_factory.cc:45-50 | holds iff the URI starts with "http://", "https://" or "ftp://" |
| Uri.ClassifyByPrefix | src/core/download_factory.cc:132-151 | dispatch is network first, then magnet, else local file, in both directions; a data URI is handled as a local file |
| Uri.MagnetStreamEncodes | src/core/download_factory.cc:145-146 | the magnet stream is "d", the bencoded key "magnet-uri", the bencoded URI, and "e" |
| Uri.MagnetStreamDecodes | src/core/download_factory.cc:145-146 | decoding the magnet stream as a one-entry dictionary gives back ("magnet-uri", uri) |
| Bencode.StrList | src/core/download_factory.cc:214-220 | the stashed command list holds every command as a string, in the factory's order |
| Bencode.DecodeEncodeString | src/core/download_factory.cc:146 | a length-prefixed string followed by any rest decodes to the string and that rest |
| Bencode.DecimalValue | src/core/download_factory.cc:146 | the decimal length written into the stream reads back as the length |
| Bookkeeping.AsUnsigned64 | src/core/download_factory.cc:463 | the `(uint64_t)` cast keeps non-negative values and maps negative ones to at least 2^63 |
| Bookkeeping.TruncRem | src/core/download_factory.cc:481 | C++ `%`: it truncates toward zero and has the dividend's sign |
| Bookkeeping.GeneratedKey | src/core/download_factory.cc:490-491 | a generated tracker key lies in [1, 2^32-2] |
| Bookkeeping.InitializedKeys | src/core/download_factory.cc:450-525 | `initialize_rtorrent` adds exactly the keys it writes and removes none |
| Bookkeeping.InitStateRule | src/core/download_factory.cc:453-466 | a missing or above-1 state resets state, state_changed and state_counter; otherwise the state is kept, and the clock fields reset only when missing, zero, in the future or (counter, as unsigned) above 2^20 |
| Bookkeeping.InitDefaults | src/core/download_factory.cc:468-476 | each insert-if-absent key keeps a stored value of any type and otherwise gets its default (also lines 513-514, 521-524) |
| Bookkeeping.InitLoadedFile | src/core/download_factory.cc:477 | loaded_file is always overwritten: the URI for a local file, else "" |
| Bookkeeping.InitKey | src/core/download_factory.cc:486-493 | a stored key is kept; otherwise the key is the generated one, in [1, 2^32-2], and is written into the section |
| Bookkeeping.KeyPersisted | src/core/download_factory.cc:486-493 | the key installed on the download equals the key left in the section, and it is non-zero unless one was stored |
| Bookkeeping.InitConnections | src/core/download_factory.cc:516-519 | connection_leech/seed end up with the type of the factory variable, keeping a stored value of that type and otherwise taking the variable |
| Bookkeeping.InitFrame | src/core/download_factory.cc:450-525 | every key `initialize_rtorrent` does not write is kept as loaded |
| Bookkeeping.PriorityOf | src/core/download_factory.cc:479-484 | the priority applied is the stored one modulo 4 with C++ truncating remainder (so in [-3, 3]), else 2 |
| Bookkeeping.CustomFieldsRule | src/core/download_factory.cc:250-259 | custom1..custom5 each end up a string, the stored one when there was one; other keys are kept and none is removed |
| Bookkeeping.PrepareRoot | src/core/download_factory.cc:208-246 | the prepared root always has both the "rtorrent" and "libtorrent_resume" sections |
| Bookkeeping.PrepareRootRule | src/core/download_factory.cc:208-246 | key by key: the meta stash only for a magnet placeholder; session sidecars replace sections; outside a session "rtorrent" starts empty; present sections are kept; no other key changes |
| Factory.FirstFailure | src/core/download_factory.cc:346-352 | returns the first command that throws, and None only when no command throws |
| Factory.Runs | src/core/download_factory.cc:350-352 | the i-th command run is the i-th command of the list, in order |
| Factory.RegisteredShape | src/core/download_factory.cc:334-390 | after insertion: one finish; a download iff the insert succeeded; the hash as result iff immediate; hash_failed iff a command failed and the download is still present; log lines only from a failure with printLog |
| Factory.ConfiguredShape | src/core/download_factory.cc:311-330 | a non-integer tied_to_file outside a session is the only escape of the configuration step, with no finish; otherwise the configuration reaches registration unchanged |
| Factory.CreatedShape | src/core/download_factory.cc:240-391 | a type error escapes, with no finish, exactly when the bookkeeping section is not a map or a new download's tied_to_file variable is not an integer; otherwise one finish, the result only for a waiting caller and equal to the hash, and every flagged download still registered |
| Factory.SuccessShape | src/core/download_factory.cc:190-391 | `receive_success` finishes exactly once unless a type error escapes; it raises iff creation was rejected and the caller waits; it never raises an internal error; the result is the new download's hash and is set iff the caller waits and a download was registered |
| Factory.SuccessIgnoresImmediate | src/core/download_factory.cc:386-388 | `immediate` changes only the result and the raise: the download, the finish count, the log lines and the engine calls are the same without it |
| Factory.CreatedIgnoresImmediate | src/core/download_factory.cc:248-388 | the same independence from `immediate` once the document is created |
| Factory.RegisteredIgnoresImmediate | src/core/download_factory.cc:334-388 | the same independence from `immediate` once the download is registered |
| Factory.DownloadFactory.constructor | src/core/download_factory.cc:71-85 | a fresh factory has the two empty connection classes, the default directory and tied_to_file 0, and nothing loaded, committed or observed |
| Factory.DownloadFactory.Load | src/core/download_factory.cc:96-104 | a load while the stream slot is taken is an internal error that changes nothing observable; otherwise the URI's class decides the network, magnet or file branch |
| Factory.DownloadFactory.ReceiveLoad | src/core/download_factory.cc:126-168 | the stream guard, then network first, magnet second, local file otherwise |
| Factory.DownloadFactory.LoadNetwork | src/core/download_factory.cc:132-141 | a network load fills the stream slot, records the fetch, resets tied_to_file to 0 and does not count as loaded |
| Factory.DownloadFactory.LoadMagnet | src/core/download_factory.cc:143-149 | the stream holds the magnet document, tied_to_file is 0, the factory counts as loaded, and the success path runs iff it was committed |
| Factory.DownloadFactory.LoadFile | src/core/download_factory.cc:151-167 | an unopenable or unparseable file goes to the failure handler (a parse failure keeps the partial object); a parsed one is the source, marks the factory as file-loaded and counts as loaded |
| Factory.DownloadFactory.LoadRawData | src/core/download_factory.cc:107-115 | with the stream slot taken it is an internal error; otherwise the data is the stream and the factory counts as loaded, without the rendezvous |
| Factory.DownloadFactory.Commit | src/core/download_factory.cc:117-124 | committing runs the success path iff the factory was loaded; a commit before the load drops `immediate` and observes nothing |
| Factory.DownloadFactory.FetchDone | src/core/download_factory.cc:137 | the done signal stores the body, counts as loaded and runs the success path iff committed |
| Factory.DownloadFactory.FetchFailed | src/core/download_factory.cc:138-139 | the failed signal hands the queue's message to the failure handler unchanged |
| Factory.DownloadFactory.ReceiveLoaded | src/core/download_factory.cc:170-176 | sets loaded; the success path runs iff already committed, otherwise nothing is observed |
| Factory.DownloadFactory.ReceiveCommit | src/core/download_factory.cc:178-188 | sets committed; the success path runs iff already loaded, otherwise `immediate` is dropped |
| Factory.DownloadFactory.ReceiveFailed | src/core/download_factory.cc:434-448 | logs `msg: "uri"` only with printLog, always finishes once, and raises `msg` iff immediate |
| Factory.DownloadFactory.ReceiveSuccess | src/core/download_factory.cc:190-204 | the state grows by exactly the success path's effect; `m_object` is cleared and the stream slot is kept |
| Factory.DownloadFactory.ReceiveAccepted | src/core/download_factory.cc:206-246 | for a created download, the document root is the prepared one and the state grows by exactly the rest of the success path's effect |
| Factory.DownloadFactory.ReceiveCreated | src/core/download_factory.cc:240-259 | initializes the bookkeeping section, adds the custom fields, then configures; a non-map section escapes as a type error |
| Factory.DownloadFactory.Configure | src/core/download_factory.cc:261-317 | the settings-derived calls and the directory call, then the tied-file step |
| Factory.DownloadFactory.ConfigureTied | src/core/download_factory.cc:319-330 | the tied-file call, peer exchange and the three resume loads, then registration |
| Factory.DownloadFactory.SetDirectory | src/core/download_factory.cc:311-317 | the section's own string directory is used as the base directory, else the factory's default |
| Factory.DownloadFactory.SetTiedFile | src/core/download_factory.cc:319-322 | a new download with a non-zero tied_to_file is tied to its URI, or to the tied_file variable when the URI is empty |
| Factory.DownloadFactory.Register | src/core/download_factory.cc:334-341 | a failed insert finishes once and creates nothing; otherwise the state is exactly what `StartDownload` leaves |
| Factory.DownloadFactory.StartDownload | src/core/download_factory.cc:343-368 | the executed commands, then the start call and the insert event as the caught failure allows, then the report |
| Factory.DownloadFactory.StartIfNew | src/core/download_factory.cc:354-362 | a new download that vanished is a failure ("The newly created download was removed."); one still present is started |
| Factory.DownloadFactory.Report | src/core/download_factory.cc:370-390 | the failure is logged with printLog and flagged only on a download still present; the hash is the result only when immediate; one finish |
| Factory.DownloadFactory.PrepareDocument | src/core/download_factory.cc:208-246 | the root the method builds equals `PrepareRoot` |
| Factory.DownloadFactory.InitializeRtorrent | src/core/download_factory.cc:450-525 | the section equals `InitializedSection` and the engine calls equal `InitActions` |
| Factory.DownloadFactory.ResetState | src/core/download_factory.cc:453-466 | the state keys after the reset rule |
| Factory.DownloadFactory.FillEarlyDefaults | src/core/download_factory.cc:468-477 | the first insert-if-absent defaults and the overwritten loaded_file |
| Factory.DownloadFactory.ConfigureFromSection | src/core/download_factory.cc:479-511 | the priority call, the kept or generated and persisted tracker key, and the restore calls, all read from the loaded section |
| Factory.DownloadFactory.ProgressCalls | src/core/download_factory.cc:495-511 | the totals and the chunk progress are restored only from integer entries that are present; the throttle name is always set, to the stored string or else "" |
| Factory.DownloadFactory.FillLateDefaults | src/core/download_factory.cc:513-524 | the remaining defaults and the type-preserving connection classes complete `InitializedSection` |
| Factory.DownloadFactory.AddCustomFields | src/core/download_factory.cc:250-259 | the section equals `WithCustomFields` of its input |
| Factory.DownloadFactory.RunCommands | src/core/download_factory.cc:346-352 | commands run until the first one that throws; reports how many ran, the error, and whether none of them erased the download |
| Scenarios.FreshVariablesUntied | src/core/download_factory.cc:84 | resetting tied_to_file to 0 does not change a fresh factory's variables (also lines 141, 148) |
| Scenarios.MagnetEitherOrder | src/core/download_factory.cc:170-188 | load-then-commit and commit-then-load of a magnet link register the same download and finish equally often |
| Scenarios.LoadedMagnet | src/core/download_factory.cc:143-149 | a fresh factory that loaded a magnet link is loaded, not committed, and has observed nothing |
| Scenarios.CommittedFactory | src/core/download_factory.cc:178-188 | a fresh factory committed before any load is committed, not loaded, no longer immediate, and has observed nothing |
| Scenarios.MagnetLoadThenCommit | src/core/download_factory.cc:170-188 | loading then committing creates the success path's download for the factory's request |
| Scenarios.MagnetCommitThenLoad | src/core/download_factory.cc:170-188 | committing then loading drops `immediate`, yet creates the same download and finishes as often as the success path for the request as given |
| Scenarios.NetworkFetchFails | src/core/download_factory.cc:434-448 | a failed fetch logs `msg: "uri"` with printLog, finishes once, creates nothing, and raises iff the caller waits |
| Scenarios.EarlyCommitDropsResult | src/core/download_factory.cc:178-188 | a network load committed before its body arrives never reports a result and never raises |
| Scenarios.RawDataThenSecondLoad | src/core/download_factory.cc:108-130 | raw data then commit returns normally and finishes exactly once (outside a session no type error can escape); a later load is an internal error and adds no finish |
| ChokeGroups.FindName | src/command_groups.cc:118-123 | `find_if` on names: the first position holding the name, and None iff it is absent |
| ChokeGroups.Position | src/command_groups.cc:135-139 | a numeric index resolves iff it lies in [-size, size); a negative one counts from the end |
| ChokeGroups.GetIndex | src/command_groups.cc:107-142 | every resolved index is a valid position; a non-numeric string resolves to the first group of that name and is "Choke group not found." iff no group has it; only an argument that is neither string nor integer is a type error |
| ChokeGroups.GetGroup | src/command_groups.cc:144-152 | resolves iff the index resolves, to the group at that index, and fails with the same error otherwise |
| ChokeGroups.IndexOf | src/command_groups.cc:208-219 | succeeds iff the name is present, with its position; otherwise "Choke group not found." |
| ChokeGroups.InsertName | src/command_groups.cc:182-206 | succeeds iff the name is non-empty, not an integer and not present, appending exactly it; otherwise the value-string or duplicate message |
| ChokeGroups.MaxSet | src/command_groups.cc:226-240 | "Incorrect number of arguments." iff the count is not 2; success iff two arguments, a string second argument that parses, and a first argument that resolves; the second argument is checked before the group, whose error passes through; success addresses the group the first argument resolves to, with the integer the second spells |
| ChokeGroups.HeuristicsSet | src/command_groups.cc:242-262 | the same arity check, both ways; success iff two arguments, a string second argument and a first argument that resolves, whose error passes through; success sets the second argument's heuristics on the resolved group and direction |
| ChokeGroups.TrackerModeSet | src/command_groups.cc:264-276 | the same arity check, both ways; success iff two arguments, a string second argument and a first argument that resolves, whose error passes through; success sets the second argument's mode on the resolved group |
| ChokeGroups.NameResolves | src/command_groups.cc:116-129 | in a well-formed registry every name resolves to its own position, by `cg_get_index`, `cg_get_group` and `index_of` |
| ChokeGroups.NumberResolves | src/command_groups.cc:131-141 | an integer resolves iff it lies in [-size, size): to itself when non-negative, to size + i when negative; otherwise not found |
| ChokeGroups.NumericStringIsNumber | src/command_groups.cc:116-117 | a string the parser reads as an integer is resolved as that integer, never as a name |
| ChokeGroups.ListUsesFirst | src/command_groups.cc:109-112 | a non-empty list resolves by its first element alone; a nested list is a type error |
| ChokeGroups.InsertKeepsWellFormed | src/command_groups.cc:186-198 | a successful insert keeps the names non-empty, non-numeric and pairwise distinct |
| ChokeGroups.InsertThenAddress | src/command_groups.cc:287-290 | after inserting into a registry of size k, the name is at k by `index_of` and by name, and index -1 addresses it |
| ChokeGroups.SeedIsDefault | src/command_groups.cc:359 | seeding an empty registry gives ["default"], well-formed, with "default" at index 0 |
| ChokeGroups.Registry.constructor | src/command_groups.cc:105 | the registry starts empty |
| ChokeGroups.Registry.Insert | src/command_groups.cc:182-206 | appends exactly the name iff `InsertName` accepts it; a rejected name leaves the registry unchanged and reports the same error |
| ChokeGroups.Registry.Seed | src/command_groups.cc:359 | the "default" group is inserted as `InsertName` allows |
| ChokeGroups.Registry.List | src/command_groups.cc:169-180 | the list holds exactly the names as strings, in registry order |
| ChokeGroups.Registry.Cleanup | src/command_groups.cc:453-462 | popping from the back leaves the registry empty |

## Left out

- The task scheduler: `load` and `commit` call `receive_load` and
  `receive_commit` directly.  The model does not capture a task that is
  queued but has not run yet.
- The HTTP queue: a network load records a `Fetch` action.  `FetchDone`
  and `FetchFailed` stand for the queue's two signals.
- File I/O, `path_expand` and bencode parsing: a local file's outcome
  (`FileOutcome`) and the two sidecars (`Env`) are parameters.
- `download_list()->create`, `insert` and `find`, and what the post-creation
  commands do: they are outcomes in `Env`.  The engine calls are recorded as
  `Action`s, not performed.
- `random()` and `cachedTime`: they are parameters of `Env`.
- `log_created`: only a debug dump.
- The destructor: it cancels the queued load and commit tasks (the
  scheduler is left out) and frees the stream and the object.
- `std::map::operator[]`: on a missing variable it inserts a Nil value.  The
  model reads variables with `VarOf` and does not record that insertion.
- `Download::variable_hashing_stopped`: it is taken as 0, because its header
  is not part of this model.
- `rpc::parse_whole_value_nothrow`: a parameter (`Parser`), since its rules
  are outside these files.
- The dead `USE_CHOKE_GROUP` branch, the `CMD2_*` registration, the
  `cg_d_group*` accessors, and the choke-queue settings an inserted group
  starts with: these are plumbing or libtorrent.
- ChokeGroups.MaxSet: it does not model the throwing parser's own message
  for an unparseable count.  It uses the placeholder "Not a value.".
- ChokeGroups.HeuristicsSet: it does not reject a heuristics name that
  `option_find_string` does not know; the name is returned as given.
- ChokeGroups.TrackerModeSet: it does not reject an unknown tracker mode,
  for the same reason.
- The engine calls of the success path outside the try block: the priority,
  tracker-key, restore and throttle-name calls in `initialize_rtorrent`
  (src/core/download_factory.cc:479-511); the settings calls (261-309); the
  directory call (311-317); the tied-file call (319-322); and the
  peer-exchange and `resume_load_*` calls (324-330).  The model records them
  and takes them never to throw.  A throw there would leave
  `receive_success` without firing the finished slot, and SuccessShape's
  single finish relies on this.
- The start call `d.state.set` inside the try block
  (src/core/download_factory.cc:360-361) is also taken never to throw.  In
  the code, an `input_error` from it would be caught, logged and flagged
  like a failing command (lines 369-381); StartActions and StartedPath do
  not model that failure.
- Uri.MagnetStream: it takes one character for one byte.  The length prefix
  written from `m_uri.length()` counts bytes, so it differs from the model for
  a URI with non-ASCII characters.
- Factory.DownloadFactory.ReceiveCreated and its callees: they do not model
  the exception types of a malformed section or variable beyond a single
  `TypeError` outcome.
