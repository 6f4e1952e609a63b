/**
 * The download-creation state machine (core::DownloadFactory): the single
 * source slot, the load/commit rendezvous, the success path that merges the
 * bookkeeping section and registers the download, and the failure handler.
 *
 * The engine, the file system and the HTTP queue are not modelled: what they
 * return is a parameter (FileOutcome, Env), and what is asked of them is
 * recorded in `actions`. `load` and `commit` call `receive_load` and
 * `receive_commit` directly instead of going through the task scheduler.
 */
module Factory {

  import opened Wrappers
  import opened Bencode
  import opened Engine
  import opened Uri
  import opened Bookkeeping

  const LOAD_TWICE: string := "DownloadFactory::load*() called on an object with m_stream != NULL"
  const OPEN_FAILED: string := "Could not open file"
  const READ_FAILED: string := "Reading torrent file failed"
  const VANISHED: string := "The newly created download was removed."
  const CREATION_FAILED: string := "Command on torrent creation failed: "

  /** Opening and parsing a local torrent file. */
  datatype FileOutcome = OpenFailed | ParseFailed(partial: Value) | Parsed(doc: Value)

  /** `download_list()->create`: a download with its info hash and document, or an input error. */
  datatype CreateOutcome =
    | Created(hash: string, isMeta: bool, root: Section)
    | Rejected(msg: string)

  /** What one post-creation command does: it may erase the download, and it may throw. */
  datatype CommandEffect = CommandEffect(removes: bool, error: Option<string>)

  /** Everything outside the factory that the success path consults. */
  datatype Env = Env(
    now: int64,                     // cachedTime.seconds()
    rand: nat,                      // the value random() returns
    create: CreateOutcome,
    rtorrentSidecar: Option<Value>, // "<uri>.rtorrent", when it opened and parsed
    resumeSidecar: Option<Value>,   // "<uri>.libtorrent_resume", likewise
    settings: Settings,
    insertOk: bool,                 // download_list()->insert did not return end()
    effects: seq<CommandEffect>)    // the i-th post-creation command's effect

  /** How a call returns: normally, or by one of the exceptions it lets escape. */
  datatype Outcome =
    | Returned
    | Raised(msg: string)           // torrent::input_error
    | InternalError(msg: string)    // torrent::internal_error
    | TypeError                     // a bencode type check on a malformed section or variable

  /** The download handed to the registry, as far as the factory shapes it. */
  datatype Download = Download(
    hash: string, document: Section, hashFailed: bool, message: string, registered: bool)

  /** The factory fields the success and failure paths read. */
  datatype Request = Request(
    uri: string, isFile: bool, session: bool, start: bool, printLog: bool,
    immediate: bool, commands: seq<string>, variables: map<string, Value>)

  /** What one run of the success or failure path adds to the factory's observable state. */
  datatype Effect = Effect(
    out: Outcome, finishes: nat, logged: seq<string>, performed: seq<Action>,
    download: Option<Download>, result: Option<string>)

  // ---------------------------------------------------------------------
  // Specification of the failure and success paths.

  function FailureLine(msg: string, uri: string): string {
    msg + ": \"" + uri + "\""
  }

  /** `receive_failed(msg)`. */
  function FailedEffect(req: Request, msg: string): Effect {
    Effect(if req.immediate then Raised(msg) else Returned, 1,
           if req.printLog then [FailureLine(msg, req.uri)] else [], [], None, None)
  }

  function EffectAt(effects: seq<CommandEffect>, i: nat): CommandEffect {
    if i < |effects| then effects[i] else CommandEffect(false, None)
  }

  /** The first of the commands in [from, n) that throws. */
  function FirstFailure(effects: seq<CommandEffect>, n: nat, from: nat): (r: Option<nat>)
    requires from <= n
    ensures r.Some? ==> from <= r.value < n && EffectAt(effects, r.value).error.Some?
    ensures r.Some? ==> forall j :: from <= j < r.value ==> EffectAt(effects, j).error.None?
    ensures r.None? ==> forall j :: from <= j < n ==> EffectAt(effects, j).error.None?
    decreases n - from
  {
    if from == n then None
    else if EffectAt(effects, from).error.Some? then Some(from)
    else FirstFailure(effects, n, from + 1)
  }

  /** How many of n commands run: up to and including the first that throws. */
  function ExecutedCount(effects: seq<CommandEffect>, n: nat): nat {
    match FirstFailure(effects, n, 0)
    case Some(j) => j + 1
    case None => n
  }

  function CommandError(effects: seq<CommandEffect>, n: nat): Option<string> {
    match FirstFailure(effects, n, 0)
    case Some(j) => EffectAt(effects, j).error
    case None => None
  }

  /** None of the first k commands erased the download. */
  predicate Survives(effects: seq<CommandEffect>, k: nat) {
    forall i :: 0 <= i < k ==> !EffectAt(effects, i).removes
  }

  function Runs(cmds: seq<string>): (r: seq<Action>)
    ensures |r| == |cmds|
    ensures forall i :: 0 <= i < |cmds| ==> r[i] == RunCommand(cmds[i])
  {
    if cmds == [] then [] else [RunCommand(cmds[0])] + Runs(cmds[1..])
  }

  function Context(req: Request, env: Env): InitContext {
    InitContext(req.start, env.now, req.isFile, req.uri, req.variables, env.rand)
  }

  /** The directory call: the factory's default directory unless the section names one. */
  function DirectoryAction(rt: Section, vars: map<string, Value>): Action {
    if !HasKeyString(rt, "directory") then Call("d.directory.set", Lit(VarOf(vars, "directory")))
    else Call("d.directory_base.set", Lit(rt["directory"]))
  }

  function TiedActions(req: Request): seq<Action>
    requires !req.session ==> VarOf(req.variables, "tied_to_file").Int?
  {
    if !req.session && VarOf(req.variables, "tied_to_file").i != 0 then
      [Call("d.tied_to_file.set",
            Lit(if req.uri == "" then VarOf(req.variables, "tied_file") else Str(req.uri)))]
    else []
  }

  /** The failure caught around the command phase: a throwing command, or a download that vanished. */
  function CommandFailure(req: Request, error: Option<string>, present: bool): Option<string> {
    if error.Some? then error
    else if !req.session && !present then Some(VANISHED)
    else None
  }

  function CaughtFailure(req: Request, env: Env): Option<string> {
    var n := |req.commands|;
    CommandFailure(req, CommandError(env.effects, n), Survives(env.effects, ExecutedCount(env.effects, n)))
  }

  /** The effect `e` preceded by the engine calls `acts`. */
  function Prepend(acts: seq<Action>, e: Effect): Effect {
    e.(performed := acts + e.performed)
  }

  /** `receive_success`. */
  function SuccessPath(req: Request, env: Env): Effect {
    match env.create
    case Rejected(msg) => FailedEffect(req, msg)
    case Created(hash, isMeta, root0) =>
      CreatedPath(req, env, hash,
                  PrepareRoot(root0, isMeta, req.start, req.printLog, req.commands,
                              req.session, env.rtorrentSidecar, env.resumeSidecar))
  }

  /** Lines 248-259: the bookkeeping section must be a map; it is initialized and given custom fields. */
  function CreatedPath(req: Request, env: Env, hash: string, root: Section): Effect
    requires "rtorrent" in root
  {
    if !root["rtorrent"].Dict? then Effect(TypeError, 0, [], [], None, None)
    else
      var rt0 := root["rtorrent"].entries;
      var rt := WithCustomFields(InitializedSection(rt0, Context(req, env)));
      Prepend(InitActions(rt0, env.rand), ConfiguredPath(req, env, hash, root["rtorrent" := Dict(rt)], rt))
  }

  /** Lines 261-317: the settings-derived calls and the directory, then the rest of the configuration. */
  function ConfiguredPath(req: Request, env: Env, hash: string, doc: Section, rt: Section): Effect {
    Prepend(SettingsActions(env.settings) + [DirectoryAction(rt, req.variables)], TiedPath(req, env, hash, doc))
  }

  /** Lines 319-330: a non-integer tied_to_file variable of a new download escapes as a type error. */
  function TiedPath(req: Request, env: Env, hash: string, doc: Section): Effect {
    if !req.session && !VarOf(req.variables, "tied_to_file").Int? then
      Effect(TypeError, 0, [], [], None, None)
    else
      Prepend(TiedActions(req) + ResumeActions(), RegisteredPath(req, env, hash, doc))
  }

  /** Lines 324-330: peer exchange from the global setting and the three resume sections. */
  function ResumeActions(): seq<Action> {
    [Call("d.peer_exchange.set", Setting("protocol.pex")),
     ResumeLoad("addresses"), ResumeLoad("file_priorities"), ResumeLoad("tracker_settings")]
  }

  /** Lines 334-390: registration, the post-creation commands, the start and the result. */
  function RegisteredPath(req: Request, env: Env, hash: string, doc: Section): Effect {
    if !env.insertOk then Effect(Returned, 1, [], [], None, None)
    else
      var n := |req.commands|;
      var executed := ExecutedCount(env.effects, n);
      StartedPath(req, hash, doc, executed, CommandError(env.effects, n), Survives(env.effects, executed))
  }

  /** Lines 343-390: after `executed` commands ran, with their error and whether the download survived them. */
  function StartedPath(req: Request, hash: string, doc: Section, executed: nat,
                       error: Option<string>, present: bool): Effect
    requires executed <= |req.commands|
  {
    Prepend(Runs(req.commands[..executed]) + StartActions(req, error, present),
            ReportEffect(req, hash, doc, present, CommandFailure(req, error, present)))
  }

  /** Lines 354-367: a new download that survived its commands is started, then the insert event fires. */
  function StartActions(req: Request, error: Option<string>, present: bool): seq<Action> {
    StartCall(req, error, present) + InsertEvent(req, CommandFailure(req, error, present))
  }

  function StartCall(req: Request, error: Option<string>, present: bool): seq<Action> {
    if error.None? && !req.session && present then [Call("d.state.set", Lit(Int(BoolValue(req.start))))] else []
  }

  function InsertEvent(req: Request, failure: Option<string>): seq<Action> {
    if failure.None? then
      [Event(if req.session then "event.download.inserted_session" else "event.download.inserted_new")]
    else []
  }

  /** Lines 369-390: the caught failure is logged and flagged on a download still present; the result is the hash. */
  function ReportEffect(req: Request, hash: string, doc: Section, present: bool, failure: Option<string>): Effect {
    var msg := if failure.Some? then CREATION_FAILED + failure.value else "";
    var flagged := failure.Some? && present;
    Effect(Returned, 1,
           if failure.Some? && req.printLog then [msg] else [],
           [],
           Some(Download(hash, doc, flagged, if flagged then msg else "", present)),
           if req.immediate then Some(hash) else None)
  }

  // ---------------------------------------------------------------------
  // What the success path promises.

  /** Once the download is registered: one finish, the result only when immediate, a flag only on a failure. */
  lemma {:induction false} RegisteredShape(req: Request, env: Env, hash: string, doc: Section)
    ensures var e := RegisteredPath(req, env, hash, doc);
      && e.out == Returned && e.finishes == 1
      && (e.download.Some? <==> env.insertOk)
      && (e.result.Some? <==> env.insertOk && req.immediate)
      && (e.result.Some? ==> e.result == Some(hash))
      && (e.download.Some? ==> e.download.value.hash == hash && e.download.value.document == doc)
      && (e.download.Some? ==> (e.download.value.hashFailed <==>
                                  CaughtFailure(req, env).Some? && e.download.value.registered))
      && (e.download.Some? ==> e.download.value.registered ==
                                 Survives(env.effects, ExecutedCount(env.effects, |req.commands|)))
      && (e.logged != [] ==> req.printLog && CaughtFailure(req, env).Some?)
  {
    if env.insertOk {
      var n := |req.commands|;
      var executed := ExecutedCount(env.effects, n);
      var error := CommandError(env.effects, n);
      var present := Survives(env.effects, executed);
      assert RegisteredPath(req, env, hash, doc) ==
             StartedPath(req, hash, doc, executed, error, present);
      assert CommandFailure(req, error, present) == CaughtFailure(req, env);
    }
  }

  /** The configuration phase either stops on a malformed tied_to_file variable or reaches registration. */
  lemma {:induction false} ConfiguredShape(req: Request, env: Env, hash: string, doc: Section, rt: Section)
    ensures var e := ConfiguredPath(req, env, hash, doc, rt);
      var r := RegisteredPath(req, env, hash, doc);
      && (e.out == TypeError <==> !req.session && !VarOf(req.variables, "tied_to_file").Int?)
      && (e.out == TypeError ==> e.finishes == 0 && e.download.None? && e.result.None? && e.logged == [])
      && (e.out != TypeError ==> e.(performed := r.performed) == r)
  {
    RegisteredShape(req, env, hash, doc);
  }

  /**
   * `receive_success` signals completion exactly once, unless a type error
   * escapes; it raises only when the registry rejected the torrent and the
   * caller waits for the result; the result is the created download's hash
   * and is set only for a waiting caller.
   */
  lemma {:induction false} SuccessShape(req: Request, env: Env)
    ensures var e := SuccessPath(req, env);
      && (e.out != TypeError ==> e.finishes == 1)
      && (e.out == TypeError ==> e.finishes == 0 && e.download.None? && e.result.None?)
      && (e.out.Raised? <==> env.create.Rejected? && req.immediate)
      && (e.out.InternalError? == false)
      && (e.result.Some? ==> req.immediate && env.create.Created? && e.result == Some(env.create.hash))
      && (e.result.Some? <==> req.immediate && e.download.Some?)
      && (e.download.Some? ==> env.create.Created? && env.insertOk && e.download.value.hash == env.create.hash)
      && (e.download.Some? && e.download.value.hashFailed ==> e.download.value.registered)
  {
    match env.create
    case Rejected(msg) =>
    case Created(hash, isMeta, root0) =>
      CreatedShape(req, env, hash,
                   PrepareRoot(root0, isMeta, req.start, req.printLog, req.commands,
                               req.session, env.rtorrentSidecar, env.resumeSidecar));
  }

  lemma {:induction false} CreatedShape(req: Request, env: Env, hash: string, root: Section)
    requires "rtorrent" in root
    ensures var e := CreatedPath(req, env, hash, root);
      && (e.out == TypeError <==>
            !root["rtorrent"].Dict? || (!req.session && !VarOf(req.variables, "tied_to_file").Int?))
      && (e.out != TypeError ==> e.out == Returned && e.finishes == 1)
      && (e.out == TypeError ==> e.finishes == 0 && e.download.None? && e.result.None?)
      && (e.result.Some? <==> req.immediate && e.download.Some?)
      && (e.result.Some? ==> e.result == Some(hash))
      && (e.download.Some? ==> env.insertOk && e.download.value.hash == hash)
      && (e.download.Some? && e.download.value.hashFailed ==> e.download.value.registered)
  {
    if root["rtorrent"].Dict? {
      var rt := WithCustomFields(InitializedSection(root["rtorrent"].entries, Context(req, env)));
      var doc := root["rtorrent" := Dict(rt)];
      ConfiguredShape(req, env, hash, doc, rt);
      RegisteredShape(req, env, hash, doc);
    }
  }

  /** Whether the caller waits changes only the result and the raise: the download, the finishes, the log and the calls are the same. */
  lemma SuccessIgnoresImmediate(req: Request, env: Env)
    ensures var q := req.(immediate := false);
      && SuccessPath(q, env).download == SuccessPath(req, env).download
      && SuccessPath(q, env).finishes == SuccessPath(req, env).finishes
      && SuccessPath(q, env).logged == SuccessPath(req, env).logged
      && SuccessPath(q, env).performed == SuccessPath(req, env).performed
  {
    if env.create.Created? {
      var root := PrepareRoot(env.create.root, env.create.isMeta, req.start, req.printLog, req.commands,
                              req.session, env.rtorrentSidecar, env.resumeSidecar);
      CreatedIgnoresImmediate(req, env, env.create.hash, root);
    }
  }

  lemma CreatedIgnoresImmediate(req: Request, env: Env, hash: string, root: Section)
    requires "rtorrent" in root
    ensures var q := req.(immediate := false);
      && CreatedPath(q, env, hash, root).download == CreatedPath(req, env, hash, root).download
      && CreatedPath(q, env, hash, root).finishes == CreatedPath(req, env, hash, root).finishes
      && CreatedPath(q, env, hash, root).logged == CreatedPath(req, env, hash, root).logged
      && CreatedPath(q, env, hash, root).performed == CreatedPath(req, env, hash, root).performed
  {
    var q := req.(immediate := false);
    assert Context(q, env) == Context(req, env);
    if root["rtorrent"].Dict? {
      var rt := WithCustomFields(InitializedSection(root["rtorrent"].entries, Context(req, env)));
      RegisteredIgnoresImmediate(req, env, hash, root["rtorrent" := Dict(rt)]);
    }
  }

  lemma RegisteredIgnoresImmediate(req: Request, env: Env, hash: string, doc: Section)
    ensures var q := req.(immediate := false);
      && RegisteredPath(q, env, hash, doc).download == RegisteredPath(req, env, hash, doc).download
      && RegisteredPath(q, env, hash, doc).finishes == RegisteredPath(req, env, hash, doc).finishes
      && RegisteredPath(q, env, hash, doc).logged == RegisteredPath(req, env, hash, doc).logged
      && RegisteredPath(q, env, hash, doc).performed == RegisteredPath(req, env, hash, doc).performed
  {
    var q := req.(immediate := false);
    if env.insertOk {
      var n := |req.commands|;
      var executed := ExecutedCount(env.effects, n);
      var error := CommandError(env.effects, n);
      var present := Survives(env.effects, executed);
      assert CommandFailure(q, error, present) == CommandFailure(req, error, present);
    }
  }

  // ---------------------------------------------------------------------

  class DownloadFactory {
    var uri: string
    var stream: Option<string>      // m_stream and what it holds
    var source: Option<Value>       // m_object
    var variables: map<string, Value>
    var commands: seq<string>
    var loaded: bool
    var commited: bool
    var immediate: bool
    var session: bool
    var start: bool
    var printLog: bool
    var isFile: bool
    var result: Option<string>
    var fetching: bool              // the HTTP done/failed slots are connected and have not fired

    // What the factory's collaborators observe.
    var finished: nat               // how often m_slot_finished fired
    var log: seq<string>            // lines pushed to the manager's log
    var actions: seq<Action>        // calls made to the engine
    var created: Option<Download>   // the download registered by the success path
    ghost var successRuns: nat      // how often receive_success ran

    function Req(): Request
      reads this
    {
      Request(uri, isFile, session, start, printLog, immediate, commands, variables)
    }

    /** The fields the success and failure paths read are left alone. */
    twostate predicate ReqKept()
      reads this
    {
      Req() == old(Req())
    }

    /** The source slot and the rendezvous flags are left alone. */
    twostate predicate SlotsKept()
      reads this
    {
      stream == old(stream) && loaded == old(loaded) && commited == old(commited) && fetching == old(fetching)
    }

    /** The observable state grew by exactly `e`. */
    twostate predicate Applied(e: Effect)
      reads this
    {
      && finished == old(finished) + e.finishes
      && log == old(log) + e.logged
      && actions == old(actions) + e.performed
      && created == (if e.download.Some? then e.download else old(created))
      && result == (if e.result.Some? then e.result else old(result))
    }

    twostate predicate NothingObserved()
      reads this
    {
      && finished == old(finished) && log == old(log) && actions == old(actions)
      && created == old(created) && result == old(result)
    }

    /**
     * A factory with the variables the constructor seeds; `directoryDefault` is
     * the value of "directory.default". The flags and the command list are the
     * ones a caller sets before `load`.
     */
    constructor (directoryDefault: Value, cmds: seq<string>,
                 sessionMode: bool, startDownload: bool, logLines: bool, waitForResult: bool)
      ensures variables == map["connection_leech" := Str(""), "connection_seed" := Str(""),
                               "directory" := directoryDefault, "tied_to_file" := Int(0)]
      ensures uri == "" && stream == None && source == None && commands == cmds
      ensures !loaded && !commited && !isFile && !fetching && result == None
      ensures session == sessionMode && start == startDownload && printLog == logLines
      ensures immediate == waitForResult
      ensures finished == 0 && log == [] && actions == [] && created == None && successRuns == 0
    {
      uri := "";
      stream := None;
      source := None;
      variables := map["connection_leech" := Str(""), "connection_seed" := Str(""),
                       "directory" := directoryDefault, "tied_to_file" := Int(0)];
      commands := cmds;
      loaded := false;
      commited := false;
      immediate := waitForResult;
      session := sessionMode;
      start := startDownload;
      printLog := logLines;
      isFile := false;
      result := None;
      fetching := false;
      finished := 0;
      log := [];
      actions := [];
      created := None;
      successRuns := 0;
    }

    /** `load(uri)`, with the scheduled `receive_load` run at once. */
    method Load(u: string, file: FileOutcome, env: Env) returns (out: Outcome)
      modifies this
      ensures uri == u && commands == old(commands) && session == old(session) &&
        start == old(start) && printLog == old(printLog) && immediate == old(immediate)
      ensures old(stream).Some? ==>
        out == InternalError(LOAD_TWICE) && NothingObserved() && SlotsKept() &&
        source == old(source) && variables == old(variables) && isFile == old(isFile) &&
        successRuns == old(successRuns)
      ensures old(stream).None? && Classify(u) == Network ==> NetworkLoaded(out)
      ensures old(stream).None? && Classify(u) == Magnet ==> MagnetLoaded(env, out)
      ensures old(stream).None? && Classify(u) == LocalFile ==> FileLoaded(file, env, out)
    {
      uri := u;
      out := ReceiveLoad(file, env);
    }

    /** `receive_load`: classify the URI and fill the source slot. */
    method ReceiveLoad(file: FileOutcome, env: Env) returns (out: Outcome)
      modifies this
      ensures uri == old(uri) && commands == old(commands) && session == old(session) &&
        start == old(start) && printLog == old(printLog) && immediate == old(immediate)
      ensures old(stream).Some? ==>
        out == InternalError(LOAD_TWICE) && NothingObserved() && SlotsKept() &&
        source == old(source) && variables == old(variables) && isFile == old(isFile) &&
        successRuns == old(successRuns)
      ensures old(stream).None? && Classify(uri) == Network ==> NetworkLoaded(out)
      ensures old(stream).None? && Classify(uri) == Magnet ==> MagnetLoaded(env, out)
      ensures old(stream).None? && Classify(uri) == LocalFile ==> FileLoaded(file, env, out)
    {
      if stream.Some? {
        return InternalError(LOAD_TWICE);
      }
      var kind := Classify(uri);
      if kind == Network {
        out := LoadNetwork();
      } else if kind == Magnet {
        out := LoadMagnet(env);
      } else {
        out := LoadFile(file, env);
      }
    }

    /** A network URI: an empty stream is handed to the HTTP queue; the download is not tied to a file. */
    twostate predicate NetworkLoaded(out: Outcome)
      reads this
    {
      && out == Returned && stream == Some("") && fetching
      && variables == old(variables)["tied_to_file" := Int(0)]
      && actions == old(actions) + [Fetch(uri)]
      && finished == old(finished) && log == old(log) && created == old(created) && result == old(result)
      && loaded == old(loaded) && commited == old(commited) && isFile == old(isFile)
      && source == old(source) && successRuns == old(successRuns)
    }

    /** A magnet URI: the stream holds the synthesized document and counts as loaded. */
    twostate predicate MagnetLoaded(env: Env, out: Outcome)
      reads this
    {
      && stream == Some(MagnetStream(uri)) && variables == old(variables)["tied_to_file" := Int(0)]
      && loaded && commited == old(commited) && isFile == old(isFile) && fetching == old(fetching)
      && (!old(commited) ==> source == old(source))
      && Rendezvous(old(commited), env, out)
    }

    /** A local file: it fails to open, fails to parse, or is the source and counts as loaded. */
    twostate predicate FileLoaded(file: FileOutcome, env: Env, out: Outcome)
      reads this
    {
      && variables == old(variables) && stream == old(stream) && commited == old(commited)
      && fetching == old(fetching)
      && match file
         case OpenFailed =>
           && out == FailedEffect(Req(), OPEN_FAILED).out && Applied(FailedEffect(Req(), OPEN_FAILED))
           && source == old(source) && loaded == old(loaded) && isFile == old(isFile)
           && successRuns == old(successRuns)
         case ParseFailed(partial) =>
           && out == FailedEffect(Req(), READ_FAILED).out && Applied(FailedEffect(Req(), READ_FAILED))
           && source == Some(partial) && loaded == old(loaded) && isFile == old(isFile)
           && successRuns == old(successRuns)
         case Parsed(doc) =>
           && isFile && loaded
           && (old(commited) || source == Some(doc))
           && Rendezvous(old(commited), env, out)
    }

    /** The load half arrived: the success path runs when the commit half was already there. */
    twostate predicate Rendezvous(other: bool, env: Env, out: Outcome)
      reads this
    {
      && (other ==>
            out == SuccessPath(Req(), env).out && Applied(SuccessPath(Req(), env)) &&
            source == None && successRuns == old(successRuns) + 1)
      && (!other ==> Waiting(out))
    }

    /** One half of the rendezvous arrived alone: nothing happens yet. */
    twostate predicate Waiting(out: Outcome)
      reads this
    {
      out == Returned && NothingObserved() && successRuns == old(successRuns)
    }

    method LoadNetwork() returns (out: Outcome)
      modifies this
      ensures SettingsKept()
      ensures NetworkLoaded(out)
    {
      stream := Some("");
      actions := actions + [Fetch(uri)];
      fetching := true;
      variables := variables["tied_to_file" := Int(0)];
      out := Returned;
    }

    method LoadMagnet(env: Env) returns (out: Outcome)
      modifies this
      ensures SettingsKept()
      ensures commited == old(commited) && MagnetLoaded(env, out)
    {
      stream := Some(MagnetStream(uri));
      variables := variables["tied_to_file" := Int(0)];
      ghost var req := Req();
      out := ReceiveLoaded(env);
      assert Req() == req;
    }

    method LoadFile(file: FileOutcome, env: Env) returns (out: Outcome)
      modifies this
      ensures SettingsKept()
      ensures FileLoaded(file, env, out)
    {
      match file
      case OpenFailed =>
        out := ReceiveFailed(OPEN_FAILED);
      case ParseFailed(partial) =>
        source := Some(partial);
        out := ReceiveFailed(READ_FAILED);
      case Parsed(doc) =>
        source := Some(doc);
        isFile := true;
        out := ReceiveLoaded(env);
    }

    /** The configuration a load leaves alone: the URI, the command list and the mode flags. */
    twostate predicate SettingsKept()
      reads this
    {
      && uri == old(uri) && session == old(session) && start == old(start)
      && printLog == old(printLog) && immediate == old(immediate) && commands == old(commands)
    }

    /** `load_raw_data`: fill the stream slot and count as loaded, without the rendezvous. */
    method LoadRawData(input: string) returns (out: Outcome)
      modifies this
      ensures old(stream).Some? ==> out == InternalError(LOAD_TWICE) && SlotsKept()
      ensures old(stream).None? ==>
        out == Returned && stream == Some(input) && loaded &&
        commited == old(commited) && fetching == old(fetching)
      ensures ReqKept() && NothingObserved() && source == old(source) && successRuns == old(successRuns)
    {
      if stream.Some? {
        return InternalError(LOAD_TWICE);
      }
      stream := Some(input);
      loaded := true;
      out := Returned;
    }

    /** `commit()`, with the scheduled `receive_commit` run at once. */
    method Commit(env: Env) returns (out: Outcome)
      modifies this
      ensures commited && stream == old(stream) && loaded == old(loaded) && fetching == old(fetching)
      ensures old(loaded) ==> ReqKept() && Rendezvous(true, env, out)
      ensures !old(loaded) ==> Req() == old(Req()).(immediate := false) && Waiting(out) && source == old(source)
    {
      out := ReceiveCommit(env);
    }

    /** The HTTP queue's done signal: the fetched body is the stream. */
    method FetchDone(body: string, env: Env) returns (out: Outcome)
      requires fetching
      modifies this
      ensures !fetching && stream == Some(body) && loaded && commited == old(commited)
      ensures ReqKept() && Rendezvous(old(commited), env, out)
      ensures !old(commited) ==> source == old(source)
    {
      ghost var req := Req();
      fetching := false;
      stream := Some(body);
      assert Req() == req;
      out := ReceiveLoaded(env);
    }

    /** The HTTP queue's failed signal: its message goes to the failure handler verbatim. */
    method FetchFailed(msg: string) returns (out: Outcome)
      requires fetching
      modifies this
      ensures !fetching && stream == old(stream) && loaded == old(loaded) && commited == old(commited)
      ensures out == FailedEffect(Req(), msg).out && Applied(FailedEffect(Req(), msg))
      ensures ReqKept() && source == old(source) && successRuns == old(successRuns)
    {
      fetching := false;
      out := ReceiveFailed(msg);
    }

    /** `receive_loaded`: the load half of the rendezvous. */
    method ReceiveLoaded(env: Env) returns (out: Outcome)
      modifies this
      ensures loaded && stream == old(stream) && commited == old(commited) && fetching == old(fetching)
      ensures ReqKept() && Rendezvous(old(commited), env, out)
      ensures !old(commited) ==> source == old(source)
    {
      loaded := true;
      if commited {
        out := ReceiveSuccess(env);
      } else {
        out := Returned;
      }
    }

    /** `receive_commit`: the commit half; a commit that arrives first drops `immediate`. */
    method ReceiveCommit(env: Env) returns (out: Outcome)
      modifies this
      ensures commited && stream == old(stream) && loaded == old(loaded) && fetching == old(fetching)
      ensures old(loaded) ==> ReqKept() && Rendezvous(true, env, out)
      ensures !old(loaded) ==> Req() == old(Req()).(immediate := false) && Waiting(out) && source == old(source)
    {
      ghost var req := Req();
      commited := true;
      assert Req() == req;
      if loaded {
        out := ReceiveSuccess(env);
      } else {
        immediate := false;
        out := Returned;
      }
    }

    /** `receive_failed`: log, fire the finished slot, and throw only for an immediate factory. */
    method ReceiveFailed(msg: string) returns (out: Outcome)
      modifies this
      ensures out == FailedEffect(Req(), msg).out
      ensures Applied(FailedEffect(Req(), msg))
      ensures ReqKept() && SlotsKept() && source == old(source) && successRuns == old(successRuns)
    {
      var shouldThrow := immediate;
      if printLog {
        log := log + [msg + ": \"" + uri + "\""];
      }
      finished := finished + 1;
      if shouldThrow {
        out := Raised(msg);
      } else {
        out := Returned;
      }
    }

    /** `receive_success`: build the download's document and initialize its bookkeeping section. */
    method ReceiveSuccess(env: Env) returns (out: Outcome)
      requires loaded && commited
      modifies this
      ensures out == SuccessPath(Req(), env).out
      ensures Applied(SuccessPath(Req(), env))
      ensures ReqKept() && SlotsKept() && source == None && successRuns == old(successRuns) + 1
    {
      successRuns := successRuns + 1;
      source := None;
      if env.create.Rejected? {
        out := ReceiveFailed(env.create.msg);
        return;
      }
      out := ReceiveAccepted(env);
    }

    /** Lines 208-246: the registry accepted the torrent; its document root is prepared, then initialized. */
    method ReceiveAccepted(env: Env) returns (out: Outcome)
      requires env.create.Created?
      modifies this
      ensures var root := PrepareRoot(env.create.root, env.create.isMeta, start, printLog, commands, session,
                                      env.rtorrentSidecar, env.resumeSidecar);
        out == CreatedPath(Req(), env, env.create.hash, root).out &&
        Applied(CreatedPath(Req(), env, env.create.hash, root))
      ensures ReqKept() && SlotsKept() && source == old(source) && successRuns == old(successRuns)
    {
      var root := PrepareDocument(env.create.root, env.create.isMeta, env);
      out := ReceiveCreated(env, env.create.hash, root);
    }

    /** Lines 248-259: the bookkeeping section is initialized and given its custom fields. */
    method ReceiveCreated(env: Env, hash: string, root: Section) returns (out: Outcome)
      requires "rtorrent" in root
      modifies this
      ensures out == CreatedPath(Req(), env, hash, root).out
      ensures Applied(CreatedPath(Req(), env, hash, root))
      ensures ReqKept() && SlotsKept() && source == old(source) && successRuns == old(successRuns)
    {
      if !root["rtorrent"].Dict? {
        return TypeError;
      }
      ghost var req := Req();
      var rt0 := root["rtorrent"].entries;
      var rt, initActs := InitializeRtorrent(rt0, env.now, env.rand);
      rt := AddCustomFields(rt);
      assert InitCtx(env.now, env.rand) == Context(req, env);
      ghost var a0 := actions;
      actions := actions + initActs;
      assert Req() == req;
      out := Configure(env, hash, root["rtorrent" := Dict(rt)], rt);
      ghost var configured := ConfiguredPath(req, env, hash, root["rtorrent" := Dict(rt)], rt);
      assert CreatedPath(req, env, hash, root) == Prepend(initActs, configured);
      AppendAssoc(a0, initActs, configured.performed);
    }

    /** Lines 261-317: the settings-derived calls and the download's directory. */
    method Configure(env: Env, hash: string, doc: Section, rt: Section) returns (out: Outcome)
      modifies this
      ensures out == ConfiguredPath(Req(), env, hash, doc, rt).out
      ensures Applied(ConfiguredPath(Req(), env, hash, doc, rt))
      ensures ReqKept() && SlotsKept() && source == old(source) && successRuns == old(successRuns)
    {
      ghost var a0 := actions;
      actions := actions + SettingsActions(env.settings);
      SetDirectory(rt);
      ghost var configured := SettingsActions(env.settings) + [DirectoryAction(rt, variables)];
      assert actions == a0 + configured;
      out := ConfigureTied(env, hash, doc);
      AppendAssoc(a0, configured, TiedPath(Req(), env, hash, doc).performed);
    }

    /** Lines 319-330: the tied file, peer exchange and the resume sections, then registration. */
    method ConfigureTied(env: Env, hash: string, doc: Section) returns (out: Outcome)
      modifies this
      ensures out == TiedPath(Req(), env, hash, doc).out
      ensures Applied(TiedPath(Req(), env, hash, doc))
      ensures ReqKept() && SlotsKept() && source == old(source) && successRuns == old(successRuns)
    {
      if !session && !VarOf(variables, "tied_to_file").Int? {
        return TypeError;
      }
      ghost var a0 := actions;
      SetTiedFile();
      actions := actions + [Call("d.peer_exchange.set", Setting("protocol.pex")),
                            ResumeLoad("addresses"), ResumeLoad("file_priorities"),
                            ResumeLoad("tracker_settings")];
      AppendAssoc(a0, TiedActions(Req()), ResumeActions());
      out := Register(env, hash, doc);
      AppendAssoc(a0, TiedActions(Req()) + ResumeActions(), RegisteredPath(Req(), env, hash, doc).performed);
    }

    /** Lines 311-317: the directory the section names, or the factory's default. */
    method SetDirectory(rt: Section)
      modifies this
      ensures actions == old(actions) + [DirectoryAction(rt, variables)]
      ensures ReqKept() && SlotsKept() && source == old(source) && successRuns == old(successRuns)
      ensures finished == old(finished) && log == old(log) && created == old(created) && result == old(result)
    {
      if !HasKeyString(rt, "directory") {
        actions := actions + [Call("d.directory.set", Lit(VarOf(variables, "directory")))];
      } else {
        actions := actions + [Call("d.directory_base.set", Lit(rt["directory"]))];
      }
    }

    /** Lines 319-322: a new download tied to a file is tied to its URI, or to the tied_file variable. */
    method SetTiedFile()
      requires !session ==> VarOf(variables, "tied_to_file").Int?
      modifies this
      ensures ReqKept() && SlotsKept() && source == old(source) && successRuns == old(successRuns)
      ensures actions == old(actions) + TiedActions(Req())
      ensures finished == old(finished) && log == old(log) && created == old(created) && result == old(result)
    {
      if !session && VarOf(variables, "tied_to_file").i != 0 {
        var target := if uri == "" then VarOf(variables, "tied_file") else Str(uri);
        actions := actions + [Call("d.tied_to_file.set", Lit(target))];
      }
    }

    /** Lines 334-341: insert the download into the download list, then run its commands. */
    method Register(env: Env, hash: string, doc: Section) returns (out: Outcome)
      modifies this
      ensures out == RegisteredPath(Req(), env, hash, doc).out
      ensures Applied(RegisteredPath(Req(), env, hash, doc))
      ensures ReqKept() && SlotsKept() && source == old(source) && successRuns == old(successRuns)
    {
      if !env.insertOk {
        finished := finished + 1;
        return Returned;
      }
      var executed, present, error := RunCommands(env.effects);
      out := StartDownload(hash, doc, executed, error, present);
    }

    /** Lines 343-390: the executed commands, the start of a surviving new download, the insert event. */
    method StartDownload(hash: string, doc: Section, executed: nat, error: Option<string>, present: bool)
      returns (out: Outcome)
      requires executed <= |commands|
      modifies this
      ensures ReqKept() && SlotsKept() && source == old(source) && successRuns == old(successRuns)
      ensures out == Returned
      ensures Applied(StartedPath(Req(), hash, doc, executed, error, present))
    {
      ghost var a0 := actions;
      actions := actions + Runs(commands[..executed]);
      ghost var a1 := actions;
      var failure := StartIfNew(error, present);
      ghost var a2 := actions;
      if failure.None? {
        actions := actions + [Event(if session then "event.download.inserted_session"
                                    else "event.download.inserted_new")];
      }
      assert actions == a2 + InsertEvent(Req(), failure);
      AppendAssoc(a1, StartCall(Req(), error, present), InsertEvent(Req(), failure));
      AppendAssoc(a0, Runs(commands[..executed]), StartActions(Req(), error, present));
      ghost var started := Runs(commands[..executed]) + StartActions(Req(), error, present);
      out := Report(hash, doc, present, failure);
      AppendAssoc(a0, started, []);
    }

    /** Lines 354-362: the caught failure; a new download still present after its commands is started. */
    method StartIfNew(error: Option<string>, present: bool) returns (failure: Option<string>)
      modifies this
      ensures failure == CommandFailure(Req(), error, present)
      ensures actions == old(actions) + StartCall(Req(), error, present)
      ensures ReqKept() && SlotsKept() && source == old(source) && successRuns == old(successRuns)
      ensures finished == old(finished) && log == old(log) && created == old(created) && result == old(result)
    {
      failure := error;
      if failure.None? && !session {
        if !present {
          failure := Some(VANISHED);
        } else {
          actions := actions + [Call("d.state.set", Lit(Int(BoolValue(start))))];
        }
      }
    }

    /** Lines 369-390: log and flag the caught failure, register the download, report the hash. */
    method Report(hash: string, doc: Section, present: bool, failure: Option<string>) returns (out: Outcome)
      modifies this
      ensures out == Returned
      ensures Applied(ReportEffect(Req(), hash, doc, present, failure))
      ensures ReqKept() && SlotsKept() && source == old(source) && successRuns == old(successRuns)
    {
      var hashFailed, message := false, "";
      if failure.Some? {
        var msg := CREATION_FAILED + failure.value;
        if printLog {
          log := log + [msg];
        }
        if present {
          hashFailed, message := true, msg;
        }
      }
      created := Some(Download(hash, doc, hashFailed, message, present));
      if immediate {
        result := Some(hash);
      }
      finished := finished + 1;
      out := Returned;
    }

    /** Lines 208-246: the meta stash, the sidecars or the erased section, and both sections present. */
    method PrepareDocument(root0: Section, isMeta: bool, env: Env) returns (root: Section)
      ensures root == PrepareRoot(root0, isMeta, start, printLog, commands, session,
                                  env.rtorrentSidecar, env.resumeSidecar)
    {
      root := root0;
      if isMeta {
        var list: seq<Value> := [];
        var i := 0;
        while i < |commands|
          invariant 0 <= i <= |commands|
          invariant |list| == i
          invariant forall j :: 0 <= j < i ==> list[j] == Str(commands[j])
        {
          list := list + [Str(commands[i])];
          i := i + 1;
        }
        assert list == StrList(commands);
        root := root["rtorrent_meta_download" :=
                     Dict(map["start" := Int(BoolValue(start)),
                              "print_log" := Int(BoolValue(printLog)),
                              "commands" := List(list)])];
      }
      if session {
        root := AddStream(root, "rtorrent", env.rtorrentSidecar);
        root := AddStream(root, "libtorrent_resume", env.resumeSidecar);
      } else {
        root := root - {"rtorrent"};
      }
      root := InsertPreserveCopy(root, "rtorrent", Dict(map[]));
      root := InsertPreserveCopy(root, "libtorrent_resume", Dict(map[]));
    }

    function InitCtx(now: int64, rand: nat): InitContext
      reads this
    {
      InitContext(start, now, isFile, uri, variables, rand)
    }

    /** `initialize_rtorrent`: edit the bookkeeping section in place and configure the download. */
    method InitializeRtorrent(rt0: Section, now: int64, rand: nat) returns (rt: Section, acts: seq<Action>)
      ensures rt == InitializedSection(rt0, InitCtx(now, rand))
      ensures acts == InitActions(rt0, rand)
    {
      rt := ResetState(rt0, now, rand);
      rt := FillEarlyDefaults(rt0, rt, now, rand);
      rt, acts := ConfigureFromSection(rt0, rt, now, rand);
      rt := FillLateDefaults(rt0, rt, now, rand);
    }

    /** Lines 453-466: the state reset rule. */
    method ResetState(rt0: Section, now: int64, rand: nat) returns (rt: Section)
      ensures rt == Partial(rt0, InitCtx(now, rand), STATE_KEYS)
    {
      rt := rt0;
      if !HasKeyValue(rt, "state") || rt["state"].i > 1 {
        rt := rt["state" := Int(BoolValue(start))];
        rt := rt["state_changed" := Int(now)];
        rt := rt["state_counter" := Int(0)];
      } else if !HasKeyValue(rt, "state_changed") || rt["state_changed"].i > now ||
                rt["state_changed"].i == 0 || !HasKeyValue(rt, "state_counter") ||
                AsUnsigned64(rt["state_counter"].i) > MAX_STATE_COUNTER {
        rt := rt["state_changed" := Int(now)];
        rt := rt["state_counter" := Int(0)];
      }
      StateStage(rt0, InitCtx(now, rand));
    }

    /** Lines 468-477: insert-if-absent defaults, and loaded_file overwritten. */
    method FillEarlyDefaults(rt0: Section, rt1: Section, now: int64, rand: nat) returns (rt: Section)
      requires rt1 == Partial(rt0, InitCtx(now, rand), STATE_KEYS)
      ensures rt == Partial(rt0, InitCtx(now, rand), DONE_2)
    {
      FirstDefaults(rt0, InitCtx(now, rand));
      SecondDefaults(rt0, InitCtx(now, rand));
      rt := InsertPreserveCopy(rt1, "complete", Int(0));
      rt := InsertPreserveCopy(rt, "hashing", Int(HASHING_STOPPED));
      rt := InsertPreserveCopy(rt, "timestamp.started", Int(0));
      rt := InsertPreserveCopy(rt, "timestamp.finished", Int(0));
      rt := InsertPreserveCopy(rt, "timestamp.last_active", Int(0));
      rt := InsertPreserveCopy(rt, "tied_to_file", Str(""));
      rt := rt["loaded_file" := Str(if isFile then uri else "")];
    }

    /** Lines 479-511: priority, tracker key (persisted when generated), totals, chunks, throttle. */
    method ConfigureFromSection(rt0: Section, rt1: Section, now: int64, rand: nat) returns (rt: Section, acts: seq<Action>)
      requires rt1 == Partial(rt0, InitCtx(now, rand), DONE_2)
      ensures rt == Partial(rt0, InitCtx(now, rand), DONE_3)
      ensures acts == InitActions(rt0, rand)
    {
      ghost var c := InitCtx(now, rand);
      rt := rt1;
      ReadsSeeLoaded(rt0, c, "priority");
      if HasKeyValue(rt, "priority") {
        acts := [Call("d.priority.set", Lit(Int(TruncRem(rt["priority"].i, 4))))];
      } else {
        acts := [Call("d.priority.set", Lit(Int(2)))];
      }
      KeyStage(rt0, c);
      if HasKeyValue(rt, "key") {
        acts := acts + [SetTrackerKey(rt["key"].i)];
      } else {
        var key := GeneratedKey(rand);
        acts := acts + [SetTrackerKey(key)];
        rt := rt["key" := Int(key)];
      }
      var progress := ProgressCalls(rt0, rt, now, rand);
      acts := acts + progress;
    }

    /** Lines 495-511: the calls restoring transfer totals, chunk progress and the throttle. */
    method ProgressCalls(rt0: Section, rt: Section, now: int64, rand: nat) returns (acts: seq<Action>)
      requires rt == Partial(rt0, InitCtx(now, rand), DONE_3)
      ensures acts == ProgressActions(rt0)
    {
      ghost var c := InitCtx(now, rand);
      ReadsSeeLoaded(rt0, c, "total_uploaded");
      ReadsSeeLoaded(rt0, c, "total_downloaded");
      ReadsSeeLoaded(rt0, c, "chunks_done");
      ReadsSeeLoaded(rt0, c, "chunks_wanted");
      ReadsSeeLoaded(rt0, c, "throttle_name");
      var uploaded := if HasKeyValue(rt, "total_uploaded") then [SetTotalUploaded(rt["total_uploaded"].i)] else [];
      var downloaded := if HasKeyValue(rt, "total_downloaded") then [SetTotalDownloaded(rt["total_downloaded"].i)] else [];
      var chunks := if HasKeyValue(rt, "chunks_done") && HasKeyValue(rt, "chunks_wanted")
                    then [SetChunksDone(rt["chunks_done"].i, rt["chunks_wanted"].i)] else [];
      acts := uploaded + downloaded + chunks +
              [SetThrottleName(if HasKeyString(rt, "throttle_name") then rt["throttle_name"].s else "")];
    }

    /** Lines 513-524: the remaining defaults and the type-preserving connection classes. */
    method FillLateDefaults(rt0: Section, rt1: Section, now: int64, rand: nat) returns (rt: Section)
      requires rt1 == Partial(rt0, InitCtx(now, rand), DONE_3)
      ensures rt == InitializedSection(rt0, InitCtx(now, rand))
    {
      ThirdDefaults(rt0, InitCtx(now, rand));
      FourthDefaults(rt0, InitCtx(now, rand));
      LastDefaults(rt0, InitCtx(now, rand));
      rt := InsertPreserveCopy(rt1, "ignore_commands", Int(0));
      rt := InsertPreserveCopy(rt, "views", List([]));
      rt := InsertPreserveType(rt, "connection_leech", VarOf(variables, "connection_leech"));
      rt := InsertPreserveType(rt, "connection_seed", VarOf(variables, "connection_seed"));
      rt := InsertPreserveCopy(rt, "choke_heuristics.up.leech", Str(""));
      rt := InsertPreserveCopy(rt, "choke_heuristics.up.seed", Str(""));
      rt := InsertPreserveCopy(rt, "choke_heuristics.down.leech", Str(""));
      rt := InsertPreserveCopy(rt, "choke_heuristics.down.seed", Str(""));
    }

    /** Lines 250-259: each custom field that is not a string becomes "". */
    method AddCustomFields(rt0: Section) returns (rt: Section)
      ensures rt == WithCustomFields(rt0)
    {
      rt := rt0;
      if !HasKeyString(rt, "custom1") { rt := rt["custom1" := Str("")]; }
      if !HasKeyString(rt, "custom2") { rt := rt["custom2" := Str("")]; }
      if !HasKeyString(rt, "custom3") { rt := rt["custom3" := Str("")]; }
      if !HasKeyString(rt, "custom4") { rt := rt["custom4" := Str("")]; }
      if !HasKeyString(rt, "custom5") { rt := rt["custom5" := Str("")]; }
    }

    /** Lines 350-352: run the commands in order; the first one that throws ends the loop. */
    method RunCommands(effects: seq<CommandEffect>) returns (executed: nat, present: bool, error: Option<string>)
      ensures executed == ExecutedCount(effects, |commands|)
      ensures error == CommandError(effects, |commands|)
      ensures present == Survives(effects, executed)
    {
      executed, present, error := 0, true, None;
      while executed < |commands| && error.None?
        invariant executed <= |commands|
        invariant present == Survives(effects, executed)
        invariant error.None? ==> forall j :: 0 <= j < executed ==> EffectAt(effects, j).error.None?
        invariant error.Some? ==>
          executed > 0 && FirstFailure(effects, |commands|, 0) == Some(executed - 1) &&
          error == EffectAt(effects, executed - 1).error
      {
        var e := EffectAt(effects, executed);
        present := present && !e.removes;
        error := e.error;
        if error.Some? {
          FirstFailureAt(effects, |commands|, executed);
        }
        executed := executed + 1;
      }
      if error.None? {
        FirstFailureNone(effects, |commands|);
      }
    }
  }

  /** The first failure is at i when commands before it do not throw and it does. */
  lemma FirstFailureAt(effects: seq<CommandEffect>, n: nat, i: nat)
    requires i < n && EffectAt(effects, i).error.Some?
    requires forall j :: 0 <= j < i ==> EffectAt(effects, j).error.None?
    ensures FirstFailure(effects, n, 0) == Some(i)
  {
  }

  lemma FirstFailureNone(effects: seq<CommandEffect>, n: nat)
    requires forall j :: 0 <= j < n ==> EffectAt(effects, j).error.None?
    ensures FirstFailure(effects, n, 0).None?
  {
  }

  lemma AppendAssoc<T>(a: seq<T>, b: seq<T>, c: seq<T>)
    ensures a + b + c == a + (b + c)
  {
  }
}
