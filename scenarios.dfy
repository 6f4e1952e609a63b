/**
 * Whole runs of a fresh download factory, as the command layer drives one:
 * construct, load, commit, and the HTTP queue's signals in between.
 */
module Scenarios {

  import opened Wrappers
  import opened Bencode
  import opened Engine
  import opened Uri
  import opened Factory
  import opened Bookkeeping

  /** The variables a fresh factory starts with. */
  function FreshVariables(directoryDefault: Value): map<string, Value> {
    map["connection_leech" := Str(""), "connection_seed" := Str(""),
        "directory" := directoryDefault, "tied_to_file" := Int(0)]
  }

  /** Loading a network or magnet URI resets `tied_to_file` to the value a fresh factory already has. */
  lemma FreshVariablesUntied(directoryDefault: Value)
    ensures FreshVariables(directoryDefault)["tied_to_file" := Int(0)] == FreshVariables(directoryDefault)
  {
  }

  /** What the success path of a fresh factory that loaded `u` from a magnet link reads. */
  function MagnetRequest(u: string, directoryDefault: Value, cmds: seq<string>,
                         sessionMode: bool, startDownload: bool, logLines: bool, waitForResult: bool): Request {
    Request(u, false, sessionMode, startDownload, logLines, waitForResult, cmds, FreshVariables(directoryDefault))
  }

  /**
   * A magnet link loaded then committed, and committed then loaded: both
   * orders register the same download and fire the finished slot as often;
   * only the first order keeps `immediate`.
   */
  method MagnetEitherOrder(u: string, env: Env, directoryDefault: Value, cmds: seq<string>,
                           sessionMode: bool, startDownload: bool, logLines: bool, waitForResult: bool)
    returns (loadFirst: Option<Download>, commitFirst: Option<Download>, finishes: (nat, nat))
    requires Classify(u) == Magnet
    ensures loadFirst == commitFirst && finishes.0 == finishes.1
  {
    var req := MagnetRequest(u, directoryDefault, cmds, sessionMode, startDownload, logLines, waitForResult);
    var n1, n2;
    loadFirst, n1 := MagnetLoadThenCommit(u, env, req);
    commitFirst, n2 := MagnetCommitThenLoad(u, env, req);
    finishes := (n1, n2);
  }

  /** A fresh factory that loaded the magnet link `u` and waits for its commit. */
  method LoadedMagnet(u: string, env: Env, req: Request) returns (f: DownloadFactory)
    requires Classify(u) == Magnet && req.uri == u && !req.isFile
    requires "directory" in req.variables && req.variables == FreshVariables(req.variables["directory"])
    ensures fresh(f) && f.Req() == req && f.loaded && !f.commited
    ensures f.finished == 0 && f.log == [] && f.actions == [] && f.created == None && f.result == None
  {
    f := new DownloadFactory(req.variables["directory"], req.commands, req.session, req.start,
                             req.printLog, req.immediate);
    FreshVariablesUntied(req.variables["directory"]);
    var o := f.Load(u, OpenFailed, env);
  }

  /** A fresh factory committed before anything was loaded into it. */
  method CommittedFactory(req: Request, env: Env) returns (f: DownloadFactory)
    requires "directory" in req.variables && req.variables == FreshVariables(req.variables["directory"])
    ensures fresh(f) && f.stream == None && !f.loaded && f.commited && !f.immediate
    ensures f.variables == req.variables && f.commands == req.commands && f.session == req.session &&
      f.start == req.start && f.printLog == req.printLog && !f.isFile
    ensures f.finished == 0 && f.log == [] && f.actions == [] && f.created == None && f.result == None
  {
    f := new DownloadFactory(req.variables["directory"], req.commands, req.session, req.start,
                             req.printLog, req.immediate);
    var o := f.Commit(env);
  }

  method MagnetLoadThenCommit(u: string, env: Env, req: Request) returns (created: Option<Download>, finished: nat)
    requires Classify(u) == Magnet && req.uri == u && !req.isFile
    requires "directory" in req.variables && req.variables == FreshVariables(req.variables["directory"])
    ensures var e := SuccessPath(req, env); created == e.download && finished == e.finishes
  {
    var f := LoadedMagnet(u, env, req);
    var o := f.Commit(env);
    created, finished := f.created, f.finished;
  }

  method MagnetCommitThenLoad(u: string, env: Env, req: Request) returns (created: Option<Download>, finished: nat)
    requires Classify(u) == Magnet && req.uri == u && !req.isFile
    requires "directory" in req.variables && req.variables == FreshVariables(req.variables["directory"])
    ensures var e := SuccessPath(req, env); created == e.download && finished == e.finishes
  {
    var f := CommittedFactory(req, env);
    FreshVariablesUntied(req.variables["directory"]);
    var o := f.Load(u, OpenFailed, env);
    assert f.Req() == req.(immediate := false);
    created, finished := f.created, f.finished;
    SuccessIgnoresImmediate(req, env);
  }

  /**
   * A network load whose fetch fails: the HTTP queue's message is logged with
   * the URI, the finished slot fires once, and a waiting caller sees it raised.
   */
  method NetworkFetchFails(u: string, msg: string, env: Env, directoryDefault: Value,
                           logLines: bool, waitForResult: bool)
    returns (out: Outcome, log: seq<string>, finished: nat, created: Option<Download>)
    requires Classify(u) == Network
    ensures out == if waitForResult then Raised(msg) else Returned
    ensures log == if logLines then [msg + ": \"" + u + "\""] else []
    ensures finished == 1 && created == None
  {
    var f := new DownloadFactory(directoryDefault, [], false, false, logLines, waitForResult);
    out := f.Load(u, OpenFailed, env);
    out := f.FetchFailed(msg);
    log, finished, created := f.log, f.finished, f.created;
  }

  /**
   * A network load committed before its fetch completes: the commit drops
   * `immediate`, so the download is created when the body arrives but no
   * result is reported and nothing is raised.
   */
  method EarlyCommitDropsResult(u: string, body: string, env: Env, directoryDefault: Value)
    returns (out: Outcome, result: Option<string>)
    requires Classify(u) == Network
    ensures result == None
    ensures !out.Raised?
  {
    var f := new DownloadFactory(directoryDefault, [], false, false, false, true);
    out := f.Load(u, OpenFailed, env);
    out := f.Commit(env);
    assert !f.immediate;
    out := f.FetchDone(body, env);
    SuccessShape(f.Req(), env);
    result := f.result;
  }

  /**
   * Raw data loaded then committed completes the rendezvous and finishes
   * once: outside a session the bookkeeping section starts empty and
   * tied_to_file is 0, so no type error escapes.  A second load into the
   * same factory is refused before anything is observed.
   */
  method RawDataThenSecondLoad(data: string, u: string, env: Env, directoryDefault: Value)
    returns (first: Outcome, committed: Outcome, second: Outcome, before: nat, after: nat)
    ensures first == Returned && committed == Returned
    ensures second == InternalError(LOAD_TWICE)
    ensures before == 1 && after == before
  {
    var f := new DownloadFactory(directoryDefault, [], false, false, false, false);
    first := f.LoadRawData(data);
    committed := f.Commit(env);
    SuccessShape(f.Req(), env);
    if env.create.Created? {
      var c := env.create;
      PrepareRootRule(c.root, c.isMeta, false, false, [], false, env.rtorrentSidecar, env.resumeSidecar);
      CreatedShape(f.Req(), env, c.hash,
                   PrepareRoot(c.root, c.isMeta, false, false, [], false, env.rtorrentSidecar, env.resumeSidecar));
    }
    before := f.finished;
    second := f.Load(u, OpenFailed, env);
    after := f.finished;
  }
}
