/**
 * The client bookkeeping section ("rtorrent") of a download's document and
 * the edits the factory makes to it and to the document root, stated key by
 * key: the state reset rule, "insert if absent" defaults, the overwritten
 * loaded_file, the custom fields, the priority and the tracker key.
 */
module Bookkeeping {

  import opened Wrappers
  import opened Bencode
  import opened Engine

  /** Download::variable_hashing_stopped. */
  const HASHING_STOPPED: int64 := 0

  /** The largest state_counter kept as valid: 1 << 20. */
  const MAX_STATE_COUNTER: int := 0x10_0000

  function BoolValue(b: bool): int64 {
    if b then 1 else 0
  }

  /** The C++ cast `(uint64_t)x` of a signed 64-bit integer. */
  function AsUnsigned64(x: int64): (r: nat)
    ensures r < 0x1_0000_0000_0000_0000
    ensures x >= 0 ==> r == x
    ensures x < 0 ==> r >= 0x8000_0000_0000_0000
  {
    if x < 0 then x + 0x1_0000_0000_0000_0000 else x
  }

  /** The C++ `%` on integers: the remainder truncates toward zero and takes the dividend's sign. */
  function TruncRem(a: int, b: int): (r: int)
    requires b > 0
    ensures -b < r < b
    ensures a >= 0 ==> 0 <= r && r == a % b
    ensures a < 0 ==> r <= 0 && -r == (-a) % b
  {
    if a >= 0 then a % b else -((-a) % b)
  }

  /** No usable prior `state`: it is missing, not an integer, or above 1. */
  predicate StateInvalid(rt: Section) {
    !HasKeyValue(rt, "state") || rt["state"].i > 1
  }

  /** The resume-time clock fields cannot be trusted at time `now`. */
  predicate ClockInvalid(rt: Section, now: int64) {
    !HasKeyValue(rt, "state_changed") || rt["state_changed"].i > now ||
    rt["state_changed"].i == 0 || !HasKeyValue(rt, "state_counter") ||
    AsUnsigned64(rt["state_counter"].i) > MAX_STATE_COUNTER
  }

  /** The tracker key made from a `random()` draw: `random() % (UINT32_MAX - 1) + 1`. */
  function GeneratedKey(rand: nat): (k: int64)
    ensures 1 <= k <= 0xFFFF_FFFE
  {
    rand % 0xFFFF_FFFE + 1
  }

  /** The keys filled with `insert_preserve_copy`. */
  const PRESERVED_KEYS: set<string> := {
    "complete", "hashing", "timestamp.started", "timestamp.finished", "timestamp.last_active",
    "tied_to_file", "ignore_commands", "views",
    "choke_heuristics.up.leech", "choke_heuristics.up.seed",
    "choke_heuristics.down.leech", "choke_heuristics.down.seed"}

  const STRING_DEFAULTED: set<string> := {
    "tied_to_file", "choke_heuristics.up.leech", "choke_heuristics.up.seed",
    "choke_heuristics.down.leech", "choke_heuristics.down.seed"}

  /** The default `insert_preserve_copy` installs under a key of PRESERVED_KEYS. */
  function DefaultOf(k: string): Value {
    if k == "hashing" then Int(HASHING_STOPPED)
    else if k in STRING_DEFAULTED then Str("")
    else if k == "views" then List([])
    else Int(0)
  }

  const STATE_KEYS: set<string> := {"state", "state_changed", "state_counter"}
  const CONNECTION_KEYS: set<string> := {"connection_leech", "connection_seed"}
  const CUSTOM_KEYS: set<string> := {"custom1", "custom2", "custom3", "custom4", "custom5"}

  /** What `initialize_rtorrent` reads from the factory and its environment. */
  datatype InitContext = InitContext(
    start: bool, now: int64, isFile: bool, uri: string,
    variables: map<string, Value>, rand: nat)

  // The keys `initialize_rtorrent` has written after each group of writes, in source order.
  const DONE_1: set<string> := STATE_KEYS + {"complete"} + {"hashing"} + {"timestamp.started"}
  const DONE_2: set<string> := DONE_1 + {"timestamp.finished"} + {"timestamp.last_active"} +
                               {"tied_to_file"} + {"loaded_file"}
  const DONE_3: set<string> := DONE_2 + {"key"}
  const DONE_4: set<string> := DONE_3 + {"ignore_commands"} + {"views"} + {"connection_leech"}
  const DONE_5: set<string> := DONE_4 + {"connection_seed"} + {"choke_heuristics.up.leech"} +
                               {"choke_heuristics.up.seed"}

  /** Every key `initialize_rtorrent` may write. */
  function InitKeys(): set<string> {
    DONE_5 + {"choke_heuristics.down.leech"} + {"choke_heuristics.down.seed"}
  }

  /** The value `initialize_rtorrent` leaves under key `k`. */
  function InitEntry(rt: Section, c: InitContext, k: string): Value {
    if k == "state" then
      (if StateInvalid(rt) then Int(BoolValue(c.start)) else rt[k])
    else if k == "state_changed" then
      (if StateInvalid(rt) || ClockInvalid(rt, c.now) then Int(c.now) else rt[k])
    else if k == "state_counter" then
      (if StateInvalid(rt) || ClockInvalid(rt, c.now) then Int(0) else rt[k])
    else if k == "loaded_file" then
      Str(if c.isFile then c.uri else "")
    else if k == "key" then
      (if HasKeyValue(rt, "key") then rt[k] else Int(GeneratedKey(c.rand)))
    else if k in CONNECTION_KEYS then
      (if k in rt && SameType(rt[k], VarOf(c.variables, k)) then rt[k] else VarOf(c.variables, k))
    else if k in PRESERVED_KEYS then
      (if k in rt then rt[k] else DefaultOf(k))
    else if k in rt then rt[k]
    else Nil
  }

  /** The bookkeeping section after `initialize_rtorrent`, key by key. */
  function InitializedSection(rt: Section, c: InitContext): Section {
    Partial(rt, c, InitKeys())
  }

  /** `initialize_rtorrent` adds exactly the keys it writes and removes none. */
  lemma InitializedKeys(rt: Section, c: InitContext)
    ensures InitializedSection(rt, c).Keys == rt.Keys + InitKeys()
  {
  }

  /** The section part-way through `initialize_rtorrent`: keys in `done` initialized, the rest as loaded. */
  function Partial(rt: Section, c: InitContext, done: set<string>): Section {
    map k | k in rt.Keys + done :: if k in done then InitEntry(rt, c, k) else rt[k]
  }

  /** Initializing one more key updates that key and nothing else. */
  lemma PartialStep(rt: Section, c: InitContext, done: set<string>, key: string)
    requires key !in done
    ensures key in Partial(rt, c, done) <==> key in rt
    ensures key in rt ==> Partial(rt, c, done)[key] == rt[key]
    ensures Partial(rt, c, done + {key}) == Partial(rt, c, done)[key := InitEntry(rt, c, key)]
  {
  }

  /** An insert-if-absent of the key's own default completes that key. */
  lemma PreserveStep(rt: Section, c: InitContext, done: set<string>, key: string, d: Value)
    requires InitEntry(rt, c, key) == if key in rt then rt[key] else d
    ensures InsertPreserveCopy(Partial(rt, c, done), key, d) == Partial(rt, c, done + {key})
  {
  }

  /** An insert-if-type-differs of the factory's variable completes a connection key. */
  lemma PreserveTypeStep(rt: Section, c: InitContext, done: set<string>, key: string, v: Value)
    requires InitEntry(rt, c, key) == if key in rt && SameType(rt[key], v) then rt[key] else v
    ensures InsertPreserveType(Partial(rt, c, done), key, v) == Partial(rt, c, done + {key})
  {
  }

  /** An unconditional write of the key's final value completes that key. */
  lemma SetStep(rt: Section, c: InitContext, done: set<string>, key: string, v: Value)
    requires InitEntry(rt, c, key) == v
    ensures Partial(rt, c, done)[key := v] == Partial(rt, c, done + {key})
  {
  }

  /** A key whose loaded value is its final value is complete without a write. */
  lemma KeepStep(rt: Section, c: InitContext, done: set<string>, key: string)
    requires key !in done
    requires key in rt && InitEntry(rt, c, key) == rt[key]
    ensures Partial(rt, c, done) == Partial(rt, c, done + {key})
  {
  }

  /** An insert-if-absent of a defaulted key's default completes that key. */
  lemma DefaultStep(rt: Section, c: InitContext, done: set<string>, key: string)
    requires key in PRESERVED_KEYS
    ensures InsertPreserveCopy(Partial(rt, c, done), key, DefaultOf(key)) == Partial(rt, c, done + {key})
  {
    DefaultsAreSeparate(key);
    PreserveStep(rt, c, done, key, DefaultOf(key));
  }

  /** An insert-if-type-differs of the factory's variable completes a connection key. */
  lemma ConnectionStep(rt: Section, c: InitContext, done: set<string>, key: string)
    requires key in CONNECTION_KEYS
    ensures InsertPreserveType(Partial(rt, c, done), key, VarOf(c.variables, key)) == Partial(rt, c, done + {key})
  {
    PreserveTypeStep(rt, c, done, key, VarOf(c.variables, key));
  }

  /** The state stage on an untouched section. */
  lemma StateStage(rt: Section, c: InitContext)
    ensures Partial(rt, c, STATE_KEYS) ==
      if StateInvalid(rt) then
        rt["state" := Int(BoolValue(c.start))]["state_changed" := Int(c.now)]["state_counter" := Int(0)]
      else if ClockInvalid(rt, c.now) then
        rt["state_changed" := Int(c.now)]["state_counter" := Int(0)]
      else rt
  {
  }

  lemma FirstDefaults(rt: Section, c: InitContext)
    ensures var r := InsertPreserveCopy(Partial(rt, c, STATE_KEYS), "complete", Int(0));
            var r := InsertPreserveCopy(r, "hashing", Int(HASHING_STOPPED));
            InsertPreserveCopy(r, "timestamp.started", Int(0)) == Partial(rt, c, DONE_1)
  {
    DefaultStep(rt, c, STATE_KEYS, "complete");
    assert DefaultOf("complete") == Int(0);
    DefaultStep(rt, c, STATE_KEYS + {"complete"}, "hashing");
    assert DefaultOf("hashing") == Int(HASHING_STOPPED);
    DefaultStep(rt, c, STATE_KEYS + {"complete"} + {"hashing"}, "timestamp.started");
    assert DefaultOf("timestamp.started") == Int(0);
  }

  lemma SecondDefaults(rt: Section, c: InitContext)
    ensures var r := InsertPreserveCopy(Partial(rt, c, DONE_1), "timestamp.finished", Int(0));
            var r := InsertPreserveCopy(r, "timestamp.last_active", Int(0));
            var r := InsertPreserveCopy(r, "tied_to_file", Str(""));
            r["loaded_file" := Str(if c.isFile then c.uri else "")] == Partial(rt, c, DONE_2)
  {
    DefaultStep(rt, c, DONE_1, "timestamp.finished");
    assert DefaultOf("timestamp.finished") == Int(0);
    DefaultStep(rt, c, DONE_1 + {"timestamp.finished"}, "timestamp.last_active");
    assert DefaultOf("timestamp.last_active") == Int(0);
    DefaultStep(rt, c, DONE_1 + {"timestamp.finished"} + {"timestamp.last_active"}, "tied_to_file");
    assert DefaultOf("tied_to_file") == Str("");
    SetStep(rt, c, DONE_1 + {"timestamp.finished"} + {"timestamp.last_active"} + {"tied_to_file"},
            "loaded_file", Str(if c.isFile then c.uri else ""));
  }

  /** The keys read for the engine calls still hold their loaded values. */
  lemma ReadsSeeLoaded(rt: Section, c: InitContext, k: string)
    requires k in {"priority", "total_uploaded", "total_downloaded", "chunks_done", "chunks_wanted", "throttle_name"}
    ensures k in Partial(rt, c, DONE_2) <==> k in rt
    ensures k in Partial(rt, c, DONE_3) <==> k in rt
    ensures k in rt ==> Partial(rt, c, DONE_2)[k] == rt[k] && Partial(rt, c, DONE_3)[k] == rt[k]
  {
    assert k !in DONE_3;
  }

  /** The tracker key: read as loaded, then persisted only when generated. */
  lemma KeyStage(rt: Section, c: InitContext)
    ensures "key" in Partial(rt, c, DONE_2) <==> "key" in rt
    ensures "key" in rt ==> Partial(rt, c, DONE_2)["key"] == rt["key"]
    ensures HasKeyValue(rt, "key") ==> Partial(rt, c, DONE_3) == Partial(rt, c, DONE_2)
    ensures !HasKeyValue(rt, "key") ==>
      Partial(rt, c, DONE_3) == Partial(rt, c, DONE_2)["key" := Int(GeneratedKey(c.rand))]
  {
    PartialStep(rt, c, DONE_2, "key");
    if HasKeyValue(rt, "key") {
      KeepStep(rt, c, DONE_2, "key");
    }
  }

  lemma ThirdDefaults(rt: Section, c: InitContext)
    ensures var r := InsertPreserveCopy(Partial(rt, c, DONE_3), "ignore_commands", Int(0));
            var r := InsertPreserveCopy(r, "views", List([]));
            InsertPreserveType(r, "connection_leech", VarOf(c.variables, "connection_leech")) == Partial(rt, c, DONE_4)
  {
    DefaultStep(rt, c, DONE_3, "ignore_commands");
    assert DefaultOf("ignore_commands") == Int(0);
    DefaultStep(rt, c, DONE_3 + {"ignore_commands"}, "views");
    assert DefaultOf("views") == List([]);
    ConnectionStep(rt, c, DONE_3 + {"ignore_commands"} + {"views"}, "connection_leech");
  }

  lemma FourthDefaults(rt: Section, c: InitContext)
    ensures var r := InsertPreserveType(Partial(rt, c, DONE_4), "connection_seed", VarOf(c.variables, "connection_seed"));
            var r := InsertPreserveCopy(r, "choke_heuristics.up.leech", Str(""));
            InsertPreserveCopy(r, "choke_heuristics.up.seed", Str("")) == Partial(rt, c, DONE_5)
  {
    ConnectionStep(rt, c, DONE_4, "connection_seed");
    DefaultStep(rt, c, DONE_4 + {"connection_seed"}, "choke_heuristics.up.leech");
    assert DefaultOf("choke_heuristics.up.leech") == Str("");
    DefaultStep(rt, c, DONE_4 + {"connection_seed"} + {"choke_heuristics.up.leech"}, "choke_heuristics.up.seed");
    assert DefaultOf("choke_heuristics.up.seed") == Str("");
  }

  lemma LastDefaults(rt: Section, c: InitContext)
    ensures var r := InsertPreserveCopy(Partial(rt, c, DONE_5), "choke_heuristics.down.leech", Str(""));
            InsertPreserveCopy(r, "choke_heuristics.down.seed", Str("")) == InitializedSection(rt, c)
  {
    DefaultStep(rt, c, DONE_5, "choke_heuristics.down.leech");
    assert DefaultOf("choke_heuristics.down.leech") == Str("");
    DefaultStep(rt, c, DONE_5 + {"choke_heuristics.down.leech"}, "choke_heuristics.down.seed");
    assert DefaultOf("choke_heuristics.down.seed") == Str("");
  }

  /** The state reset rule: an unusable state resets all three; else only bad clock fields reset. */
  lemma InitStateRule(rt: Section, c: InitContext)
    ensures var r := InitializedSection(rt, c);
      && (StateInvalid(rt) ==>
            r["state"] == Int(BoolValue(c.start)) && r["state_changed"] == Int(c.now) &&
            r["state_counter"] == Int(0))
      && (!StateInvalid(rt) ==> r["state"] == rt["state"])
      && (!StateInvalid(rt) && ClockInvalid(rt, c.now) ==>
            r["state_changed"] == Int(c.now) && r["state_counter"] == Int(0))
      && (!StateInvalid(rt) && !ClockInvalid(rt, c.now) ==>
            r["state_changed"] == rt["state_changed"] && r["state_counter"] == rt["state_counter"])
  {
  }

  /** Insert-if-absent defaults: a stored value of any type is kept. */
  lemma InitDefaults(rt: Section, c: InitContext, k: string)
    requires k in PRESERVED_KEYS
    ensures k in InitializedSection(rt, c)
    ensures InitializedSection(rt, c)[k] == if k in rt then rt[k] else DefaultOf(k)
  {
    DefaultsAreSeparate(k);
    assert InitEntry(rt, c, k) == if k in rt then rt[k] else DefaultOf(k);
  }

  /** loaded_file is always overwritten: the URI for a local file, else "". */
  lemma InitLoadedFile(rt: Section, c: InitContext)
    ensures InitializedSection(rt, c)["loaded_file"] == Str(if c.isFile then c.uri else "")
  {
  }

  /** No defaulted key is a state, connection, loaded_file or key entry. */
  lemma DefaultsAreSeparate(k: string)
    requires k in PRESERVED_KEYS
    ensures k !in STATE_KEYS && k !in CONNECTION_KEYS && k != "loaded_file" && k != "key"
    ensures k in InitKeys()
  {
  }


  /** The tracker key is kept when stored, else generated non-zero and persisted. */
  lemma InitKey(rt: Section, c: InitContext)
    ensures var r := InitializedSection(rt, c);
      && (HasKeyValue(rt, "key") ==> r["key"] == rt["key"])
      && (!HasKeyValue(rt, "key") ==>
            r["key"].Int? && 1 <= r["key"].i <= 0xFFFF_FFFE && r["key"] == Int(GeneratedKey(c.rand)))
  {
  }

  /** Connection classes take the type of the factory's variables, keeping a stored value of that type. */
  lemma InitConnections(rt: Section, c: InitContext, k: string)
    requires k in CONNECTION_KEYS
    ensures var r := InitializedSection(rt, c);
      && SameType(r[k], VarOf(c.variables, k))
      && (k in rt && SameType(rt[k], VarOf(c.variables, k)) ==> r[k] == rt[k])
      && (!(k in rt && SameType(rt[k], VarOf(c.variables, k))) ==> r[k] == VarOf(c.variables, k))
  {
  }

  /** Keys `initialize_rtorrent` does not write are kept as loaded. */
  lemma InitFrame(rt: Section, c: InitContext, k: string)
    requires k in rt && k !in InitKeys()
    ensures k in InitializedSection(rt, c) && InitializedSection(rt, c)[k] == rt[k]
  {
  }

  /** The priority handed to `d.priority.set`: the stored value modulo 4 (C++ remainder), else 2. */
  function PriorityOf(rt: Section): (p: int64)
    ensures -3 <= p <= 3
    ensures !HasKeyValue(rt, "priority") ==> p == 2
    ensures HasKeyValue(rt, "priority") && rt["priority"].i >= 0 ==> p == rt["priority"].i % 4
    ensures HasKeyValue(rt, "priority") && rt["priority"].i < 0 ==> p == -((-(rt["priority"].i as int)) % 4)
  {
    if HasKeyValue(rt, "priority") then TruncRem(rt["priority"].i, 4) else 2
  }

  /** The tracker key installed on the download: the stored one, else a generated one. */
  function TrackerKey(rt: Section, rand: nat): int64 {
    if HasKeyValue(rt, "key") then rt["key"].i else GeneratedKey(rand)
  }

  /** The engine calls `initialize_rtorrent` makes, in order. */
  function InitActions(rt: Section, rand: nat): seq<Action> {
    [Call("d.priority.set", Lit(Int(PriorityOf(rt))))] + [SetTrackerKey(TrackerKey(rt, rand))]
    + ProgressActions(rt)
  }

  /** The transfer totals, chunk progress and throttle restored from the section. */
  function ProgressActions(rt: Section): seq<Action> {
    (if HasKeyValue(rt, "total_uploaded") then [SetTotalUploaded(rt["total_uploaded"].i)] else [])
    + (if HasKeyValue(rt, "total_downloaded") then [SetTotalDownloaded(rt["total_downloaded"].i)] else [])
    + (if HasKeyValue(rt, "chunks_done") && HasKeyValue(rt, "chunks_wanted")
       then [SetChunksDone(rt["chunks_done"].i, rt["chunks_wanted"].i)] else [])
    + [SetThrottleName(if HasKeyString(rt, "throttle_name") then rt["throttle_name"].s else "")]
  }


  /** The persisted tracker key agrees with the one installed on the download. */
  lemma KeyPersisted(rt: Section, c: InitContext)
    ensures InitActions(rt, c.rand)[1] == SetTrackerKey(TrackerKey(rt, c.rand))
    ensures InitializedSection(rt, c)["key"] == Int(TrackerKey(rt, c.rand))
    ensures TrackerKey(rt, c.rand) != 0 || HasKeyValue(rt, "key")
  {
  }

  /** A field that does not hold a string is set to "" (CustomFieldsRule states the resulting section). */
  function StringField(m: Section, k: string): Section {
    if HasKeyString(m, k) then m else m[k := Str("")]
  }

  /** `custom1`..`custom5` become "" unless they already hold a string. */
  function WithCustomFields(rt: Section): Section {
    StringField(StringField(StringField(StringField(StringField(
      rt, "custom1"), "custom2"), "custom3"), "custom4"), "custom5")
  }

  /** Each custom field ends up a string, the stored one when there was one; other keys are kept. */
  lemma CustomFieldsRule(rt: Section, k: string)
    ensures var r := WithCustomFields(rt);
      && (k in r <==> k in rt || k in CUSTOM_KEYS)
      && (k in CUSTOM_KEYS ==> HasKeyString(r, k))
      && (k in CUSTOM_KEYS && HasKeyString(rt, k) ==> r[k] == rt[k])
      && (k in CUSTOM_KEYS && !HasKeyString(rt, k) ==> r[k] == Str(""))
      && (k in rt && k !in CUSTOM_KEYS ==> r[k] == rt[k])
  {
  }


  /** The "rtorrent_meta_download" map stashed in a magnet placeholder for later replay. */
  function MetaStash(start: bool, printLog: bool, commands: seq<string>): Value {
    Dict(map["start" := Int(BoolValue(start)),
             "print_log" := Int(BoolValue(printLog)),
             "commands" := List(StrList(commands))])
  }

  /** `download_factory_add_stream`: a sidecar that opened and parsed replaces the key. */
  function AddStream(root: Section, key: string, sidecar: Option<Value>): Section {
    if sidecar.Some? then root[key := sidecar.value] else root
  }

  /** What a section starts from after the sidecar-or-erase step and `insert_preserve_copy`. */
  function SectionSource(root: Section, key: string, session: bool, sidecar: Option<Value>, eraseOutside: bool): Value {
    if session && sidecar.Some? then sidecar.value
    else if !session && eraseOutside then Dict(map[])
    else if key in root then root[key]
    else Dict(map[])
  }

  /**
   * The document root as `receive_success` prepares it before the bookkeeping
   * section is initialized: the meta stash for a magnet placeholder, the
   * session sidecars (or, outside a session, the dropped "rtorrent" section),
   * and both sections inserted when absent.
   */
  function PrepareRoot(root: Section, isMeta: bool, start: bool, printLog: bool,
                       commands: seq<string>, session: bool,
                       rtorrentSidecar: Option<Value>, resumeSidecar: Option<Value>): (r: Section)
    ensures "rtorrent" in r && "libtorrent_resume" in r
  {
    var r1 := if isMeta then root["rtorrent_meta_download" := MetaStash(start, printLog, commands)] else root;
    var r2 := if session then AddStream(AddStream(r1, "rtorrent", rtorrentSidecar), "libtorrent_resume", resumeSidecar)
              else r1 - {"rtorrent"};
    var r3 := InsertPreserveCopy(r2, "rtorrent", Dict(map[]));
    InsertPreserveCopy(r3, "libtorrent_resume", Dict(map[]))
  }

  /**
   * The prepared root key by key: exactly the two sections (and the stash)
   * are added, outside a session the bookkeeping section starts empty, and
   * every other key is left alone.
   */
  lemma PrepareRootRule(root: Section, isMeta: bool, start: bool, printLog: bool,
                        commands: seq<string>, session: bool,
                        rtorrentSidecar: Option<Value>, resumeSidecar: Option<Value>)
    ensures var r := PrepareRoot(root, isMeta, start, printLog, commands, session, rtorrentSidecar, resumeSidecar);
      && r.Keys == root.Keys + {"rtorrent", "libtorrent_resume"} +
           (if isMeta then {"rtorrent_meta_download"} else {})
      && (!session ==> r["rtorrent"] == Dict(map[]))
      && r["rtorrent"] == SectionSource(root, "rtorrent", session, rtorrentSidecar, true)
      && r["libtorrent_resume"] == SectionSource(root, "libtorrent_resume", session, resumeSidecar, false)
      && (isMeta ==> r["rtorrent_meta_download"] == MetaStash(start, printLog, commands))
      && (forall k :: k in root && k !in {"rtorrent", "libtorrent_resume", "rtorrent_meta_download"} ==>
            r[k] == root[k])
      && (!isMeta && "rtorrent_meta_download" in root ==>
            r["rtorrent_meta_download"] == root["rtorrent_meta_download"])
  {
  }
}
