/**
 * The engine side of download creation as seen by the factory: the global
 * settings it reads and the calls it makes against the new download, kept
 * as a recorded log of actions rather than performed.
 */
module Engine {

  import opened Bencode

  /** An argument of a command: a literal value or the current value of a global setting. */
  datatype Arg = Lit(v: Value) | Setting(name: string)

  datatype Action =
    | Fetch(uri: string)                            // HttpQueue::insert of the URI
    | Call(command: string, arg: Arg)               // rpc::call_command on the new download
    | SetTrackerKey(key: int64)                     // tracker_list()->set_key
    | SetTotalUploaded(bytes: int64)                // up_rate()->set_total
    | SetTotalDownloaded(bytes: int64)              // down_rate()->set_total
    | SetChunksDone(done: int64, wanted: int64)     // set_chunks_done
    | SetThrottleName(name: string)                 // set_throttle_name
    | DisableUdpTrackers                            // enable_udp_trackers(false)
    | SplitFiles(size: int64)                       // file_split_all with the configured suffix
    | ResumeLoad(part: string)                      // resume_load_addresses / _file_priorities / _tracker_settings
    | RunCommand(text: string)                      // parse_command_multiple_std on the new download
    | Event(name: string)                           // commands.call_catch of a download event

  /** The global values `receive_success` branches on. */
  datatype Settings = Settings(
    complete: bool,        // d.complete on the new download is non-zero
    minPeersSeed: int64,   // throttle.min_peers.seed
    maxPeersSeed: int64,   // throttle.max_peers.seed
    useUdp: bool,          // trackers.use_udp
    splitSize: int64)      // system.file.split_size

  /** The throttle, slot, peer, numwant, file-size, UDP and split calls of `receive_success`, in order. */
  function SettingsActions(s: Settings): seq<Action>
  {
    [ Call("d.uploads_min.set", Setting("throttle.min_uploads")),
      Call("d.uploads_max.set", Setting("throttle.max_uploads")),
      Call("d.downloads_min.set", Setting("throttle.min_downloads")),
      Call("d.downloads_max.set", Setting("throttle.max_downloads")),
      Call("d.peers_min.set", Setting("throttle.min_peers.normal")),
      Call("d.peers_max.set", Setting("throttle.max_peers.normal")),
      Call("d.tracker_numwant.set", Setting("trackers.numwant")),
      Call("d.max_file_size.set", Setting("system.file.max_size")) ]
    + (if s.complete && s.minPeersSeed >= 0
       then [Call("d.peers_min.set", Setting("throttle.min_peers.seed"))] else [])
    + (if s.complete && s.maxPeersSeed >= 0
       then [Call("d.peers_max.set", Setting("throttle.max_peers.seed"))] else [])
    + (if !s.useUdp then [DisableUdpTrackers] else [])
    + (if s.splitSize >= 0 then [SplitFiles(s.splitSize)] else [])
  }
}
