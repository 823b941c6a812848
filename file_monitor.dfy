/** The file-system event handler (`FileMonitorHandler`, agent.py:94-127): it drops
    directory events, filters the file's path, and passes the surviving event on to the
    agent as an event-type string and a path. */
module FileMonitor {
  import opened Wrappers
  import PathFilter

  /** A file-system event as the watcher delivers it; `destPath` is only meaningful for
      a move. */
  datatype FsEvent = FsEvent(srcPath: string, destPath: string, isDirectory: bool)

  datatype EventKind = Created | Modified | Moved

  /** The call `handle_file_event(eventType, path)` that the handler makes. */
  datatype Notification = Notification(eventType: string, path: string)

  function EventTypeName(kind: EventKind): string
  {
    match kind
    case Created => "file_created"
    case Modified => "file_modified"
    case Moved => "file_moved"
  }

  /** The path an event of this kind is filtered on and reported by. */
  function Subject(kind: EventKind, event: FsEvent): string
  {
    if kind == Moved then event.destPath else event.srcPath
  }

  /** What the handler for `kind` does with `event` under the given lists. */
  function Dispatch(kind: EventKind, event: FsEvent, excludePaths: seq<string>,
                    fileExtensions: seq<string>): Option<Notification>
  {
    if !event.isDirectory && PathFilter.Monitored(Subject(kind, event), excludePaths, fileExtensions)
    then Some(Notification(EventTypeName(kind), Subject(kind, event)))
    else None
  }

  /** `on_created` */
  method OnCreated(event: FsEvent, excludePaths: seq<string>, fileExtensions: seq<string>)
    returns (n: Option<Notification>)
    ensures n.Some? <==> !event.isDirectory && PathFilter.Monitored(event.srcPath, excludePaths, fileExtensions)
    ensures n.Some? ==> n.value == Notification("file_created", event.srcPath)
    ensures n == Dispatch(Created, event, excludePaths, fileExtensions)
  {
    n := None;
    if !event.isDirectory {
      var ok := PathFilter.ShouldMonitor(event.srcPath, excludePaths, fileExtensions);
      if ok {
        n := Some(Notification("file_created", event.srcPath));
      }
    }
  }

  /** `on_modified` */
  method OnModified(event: FsEvent, excludePaths: seq<string>, fileExtensions: seq<string>)
    returns (n: Option<Notification>)
    ensures n.Some? <==> !event.isDirectory && PathFilter.Monitored(event.srcPath, excludePaths, fileExtensions)
    ensures n.Some? ==> n.value == Notification("file_modified", event.srcPath)
    ensures n == Dispatch(Modified, event, excludePaths, fileExtensions)
  {
    n := None;
    if !event.isDirectory {
      var ok := PathFilter.ShouldMonitor(event.srcPath, excludePaths, fileExtensions);
      if ok {
        n := Some(Notification("file_modified", event.srcPath));
      }
    }
  }

  /** `on_moved`: the destination decides and is reported. */
  method OnMoved(event: FsEvent, excludePaths: seq<string>, fileExtensions: seq<string>)
    returns (n: Option<Notification>)
    ensures n.Some? <==> !event.isDirectory && PathFilter.Monitored(event.destPath, excludePaths, fileExtensions)
    ensures n.Some? ==> n.value == Notification("file_moved", event.destPath)
    ensures n == Dispatch(Moved, event, excludePaths, fileExtensions)
  {
    n := None;
    if !event.isDirectory {
      var ok := PathFilter.ShouldMonitor(event.destPath, excludePaths, fileExtensions);
      if ok {
        n := Some(Notification("file_moved", event.destPath));
      }
    }
  }

  // ---------------------------------------------------------------------------
  // Properties of the dispatch
  // ---------------------------------------------------------------------------

  /** Directory events never reach the agent. */
  lemma DirectoriesNeverDispatched(kind: EventKind, event: FsEvent, excludePaths: seq<string>,
                                   fileExtensions: seq<string>)
    requires event.isDirectory
    ensures Dispatch(kind, event, excludePaths, fileExtensions).None?
  {
  }

  /** A move's source path plays no part: two moves to the same destination are
      handled alike, and a dispatched move names its destination. */
  lemma MoveDecidedByDestination(e1: FsEvent, e2: FsEvent, excludePaths: seq<string>,
                                 fileExtensions: seq<string>)
    requires e1.destPath == e2.destPath && e1.isDirectory == e2.isDirectory
    ensures Dispatch(Moved, e1, excludePaths, fileExtensions) == Dispatch(Moved, e2, excludePaths, fileExtensions)
    ensures Dispatch(Moved, e1, excludePaths, fileExtensions).Some? ==>
      Dispatch(Moved, e1, excludePaths, fileExtensions).value.path == e1.destPath
  {
  }

  /** The three handlers differ only in the event-type string and, for a move, the path:
      a file event whose source and destination agree is passed on by all or by none. */
  lemma HandlersAgree(event: FsEvent, excludePaths: seq<string>, fileExtensions: seq<string>)
    requires event.srcPath == event.destPath
    ensures Dispatch(Created, event, excludePaths, fileExtensions).Some?
        == Dispatch(Modified, event, excludePaths, fileExtensions).Some?
        == Dispatch(Moved, event, excludePaths, fileExtensions).Some?
  {
  }

  /** The event-type strings are distinct, so the agent can tell the handlers apart. */
  lemma EventTypeNamesDistinct(k1: EventKind, k2: EventKind)
    ensures EventTypeName(k1) == EventTypeName(k2) <==> k1 == k2
  {
  }
}
