/**
 * Setting up the file-system watches (`watch.ts`) and the domain watchers for
 * containers, networks, images and DNS built on them. A watch is described
 * by the request handed to the fs plugin; delivering an event is a function
 * of the event and of how the user's callback finishes.
 */
module Watchers {
  import opened Wrappers
  import opened WatchEvents

  datatype BaseDirectory = Data

  /** The arguments given to the plugin's `watch`: path, then `{baseDir, delayMs, recursive}`. */
  datatype WatchRequest = WatchRequest(path: string, baseDir: Option<BaseDirectory>, delayMs: int, recursive: bool)

  const DefaultDelayMs: int := 1000

  /** `watchContainerDataDir`: `${CONTAINER_APP_DATA_DIR}/${path}` under the Data base directory. */
  function ContainerDataDirRequest(appDataDir: string, path: string, delayMs: Option<int>, recursive: Option<bool>)
    : (r: WatchRequest)
    ensures r.path == appDataDir + "/" + path && r.baseDir == Some(Data)
    ensures r.delayMs == delayMs.GetOr(1000) && r.recursive == recursive.GetOr(false)
  {
    WatchRequest(appDataDir + "/" + path, Some(Data), delayMs.GetOr(DefaultDelayMs), recursive.GetOr(false))
  }

  /** `watchDnsResolverDir`: the absolute `/etc/resolver`, no base directory. */
  function ResolverDirRequest(delayMs: Option<int>, recursive: Option<bool>): (r: WatchRequest)
    ensures r.path == "/etc/resolver" && r.baseDir.None?
    ensures r.delayMs == delayMs.GetOr(1000) && r.recursive == recursive.GetOr(false)
  {
    WatchRequest("/etc/resolver", None, delayMs.GetOr(DefaultDelayMs), recursive.GetOr(false))
  }

  // ---------------------------------------------------------------------------
  // Error containment in `createManagedWatcher`
  // ---------------------------------------------------------------------------

  /** How a callback invocation finished. */
  datatype Completion = Returned | Threw(error: string)

  /** A console error line: the message and the error printed after it. */
  datatype LogLine = LogLine(message: string, error: string)

  /** What one delivery leaves behind: whether it threw onward, and what it logged. */
  datatype Delivery = Delivery(propagated: Option<string>, logged: seq<LogLine>)

  /** The plugin-facing callback of `createManagedWatcher`: a throwing user callback is logged, never rethrown. */
  function ManagedDelivery(relativePath: string, c: Completion): (d: Delivery)
    ensures d.propagated.None?
    ensures c.Returned? ==> d.logged == []
    ensures c.Threw? ==> d.logged == [LogLine("Error in watcher callback for " + relativePath + ":", c.error)]
  {
    match c
    case Returned => Delivery(None, [])
    case Threw(e) => Delivery(None, [LogLine("Error in watcher callback for " + relativePath + ":", e)])
  }

  /** Setting the watch up: a synchronous failure is logged and rethrown; success returns the unwatch handle. */
  function ManagedSetup(relativePath: string, setup: Result<int, string>): (r: (Result<int, string>, seq<LogLine>))
    ensures r.0 == setup
    ensures setup.Ok? ==> r.1 == []
    ensures setup.Err? ==> r.1 == [LogLine("Failed to create watcher for " + relativePath + ":", setup.error)]
  {
    match setup
    case Ok(h) => (Ok(h), [])
    case Err(e) => (Err(e), [LogLine("Failed to create watcher for " + relativePath + ":", e)])
  }

  // ---------------------------------------------------------------------------
  // The domain watchers
  // ---------------------------------------------------------------------------

  datatype Domain = Containers | Networks | Images | Dns | Resolver

  /** The path each domain watches under the container data directory (the resolver watch is absolute). */
  function DomainPath(w: Domain): string
    requires w != Resolver
  {
    match w
    case Containers => "containers"
    case Networks => "networks"
    case Images => "state.json"
    case Dns => "dns"
  }

  /** Each watcher's own default delay. */
  function DomainDefaultDelay(w: Domain): (d: int)
    ensures d == (if w == Containers || w == Images then 2000 else 1000)
  {
    match w
    case Containers => 2000
    case Networks => 1000
    case Images => 2000
    case Dns => 1000
    case Resolver => 1000
  }

  /** Which events reach the user's callback. */
  predicate Fires(w: Domain, e: WatchEvent) {
    match w
    case Containers => IsCreateEvent(e) || IsRemoveEvent(e) || IsDataModifyEvent(e)
    case Networks => IsCreateEvent(e) || IsRemoveEvent(e)
    case Images => IsDataModifyEvent(e)
    case Dns => IsDataModifyEvent(e) || IsCreateEvent(e) || IsRemoveEvent(e)
    case Resolver => IsDataModifyEvent(e) || IsCreateEvent(e) || IsRemoveEvent(e)
  }

  /** The request each domain watcher makes, its delay argument defaulting to the domain's own. */
  function DomainRequest(w: Domain, appDataDir: string, delayMs: Option<int>): (r: WatchRequest)
    ensures r.delayMs == delayMs.GetOr(DomainDefaultDelay(w)) && !r.recursive
    ensures w == Resolver ==> r.path == "/etc/resolver" && r.baseDir.None?
    ensures w != Resolver ==> r.path == appDataDir + "/" + DomainPath(w) && r.baseDir == Some(Data)
  {
    var d := Some(delayMs.GetOr(DomainDefaultDelay(w)));
    if w == Resolver then ResolverDirRequest(d, None)
    else ContainerDataDirRequest(appDataDir, DomainPath(w), d, None)
  }

  /** One event through a domain watcher's handler. */
  datatype Handled = Handled(called: bool, argument: Option<WatchEvent>, delivery: Delivery)

  function DomainLogMessage(w: Domain): string {
    match w
    case Containers => "Error in container changes callback:"
    case Networks => "Error in network changes callback:"
    case Images => "Error in image changes callback:"
    case Dns => "Error in DNS changes callback:"
    case Resolver => "Error in DNS resolver callback:"
  }

  /**
   * The handler a domain watcher registers: if the event passes the filter it
   * calls the user's callback (with the event only for the resolver watcher)
   * and logs, rather than rethrows, whatever the callback throws.
   */
  function HandleEvent(w: Domain, e: WatchEvent, c: Completion): (h: Handled)
    ensures h.called <==> Fires(w, e)
    ensures h.delivery.propagated.None?
    ensures h.called && w == Resolver ==> h.argument == Some(e)
    ensures w != Resolver ==> h.argument.None?
    ensures !h.called || c.Returned? ==> h.delivery.logged == []
  {
    if !Fires(w, e) then Handled(false, None, Delivery(None, []))
    else
      var logged := match c
        case Returned => []
        case Threw(err) => [LogLine(DomainLogMessage(w), err)];
      Handled(true, if w == Resolver then Some(e) else None, Delivery(None, logged))
  }

  /** What the plugin sends, against each watcher's filter. */
  lemma {:induction false} DomainFilters(k: Kind, paths: seq<string>)
    ensures Fires(Containers, Encode(k, paths)) <==> k.Create? || k.Remove? || k == Modify("data")
    ensures Fires(Networks, Encode(k, paths)) <==> k.Create? || k.Remove?
    ensures Fires(Images, Encode(k, paths)) <==> k == Modify("data")
    ensures Fires(Dns, Encode(k, paths)) <==> k.Create? || k.Remove? || k == Modify("data")
    ensures Fires(Resolver, Encode(k, paths)) == Fires(Dns, Encode(k, paths))
  {
    GuardsMatchKinds(k, paths);
  }

  /** No watcher reacts to access or metadata-modify events. */
  lemma {:induction false} NoWatcherSeesAccess(w: Domain, a: string, paths: seq<string>)
    ensures !Fires(w, Encode(Access(a), paths))
    ensures !Fires(w, Encode(Modify("metadata"), paths))
  {
    GuardsMatchKinds(Access(a), paths);
    GuardsMatchKinds(Modify("metadata"), paths);
    assert "metadata" != "data";
  }

  /** The network watcher fires on a subset of the container watcher's events. */
  lemma {:induction false} NetworkFiresOnlyWhenContainersFire(e: WatchEvent)
    ensures Fires(Networks, e) ==> Fires(Containers, e)
    ensures Fires(Images, e) ==> Fires(Containers, e)
    ensures Fires(Dns, e) <==> Fires(Containers, e)
  {
  }
}
