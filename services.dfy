/** The collaborators a Kernel talks to, reduced to what the Kernel observes of them:
    the browser's cookie jar, the Jupyter server's session registry (SessionManager)
    and the transport's kernel connections. */
module Services {
  import opened Wrappers

  /** A transport connection status as @jupyterlab/services declares it. */
  datatype ConnectionStatus = Connected | Connecting | Disconnected

  /** The kernel model a caller may hand over; the Kernel only tests whether one is present. */
  datatype KernelModel = KernelModel(id: string, name: string)

  /** The kind of document a session is opened for. */
  datatype KernelType = Notebook | File

  /** A kernel connection as the session hands it over: the kernel's id, this
      connection's client id and the status the transport reports at that moment. */
  datatype KernelHandle = KernelHandle(id: string, clientId: string, connectionStatus: ConnectionStatus)

  /** A session on the server: its id, its path and its kernel connection (absent
      when the session carries no kernel). */
  datatype Session = Session(id: string, path: string, kernel: Option<KernelHandle>)

  /** The options passed to `startNew`: the session's name, path and type, and the name of
      the kernel spec to start (`kernel: { name }`). */
  datatype StartRequest = StartRequest(name: string, path: string, sessionType: KernelType, kernelSpecName: string)

  /** What the server answers: the running sessions it lists, and what `startNew`
      yields for a request (None when the server rejects it). */
  datatype Server = Server(running: seq<Session>, startNew: StartRequest -> Option<Session>)

  /** The requests a Kernel makes of its SessionManager, in the order it makes them. */
  datatype DirectoryCall = Refreshed | ConnectedTo(model: Session) | Started(request: StartRequest)

  /** lumino's `find` over the running sessions, keyed on the path: the index of the
      first session whose path equals `path`. An unset path (None) equals no session's
      path, as `undefined === s` is false for every string `s`. */
  function FirstWithPath(running: seq<Session>, path: Option<string>): (r: Option<nat>)
    ensures r.Some? ==> r.value < |running| && path == Some(running[r.value].path)
    ensures r.Some? ==> forall j :: 0 <= j < r.value ==> path != Some(running[j].path)
    ensures r.None? ==> forall j :: 0 <= j < |running| ==> path != Some(running[j].path)
  {
    if running == [] then None
    else if path == Some(running[0].path) then Some(0)
    else match FirstWithPath(running[1..], path)
      case None => None
      case Some(i) => Some(i + 1)
  }

  /** A search for an unset path finds no session, whatever is running. */
  lemma UnsetPathMatchesNothing(running: seq<Session>)
    ensures FirstWithPath(running, None) == None
  {
  }

  /** getCookie over the cookie jar: the value stored under `name`, or None when no
      cookie has that name. */
  function Lookup(cookies: map<string, string>, name: string): (r: Option<string>)
    ensures r.Some? <==> name in cookies
    ensures r.Some? ==> r.value == cookies[name]
  {
    if name in cookies then Some(cookies[name]) else None
  }

  /** The cookie jar, as a map from cookie name to value. */
  class CookieStore {
    var entries: map<string, string>

    constructor (entries: map<string, string>)
      ensures this.entries == entries
    {
      this.entries := entries;
    }

    /** getCookie: the value stored under `name`, if any. */
    function Get(name: string): Option<string>
      reads this
    {
      Lookup(entries, name)
    }

    /** `document.cookie = name + '=' + value`. */
    method Set(name: string, value: string)
      modifies this
      ensures entries == old(entries)[name := value]
    {
      entries := entries[name := value];
    }
  }

  /** A SessionManager bound to one server, with the registry it loaded and a log
      of the requests made of it. */
  class SessionManager {
    const server: Server
    var running: seq<Session>
    ghost var calls: seq<DirectoryCall>

    /** `new SessionManager(...)` followed by `await ready`: the running sessions are loaded. */
    constructor (server: Server)
      ensures this.server == server && running == server.running && calls == []
    {
      this.server := server;
      running := server.running;
      calls := [];
    }

    method RefreshRunning()
      modifies this
      ensures running == server.running
      ensures calls == old(calls) + [Refreshed]
    {
      running := server.running;
      calls := calls + [Refreshed];
    }

    method ConnectTo(model: Session) returns (s: Session)
      modifies this
      ensures s == model && running == old(running)
      ensures calls == old(calls) + [ConnectedTo(model)]
    {
      s := model;
      calls := calls + [ConnectedTo(model)];
    }

    method StartNew(request: StartRequest) returns (s: Option<Session>)
      modifies this
      ensures s == server.startNew(request) && running == old(running)
      ensures calls == old(calls) + [Started(request)]
    {
      s := server.startNew(request);
      calls := calls + [Started(request)];
    }
  }
}
