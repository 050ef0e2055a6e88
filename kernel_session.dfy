/** The Kernel: binds a client to one Jupyter kernel session. Construction creates the
    readiness signal once and then requests a kernel: with a kernel model it looks for a
    running session at its path and never creates one; without one it resolves or mints
    the path through the cookie jar and starts a new session there. A status listener on
    the kernel connection then keeps the status, the ids and readiness up to date. */
module KernelSession {
  import opened Wrappers
  import opened Services
  import opened KernelPath
  import opened KernelStatus
  import opened KernelDiagnostics

  /** The promise behind `ready`: pending until resolved, and resolving it again changes nothing. */
  class ReadySignal {
    var resolved: bool

    constructor ()
      ensures !resolved
    {
      resolved := false;
    }

    method Resolve()
      modifies this`resolved
      ensures resolved
    {
      resolved := true;
    }
  }

  /** What `execute` hands back: a KernelExecutor bound to the connection, to which `code` was sent. */
  datatype Executor = Executor(connection: KernelHandle, code: string)

  /** How a kernel request ends: done, rejected by `startNew`, or aborted reading `kernel`
      of a session that was never set. */
  datatype RequestResult = Completed | StartRejected | SessionUnset

  class Kernel {
    const kernelName: string
    const kernelType: KernelType
    const kernelSpecName: string
    /** Created once by the constructor; no member replaces it. */
    const ready: ReadySignal

    var path: Option<string>
    var session: Option<Session>
    var sessionManager: SessionManager?
    var connection: Option<KernelHandle>
    var sessionId: Option<string>
    var connectionStatus: Option<ConnectionStatus>
    var clientId: Option<string>
    var id: Option<string>
    /** Whether the status listener has been connected to the kernel connection. */
    var listening: bool
    /** The kernel connections asked to shut down, and whether the connection was disposed. */
    ghost var shutdownRequests: seq<KernelHandle>
    var disposed: bool

    /** The fields the status handler writes. */
    function Status(): StatusState
      reads this, ready
    {
      StatusState(connectionStatus, clientId, id, ready.resolved)
    }

    /** The state right after `initReady`, before the kernel request has done anything
        (the path aside, which requestKernel reads on its attach branch). */
    ghost predicate Blank()
      reads this, ready
    {
      && session == None && sessionManager == null && connection == None
      && sessionId == None && Status() == Unset && !listening
      && shutdownRequests == [] && !disposed
    }

    /** Attach only: one refresh, then a search of the running sessions for the current
        path, and a connection to the first match if there is one. */
    ghost predicate Searched(server: Server)
      reads this, sessionManager
      requires sessionManager != null
    {
      var hit := FirstWithPath(server.running, path);
      && sessionManager.calls == [Refreshed] + (if hit.Some? then [ConnectedTo(server.running[hit.value])] else [])
      && session == (if hit.Some? then Some(server.running[hit.value]) else None)
    }

    /** Create only: the path is resolved or minted through the cookie named after the
        kernel-spec name, then exactly one startNew is made at that path. */
    ghost predicate Created(before: map<string, string>, after: map<string, string>, server: Server, uuid: string)
      reads this, sessionManager
      requires sessionManager != null
    {
      var name := CookieName(kernelSpecName);
      var resolved := ResolvePath(Lookup(before, name), uuid);
      var request := StartRequest(kernelName, resolved.path, kernelType, kernelSpecName);
      && path == Some(resolved.path)
      && after == Persist(before, name, resolved)
      && sessionManager.calls == [Started(request)]
      && session == server.startNew(request)
    }

    /** The session's kernel becomes the connection; with a connection, the session id is
        recorded, the first status update made and the listener connected. */
    ghost predicate Adopted()
      reads this, ready
    {
      && connection == (if session.Some? then session.value.kernel else None)
      && (connection.None? ==> sessionId == None && Status() == Unset && !listening)
      && (connection.Some? ==>
            && session.Some? && sessionId == Some(session.value.id) && listening
            && Status() == Step(Unset, Initial(connection.value)))
    }

    /** The state a kernel request leaves, given the kernel model, the cookie jar before
        and after, the server's answers and the uuid offered for minting. */
    ghost predicate Requested(kernelModel: Option<KernelModel>, before: map<string, string>,
                              after: map<string, string>, server: Server, uuid: string)
      reads this, ready, sessionManager
    {
      && sessionManager != null
      && sessionManager.server == server && sessionManager.running == server.running
      && (if kernelModel.Some? then Searched(server) && after == before
          else Created(before, after, server, uuid))
      && Adopted()
      && shutdownRequests == [] && !disposed
    }

    /** `new Kernel(props)`: `initReady`, then `requestKernel(kernelModel)` run to its end.
        The path is still unset when the attach branch searches for it, so that branch
        never finds a session and the Kernel is left without a connection. */
    constructor (kernelName: string, kernelType: KernelType, kernelSpecName: string,
                 kernelModel: Option<KernelModel>, cookies: CookieStore, server: Server, uuid: string)
      modifies cookies
      ensures this.kernelName == kernelName && this.kernelType == kernelType
      ensures this.kernelSpecName == kernelSpecName
      ensures fresh(ready) && fresh(sessionManager)
      ensures Requested(kernelModel, old(cookies.entries), cookies.entries, server, uuid)
      ensures kernelModel.Some? ==>
        path == None && session == None && connection == None && !ready.resolved
    {
      this.kernelName := kernelName;
      this.kernelType := kernelType;
      this.kernelSpecName := kernelSpecName;
      ready := new ReadySignal();
      path, session, sessionManager, connection := None, None, null, None;
      sessionId, connectionStatus, clientId, id := None, None, None, None;
      listening, shutdownRequests, disposed := false, [], false;
      new;
      var _ := RequestKernel(kernelModel, cookies, server, uuid);
    }

    /** requestKernel with its awaits taken as sequential steps. */
    method RequestKernel(kernelModel: Option<KernelModel>, cookies: CookieStore, server: Server, uuid: string)
      returns (r: RequestResult)
      requires Blank()
      modifies this, ready, cookies
      ensures fresh(sessionManager)
      ensures Requested(kernelModel, old(cookies.entries), cookies.entries, server, uuid)
      ensures kernelModel.Some? ==> path == old(path)
      ensures r == Completed <==> session.Some?
      ensures r == StartRejected <==> kernelModel.None? && session.None?
    {
      sessionManager := new SessionManager(server);
      if kernelModel.Some? {
        sessionManager.RefreshRunning();
        var hit := FirstWithPath(sessionManager.running, path);
        if hit.Some? {
          var s := sessionManager.ConnectTo(sessionManager.running[hit.value]);
          session := Some(s);
        }
      } else {
        StartSession(cookies, uuid);
        if session.None? {
          return StartRejected;
        }
      }
      if session.None? {
        return SessionUnset;
      }
      AdoptSession();
      r := Completed;
    }

    /** The create branch: resolve or mint the path (`!path` counts an empty cookie as
        absent), write a minted path to the cookie jar, then start a session there. */
    method StartSession(cookies: CookieStore, uuid: string)
      requires sessionManager != null && sessionManager.calls == []
      modifies this`path, this`session, sessionManager, cookies
      ensures sessionManager.server == old(sessionManager.server) && sessionManager.running == old(sessionManager.running)
      ensures Created(old(cookies.entries), cookies.entries, sessionManager.server, uuid)
    {
      var name := CookieName(kernelSpecName);
      var stored := cookies.Get(name);
      var p: string;
      if stored.None? || stored.value == "" {
        p := MintedPathPrefix + uuid;
        cookies.Set(name, p);
      } else {
        p := stored.value;
      }
      path := Some(p);
      session := sessionManager.StartNew(StartRequest(kernelName, p, kernelType, kernelSpecName));
    }

    /** Lines that follow the branch: take the session's kernel as the connection and,
        when there is one, record the session id, make the first status update and
        connect the status listener. */
    method AdoptSession()
      requires session.Some? && connection == None && sessionId == None && Status() == Unset && !listening
      modifies this`connection, this`sessionId, this`connectionStatus, this`clientId, this`id, this`listening, ready`resolved
      ensures Adopted()
    {
      connection := session.value.kernel;
      if connection.Some? {
        sessionId := Some(session.value.id);
        connectionStatus := Some(connection.value.connectionStatus);
        UpdateConnectionStatus(connection.value.clientId, connection.value.id);
        listening := true;
      }
    }

    /** The handler shared by the first update and every status event: on `connected`,
        copy the transport's ids and resolve readiness; otherwise change nothing. */
    method UpdateConnectionStatus(transportClientId: string, transportId: string)
      modifies this`clientId, this`id, ready`resolved
      ensures connectionStatus == Some(Connected) ==>
        clientId == Some(transportClientId) && id == Some(transportId) && ready.resolved
      ensures connectionStatus != Some(Connected) ==>
        clientId == old(clientId) && id == old(id) && ready.resolved == old(ready.resolved)
    {
      if connectionStatus == Some(Connected) {
        clientId := Some(transportClientId);
        id := Some(transportId);
        ready.Resolve();
      }
    }

    /** A connectionStatusChanged event from the transport. Without a listener nothing observes it. */
    method OnStatusChange(ev: StatusEvent)
      modifies this`connectionStatus, this`clientId, this`id, ready`resolved
      ensures listening ==> Status() == Step(old(Status()), ev)
      ensures !listening ==> Status() == old(Status())
    {
      if listening {
        connectionStatus := Some(ev.status);
        UpdateConnectionStatus(ev.clientId, ev.id);
      }
    }

    /** An executor on the current connection that has been sent `code`, or none without a connection. */
    method Execute(code: string) returns (r: Option<Executor>)
      ensures r.Some? <==> connection.Some?
      ensures r.Some? ==> r.value.connection == connection.value && r.value.code == code
    {
      if connection.Some? {
        r := Some(Executor(connection.value, code));
      } else {
        r := None;
      }
    }

    /** Asks the session's kernel to shut down and disposes of the connection; reading
        `kernel` of an unset session throws (false). Nothing else changes, in particular
        `connection` still refers to the disposed connection. */
    method Shutdown() returns (ok: bool)
      modifies this`shutdownRequests, this`disposed
      ensures ok <==> session.Some?
      ensures ok ==> (shutdownRequests ==
        old(shutdownRequests) + if session.value.kernel.Some? then [session.value.kernel.value] else [])
      ensures ok ==> disposed == (old(disposed) || connection.Some?)
      ensures !ok ==> shutdownRequests == old(shutdownRequests) && disposed == old(disposed)
    {
      if session.None? {
        return false;
      }
      if session.value.kernel.Some? {
        shutdownRequests := shutdownRequests + [session.value.kernel.value];
      }
      if connection.Some? {
        disposed := true;
      }
      ok := true;
    }

    /** `toJSON` without its `kernelInfo` field: the Kernel's path and ids, each unset until assigned. */
    function ToJSON(): (d: Diagnostics)
      reads this
      ensures d.path == path && d.id == id && d.clientId == clientId && d.sessionId == sessionId
    {
      Diagnostics(path, id, clientId, sessionId)
    }

    /** `toString`: the template over the same four fields, an unset one printing as `undefined`. */
    function ToString(): (r: string)
      reads this
      ensures r == "id:" + Show(id) + " - client_id:" + Show(clientId) + " - session_id:" + Show(sessionId) + " - path:" + Show(path)
    {
      Render(ToJSON())
    }
  }

  /** A Kernel's `toString` reads back as its id, client id, session id and path (each
      `undefined` when unset), provided none of them contains a space. */
  lemma ToStringReadsBack(k: Kernel)
    requires NoSpace(Show(k.id)) && NoSpace(Show(k.clientId)) && NoSpace(Show(k.sessionId)) && NoSpace(Show(k.path))
    ensures ReadDiagnostic(k.ToString()) == Some(Shown(Show(k.id), Show(k.clientId), Show(k.sessionId), Show(k.path)))
  {
    RenderReadsBack(k.ToJSON());
  }

  /** Once a session with a kernel connection is adopted, the client id and kernel id are
      set exactly when readiness is resolved, while the session id is set whatever the
      first status was: with a connection that is not yet `connected`, the session id is
      known before readiness. */
  lemma AdoptedIdsAndReadiness(k: Kernel)
    requires k.Adopted() && k.connection.Some?
    ensures IdsWithReady(k.Status())
    ensures k.sessionId.Some?
    ensures k.connection.value.connectionStatus != Connected ==> !k.ready.resolved
  {
  }
}
