/** The Kernel's connection-status handler as a transition function. Each
    connectionStatusChanged event records the new status; a `connected` event also
    copies the transport's client id and kernel id and resolves the readiness signal. */
module KernelStatus {
  import opened Wrappers
  import opened Services

  /** The fields the status handler writes: the recorded status, the client id, the
      kernel id, and whether the readiness signal has been resolved. */
  datatype StatusState = StatusState(status: Option<ConnectionStatus>, clientId: Option<string>, id: Option<string>, ready: bool)

  /** Before any connection: nothing recorded, readiness pending. */
  const Unset := StatusState(None, None, None, false)

  /** One status change, with the client id and kernel id the transport reports when it is handled. */
  datatype StatusEvent = StatusEvent(status: ConnectionStatus, clientId: string, id: string)

  /** The first update, made with the status and ids of the connection the session hands over. */
  function Initial(h: KernelHandle): StatusEvent
  {
    StatusEvent(h.connectionStatus, h.clientId, h.id)
  }

  /** One event: its status is recorded; on `connected` the ids come from the transport and
      readiness is resolved; on any other status the ids and readiness are kept. */
  function Step(st: StatusState, ev: StatusEvent): (r: StatusState)
    ensures r.status == Some(ev.status)
    ensures ev.status == Connected ==> r.clientId == Some(ev.clientId) && r.id == Some(ev.id) && r.ready
    ensures ev.status != Connected ==> r.clientId == st.clientId && r.id == st.id && r.ready == st.ready
  {
    var recorded := st.(status := Some(ev.status));
    if ev.status == Connected then recorded.(clientId := Some(ev.clientId), id := Some(ev.id), ready := true)
    else recorded
  }

  /** The handler applied to each event in turn. */
  function Run(st: StatusState, events: seq<StatusEvent>): StatusState
  {
    if events == [] then st else Step(Run(st, events[..|events| - 1]), events[|events| - 1])
  }

  /** The index of the last `connected` event, if there is one. */
  function LastConnected(events: seq<StatusEvent>): (r: Option<nat>)
    ensures r.Some? ==> r.value < |events| && events[r.value].status == Connected
    ensures r.Some? ==> forall j :: r.value < j < |events| ==> events[j].status != Connected
    ensures r.None? ==> forall j :: 0 <= j < |events| ==> events[j].status != Connected
  {
    if events == [] then None
    else if events[|events| - 1].status == Connected then Some(|events| - 1)
    else LastConnected(events[..|events| - 1])
  }

  /** The client id and kernel id are set exactly when readiness has been resolved. */
  predicate IdsWithReady(st: StatusState)
  {
    (st.clientId.Some? <==> st.ready) && (st.id.Some? <==> st.ready)
  }

  /** Before any connection the ids are unset and readiness is pending. */
  lemma UnsetIdsWithReady()
    ensures IdsWithReady(Unset)
  {
  }

  /** The handler keeps the ids in step with readiness. */
  lemma StepKeepsIdsWithReady(st: StatusState, ev: StatusEvent)
    requires IdsWithReady(st)
    ensures IdsWithReady(Step(st, ev))
  {
  }

  /** From the unset state, after any sequence of events, the ids are set exactly when
      readiness is resolved. */
  lemma {:induction false} RunKeepsIdsWithReady(st: StatusState, events: seq<StatusEvent>)
    requires IdsWithReady(st)
    ensures IdsWithReady(Run(st, events))
  {
    if events != [] {
      RunKeepsIdsWithReady(st, events[..|events| - 1]);
      StepKeepsIdsWithReady(Run(st, events[..|events| - 1]), events[|events| - 1]);
    }
  }

  /** Running two sequences of events one after the other is running their concatenation. */
  lemma {:induction false} RunAppend(st: StatusState, a: seq<StatusEvent>, b: seq<StatusEvent>)
    ensures Run(st, a + b) == Run(Run(st, a), b)
    decreases |b|
  {
    if b == [] {
      assert a + b == a;
    } else {
      var n := |b| - 1;
      assert (a + b)[..|a + b| - 1] == a + b[..n];
      assert (a + b)[|a + b| - 1] == b[n];
      RunAppend(st, a, b[..n]);
    }
  }

  /** After a non-empty sequence of events, the recorded status is that of the last one. */
  lemma RunRecordsLastStatus(st: StatusState, events: seq<StatusEvent>)
    requires events != []
    ensures Run(st, events).status == Some(events[|events| - 1].status)
  {
  }

  /** The client id and kernel id are those of the last `connected` event, or unchanged
      when no event was `connected`. */
  lemma {:induction false} RunIdsFollowLastConnected(st: StatusState, events: seq<StatusEvent>)
    ensures LastConnected(events).Some? ==>
      Run(st, events).clientId == Some(events[LastConnected(events).value].clientId) &&
      Run(st, events).id == Some(events[LastConnected(events).value].id)
    ensures LastConnected(events).None? ==>
      Run(st, events).clientId == st.clientId && Run(st, events).id == st.id
  {
    if events != [] {
      var init := events[..|events| - 1];
      RunIdsFollowLastConnected(st, init);
      if events[|events| - 1].status != Connected {
        assert LastConnected(events) == LastConnected(init);
        if LastConnected(init).Some? {
          assert events[LastConnected(init).value] == init[LastConnected(init).value];
        }
      }
    }
  }

  /** Readiness is resolved after a sequence of events exactly when it already was, or
      some event in the sequence was `connected`. */
  lemma {:induction false} RunReadyIffConnected(st: StatusState, events: seq<StatusEvent>)
    ensures Run(st, events).ready <==> st.ready || exists i :: 0 <= i < |events| && events[i].status == Connected
  {
    if events != [] {
      var init := events[..|events| - 1];
      RunReadyIffConnected(st, init);
      if Run(st, events).ready && !st.ready && events[|events| - 1].status != Connected {
        var i :| 0 <= i < |init| && init[i].status == Connected;
        assert events[i] == init[i];
      }
      if exists i :: 0 <= i < |events| && events[i].status == Connected {
        var i :| 0 <= i < |events| && events[i].status == Connected;
        if i < |init| {
          assert init[i] == events[i];
        }
      }
    }
  }

  /** Once resolved, readiness stays resolved whatever events follow: a disconnection
      never revokes it. */
  lemma ReadyStaysResolved(st: StatusState, before: seq<StatusEvent>, after: seq<StatusEvent>)
    requires Run(st, before).ready
    ensures Run(st, before + after).ready
  {
    RunAppend(st, before, after);
    RunReadyIffConnected(Run(st, before), after);
  }

  /** Readiness is resolved at the first `connected` event and not before it. */
  lemma ReadyResolvesAtFirstConnected(st: StatusState, events: seq<StatusEvent>, k: nat)
    requires !st.ready
    requires k < |events| && events[k].status == Connected
    requires forall j :: 0 <= j < k ==> events[j].status != Connected
    ensures !Run(st, events[..k]).ready
    ensures forall m :: k < m <= |events| ==> Run(st, events[..m]).ready
  {
    RunReadyIffConnected(st, events[..k]);
    forall m | k < m <= |events|
      ensures Run(st, events[..m]).ready
    {
      assert events[..m][k] == events[k];
      RunReadyIffConnected(st, events[..m]);
    }
  }

  /** A transport that reports connecting, connected, disconnected, connected: readiness
      was resolved at the first `connected`, and the ids are those of the second. */
  lemma ReconnectKeepsReadyAndRefreshesIds(first: StatusEvent, second: StatusEvent, connecting: StatusEvent, dropped: StatusEvent)
    requires connecting.status == Connecting && first.status == Connected
    requires dropped.status == Disconnected && second.status == Connected
    ensures var events := [connecting, first, dropped, second];
      && !Run(Unset, events[..1]).ready
      && Run(Unset, events[..2]).ready
      && Run(Unset, events[..3]).ready && Run(Unset, events[..3]).status == Some(Disconnected)
      && Run(Unset, events).ready
      && Run(Unset, events).status == Some(Connected)
      && Run(Unset, events).clientId == Some(second.clientId)
      && Run(Unset, events).id == Some(second.id)
  {
  }
}
