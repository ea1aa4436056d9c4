/**
 * The VPN backend as an object: its fields are updated in place by the protocol
 * state setter, the native agent callback, the agent job and the disconnect wait.
 * Each method is proved to move the fields exactly as the matching function of
 * BackendSpec moves a `BackendState`, and the entry points keep `Valid()`.
 */
module Backend {
  import opened Options
  import opened BackendSpec

  class VpnBackend {
    /** The tunnel protocol of this backend (`name`). */
    const name: VpnProtocol
    /** `userData.sessionId`, read on every composition. */
    const sessionId: Option<string>

    var vpnProtocolState: VpnState
    /** The value of `selfStateObservable`. */
    var selfState: VpnState
    var agent: Option<AgentConnection>
    var agentConnectionJob: Option<nat>
    var pendingJobs: set<nat>
    var jobsLaunched: nat
    var closedAgents: seq<AgentConnection>
    var log: seq<string>

    function State(): BackendState
      reads this
    {
      BackendState(vpnProtocolState, selfState, agent, agentConnectionJob, pendingJobs,
                   jobsLaunched, closedAgents, log)
    }

    predicate UsesAgent()
    {
      UsesLocalAgent(name, sessionId)
    }

    ghost predicate Valid()
      reads this
    {
      Settled(UsesAgent(), State())
    }

    constructor (name: VpnProtocol, sessionId: Option<string>)
      ensures this.name == name && this.sessionId == sessionId
      ensures State() == Initial()
      ensures Valid()
    {
      this.name := name;
      this.sessionId := sessionId;
      vpnProtocolState := Disabled;
      selfState := Disabled;
      agent := None;
      agentConnectionJob := None;
      pendingJobs := {};
      jobsLaunched := 0;
      closedAgents := [];
      log := [];
    }

    /** getGlobalVpnState: the state to publish, with the agent torn down before a
        terminal state and a job launched for a connected tunnel without agent. */
    method GetGlobalVpnState(vpnState: VpnState, localAgentState: Option<string>) returns (r: VpnState)
      modifies this
      ensures (State(), r) == Composed(CancelPrevious, UsesAgent(), old(State()), vpnState, localAgentState)
    {
      if UsesAgent() {
        match vpnState {
          case Connected =>
            r := HandleLocalAgentStates(localAgentState);
          case Disabled =>
            CloseAgentConnection();
            r := vpnState;
          case Disconnecting =>
            CloseAgentConnection();
            r := vpnState;
          case _ =>
            r := vpnState;
        }
      } else {
        r := vpnState;
      }
    }

    /** handleLocalAgentStates: Connected only for the healthy agent sub-state. */
    method HandleLocalAgentStates(localAgentState: Option<string>) returns (r: VpnState)
      modifies this
      ensures r == ComposedState(true, Connected, localAgentState)
      ensures old(agent).None? ==> State() == Launched(CancelPrevious, old(State()))
      ensures old(agent).Some? ==> State() == old(State())
    {
      if agent.None? {
        ConnectToLocalAgent();
      }
      r := if localAgentState == Some(StateSoftJailed) then Connected else Connecting;
    }

    /** connectToLocalAgent, with the job the field still refers to cancelled
        before the new one replaces it. */
    method ConnectToLocalAgent()
      modifies this
      ensures State() == Launched(CancelPrevious, old(State()))
    {
      if agentConnectionJob.Some? {
        pendingJobs := pendingJobs - {agentConnectionJob.value};
      }
      agentConnectionJob := Some(jobsLaunched);
      pendingJobs := pendingJobs + {jobsLaunched};
      jobsLaunched := jobsLaunched + 1;
    }

    /** closeAgentConnection */
    method CloseAgentConnection()
      modifies this
      ensures State() == Closed(old(State()))
    {
      if agentConnectionJob.Some? {
        pendingJobs := pendingJobs - {agentConnectionJob.value};
      }
      if agent.Some? {
        closedAgents := closedAgents + [agent.value];
      }
      agent := None;
    }

    /** The `vpnProtocolState` setter. */
    method SetVpnProtocolState(value: VpnState)
      requires Valid()
      modifies this
      ensures Valid()
      ensures State() == AfterProtocolStateSet(CancelPrevious, UsesAgent(), old(State()), value)
    {
      StepKeepsSettled(UsesAgent(), State(), ProtocolStateSet(value));
      vpnProtocolState := value;
      var agentState := if agent.Some? then agent.value.state else None;
      var published := GetGlobalVpnState(value, agentState);
      selfState := published;
    }

    /** `nativeClient.onState`: the native connection has moved to `state`. */
    method OnState(state: string)
      requires Valid()
      modifies this
      ensures Valid()
      ensures State() == AfterAgentStateReported(CancelPrevious, UsesAgent(), old(State()), state)
    {
      StepKeepsSettled(UsesAgent(), State(), AgentStateReported(state));
      if agent.Some? {
        agent := Some(agent.value.(state := Some(state)));
      }
      var published := GetGlobalVpnState(vpnProtocolState, Some(state));
      selfState := published;
    }

    /** The body of agent job `job`, with the outcome of its certificate fetch. */
    method RunAgentJob(job: nat, certificateFetched: bool)
      requires Valid()
      modifies this
      ensures Valid()
      ensures State() == AfterAgentJob(old(State()), job, certificateFetched)
    {
      StepKeepsSettled(UsesAgent(), State(), AgentJobRan(job, certificateFetched));
      if job in pendingJobs {
        pendingJobs := pendingJobs - {job};
        if certificateFetched {
          agent := Some(AgentConnection(job, None));
        } else {
          log := log + [CertFetchFailed];
        }
      }
    }

    /** Not a function of the source: the coroutine scheduler delivering one
        event to the backend while a `delay(200)` of the wait elapses. */
    method Deliver(e: Event)
      requires Valid()
      modifies this
      ensures Valid()
      ensures State() == Step(CancelPrevious, UsesAgent(), old(State()), e)
    {
      match e {
        case ProtocolStateSet(value) => SetVpnProtocolState(value);
        case AgentStateReported(state) => OnState(state);
        case AgentJobRan(job, ok) => RunAgentJob(job, ok);
      }
    }

    /** The scheduler delivering, in order, whatever reaches the backend while
        one `delay(200)` elapses. */
    method DeliverAll(events: seq<Event>)
      requires Valid()
      modifies this
      ensures Valid()
      ensures State() == Run(CancelPrevious, UsesAgent(), old(State()), events)
    {
      var i := 0;
      while i < |events|
        invariant 0 <= i <= |events|
        invariant Valid()
        invariant Run(CancelPrevious, UsesAgent(), State(), events[i..])
               == Run(CancelPrevious, UsesAgent(), old(State()), events)
      {
        assert events[i..][1..] == events[i + 1..];
        Deliver(events[i]);
        i := i + 1;
      }
    }

    /** waitForDisconnect: poll every 200 ms for at most 3000 ms until Disabled is
        published, with `arrivals[k]` reaching the backend during the k-th delay;
        then force Disabled if the backend is still Disconnecting. */
    method WaitForDisconnect(arrivals: seq<seq<Event>>) returns (polls: nat)
      requires Valid()
      modifies this
      ensures Valid()
      ensures 0 < polls <= MaxPolls
      ensures selfState != Disconnecting
      ensures (State(), polls) == AfterWait(CancelPrevious, UsesAgent(), old(State()), arrivals)
    {
      WaitKeepsSettled(UsesAgent(), State(), arrivals);
      polls := 0;
      var done := false;
      while !done
        invariant polls <= MaxPolls
        invariant Valid()
        invariant !done ==> polls < MaxPolls
        invariant !done ==> PollUntilDisabled(CancelPrevious, UsesAgent(), State(), arrivals, polls)
                            == PollUntilDisabled(CancelPrevious, UsesAgent(), old(State()), arrivals, 0)
        invariant done ==> (State(), polls) == PollUntilDisabled(CancelPrevious, UsesAgent(), old(State()), arrivals, 0)
        decreases MaxPolls - polls, !done
      {
        DeliverAll(ArrivalsAt(arrivals, polls));
        polls := polls + 1;
        done := selfState == Disabled || polls == MaxPolls;
      }
      if selfState == Disconnecting {
        selfState := Disabled;
      }
    }
  }
}
