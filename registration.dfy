/**
  The agent registration handler as its test drives it: a jittered send of the
  registration request, a timeout armed once the request is out, an acknowledgment that
  cancels the timeout and hands the assigned session id (ASID) to a hook, and a fatal
  fault when the timeout fires first. Virtual time is an integer number of milliseconds
  since the start of the test; the message connector and the hooks are the test's fakes.
 */
module Registration {
  import opened Common

  /** The agent's capabilities: only whether it collects data. */
  datatype Capabilities = Capabilities(collectsData: bool)

  /** `agent::Info`, the agent record shared by the handler and the hooks. */
  datatype AgentInfo = AgentInfo(
    agentId: string, hostname: string, address: string, podName: string, hostIp: string,
    capabilities: Capabilities, asid: uint32)

  /** The `host_info` part of the agent info in a registration request. */
  datatype HostInfo = HostInfo(hostname: string, podName: string, hostIp: string)

  /** The agent info of a registration request, as the protocol lays it out. */
  datatype AgentInfoMessage = AgentInfoMessage(
    agentId: string, ipAddress: string, hostInfo: HostInfo, capabilities: Capabilities)

  /**
    The `VizierMessage` variants the handler sees; an unset `asid` in a request reads
    as 0, and `OtherMessage` stands for every payload routed elsewhere.
   */
  datatype VizierMessage =
    | RegisterAgentRequest(info: AgentInfoMessage, asid: uint32)
    | RegisterAgentResponse(asid: uint32)
    | OtherMessage

  /** Phases of the handler. */
  datatype Phase = Idle | AwaitingRegisterAck | Registered | AwaitingReregisterAck

  const TimeoutMessage := "Timeout waiting for registration ack"

  /** The agent info a request carries for the agent record `info`. */
  function InfoMessage(info: AgentInfo): (m: AgentInfoMessage)
    ensures InfoFromRequest(RegisterAgentRequest(m, info.asid)) == Some(info)
  {
    AgentInfoMessage(info.agentId, info.address, HostInfo(info.hostname, info.podName, info.hostIp),
                     info.capabilities)
  }

  /**
    The registration request for the agent record `info`: a first registration carries
    no ASID, a re-registration the ASID the record holds.
   */
  function RegistrationRequest(info: AgentInfo, reregister: bool): (msg: VizierMessage)
    ensures msg.RegisterAgentRequest? && msg.info == InfoMessage(info)
    ensures reregister ==> msg.asid == info.asid
    ensures !reregister ==> msg.asid == 0
  {
    RegisterAgentRequest(InfoMessage(info), if reregister then info.asid else 0)
  }

  /** The agent record a controller reads out of a registration request. */
  function InfoFromRequest(msg: VizierMessage): (info: Option<AgentInfo>)
    ensures info.Some? <==> msg.RegisterAgentRequest?
  {
    match msg
    case RegisterAgentRequest(m, asid) =>
      Some(AgentInfo(m.agentId, m.hostInfo.hostname, m.ipAddress, m.hostInfo.podName, m.hostInfo.hostIp,
                     m.capabilities, asid))
    case _ => None
  }

  /**
    A request mirrors the agent record: every field of the record is read back from it,
    the ASID of a re-registration included and, for a first registration, as 0.
   */
  lemma RequestMirrorsInfo(info: AgentInfo, reregister: bool)
    ensures InfoFromRequest(RegistrationRequest(info, reregister)) ==
      Some(if reregister then info else info.(asid := 0))
  {
  }

  /** `FakeNATSConnector`: it keeps every published message. */
  class FakeNatsConnector {
    var publishedMsgs: seq<VizierMessage>

    constructor()
      ensures publishedMsgs == []
    {
      publishedMsgs := [];
    }

    /** `Publish`: appends the message, in call order, and always succeeds. */
    method Publish(msg: VizierMessage) returns (status: Status)
      modifies this
      ensures publishedMsgs == old(publishedMsgs) + [msg]
      ensures status == Ok
    {
      publishedMsgs := publishedMsgs + [msg];
      status := Ok;
    }
  }

  /** The test fixture's agent record and what its two hooks record. */
  class Fixture {
    var agentInfo: AgentInfo
    var calledRegister: int
    var calledReregister: int
    var registerAsid: uint32
    var reregisterAsid: uint32

    constructor(agentInfo: AgentInfo)
      ensures this.agentInfo == agentInfo
      ensures calledRegister == 0 && calledReregister == 0 && registerAsid == 0 && reregisterAsid == 0
    {
      this.agentInfo := agentInfo;
      calledRegister := 0;
      calledReregister := 0;
      registerAsid := 0;
      reregisterAsid := 0;
    }

    /** The register hook: counts the call and stores the ASID in the agent record. */
    method RegisterHook(asid: uint32) returns (status: Status)
      modifies this
      ensures status == Ok
      ensures calledRegister == old(calledRegister) + 1 && registerAsid == asid
      ensures agentInfo == old(agentInfo).(asid := asid)
      ensures calledReregister == old(calledReregister) && reregisterAsid == old(reregisterAsid)
    {
      calledRegister := calledRegister + 1;
      agentInfo := agentInfo.(asid := asid);
      registerAsid := asid;
      status := Ok;
    }

    /** The reregister hook: counts the call and remembers the ASID; the record is kept. */
    method ReregisterHook(asid: uint32) returns (status: Status)
      modifies this
      ensures status == Ok
      ensures calledReregister == old(calledReregister) + 1 && reregisterAsid == asid
      ensures agentInfo == old(agentInfo)
      ensures calledRegister == old(calledRegister) && registerAsid == old(registerAsid)
    {
      calledReregister := calledReregister + 1;
      reregisterAsid := asid;
      status := Ok;
    }
  }

  /**
    `RegistrationHandler` on a dispatcher with simulated time. `pendingSend` is the
    due time of the jittered send, `deadline` that of the timeout; `fault` is the fatal
    fault once the timeout has fired.
   */
  class RegistrationHandler {
    const conn: FakeNatsConnector
    const fixture: Fixture
    const timeout: nat
    var phase: Phase
    var now: int
    var pendingSend: Option<int>
    var deadline: Option<int>
    var fault: Option<string>

    /**
      At most one of the two timers is outstanding, one is exactly while an
      acknowledgment is awaited, and neither is overdue.
     */
    predicate Valid()
      reads this
    {
      && timeout > 0
      && !(pendingSend.Some? && deadline.Some?)
      && ((phase == AwaitingRegisterAck || phase == AwaitingReregisterAck) <==> (pendingSend.Some? || deadline.Some?))
      && (pendingSend.Some? ==> pendingSend.value >= now)
      && (deadline.Some? ==> deadline.value > now)
    }

    constructor(conn: FakeNatsConnector, fixture: Fixture, timeout: nat)
      requires timeout > 0
      ensures Valid()
      ensures this.conn == conn && this.fixture == fixture && this.timeout == timeout
      ensures phase == Idle && now == 0 && fault == None
    {
      this.conn := conn;
      this.fixture := fixture;
      this.timeout := timeout;
      phase := Idle;
      now := 0;
      pendingSend := None;
      deadline := None;
      fault := None;
    }

    /**
      `RegisterAgent`: schedules the send `jitter` milliseconds from now and awaits the
      register acknowledgment; a timeout or send still pending from an earlier call is
      cancelled, so it can never fire.
     */
    method RegisterAgent(jitter: nat)
      requires Valid() && fault == None
      modifies this
      ensures Valid() && fault == None
      ensures phase == AwaitingRegisterAck && pendingSend == Some(now + jitter) && deadline == None
      ensures now == old(now)
    {
      pendingSend := Some(now + jitter);
      deadline := None;
      phase := AwaitingRegisterAck;
    }

    /** `ReregisterAgent`: the same, awaiting the re-register acknowledgment. */
    method ReregisterAgent(jitter: nat)
      requires Valid() && fault == None
      modifies this
      ensures Valid() && fault == None
      ensures phase == AwaitingReregisterAck && pendingSend == Some(now + jitter) && deadline == None
      ensures now == old(now)
    {
      pendingSend := Some(now + jitter);
      deadline := None;
      phase := AwaitingReregisterAck;
    }

    /**
      `HandleMessage`: a register response while a request is out and its timeout armed
      cancels the timeout and calls the hook of the phase with the response's ASID; the
      handler is then registered and the hook's status is returned. Any other message,
      or a response at any other time, changes nothing.
     */
    method HandleMessage(msg: VizierMessage) returns (status: Status)
      requires Valid() && fault == None
      modifies this, fixture
      ensures Valid() && fault == None && now == old(now) && pendingSend == old(pendingSend)
      ensures status == Ok
      ensures var handled := msg.RegisterAgentResponse? && old(deadline).Some?;
              && (handled ==> phase == Registered && deadline == None)
              && (!handled ==> phase == old(phase) && deadline == old(deadline))
              && (handled && old(phase) == AwaitingRegisterAck ==>
                    fixture.calledRegister == old(fixture.calledRegister) + 1 &&
                    fixture.registerAsid == msg.asid &&
                    fixture.agentInfo == old(fixture.agentInfo).(asid := msg.asid) &&
                    fixture.calledReregister == old(fixture.calledReregister) &&
                    fixture.reregisterAsid == old(fixture.reregisterAsid))
              && (handled && old(phase) == AwaitingReregisterAck ==>
                    fixture.calledReregister == old(fixture.calledReregister) + 1 &&
                    fixture.reregisterAsid == msg.asid &&
                    fixture.agentInfo == old(fixture.agentInfo) &&
                    fixture.calledRegister == old(fixture.calledRegister) &&
                    fixture.registerAsid == old(fixture.registerAsid))
              && (!handled ==>
                    fixture.agentInfo == old(fixture.agentInfo) &&
                    fixture.calledRegister == old(fixture.calledRegister) &&
                    fixture.calledReregister == old(fixture.calledReregister) &&
                    fixture.registerAsid == old(fixture.registerAsid) &&
                    fixture.reregisterAsid == old(fixture.reregisterAsid))
    {
      if msg.RegisterAgentResponse? && deadline.Some? {
        deadline := None;
        if phase == AwaitingRegisterAck {
          status := fixture.RegisterHook(msg.asid);
        } else {
          status := fixture.ReregisterHook(msg.asid);
        }
        phase := Registered;
      } else {
        status := Ok;
      }
    }

    /**
      `SetMonotonicTime(t)` followed by a non-blocking `Run`: a due send publishes the
      request of the current phase built from the agent record as it now is, and arms the
      timeout `timeout` milliseconds after `t`; a due timeout is the fatal fault. A timer
      that is not due, or was cancelled, does nothing.
     */
    method Advance(t: int)
      requires Valid() && fault == None && t >= now
      modifies this, conn
      ensures now == t && phase == old(phase)
      ensures old(pendingSend).Some? && old(pendingSend).value <= t ==>
        conn.publishedMsgs ==
          old(conn.publishedMsgs) + [RegistrationRequest(fixture.agentInfo, phase == AwaitingReregisterAck)] &&
        pendingSend == None && deadline == Some(t + timeout) && fault == None
      ensures old(deadline).Some? && old(deadline).value <= t ==>
        conn.publishedMsgs == old(conn.publishedMsgs) &&
        pendingSend == None && deadline == None && fault == Some(TimeoutMessage)
      ensures !(old(pendingSend).Some? && old(pendingSend).value <= t) &&
              !(old(deadline).Some? && old(deadline).value <= t) ==>
        conn.publishedMsgs == old(conn.publishedMsgs) &&
        pendingSend == old(pendingSend) && deadline == old(deadline) && fault == None
      ensures fault == None ==> Valid()
    {
      now := t;
      if pendingSend.Some? && pendingSend.value <= t {
        var _ := conn.Publish(RegistrationRequest(fixture.agentInfo, phase == AwaitingReregisterAck));
        pendingSend := None;
        deadline := Some(t + timeout);
      } else if deadline.Some? && deadline.value <= t {
        deadline := None;
        fault := Some(TimeoutMessage);
      }
    }
  }

  /**
    The `RegisterAgent` test: with the send due within 60 s, one request is published
    by then, it mirrors the agent record and carries no ASID, and the acknowledgment
    with ASID 10 succeeds and calls the register hook once with 10.
   */
  method RegisterAgentTest(info: AgentInfo, timeout: nat, jitter: nat)
    returns (published: seq<VizierMessage>, ackStatus: Status, calledRegister: int, registerAsid: uint32)
    requires info.asid == 0 && timeout > 0 && jitter <= 60000
    ensures |published| == 1 && published[0] == RegisterAgentRequest(InfoMessage(info), 0)
    ensures InfoFromRequest(published[0]) == Some(info)
    ensures ackStatus == Ok && calledRegister == 1 && registerAsid == 10
  {
    var conn := new FakeNatsConnector();
    var fixture := new Fixture(info);
    var handler := new RegistrationHandler(conn, fixture, timeout);
    handler.RegisterAgent(jitter);
    handler.Advance(60 * 1000);
    published := conn.publishedMsgs;
    RequestMirrorsInfo(info, false);
    ackStatus := handler.HandleMessage(RegisterAgentResponse(10));
    calledRegister := fixture.calledRegister;
    registerAsid := fixture.registerAsid;
  }

  /**
    The `RegisterAndReregisterAgent` test: after a registration acknowledged at
    60 s + 1 ms, re-registering publishes a second request by 120 s + 1 ms, which
    carries the ASID the register hook stored; the first cycle's timeout, cancelled by
    the acknowledgment, never fires; the re-register acknowledgment calls the reregister
    hook once with its ASID.
   */
  method RegisterAndReregisterAgentTest(info: AgentInfo, timeout: nat, jitter1: nat, jitter2: nat)
    returns (published: seq<VizierMessage>, fault: Option<string>, ackStatus: Status,
             called: (int, int), asids: (uint32, uint32))
    requires info.asid == 0 && timeout > 0 && jitter1 <= 60000 && jitter2 <= 60000
    ensures |published| == 2
    ensures published[1] == RegisterAgentRequest(InfoMessage(info), 10) && published[1].asid == 10
    ensures fault == None
    ensures ackStatus == Ok && called == (1, 1) && asids == (10, 10)
  {
    var conn := new FakeNatsConnector();
    var fixture := new Fixture(info);
    var handler := new RegistrationHandler(conn, fixture, timeout);
    handler.RegisterAgent(jitter1);
    handler.Advance(60 * 1000 + 1);
    assert |conn.publishedMsgs| == 1;
    var status := handler.HandleMessage(RegisterAgentResponse(10));
    assert fixture.calledRegister == 1 && fixture.registerAsid == 10;
    handler.ReregisterAgent(jitter2);
    handler.Advance(120 * 1000 + 1);
    published := conn.publishedMsgs;
    fault := handler.fault;
    ackStatus := handler.HandleMessage(RegisterAgentResponse(10));
    called := (fixture.calledRegister, fixture.calledReregister);
    asids := (fixture.registerAsid, fixture.reregisterAsid);
  }

  /**
    The `RegisterAgentTimeout` test: with the send due within 60 s and a timeout of at
    most 60 s, a request unanswered by 120 s ends in the fatal registration timeout.
   */
  method RegisterAgentTimeoutTest(info: AgentInfo, timeout: nat, jitter: nat)
    returns (publishedCount: nat, fault: Option<string>)
    requires timeout > 0 && timeout <= 60000 && jitter <= 60000
    ensures publishedCount == 1
    ensures fault == Some(TimeoutMessage)
  {
    var conn := new FakeNatsConnector();
    var fixture := new Fixture(info);
    var handler := new RegistrationHandler(conn, fixture, timeout);
    handler.RegisterAgent(jitter);
    handler.Advance(60 * 1000);
    publishedCount := |conn.publishedMsgs|;
    handler.Advance(120 * 1000);
    fault := handler.fault;
  }
}
