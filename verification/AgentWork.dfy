/** The native `agent.work` request, its two fingerprints, and the durable acceptance store. */
module AgentWork {
  import opened Base

  /** Identifiers are compared, never taken apart, outside this module. */
  datatype DispatchId = DispatchId(text: string)

  datatype Key = Key(text: string)

  /** The execution identity `openab-native:<dispatch id>`. */
  datatype ExecutionId = OpenabNative(dispatchId: DispatchId)

  /** Every request field except the dispatch id and the lease. `other` stands for the fields that are
      only ever compared as a whole (project, task, revision, assignment, destination, scope policy). */
  datatype Payload = Payload(workflowRunId: string, role: string, agent: string, conversationKey: string,
                             other: string)

  datatype Request = Request(dispatchId: DispatchId, leaseId: string, leaseGeneration: nat, payload: Payload)

  /** The acknowledgement document returned with WORK_ACCEPTED. */
  datatype Ack = Ack(dispatchId: DispatchId, admissionId: string, executionId: ExecutionId, workflowRunId: string,
                     role: string, conversationKey: string)

  /** The process-local ledger key. Colons are not escaped, so two different requests can share a key. */
  function LedgerKey(r: Request): Key {
    Key(r.payload.agent + ":" + r.payload.conversationKey + ":" + r.dispatchId.text)
  }

  /** Hash of the whole request; hashing is injective here, so the request stands for its hash. */
  function Fingerprint(r: Request): Request { r }

  /** Hash of the request without dispatch id and lease: a re-claimed lease keeps this identity. */
  function DurableFingerprint(r: Request): Payload { r.payload }

  function BuildAck(r: Request, admissionId: string, executionId: ExecutionId): Ack {
    Ack(r.dispatchId, admissionId, executionId, r.payload.workflowRunId, r.payload.role, r.payload.conversationKey)
  }

  /** One row of the durable table, keyed by dispatch id. An empty acknowledgement column is `None`. */
  datatype Row = Row(fingerprint: Payload, executionId: ExecutionId, acknowledgement: Option<Ack>)

  type Store = map<DispatchId, Row>

  datatype Claim = Claimed(row: Row, reused: bool) | Conflict

  /** INSERT OR IGNORE, then read the row back and compare fingerprints. */
  function ClaimOrReuse(store: Store, dispatchId: DispatchId, fingerprint: Payload): (res: (Store, Claim))
    ensures dispatchId in res.0 && res.0 == store[dispatchId := res.0[dispatchId]]
    ensures dispatchId in store ==> res.0 == store
    ensures res.1.Conflict? <==> dispatchId in store && store[dispatchId].fingerprint != fingerprint
    ensures res.1.Claimed? ==> res.1.row == res.0[dispatchId] && res.1.row.fingerprint == fingerprint
    ensures res.1.Claimed? ==> (res.1.reused <==> dispatchId in store)
    ensures dispatchId !in store ==> res.0[dispatchId] == Row(fingerprint, OpenabNative(dispatchId), None)
  {
    var store' := if dispatchId in store then store
                  else store[dispatchId := Row(fingerprint, OpenabNative(dispatchId), None)];
    if store'[dispatchId].fingerprint != fingerprint then (store', Conflict)
    else (store', Claimed(store'[dispatchId], dispatchId in store))
  }

  /** The first acknowledgement written for a dispatch id is the one that stays. */
  function RecordAcknowledgement(store: Store, dispatchId: DispatchId, ack: Ack): (store': Store)
    requires dispatchId in store
    ensures store'.Keys == store.Keys
    ensures store[dispatchId].acknowledgement.None? ==> store'[dispatchId].acknowledgement == Some(ack)
    ensures forall d :: d in store ==>
      && store'[d].fingerprint == store[d].fingerprint && store'[d].executionId == store[d].executionId
      && (d != dispatchId || store[d].acknowledgement.Some? ==> store'[d] == store[d])
  {
    var row := store[dispatchId];
    if row.acknowledgement.None? then store[dispatchId := row.(acknowledgement := Some(ack))] else store
  }

  /** Two dispatches can share a ledger key while their fingerprints differ. */
  lemma KeysCollide(agent: string, x: string, y: string, z: string, other: Request)
    ensures var a := other.(dispatchId := DispatchId(z),
                            payload := other.payload.(agent := agent, conversationKey := x + ":" + y));
            var b := other.(dispatchId := DispatchId(y + ":" + z),
                            payload := other.payload.(agent := agent, conversationKey := x));
            LedgerKey(a) == LedgerKey(b) && Fingerprint(a) != Fingerprint(b)
  {
    assert agent + ":" + (x + ":" + y) + ":" + z == agent + ":" + x + ":" + (y + ":" + z);
    assert |z| < |y + ":" + z|;
  }
}
