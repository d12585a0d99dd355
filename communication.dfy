/** The communication log of src/store/communicationStore.ts: emails, meetings,
    calls and chats with clients, kept in the order they were recorded. */
module Communication {
  import opened Maybe
  import opened Tables

  type Id = string
  type Time = int

  datatype CommunicationKind = Email | Meeting | Call | Chat
  datatype CommunicationStatus = Sent | Received | Draft

  datatype CommunicationMetadata = CommunicationMetadata(
    channel: Option<string>, duration: Option<real>, location: Option<string>)

  datatype Communication = Communication(
    id: Id, clientId: Id, kind: CommunicationKind, subject: string, content: string,
    participants: seq<string>, attachments: seq<string>, timestamp: Time,
    status: CommunicationStatus, metadata: CommunicationMetadata)

  datatype CommunicationPatch = CommunicationPatch(
    id: Option<Id>, clientId: Option<Id>, kind: Option<CommunicationKind>, subject: Option<string>,
    content: Option<string>, participants: Option<seq<string>>, attachments: Option<seq<string>>,
    timestamp: Option<Time>, status: Option<CommunicationStatus>, metadata: Option<CommunicationMetadata>)

  function MergeCommunication(c: Communication, u: CommunicationPatch): Communication
  {
    Communication(Or(u.id, c.id), Or(u.clientId, c.clientId), Or(u.kind, c.kind),
                  Or(u.subject, c.subject), Or(u.content, c.content),
                  Or(u.participants, c.participants), Or(u.attachments, c.attachments),
                  Or(u.timestamp, c.timestamp), Or(u.status, c.status), Or(u.metadata, c.metadata))
  }

  // ---------------------------------------------------------------------------
  // Table transitions and the query

  function CommunicationsUpdated(log: seq<Communication>, id: Id, u: CommunicationPatch): (r: seq<Communication>)
    ensures |r| == |log|
    ensures forall i :: 0 <= i < |log| && log[i].id == id ==> r[i] == MergeCommunication(log[i], u)
    ensures forall i :: 0 <= i < |log| && log[i].id != id ==> r[i] == log[i]
  {
    MapIf(log, (c: Communication) => c.id == id, (c: Communication) => MergeCommunication(c, u))
  }

  function CommunicationsWithout(log: seq<Communication>, id: Id): (r: seq<Communication>)
    ensures forall c | c in r :: c in log && c.id != id
    ensures forall c | c in log && c.id != id :: c in r
  {
    Filter(log, (c: Communication) => c.id != id)
  }

  /** The records of one client, in log order. */
  function OfClient(log: seq<Communication>, clientId: Id): (r: seq<Communication>)
    ensures forall c | c in r :: c in log && c.clientId == clientId
    ensures forall c | c in log && c.clientId == clientId :: c in r
  {
    Filter(log, (c: Communication) => c.clientId == clientId)
  }

  // ---------------------------------------------------------------------------
  // Properties

  /** A newly logged record shows up last in its own client's view and nowhere
      else. */
  lemma {:induction false} AddShowsInClientView(log: seq<Communication>, c: Communication, clientId: Id)
    ensures OfClient(log + [c], clientId) == OfClient(log, clientId) + (if c.clientId == clientId then [c] else [])
  {
    FilterSnoc(log, c, (x: Communication) => x.clientId == clientId);
  }

  /** Deleting and then viewing a client is viewing the client and then deleting:
      the per-client view of the log after a delete is the old view without the
      deleted id, in the same order. */
  lemma {:induction false} DeleteCommutesWithView(log: seq<Communication>, id: Id, clientId: Id)
    ensures OfClient(CommunicationsWithout(log, id), clientId) == CommunicationsWithout(OfClient(log, clientId), id)
  {
    var both := (c: Communication) => c.id != id && c.clientId == clientId;
    FilterFilter(log, (c: Communication) => c.id != id, (c: Communication) => c.clientId == clientId, both);
    FilterFilter(log, (c: Communication) => c.clientId == clientId, (c: Communication) => c.id != id,
                 (c: Communication) => c.clientId == clientId && c.id != id);
    FilterAgree(log, both, (c: Communication) => c.clientId == clientId && c.id != id);
  }

  // ---------------------------------------------------------------------------
  // The store

  class CommunicationStore {
    var communications: seq<Communication>

    constructor ()
      ensures communications == []
    {
      communications := [];
    }

    /** `addCommunication`: appends. */
    method AddCommunication(communication: Communication)
      modifies this
      ensures communications == old(communications) + [communication]
    {
      communications := communications + [communication];
    }

    /** `updateCommunication`: merges the matching records only. */
    method UpdateCommunication(id: Id, updates: CommunicationPatch)
      modifies this
      ensures communications == CommunicationsUpdated(old(communications), id, updates)
    {
      communications := CommunicationsUpdated(communications, id, updates);
    }

    /** `deleteCommunication`: removes every record with the id, keeping the order. */
    method DeleteCommunication(id: Id)
      modifies this
      ensures communications == CommunicationsWithout(old(communications), id)
    {
      communications := CommunicationsWithout(communications, id);
    }

    /** `getCommunicationsByClient`: exactly the client's records, in order. */
    function GetCommunicationsByClient(clientId: Id): (r: seq<Communication>)
      reads this
      ensures forall c | c in r :: c in communications && c.clientId == clientId
      ensures forall c | c in communications && c.clientId == clientId :: c in r
    {
      OfClient(communications, clientId)
    }
  }
}
