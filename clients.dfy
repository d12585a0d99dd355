/** The client store of src/store/clientStore.ts: clients, their documents and
    their third-party integrations, and the selected client. Clients and
    documents are archived rather than deleted; integrations are removed. */
module Clients {
  import opened Maybe
  import opened Tables

  type Id = string
  type Time = int

  datatype ClientStatus = ActiveClient | PendingClient | ArchivedClient
  datatype DocumentStatus = ActiveDocument | ArchivedDocument
  datatype IntegrationStatus = ActiveIntegration | InactiveIntegration

  datatype Location = Location(
    address: string, city: string, state: string, postalCode: string, country: string, timezone: string)

  /** `Client`; its contacts, service packages, custom fields, activities and
      metrics are not modelled. */
  datatype Client = Client(
    id: Id, name: string, industry: string, size: string, location: Location,
    status: ClientStatus, tags: seq<string>, createdAt: Time, updatedAt: Time)

  datatype ClientPatch = ClientPatch(
    id: Option<Id>, name: Option<string>, industry: Option<string>, size: Option<string>,
    location: Option<Location>, status: Option<ClientStatus>, tags: Option<seq<string>>,
    createdAt: Option<Time>, updatedAt: Option<Time>)

  datatype DocumentMetadata = DocumentMetadata(lastModified: Time, size: real, version: real)

  datatype ClientDocument = ClientDocument(
    id: Id, clientId: Id, name: string, kind: string, url: string,
    status: DocumentStatus, metadata: DocumentMetadata)

  datatype DocumentPatch = DocumentPatch(
    id: Option<Id>, clientId: Option<Id>, name: Option<string>, kind: Option<string>,
    url: Option<string>, status: Option<DocumentStatus>, metadata: Option<DocumentMetadata>)

  /** `Integration`; its free-form credentials and metadata records are not modelled. */
  datatype Integration = Integration(
    id: Id, clientId: Id, kind: string, provider: string, status: IntegrationStatus)

  datatype IntegrationPatch = IntegrationPatch(
    id: Option<Id>, clientId: Option<Id>, kind: Option<string>, provider: Option<string>,
    status: Option<IntegrationStatus>)

  function MergeClient(c: Client, u: ClientPatch): Client
  {
    Client(Or(u.id, c.id), Or(u.name, c.name), Or(u.industry, c.industry), Or(u.size, c.size),
           Or(u.location, c.location), Or(u.status, c.status), Or(u.tags, c.tags),
           Or(u.createdAt, c.createdAt), Or(u.updatedAt, c.updatedAt))
  }

  function MergeDocument(d: ClientDocument, u: DocumentPatch): ClientDocument
  {
    ClientDocument(Or(u.id, d.id), Or(u.clientId, d.clientId), Or(u.name, d.name), Or(u.kind, d.kind),
                   Or(u.url, d.url), Or(u.status, d.status), Or(u.metadata, d.metadata))
  }

  function MergeIntegration(i: Integration, u: IntegrationPatch): Integration
  {
    Integration(Or(u.id, i.id), Or(u.clientId, i.clientId), Or(u.kind, i.kind),
                Or(u.provider, i.provider), Or(u.status, i.status))
  }

  // ---------------------------------------------------------------------------
  // Table transitions

  function ClientsUpdated(clients: seq<Client>, id: Id, u: ClientPatch): (r: seq<Client>)
    ensures |r| == |clients|
    ensures forall i :: 0 <= i < |clients| && clients[i].id == id ==> r[i] == MergeClient(clients[i], u)
    ensures forall i :: 0 <= i < |clients| && clients[i].id != id ==> r[i] == clients[i]
  {
    MapIf(clients, (c: Client) => c.id == id, (c: Client) => MergeClient(c, u))
  }

  /** `archiveClient`'s new table: the matching clients archived, no other field
      or client touched, nobody removed. */
  function ClientsArchived(clients: seq<Client>, id: Id): (r: seq<Client>)
    ensures |r| == |clients|
    ensures forall i :: 0 <= i < |clients| && clients[i].id == id ==>
      r[i].status == ArchivedClient && r[i].(status := clients[i].status) == clients[i]
    ensures forall i :: 0 <= i < |clients| && clients[i].id != id ==> r[i] == clients[i]
  {
    MapIf(clients, (c: Client) => c.id == id, (c: Client) => c.(status := ArchivedClient))
  }

  function DocumentsUpdated(documents: seq<ClientDocument>, id: Id, u: DocumentPatch): (r: seq<ClientDocument>)
    ensures |r| == |documents|
    ensures forall i :: 0 <= i < |documents| && documents[i].id == id ==> r[i] == MergeDocument(documents[i], u)
    ensures forall i :: 0 <= i < |documents| && documents[i].id != id ==> r[i] == documents[i]
  {
    MapIf(documents, (d: ClientDocument) => d.id == id, (d: ClientDocument) => MergeDocument(d, u))
  }

  /** `archiveDocument`'s new table. */
  function DocumentsArchived(documents: seq<ClientDocument>, id: Id): (r: seq<ClientDocument>)
    ensures |r| == |documents|
    ensures forall i :: 0 <= i < |documents| && documents[i].id == id ==>
      r[i].status == ArchivedDocument && r[i].(status := documents[i].status) == documents[i]
    ensures forall i :: 0 <= i < |documents| && documents[i].id != id ==> r[i] == documents[i]
  {
    MapIf(documents, (d: ClientDocument) => d.id == id, (d: ClientDocument) => d.(status := ArchivedDocument))
  }

  function IntegrationsUpdated(integrations: seq<Integration>, id: Id, u: IntegrationPatch): (r: seq<Integration>)
    ensures |r| == |integrations|
    ensures forall i :: 0 <= i < |integrations| && integrations[i].id == id ==> r[i] == MergeIntegration(integrations[i], u)
    ensures forall i :: 0 <= i < |integrations| && integrations[i].id != id ==> r[i] == integrations[i]
  {
    MapIf(integrations, (x: Integration) => x.id == id, (x: Integration) => MergeIntegration(x, u))
  }

  function IntegrationsWithout(integrations: seq<Integration>, id: Id): (r: seq<Integration>)
    ensures forall x | x in r :: x in integrations && x.id != id
    ensures forall x | x in integrations && x.id != id :: x in r
  {
    Filter(integrations, (x: Integration) => x.id != id)
  }

  // ---------------------------------------------------------------------------
  // Properties

  /** Archiving a client twice is archiving it once. */
  lemma {:induction false} ArchiveClientIdempotent(clients: seq<Client>, id: Id)
    ensures ClientsArchived(ClientsArchived(clients, id), id) == ClientsArchived(clients, id)
  {
    var once := ClientsArchived(clients, id);
    var twice := ClientsArchived(once, id);
    forall i | 0 <= i < |clients| ensures twice[i] == once[i] {
      if clients[i].id == id {
        assert once[i].id == id;
      }
    }
  }

  /** Archiving a document twice is archiving it once. */
  lemma {:induction false} ArchiveDocumentIdempotent(documents: seq<ClientDocument>, id: Id)
    ensures DocumentsArchived(DocumentsArchived(documents, id), id) == DocumentsArchived(documents, id)
  {
    var once := DocumentsArchived(documents, id);
    var twice := DocumentsArchived(once, id);
    forall i | 0 <= i < |documents| ensures twice[i] == once[i] {
      if documents[i].id == id {
        assert once[i].id == id;
      }
    }
  }

  /** Archiving is the update that sets only the status. */
  lemma {:induction false} ArchiveIsStatusUpdate(clients: seq<Client>, id: Id)
    ensures ClientsArchived(clients, id)
         == ClientsUpdated(clients, id, ClientPatch(None, None, None, None, None, Some(ArchivedClient), None, None, None))
  {
    var u := ClientPatch(None, None, None, None, None, Some(ArchivedClient), None, None, None);
    var a := ClientsArchived(clients, id);
    var b := ClientsUpdated(clients, id, u);
    forall i | 0 <= i < |clients| ensures a[i] == b[i] {
      if clients[i].id == id {
        assert b[i] == MergeClient(clients[i], u);
      }
    }
  }

  /** Removing an integration keeps the others in their order: it commutes with
      appending one that carries a different id. */
  lemma {:induction false} RemoveIntegrationKeepsOrder(integrations: seq<Integration>, x: Integration, id: Id)
    requires x.id != id
    ensures IntegrationsWithout(integrations + [x], id) == IntegrationsWithout(integrations, id) + [x]
  {
    FilterSnoc(integrations, x, (y: Integration) => y.id != id);
  }

  // ---------------------------------------------------------------------------
  // The store

  class ClientStore {
    var clients: seq<Client>
    var documents: seq<ClientDocument>
    var integrations: seq<Integration>
    var selectedClientId: Option<Id>

    constructor ()
      ensures clients == [] && documents == [] && integrations == [] && selectedClientId.None?
    {
      clients, documents, integrations, selectedClientId := [], [], [], None;
    }

    /** `addClient`: appends. */
    method AddClient(client: Client)
      modifies this
      ensures clients == old(clients) + [client]
      ensures documents == old(documents) && integrations == old(integrations)
      ensures selectedClientId == old(selectedClientId)
    {
      clients := clients + [client];
    }

    /** `updateClient`: merges the matching clients only. */
    method UpdateClient(clientId: Id, updates: ClientPatch)
      modifies this
      ensures clients == ClientsUpdated(old(clients), clientId, updates)
      ensures documents == old(documents) && integrations == old(integrations)
      ensures selectedClientId == old(selectedClientId)
    {
      clients := ClientsUpdated(clients, clientId, updates);
    }

    /** `archiveClient`: sets the matching clients' status only; the client stays
        in the table and its documents are not archived with it. */
    method ArchiveClient(clientId: Id)
      modifies this
      ensures clients == ClientsArchived(old(clients), clientId)
      ensures documents == old(documents) && integrations == old(integrations)
      ensures selectedClientId == old(selectedClientId)
    {
      clients := ClientsArchived(clients, clientId);
    }

    /** `addDocument`: appends. */
    method AddDocument(document: ClientDocument)
      modifies this
      ensures documents == old(documents) + [document]
      ensures clients == old(clients) && integrations == old(integrations)
      ensures selectedClientId == old(selectedClientId)
    {
      documents := documents + [document];
    }

    /** `updateDocument`: merges the matching documents only. */
    method UpdateDocument(documentId: Id, updates: DocumentPatch)
      modifies this
      ensures documents == DocumentsUpdated(old(documents), documentId, updates)
      ensures clients == old(clients) && integrations == old(integrations)
      ensures selectedClientId == old(selectedClientId)
    {
      documents := DocumentsUpdated(documents, documentId, updates);
    }

    /** `archiveDocument`: sets the matching documents' status only. */
    method ArchiveDocument(documentId: Id)
      modifies this
      ensures documents == DocumentsArchived(old(documents), documentId)
      ensures clients == old(clients) && integrations == old(integrations)
      ensures selectedClientId == old(selectedClientId)
    {
      documents := DocumentsArchived(documents, documentId);
    }

    /** `addIntegration`: appends. */
    method AddIntegration(integration: Integration)
      modifies this
      ensures integrations == old(integrations) + [integration]
      ensures clients == old(clients) && documents == old(documents)
      ensures selectedClientId == old(selectedClientId)
    {
      integrations := integrations + [integration];
    }

    /** `updateIntegration`: merges the matching integrations only. */
    method UpdateIntegration(integrationId: Id, updates: IntegrationPatch)
      modifies this
      ensures integrations == IntegrationsUpdated(old(integrations), integrationId, updates)
      ensures clients == old(clients) && documents == old(documents)
      ensures selectedClientId == old(selectedClientId)
    {
      integrations := IntegrationsUpdated(integrations, integrationId, updates);
    }

    /** `removeIntegration`: removes the matching integrations, keeping the order. */
    method RemoveIntegration(integrationId: Id)
      modifies this
      ensures integrations == IntegrationsWithout(old(integrations), integrationId)
      ensures clients == old(clients) && documents == old(documents)
      ensures selectedClientId == old(selectedClientId)
    {
      integrations := IntegrationsWithout(integrations, integrationId);
    }

    /** `setSelectedClient`: changes the selection only. */
    method SetSelectedClient(clientId: Option<Id>)
      modifies this
      ensures selectedClientId == clientId
      ensures clients == old(clients) && documents == old(documents) && integrations == old(integrations)
    {
      selectedClientId := clientId;
    }
  }
}
