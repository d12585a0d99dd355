/** The note store of src/store/noteStore.ts: threaded client notes (a reply
    names its parent through `parentId`), note templates, and the selected note. */
module Notes {
  import opened Maybe
  import opened Tables

  type Id = string
  type Time = int

  datatype NoteCategory = Strategy | Issue | Request | General

  datatype Author = Author(id: Id, name: string, avatar: Option<string>)

  datatype Attachment = Attachment(id: Id, name: string, url: string, kind: string, size: int)

  datatype Note = Note(
    id: Id, clientId: Id, parentId: Option<Id>, category: NoteCategory, content: string,
    author: Author, mentions: seq<Id>, attachments: seq<Attachment>,
    createdAt: Time, updatedAt: Time, templateId: Option<Id>)

  datatype NotePatch = NotePatch(
    id: Option<Id>, clientId: Option<Id>, parentId: Option<Id>, category: Option<NoteCategory>,
    content: Option<string>, author: Option<Author>, mentions: Option<seq<Id>>,
    attachments: Option<seq<Attachment>>, createdAt: Option<Time>, updatedAt: Option<Time>,
    templateId: Option<Id>)

  /** What a caller of `replyToNote` supplies: a note without `id` and `parentId`. */
  datatype ReplyDraft = ReplyDraft(
    clientId: Id, category: NoteCategory, content: string, author: Author,
    mentions: seq<Id>, attachments: seq<Attachment>, createdAt: Time, updatedAt: Time,
    templateId: Option<Id>)

  datatype NoteTemplate = NoteTemplate(
    id: Id, name: string, category: NoteCategory, content: string, tags: seq<string>)

  datatype TemplatePatch = TemplatePatch(
    id: Option<Id>, name: Option<string>, category: Option<NoteCategory>,
    content: Option<string>, tags: Option<seq<string>>)

  /** `{...note, ...updates, updatedAt: now}`. */
  function MergeNote(n: Note, u: NotePatch, now: Time): (r: Note)
    ensures r.updatedAt == now
  {
    Note(Or(u.id, n.id), Or(u.clientId, n.clientId), OrElse(u.parentId, n.parentId),
         Or(u.category, n.category), Or(u.content, n.content), Or(u.author, n.author),
         Or(u.mentions, n.mentions), Or(u.attachments, n.attachments),
         Or(u.createdAt, n.createdAt), now, OrElse(u.templateId, n.templateId))
  }

  function MergeTemplate(t: NoteTemplate, u: TemplatePatch): NoteTemplate
  {
    NoteTemplate(Or(u.id, t.id), Or(u.name, t.name), Or(u.category, t.category),
                 Or(u.content, t.content), Or(u.tags, t.tags))
  }

  // ---------------------------------------------------------------------------
  // Initial templates

  const StrategyTemplate := NoteTemplate(
    "template-1", "Strategy Meeting Notes", Strategy,
    "## Meeting Objectives\n\n## Key Discussion Points\n\n## Action Items\n\n## Next Steps",
    ["meeting", "strategy"])

  const IssueTemplate := NoteTemplate(
    "template-2", "Issue Report", Issue,
    "## Issue Description\n\n## Impact\n\n## Proposed Solution\n\n## Timeline",
    ["issue", "support"])

  /** The store starts with the strategy template and the issue template, whose
      ids are distinct. */
  lemma InitialTemplateIds()
    ensures StrategyTemplate.id == "template-1" && IssueTemplate.id == "template-2"
    ensures StrategyTemplate.id != IssueTemplate.id
  {
    assert "template-1"[9] != "template-2"[9];
  }

  // ---------------------------------------------------------------------------
  // Table transitions

  /** `updateNote`'s new table: the matching notes merged and stamped. */
  function NotesUpdated(notes: seq<Note>, id: Id, u: NotePatch, now: Time): (r: seq<Note>)
    ensures |r| == |notes|
    ensures forall i :: 0 <= i < |notes| && notes[i].id == id ==> r[i] == MergeNote(notes[i], u, now) && r[i].updatedAt == now
    ensures forall i :: 0 <= i < |notes| && notes[i].id != id ==> r[i] == notes[i]
  {
    MapIf(notes, (n: Note) => n.id == id, (n: Note) => MergeNote(n, u, now))
  }

  /** Whether `n` goes when `noteId` is deleted: it is that note or replies to it. */
  predicate InThread(n: Note, noteId: Id)
  {
    n.id == noteId || n.parentId == Some(noteId)
  }

  /** `deleteNote`'s new table: the note and its direct replies gone, in order. */
  function NotesWithoutThread(notes: seq<Note>, noteId: Id): (r: seq<Note>)
    ensures forall n | n in r :: n in notes && !InThread(n, noteId)
    ensures forall n | n in notes && !InThread(n, noteId) :: n in r
  {
    Filter(notes, (n: Note) => !InThread(n, noteId))
  }

  /** The note `replyToNote` appends: the draft under a fresh id, filed under the
      parent, stamped with two clock readings (creation, then update); every
      other field comes from the draft. */
  function Reply(parentId: Id, draft: ReplyDraft, newId: Id, createdAt: Time, updatedAt: Time): (r: Note)
    ensures r.id == newId && r.parentId == Some(parentId)
    ensures r.createdAt == createdAt && r.updatedAt == updatedAt
    ensures r.clientId == draft.clientId && r.content == draft.content && r.author == draft.author
    ensures r.category == draft.category && r.mentions == draft.mentions
    ensures r.attachments == draft.attachments && r.templateId == draft.templateId
  {
    Note(newId, draft.clientId, Some(parentId), draft.category, draft.content, draft.author,
         draft.mentions, draft.attachments, createdAt, updatedAt, draft.templateId)
  }

  /** `updateTemplate`'s new table. */
  function TemplatesUpdated(templates: seq<NoteTemplate>, id: Id, u: TemplatePatch): (r: seq<NoteTemplate>)
    ensures |r| == |templates|
    ensures forall i :: 0 <= i < |templates| && templates[i].id == id ==> r[i] == MergeTemplate(templates[i], u)
    ensures forall i :: 0 <= i < |templates| && templates[i].id != id ==> r[i] == templates[i]
  {
    MapIf(templates, (t: NoteTemplate) => t.id == id, (t: NoteTemplate) => MergeTemplate(t, u))
  }

  /** `deleteTemplate`'s new table. */
  function TemplatesWithout(templates: seq<NoteTemplate>, id: Id): (r: seq<NoteTemplate>)
    ensures forall t | t in r :: t in templates && t.id != id
    ensures forall t | t in templates && t.id != id :: t in r
  {
    Filter(templates, (t: NoteTemplate) => t.id != id)
  }

  // ---------------------------------------------------------------------------
  // Properties of deletion

  /** Deletion reaches only one level down: a reply to a reply of the deleted
      note survives, while the reply it answers is gone. */
  lemma DeleteKeepsGrandchildren(notes: seq<Note>, noteId: Id, child: Note, grandchild: Note)
    requires child in notes && grandchild in notes
    requires child.parentId == Some(noteId) && grandchild.parentId == Some(child.id)
    requires child.id != noteId && grandchild.id != noteId
    ensures child !in NotesWithoutThread(notes, noteId)
    ensures grandchild in NotesWithoutThread(notes, noteId)
  {
  }

  /** A reply that has just been filed under `p` is removed when `p` is deleted,
      even if `p` itself was never in the table. */
  lemma {:induction false} DeleteRemovesNewReply(notes: seq<Note>, p: Id, draft: ReplyDraft, newId: Id, createdAt: Time, updatedAt: Time)
    ensures NotesWithoutThread(notes + [Reply(p, draft, newId, createdAt, updatedAt)], p) == NotesWithoutThread(notes, p)
  {
    FilterSnoc(notes, Reply(p, draft, newId, createdAt, updatedAt), (n: Note) => !InThread(n, p));
  }

  /** Deleting twice is deleting once. */
  lemma DeleteNoteIdempotent(notes: seq<Note>, noteId: Id)
    ensures NotesWithoutThread(NotesWithoutThread(notes, noteId), noteId) == NotesWithoutThread(notes, noteId)
  {
    FilterIdempotent(notes, (n: Note) => !InThread(n, noteId));
  }

  // ---------------------------------------------------------------------------
  // The store

  class NoteStore {
    var notes: seq<Note>
    var templates: seq<NoteTemplate>
    var selectedNoteId: Option<Id>

    /** The initial state: no notes, the two stock templates, nothing selected. */
    constructor ()
      ensures notes == [] && templates == [StrategyTemplate, IssueTemplate] && selectedNoteId.None?
      ensures templates[0].id == "template-1" && templates[1].id == "template-2"
    {
      notes, templates, selectedNoteId := [], [StrategyTemplate, IssueTemplate], None;
      InitialTemplateIds();
    }

    /** `addNote`: appends. */
    method AddNote(note: Note)
      modifies this
      ensures notes == old(notes) + [note]
      ensures templates == old(templates) && selectedNoteId == old(selectedNoteId)
    {
      notes := notes + [note];
    }

    /** `updateNote`: merges and stamps the matching notes only. */
    method UpdateNote(noteId: Id, updates: NotePatch, now: Time)
      modifies this
      ensures notes == NotesUpdated(old(notes), noteId, updates, now)
      ensures templates == old(templates) && selectedNoteId == old(selectedNoteId)
    {
      notes := NotesUpdated(notes, noteId, updates, now);
    }

    /** `deleteNote`: removes the note and its direct replies. */
    method DeleteNote(noteId: Id)
      modifies this
      ensures notes == NotesWithoutThread(old(notes), noteId)
      ensures forall n | n in notes :: n.id != noteId && n.parentId != Some(noteId)
      ensures templates == old(templates) && selectedNoteId == old(selectedNoteId)
    {
      notes := NotesWithoutThread(notes, noteId);
    }

    /** `replyToNote`: appends the reply whether or not the parent exists; the
        new id and the two clock readings are supplied by the caller. */
    method ReplyToNote(parentNoteId: Id, reply: ReplyDraft, newId: Id, createdAt: Time, updatedAt: Time)
      modifies this
      ensures notes == old(notes) + [Reply(parentNoteId, reply, newId, createdAt, updatedAt)]
      ensures notes[|notes| - 1].parentId == Some(parentNoteId)
      ensures templates == old(templates) && selectedNoteId == old(selectedNoteId)
    {
      notes := notes + [Reply(parentNoteId, reply, newId, createdAt, updatedAt)];
    }

    /** `addTemplate`: appends. */
    method AddTemplate(template: NoteTemplate)
      modifies this
      ensures templates == old(templates) + [template]
      ensures notes == old(notes) && selectedNoteId == old(selectedNoteId)
    {
      templates := templates + [template];
    }

    /** `updateTemplate`: merges the matching templates only; notes untouched. */
    method UpdateTemplate(templateId: Id, updates: TemplatePatch)
      modifies this
      ensures templates == TemplatesUpdated(old(templates), templateId, updates)
      ensures notes == old(notes) && selectedNoteId == old(selectedNoteId)
    {
      templates := TemplatesUpdated(templates, templateId, updates);
    }

    /** `deleteTemplate`: removes the matching templates only; notes untouched. */
    method DeleteTemplate(templateId: Id)
      modifies this
      ensures templates == TemplatesWithout(old(templates), templateId)
      ensures notes == old(notes) && selectedNoteId == old(selectedNoteId)
    {
      templates := TemplatesWithout(templates, templateId);
    }

    /** `setSelectedNote`: changes the selection only. */
    method SetSelectedNote(noteId: Option<Id>)
      modifies this
      ensures selectedNoteId == noteId
      ensures notes == old(notes) && templates == old(templates)
    {
      selectedNoteId := noteId;
    }
  }
}
