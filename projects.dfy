/** The project store of src/store/projectStore.ts: projects, each holding its
    own task and milestone lists, marketing campaigns, and two selections. */
module Projects {
  import opened Maybe
  import opened Tables

  type Id = string
  type Time = int

  datatype ProjectStatus = Planning | ActiveProject | PausedProject | CompletedProject | Cancelled
  datatype Priority = Low | Medium | High | Urgent
  datatype TaskStatus = Todo | InProgress | Review | Done
  datatype CampaignStatus = Draft | ActiveCampaign | PausedCampaign | CompletedCampaign
  datatype CampaignKind = Social | Email | Content | Advertising | Integrated

  datatype Assignee = Assignee(id: Id, name: string)
  /** A budget; `allocated` is a reserved word here, hence `allocatedFunds`. */
  datatype Budget = Budget(allocatedFunds: real, spent: real, currency: string)

  /** `ProjectTask`; its attachment list is not modelled. */
  datatype ProjectTask = ProjectTask(
    id: Id, title: string, description: string, assignee: Assignee, status: TaskStatus,
    priority: Priority, dueDate: Time, completedAt: Option<Time>, dependencies: seq<Id>)

  datatype TaskPatch = TaskPatch(
    id: Option<Id>, title: Option<string>, description: Option<string>, assignee: Option<Assignee>,
    status: Option<TaskStatus>, priority: Option<Priority>, dueDate: Option<Time>,
    completedAt: Option<Time>, dependencies: Option<seq<Id>>)

  /** `ProjectMilestone`; its deliverables are not modelled. */
  datatype ProjectMilestone = ProjectMilestone(
    id: Id, title: string, description: string, dueDate: Time, completedAt: Option<Time>, tasks: seq<Id>)

  datatype MilestonePatch = MilestonePatch(
    id: Option<Id>, title: Option<string>, description: Option<string>, dueDate: Option<Time>,
    completedAt: Option<Time>, tasks: Option<seq<Id>>)

  datatype ProjectMetadata = ProjectMetadata(campaignId: Option<Id>, tags: seq<string>)

  /** `Project`; its team, attachments and custom fields are not modelled. */
  datatype Project = Project(
    id: Id, name: string, description: string, clientId: Id, status: ProjectStatus,
    priority: Priority, startDate: Time, endDate: Time, budget: Budget,
    milestones: seq<ProjectMilestone>, tasks: seq<ProjectTask>, metadata: ProjectMetadata,
    createdAt: Time, updatedAt: Time)

  datatype ProjectPatch = ProjectPatch(
    id: Option<Id>, name: Option<string>, description: Option<string>, clientId: Option<Id>,
    status: Option<ProjectStatus>, priority: Option<Priority>, startDate: Option<Time>,
    endDate: Option<Time>, budget: Option<Budget>, milestones: Option<seq<ProjectMilestone>>,
    tasks: Option<seq<ProjectTask>>, metadata: Option<ProjectMetadata>,
    createdAt: Option<Time>, updatedAt: Option<Time>)

  /** `Campaign`; its channels, metrics and assets are not modelled. */
  datatype Campaign = Campaign(
    id: Id, name: string, description: string, clientId: Id, status: CampaignStatus,
    kind: CampaignKind, startDate: Time, endDate: Time, budget: Budget,
    projectId: Option<Id>, createdAt: Time, updatedAt: Time)

  datatype CampaignPatch = CampaignPatch(
    id: Option<Id>, name: Option<string>, description: Option<string>, clientId: Option<Id>,
    status: Option<CampaignStatus>, kind: Option<CampaignKind>, startDate: Option<Time>,
    endDate: Option<Time>, budget: Option<Budget>, projectId: Option<Id>,
    createdAt: Option<Time>, updatedAt: Option<Time>)

  function MergeTask(t: ProjectTask, u: TaskPatch): ProjectTask
  {
    ProjectTask(Or(u.id, t.id), Or(u.title, t.title), Or(u.description, t.description),
                Or(u.assignee, t.assignee), Or(u.status, t.status), Or(u.priority, t.priority),
                Or(u.dueDate, t.dueDate), OrElse(u.completedAt, t.completedAt),
                Or(u.dependencies, t.dependencies))
  }

  function MergeMilestone(m: ProjectMilestone, u: MilestonePatch): ProjectMilestone
  {
    ProjectMilestone(Or(u.id, m.id), Or(u.title, m.title), Or(u.description, m.description),
                     Or(u.dueDate, m.dueDate), OrElse(u.completedAt, m.completedAt), Or(u.tasks, m.tasks))
  }

  function MergeProject(p: Project, u: ProjectPatch): Project
  {
    Project(Or(u.id, p.id), Or(u.name, p.name), Or(u.description, p.description),
            Or(u.clientId, p.clientId), Or(u.status, p.status), Or(u.priority, p.priority),
            Or(u.startDate, p.startDate), Or(u.endDate, p.endDate), Or(u.budget, p.budget),
            Or(u.milestones, p.milestones), Or(u.tasks, p.tasks), Or(u.metadata, p.metadata),
            Or(u.createdAt, p.createdAt), Or(u.updatedAt, p.updatedAt))
  }

  function MergeCampaign(c: Campaign, u: CampaignPatch): Campaign
  {
    Campaign(Or(u.id, c.id), Or(u.name, c.name), Or(u.description, c.description),
             Or(u.clientId, c.clientId), Or(u.status, c.status), Or(u.kind, c.kind),
             Or(u.startDate, c.startDate), Or(u.endDate, c.endDate), Or(u.budget, c.budget),
             OrElse(u.projectId, c.projectId), Or(u.createdAt, c.createdAt), Or(u.updatedAt, c.updatedAt))
  }

  // ---------------------------------------------------------------------------
  // Lists inside one project

  function TasksUpdated(tasks: seq<ProjectTask>, id: Id, u: TaskPatch): (r: seq<ProjectTask>)
    ensures |r| == |tasks|
    ensures forall i :: 0 <= i < |tasks| && tasks[i].id == id ==> r[i] == MergeTask(tasks[i], u)
    ensures forall i :: 0 <= i < |tasks| && tasks[i].id != id ==> r[i] == tasks[i]
  {
    MapIf(tasks, (t: ProjectTask) => t.id == id, (t: ProjectTask) => MergeTask(t, u))
  }

  function TasksWithout(tasks: seq<ProjectTask>, id: Id): (r: seq<ProjectTask>)
    ensures forall t | t in r :: t in tasks && t.id != id
    ensures forall t | t in tasks && t.id != id :: t in r
  {
    Filter(tasks, (t: ProjectTask) => t.id != id)
  }

  function MilestonesUpdated(milestones: seq<ProjectMilestone>, id: Id, u: MilestonePatch): (r: seq<ProjectMilestone>)
    ensures |r| == |milestones|
    ensures forall i :: 0 <= i < |milestones| && milestones[i].id == id ==> r[i] == MergeMilestone(milestones[i], u)
    ensures forall i :: 0 <= i < |milestones| && milestones[i].id != id ==> r[i] == milestones[i]
  {
    MapIf(milestones, (m: ProjectMilestone) => m.id == id, (m: ProjectMilestone) => MergeMilestone(m, u))
  }

  function MilestonesWithout(milestones: seq<ProjectMilestone>, id: Id): (r: seq<ProjectMilestone>)
    ensures forall m | m in r :: m in milestones && m.id != id
    ensures forall m | m in milestones && m.id != id :: m in r
  {
    Filter(milestones, (m: ProjectMilestone) => m.id != id)
  }

  // ---------------------------------------------------------------------------
  // Project table transitions

  function ProjectsUpdated(projects: seq<Project>, id: Id, u: ProjectPatch): (r: seq<Project>)
    ensures |r| == |projects|
    ensures forall i :: 0 <= i < |projects| && projects[i].id == id ==> r[i] == MergeProject(projects[i], u)
    ensures forall i :: 0 <= i < |projects| && projects[i].id != id ==> r[i] == projects[i]
  {
    MapIf(projects, (p: Project) => p.id == id, (p: Project) => MergeProject(p, u))
  }

  function ProjectsWithout(projects: seq<Project>, id: Id): (r: seq<Project>)
    ensures forall p | p in r :: p in projects && p.id != id
    ensures forall p | p in projects && p.id != id :: p in r
  {
    Filter(projects, (p: Project) => p.id != id)
  }

  /** `addTask`'s new table: a task appended to the named projects' tasks. */
  function WithTaskAdded(projects: seq<Project>, projectId: Id, task: ProjectTask): (r: seq<Project>)
    ensures |r| == |projects|
    ensures forall i :: 0 <= i < |projects| && projects[i].id == projectId ==>
      r[i] == projects[i].(tasks := projects[i].tasks + [task])
    ensures forall i :: 0 <= i < |projects| && projects[i].id != projectId ==> r[i] == projects[i]
  {
    MapIf(projects, (p: Project) => p.id == projectId, (p: Project) => p.(tasks := p.tasks + [task]))
  }

  /** `updateTask`'s new table: a task merged inside the named projects only. */
  function WithTaskUpdated(projects: seq<Project>, projectId: Id, taskId: Id, u: TaskPatch): (r: seq<Project>)
    ensures |r| == |projects|
    ensures forall i :: 0 <= i < |projects| && projects[i].id == projectId ==>
      r[i] == projects[i].(tasks := TasksUpdated(projects[i].tasks, taskId, u))
    ensures forall i :: 0 <= i < |projects| && projects[i].id != projectId ==> r[i] == projects[i]
  {
    MapIf(projects, (p: Project) => p.id == projectId,
          (p: Project) => p.(tasks := TasksUpdated(p.tasks, taskId, u)))
  }

  /** `deleteTask`'s new table: a task removed from the named projects only. */
  function WithTaskRemoved(projects: seq<Project>, projectId: Id, taskId: Id): (r: seq<Project>)
    ensures |r| == |projects|
    ensures forall i :: 0 <= i < |projects| && projects[i].id == projectId ==>
      r[i] == projects[i].(tasks := TasksWithout(projects[i].tasks, taskId))
    ensures forall i :: 0 <= i < |projects| && projects[i].id != projectId ==> r[i] == projects[i]
  {
    MapIf(projects, (p: Project) => p.id == projectId,
          (p: Project) => p.(tasks := TasksWithout(p.tasks, taskId)))
  }

  /** `addMilestone`'s new table. */
  function WithMilestoneAdded(projects: seq<Project>, projectId: Id, milestone: ProjectMilestone): (r: seq<Project>)
    ensures |r| == |projects|
    ensures forall i :: 0 <= i < |projects| && projects[i].id == projectId ==>
      r[i] == projects[i].(milestones := projects[i].milestones + [milestone])
    ensures forall i :: 0 <= i < |projects| && projects[i].id != projectId ==> r[i] == projects[i]
  {
    MapIf(projects, (p: Project) => p.id == projectId,
          (p: Project) => p.(milestones := p.milestones + [milestone]))
  }

  /** `updateMilestone`'s new table. */
  function WithMilestoneUpdated(projects: seq<Project>, projectId: Id, milestoneId: Id, u: MilestonePatch): (r: seq<Project>)
    ensures |r| == |projects|
    ensures forall i :: 0 <= i < |projects| && projects[i].id == projectId ==>
      r[i] == projects[i].(milestones := MilestonesUpdated(projects[i].milestones, milestoneId, u))
    ensures forall i :: 0 <= i < |projects| && projects[i].id != projectId ==> r[i] == projects[i]
  {
    MapIf(projects, (p: Project) => p.id == projectId,
          (p: Project) => p.(milestones := MilestonesUpdated(p.milestones, milestoneId, u)))
  }

  /** `deleteMilestone`'s new table. */
  function WithMilestoneRemoved(projects: seq<Project>, projectId: Id, milestoneId: Id): (r: seq<Project>)
    ensures |r| == |projects|
    ensures forall i :: 0 <= i < |projects| && projects[i].id == projectId ==>
      r[i] == projects[i].(milestones := MilestonesWithout(projects[i].milestones, milestoneId))
    ensures forall i :: 0 <= i < |projects| && projects[i].id != projectId ==> r[i] == projects[i]
  {
    MapIf(projects, (p: Project) => p.id == projectId,
          (p: Project) => p.(milestones := MilestonesWithout(p.milestones, milestoneId)))
  }

  function CampaignsUpdated(campaigns: seq<Campaign>, id: Id, u: CampaignPatch): (r: seq<Campaign>)
    ensures |r| == |campaigns|
    ensures forall i :: 0 <= i < |campaigns| && campaigns[i].id == id ==> r[i] == MergeCampaign(campaigns[i], u)
    ensures forall i :: 0 <= i < |campaigns| && campaigns[i].id != id ==> r[i] == campaigns[i]
  {
    MapIf(campaigns, (c: Campaign) => c.id == id, (c: Campaign) => MergeCampaign(c, u))
  }

  function CampaignsWithout(campaigns: seq<Campaign>, id: Id): (r: seq<Campaign>)
    ensures forall c | c in r :: c in campaigns && c.id != id
    ensures forall c | c in campaigns && c.id != id :: c in r
  {
    Filter(campaigns, (c: Campaign) => c.id != id)
  }

  // ---------------------------------------------------------------------------
  // Properties

  /** Whether some project in the table carries the id. */
  predicate HasProject(projects: seq<Project>, id: Id)
  {
    exists i :: 0 <= i < |projects| && projects[i].id == id
  }

  /** Adding a task to a project that does not exist changes nothing. */
  lemma AddTaskToMissingProject(projects: seq<Project>, projectId: Id, task: ProjectTask)
    requires !HasProject(projects, projectId)
    ensures WithTaskAdded(projects, projectId, task) == projects
  {
  }

  /** Adding a milestone to a project that does not exist changes nothing. */
  lemma AddMilestoneToMissingProject(projects: seq<Project>, projectId: Id, milestone: ProjectMilestone)
    requires !HasProject(projects, projectId)
    ensures WithMilestoneAdded(projects, projectId, milestone) == projects
  {
  }

  /** A task list with no task under this id. */
  predicate NoTaskWithId(tasks: seq<ProjectTask>, id: Id)
  {
    forall i :: 0 <= i < |tasks| ==> tasks[i].id != id
  }

  /** A milestone list with no milestone under this id. */
  predicate NoMilestoneWithId(milestones: seq<ProjectMilestone>, id: Id)
  {
    forall i :: 0 <= i < |milestones| ==> milestones[i].id != id
  }

  /** Deleting a task that was just added under a fresh id restores the list of tasks. */
  lemma {:induction false} TaskAddDeleteRoundTrip(tasks: seq<ProjectTask>, task: ProjectTask)
    requires NoTaskWithId(tasks, task.id)
    ensures TasksWithout(tasks + [task], task.id) == tasks
  {
    FilterSnoc(tasks, task, (t: ProjectTask) => t.id != task.id);
    FilterKeepsAll(tasks, (t: ProjectTask) => t.id != task.id);
  }

  /** The same round trip on the project table: `deleteTask(p, t.id)` undoes
      `addTask(p, t)` when no task of project `p` already had that id. */
  lemma {:induction false} AddThenDeleteTask(projects: seq<Project>, projectId: Id, task: ProjectTask)
    requires forall i :: 0 <= i < |projects| && projects[i].id == projectId ==> NoTaskWithId(projects[i].tasks, task.id)
    ensures WithTaskRemoved(WithTaskAdded(projects, projectId, task), projectId, task.id) == projects
  {
    var added := WithTaskAdded(projects, projectId, task);
    var r := WithTaskRemoved(added, projectId, task.id);
    forall i | 0 <= i < |projects| ensures r[i] == projects[i] {
      if projects[i].id == projectId {
        TaskAddDeleteRoundTrip(projects[i].tasks, task);
      }
    }
  }

  /** Deleting a milestone that was just added under a fresh id restores the list. */
  lemma {:induction false} MilestoneAddDeleteRoundTrip(milestones: seq<ProjectMilestone>, milestone: ProjectMilestone)
    requires NoMilestoneWithId(milestones, milestone.id)
    ensures MilestonesWithout(milestones + [milestone], milestone.id) == milestones
  {
    FilterSnoc(milestones, milestone, (m: ProjectMilestone) => m.id != milestone.id);
    FilterKeepsAll(milestones, (m: ProjectMilestone) => m.id != milestone.id);
  }

  /** `deleteMilestone(p, m.id)` undoes `addMilestone(p, m)` when no milestone of
      project `p` already had that id. */
  lemma {:induction false} AddThenDeleteMilestone(projects: seq<Project>, projectId: Id, milestone: ProjectMilestone)
    requires forall i :: 0 <= i < |projects| && projects[i].id == projectId ==> NoMilestoneWithId(projects[i].milestones, milestone.id)
    ensures WithMilestoneRemoved(WithMilestoneAdded(projects, projectId, milestone), projectId, milestone.id) == projects
  {
    var added := WithMilestoneAdded(projects, projectId, milestone);
    var r := WithMilestoneRemoved(added, projectId, milestone.id);
    forall i | 0 <= i < |projects| ensures r[i] == projects[i] {
      if projects[i].id == projectId {
        MilestoneAddDeleteRoundTrip(projects[i].milestones, milestone);
      }
    }
  }

  /** A task in any project other than `p` is exactly as it was after
      `updateTask(p, t, u)`, even when it shares the id `t`. */
  lemma UpdateTaskLeavesOtherProjects(projects: seq<Project>, projectId: Id, taskId: Id, u: TaskPatch, i: nat, j: nat)
    requires i < |projects| && projects[i].id != projectId && j < |projects[i].tasks|
    ensures WithTaskUpdated(projects, projectId, taskId, u)[i].tasks[j] == projects[i].tasks[j]
  {
  }

  // ---------------------------------------------------------------------------
  // The store

  class ProjectStore {
    var projects: seq<Project>
    var campaigns: seq<Campaign>
    var selectedProjectId: Option<Id>
    var selectedCampaignId: Option<Id>

    constructor ()
      ensures projects == [] && campaigns == []
      ensures selectedProjectId.None? && selectedCampaignId.None?
    {
      projects, campaigns := [], [];
      selectedProjectId, selectedCampaignId := None, None;
    }

    /** `addProject`: appends. */
    method AddProject(project: Project)
      modifies this
      ensures projects == old(projects) + [project]
      ensures campaigns == old(campaigns)
      ensures selectedProjectId == old(selectedProjectId) && selectedCampaignId == old(selectedCampaignId)
    {
      projects := projects + [project];
    }

    /** `updateProject`: merges the matching projects only. */
    method UpdateProject(projectId: Id, updates: ProjectPatch)
      modifies this
      ensures projects == ProjectsUpdated(old(projects), projectId, updates)
      ensures campaigns == old(campaigns)
      ensures selectedProjectId == old(selectedProjectId) && selectedCampaignId == old(selectedCampaignId)
    {
      projects := ProjectsUpdated(projects, projectId, updates);
    }

    /** `deleteProject`: removes the matching projects; campaigns untouched, even
        those whose `projectId` names the deleted project. */
    method DeleteProject(projectId: Id)
      modifies this
      ensures projects == ProjectsWithout(old(projects), projectId)
      ensures campaigns == old(campaigns)
      ensures selectedProjectId == old(selectedProjectId) && selectedCampaignId == old(selectedCampaignId)
    {
      projects := ProjectsWithout(projects, projectId);
    }

    /** `addTask`: appends to the named project's tasks; no project, no change. */
    method AddTask(projectId: Id, task: ProjectTask)
      modifies this
      ensures projects == WithTaskAdded(old(projects), projectId, task)
      ensures !HasProject(old(projects), projectId) ==> projects == old(projects)
      ensures campaigns == old(campaigns)
      ensures selectedProjectId == old(selectedProjectId) && selectedCampaignId == old(selectedCampaignId)
    {
      if !HasProject(projects, projectId) {
        AddTaskToMissingProject(projects, projectId, task);
      }
      projects := WithTaskAdded(projects, projectId, task);
    }

    /** `updateTask`: merges a task inside the named project only. */
    method UpdateTask(projectId: Id, taskId: Id, updates: TaskPatch)
      modifies this
      ensures projects == WithTaskUpdated(old(projects), projectId, taskId, updates)
      ensures campaigns == old(campaigns)
      ensures selectedProjectId == old(selectedProjectId) && selectedCampaignId == old(selectedCampaignId)
    {
      projects := WithTaskUpdated(projects, projectId, taskId, updates);
    }

    /** `deleteTask`: removes a task from the named project only. */
    method DeleteTask(projectId: Id, taskId: Id)
      modifies this
      ensures projects == WithTaskRemoved(old(projects), projectId, taskId)
      ensures campaigns == old(campaigns)
      ensures selectedProjectId == old(selectedProjectId) && selectedCampaignId == old(selectedCampaignId)
    {
      projects := WithTaskRemoved(projects, projectId, taskId);
    }

    /** `addMilestone`: appends to the named project's milestones; no project, no change. */
    method AddMilestone(projectId: Id, milestone: ProjectMilestone)
      modifies this
      ensures projects == WithMilestoneAdded(old(projects), projectId, milestone)
      ensures !HasProject(old(projects), projectId) ==> projects == old(projects)
      ensures campaigns == old(campaigns)
      ensures selectedProjectId == old(selectedProjectId) && selectedCampaignId == old(selectedCampaignId)
    {
      if !HasProject(projects, projectId) {
        AddMilestoneToMissingProject(projects, projectId, milestone);
      }
      projects := WithMilestoneAdded(projects, projectId, milestone);
    }

    /** `updateMilestone`: merges the milestone inside the named project only. */
    method UpdateMilestone(projectId: Id, milestoneId: Id, updates: MilestonePatch)
      modifies this
      ensures projects == WithMilestoneUpdated(old(projects), projectId, milestoneId, updates)
      ensures campaigns == old(campaigns)
      ensures selectedProjectId == old(selectedProjectId) && selectedCampaignId == old(selectedCampaignId)
    {
      projects := WithMilestoneUpdated(projects, projectId, milestoneId, updates);
    }

    /** `deleteMilestone`: removes the milestone from the named project only. */
    method DeleteMilestone(projectId: Id, milestoneId: Id)
      modifies this
      ensures projects == WithMilestoneRemoved(old(projects), projectId, milestoneId)
      ensures campaigns == old(campaigns)
      ensures selectedProjectId == old(selectedProjectId) && selectedCampaignId == old(selectedCampaignId)
    {
      projects := WithMilestoneRemoved(projects, projectId, milestoneId);
    }

    /** `addCampaign`: appends; projects untouched. */
    method AddCampaign(campaign: Campaign)
      modifies this
      ensures campaigns == old(campaigns) + [campaign]
      ensures projects == old(projects)
      ensures selectedProjectId == old(selectedProjectId) && selectedCampaignId == old(selectedCampaignId)
    {
      campaigns := campaigns + [campaign];
    }

    /** `updateCampaign`: merges the matching campaigns only; projects untouched. */
    method UpdateCampaign(campaignId: Id, updates: CampaignPatch)
      modifies this
      ensures campaigns == CampaignsUpdated(old(campaigns), campaignId, updates)
      ensures projects == old(projects)
      ensures selectedProjectId == old(selectedProjectId) && selectedCampaignId == old(selectedCampaignId)
    {
      campaigns := CampaignsUpdated(campaigns, campaignId, updates);
    }

    /** `deleteCampaign`: removes the matching campaigns only; projects untouched. */
    method DeleteCampaign(campaignId: Id)
      modifies this
      ensures campaigns == CampaignsWithout(old(campaigns), campaignId)
      ensures projects == old(projects)
      ensures selectedProjectId == old(selectedProjectId) && selectedCampaignId == old(selectedCampaignId)
    {
      campaigns := CampaignsWithout(campaigns, campaignId);
    }

    /** `setSelectedProject`: changes that selection only. */
    method SetSelectedProject(projectId: Option<Id>)
      modifies this
      ensures selectedProjectId == projectId && selectedCampaignId == old(selectedCampaignId)
      ensures projects == old(projects) && campaigns == old(campaigns)
    {
      selectedProjectId := projectId;
    }

    /** `setSelectedCampaign`: changes that selection only. */
    method SetSelectedCampaign(campaignId: Option<Id>)
      modifies this
      ensures selectedCampaignId == campaignId && selectedProjectId == old(selectedProjectId)
      ensures projects == old(projects) && campaigns == old(campaigns)
    {
      selectedCampaignId := campaignId;
    }
  }
}
