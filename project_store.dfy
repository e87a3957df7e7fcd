/** The project store (src/store/projectStore.js): the list of projects
    the UI shows, the open project, and the isLoading / error flags around
    each call into the project service. Every async action first sets
    isLoading and clears error, awaits one service call (one atomic step
    here), and ends with isLoading false; on failure it records the
    message, leaves projects and currentProject alone and rethrows. */
module ProjectStore {
  import opened Js
  import opened Records
  import opened ProjectService

  /** {...projectData, createdAt: now, lastModified: now} */
  function NewProject(projectData: Record, now: string): (r: Record)
    ensures r.Keys == projectData.Keys + {"createdAt", "lastModified"}
    ensures Get(r, "createdAt") == Str(now) && Get(r, "lastModified") == Str(now)
    ensures forall k :: k in projectData && k != "createdAt" && k != "lastModified" ==> k in r && r[k] == projectData[k]
  {
    Spread(projectData, map["createdAt" := Str(now), "lastModified" := Str(now)])
  }

  /** {...currentProject, ...updates, lastModified: now} */
  function UpdatedProject(current: Record, updates: Record, now: string): (r: Record)
    ensures r.Keys == current.Keys + updates.Keys + {"lastModified"}
    ensures Get(r, "lastModified") == Str(now)
    ensures forall k :: k in updates && k != "lastModified" ==> k in r && r[k] == updates[k]
    ensures forall k :: k in current && k !in updates && k != "lastModified" ==> k in r && r[k] == current[k]
  {
    Spread(Spread(current, updates), map["lastModified" := Str(now)])
  }

  /** What deleteProject leaves in currentProject: the open project stays
      open or is closed, a project left open never has the deleted id, and
      only the project with that id is closed. */
  function CurrentAfterDelete(current: Option<Record>, projectId: Value): (c: Option<Record>)
    ensures c == None || c == current
    ensures c.Some? ==> IdOf(c.value) != projectId
    ensures current.Some? && c.None? ==> IdOf(current.value) == projectId
  {
    if current.Some? && IdOf(current.value) == projectId then None else current
  }

  class ProjectStore {
    var projects: seq<Record>
    var currentProject: Option<Record>
    var isLoading: bool
    var error: Option<string>
    const storage: ProjectStorage

    constructor(storage: ProjectStorage)
      ensures projects == [] && currentProject == None && !isLoading && error == None
      ensures this.storage == storage
    {
      projects := [];
      currentProject := None;
      isLoading := false;
      error := None;
      this.storage := storage;
    }

    /** fetchProjects: replaces the list with the stored one. */
    method FetchProjects()
      modifies this
      ensures !isLoading && currentProject == old(currentProject)
      ensures old(storage.GetAllProjects()).Ok? ==> projects == old(storage.GetAllProjects()).value && error == None
      ensures old(storage.GetAllProjects()).Failed? ==>
                projects == old(projects) && error == Some(old(storage.GetAllProjects()).message)
    {
      isLoading, error := true, None;
      var r := storage.GetAllProjects();
      if r.Ok? {
        projects, isLoading := r.value, false;
      } else {
        error, isLoading := Some(r.message), false;
      }
    }

    /** createProject: stamps the project, saves it, appends the saved
        project to the list and opens it. */
    method CreateProject(projectData: Record, now: string, freshId: Value, setItemThrows: bool) returns (r: Outcome<Record>)
      modifies this, storage
      ensures !isLoading
      ensures r.Ok? <==> !old(storage.slot).Corrupt? && !setItemThrows
      ensures r.Ok? ==> r.value == ProjectToSave(NewProject(projectData, now), freshId, now)
      ensures r.Ok? ==> projects == old(projects) + [r.value] && currentProject == Some(r.value) && error == None
      ensures r.Ok? ==> storage.slot == Stored(ProjectsAfterSave(Parsed(old(storage.slot)).value, NewProject(projectData, now), r.value))
      ensures r.Failed? ==> r.message == "Failed to save project" && error == Some(r.message)
      ensures r.Failed? ==> projects == old(projects) && currentProject == old(currentProject) && storage.slot == old(storage.slot)
    {
      isLoading, error := true, None;
      var newProject := NewProject(projectData, now);
      r := storage.SaveProject(newProject, freshId, now, setItemThrows);
      if r.Ok? {
        projects, currentProject, isLoading := projects + [r.value], Some(r.value), false;
      } else {
        error, isLoading := Some(r.message), false;
      }
    }

    /** updateProject: the project must be in the list; the merged and
        stamped project is saved and replaces every entry with that id. */
    method UpdateProject(projectId: Value, updates: Record, now: string, freshId: Value, setItemThrows: bool)
      returns (r: Outcome<Record>)
      modifies this, storage
      ensures !isLoading
      ensures FindId(old(projects), projectId).None? ==>
                r == Failed("Project not found") && error == Some("Project not found") &&
                projects == old(projects) && currentProject == old(currentProject) && storage.slot == old(storage.slot)
      ensures FindId(old(projects), projectId).Some? ==>
                (r.Ok? <==> !old(storage.slot).Corrupt? && !setItemThrows)
      ensures FindId(old(projects), projectId).Some? && r.Failed? ==> r.message == "Failed to save project"
      ensures r.Ok? ==> FindId(old(projects), projectId).Some?
      ensures r.Ok? ==> r.value == ProjectToSave(UpdatedProject(FindId(old(projects), projectId).value, updates, now), freshId, now)
      ensures r.Ok? ==> projects == ReplaceWhereId(old(projects), projectId, r.value)
      ensures r.Ok? ==>
                storage.slot == Stored(ProjectsAfterSave(Parsed(old(storage.slot)).value,
                                                         UpdatedProject(FindId(old(projects), projectId).value, updates, now), r.value))
      ensures r.Ok? ==> currentProject == Some(r.value) && error == None
      ensures r.Failed? ==> error == Some(r.message) && projects == old(projects)
      ensures r.Failed? ==> currentProject == old(currentProject) && storage.slot == old(storage.slot)
    {
      isLoading, error := true, None;
      var current := FindId(projects, projectId);
      if current.None? {
        r := Failed("Project not found");
        error, isLoading := Some(r.message), false;
        return;
      }
      var updatedProject := UpdatedProject(current.value, updates, now);
      r := storage.SaveProject(updatedProject, freshId, now, setItemThrows);
      if r.Ok? {
        projects, currentProject, isLoading := ReplaceWhereId(projects, projectId, r.value), Some(r.value), false;
      } else {
        error, isLoading := Some(r.message), false;
      }
    }

    /** loadProject: opens the stored project with the id. */
    method LoadProject(projectId: Value) returns (r: Outcome<Record>)
      modifies this
      ensures !isLoading && projects == old(projects)
      ensures r == old(storage.LoadProject(projectId))
      ensures r.Ok? ==> currentProject == Some(r.value) && error == None
      ensures r.Failed? ==> currentProject == old(currentProject) && error == Some("Failed to load project")
    {
      isLoading, error := true, None;
      r := storage.LoadProject(projectId);
      if r.Ok? {
        currentProject, isLoading := Some(r.value), false;
      } else {
        error, isLoading := Some(r.message), false;
      }
    }

    /** deleteProject: removes the project from storage and from the list,
        and closes it if it is open. */
    method DeleteProject(projectId: Value, setItemThrows: bool) returns (r: Outcome<()>)
      modifies this, storage
      ensures !isLoading
      ensures r.Ok? <==> !old(storage.slot).Corrupt? && !setItemThrows
      ensures r.Ok? ==> storage.slot == Stored(WithoutId(Parsed(old(storage.slot)).value, projectId))
      ensures r.Ok? ==> projects == WithoutId(old(projects), projectId)
      ensures r.Ok? ==> currentProject == CurrentAfterDelete(old(currentProject), projectId) && error == None
      ensures r.Failed? ==> r.message == "Failed to delete project" && error == Some(r.message)
      ensures r.Failed? ==> projects == old(projects) && currentProject == old(currentProject) && storage.slot == old(storage.slot)
    {
      isLoading, error := true, None;
      r := storage.DeleteProject(projectId, setItemThrows);
      if r.Ok? {
        projects := WithoutId(projects, projectId);
        currentProject, isLoading := CurrentAfterDelete(currentProject, projectId), false;
      } else {
        error, isLoading := Some(r.message), false;
      }
    }

    method ClearCurrentProject()
      modifies this
      ensures currentProject == None
      ensures projects == old(projects) && isLoading == old(isLoading) && error == old(error)
    {
      currentProject := None;
    }
  }

  // ---------------------------------------------------------------------
  // What the list goes through

  /** A successful update keeps the length of the list and, when the
      update does not touch the id, the updated project is then the one
      found under its id. */
  lemma UpdateKeepsListAndFinds(projects: seq<Record>, projectId: Value, updates: Record, now: string, freshId: Value)
    requires Truthy(projectId) && "id" !in updates
    requires FindId(projects, projectId).Some?
    ensures var saved := ProjectToSave(UpdatedProject(FindId(projects, projectId).value, updates, now), freshId, now);
            var t := ReplaceWhereId(projects, projectId, saved);
            |t| == |projects| && FindId(t, projectId) == Some(saved)
  {
    var current := FindId(projects, projectId).value;
    var updated := UpdatedProject(current, updates, now);
    assert IdOf(updated) == projectId;
    var saved := ProjectToSave(updated, freshId, now);
    assert current in projects;
    FindAfterReplace(projects, projectId, saved);
  }

  /** Deleting a project never leaves it in the list, and every other
      project stays. */
  lemma DeleteRemovesOnlyThatId(projects: seq<Record>, projectId: Value, p: Record)
    requires p in projects
    ensures p in WithoutId(projects, projectId) <==> IdOf(p) != projectId
  {
  }

  /** When the open project is one of the listed projects, deleting keeps
      that true: a project left open is still in the list. */
  lemma {:induction false} OpenProjectSurvivesDelete(projects: seq<Record>, current: Option<Record>, projectId: Value)
    requires current.Some? ==> current.value in projects
    ensures var c := CurrentAfterDelete(current, projectId);
            c.Some? ==> c.value in WithoutId(projects, projectId)
  {
    var c := CurrentAfterDelete(current, projectId);
    if c.Some? {
      DeleteRemovesOnlyThatId(projects, projectId, c.value);
    }
  }
}
