/** The project service (src/services/projectService.js): the saved
    projects live as one JSON array in localStorage under
    "watermark-projects". Every call reads and parses the array, and the
    writing calls store the transformed array back. Each call turns any
    failure into an Error with its own message. */
module ProjectService {
  import opened Js
  import opened Records

  /** What localStorage holds under "watermark-projects": nothing, a JSON
      array of project objects, or text JSON.parse rejects. */
  datatype Slot = Missing | Stored(projects: seq<Record>) | Corrupt

  /** JSON.parse(localStorage.getItem('watermark-projects') || '[]'):
      nothing stored reads as the empty array, corrupt text throws. */
  function Parsed(slot: Slot): (r: Option<seq<Record>>)
    ensures slot.Missing? ==> r == Some([])
    ensures slot.Stored? ==> r == Some(slot.projects)
    ensures slot.Corrupt? <==> r.None?
  {
    match slot
    case Missing => Some([])
    case Stored(ps) => Some(ps)
    case Corrupt => None
  }

  /** The project as saveProject stores and returns it: its own id when
      that is truthy, else the freshly generated one, and lastModified
      set to now. */
  function ProjectToSave(project: Record, freshId: Value, now: string): (r: Record)
    ensures r.Keys == project.Keys + {"id", "lastModified"}
    ensures Truthy(IdOf(project)) ==> IdOf(r) == IdOf(project)
    ensures !Truthy(IdOf(project)) ==> IdOf(r) == freshId
    ensures Get(r, "lastModified") == Str(now)
    ensures forall k :: k in project && k != "id" && k != "lastModified" ==> k in r && r[k] == project[k]
  {
    Spread(project, map["id" := if Truthy(IdOf(project)) then IdOf(project) else freshId, "lastModified" := Str(now)])
  }

  /** The array saveProject writes back: an upsert keyed on the project's
      own id when it has one, an append otherwise. */
  function ProjectsAfterSave(existing: seq<Record>, project: Record, saved: Record): seq<Record>
  {
    if Truthy(IdOf(project)) then ReplaceWhereId(existing, IdOf(project), saved) else existing + [saved]
  }

  class ProjectStorage {
    var slot: Slot

    constructor(initial: Slot)
      ensures slot == initial
    {
      slot := initial;
    }

    /** saveProject: freshId is what generateUniqueId() returns, now what
        new Date().toISOString() returns; setItemThrows says whether
        localStorage.setItem throws (a full storage quota). */
    method SaveProject(project: Record, freshId: Value, now: string, setItemThrows: bool) returns (r: Outcome<Record>)
      modifies this
      ensures old(slot).Corrupt? || setItemThrows ==> r == Failed("Failed to save project") && slot == old(slot)
      ensures !old(slot).Corrupt? && !setItemThrows ==>
                r == Ok(ProjectToSave(project, freshId, now)) &&
                slot == Stored(ProjectsAfterSave(Parsed(old(slot)).value, project, r.value))
    {
      var existing := Parsed(slot);
      if existing.None? {
        return Failed("Failed to save project");
      }
      var projectToSave := ProjectToSave(project, freshId, now);
      var updatedProjects := ProjectsAfterSave(existing.value, project, projectToSave);
      if setItemThrows {
        return Failed("Failed to save project");
      }
      slot := Stored(updatedProjects);
      return Ok(projectToSave);
    }

    /** loadProject: the first stored project with the id. A missing
        project and unreadable storage both surface as the same message. */
    function LoadProject(projectId: Value): (r: Outcome<Record>)
      reads this
      ensures r.Ok? <==> Parsed(slot).Some? && exists p :: p in Parsed(slot).value && IdOf(p) == projectId
      ensures r.Ok? ==> r.value in Parsed(slot).value && IdOf(r.value) == projectId
      ensures r.Ok? ==> r.value == FindId(Parsed(slot).value, projectId).value
      ensures r.Failed? ==> r.message == "Failed to load project"
    {
      var projects := Parsed(slot);
      if projects.None? then Failed("Failed to load project")
      else
        var project := FindId(projects.value, projectId);
        if project.None? then Failed("Failed to load project") else Ok(project.value)
    }

    /** getAllProjects: the stored array, [] when nothing is stored. */
    function GetAllProjects(): (r: Outcome<seq<Record>>)
      reads this
      ensures slot.Missing? ==> r == Ok([])
      ensures slot.Stored? ==> r == Ok(slot.projects)
      ensures slot.Corrupt? ==> r == Failed("Failed to get projects")
    {
      var projects := Parsed(slot);
      if projects.None? then Failed("Failed to get projects") else Ok(projects.value)
    }

    /** deleteProject: stores the array without the projects that have
        the id. */
    method DeleteProject(projectId: Value, setItemThrows: bool) returns (r: Outcome<()>)
      modifies this
      ensures old(slot).Corrupt? || setItemThrows ==> r == Failed("Failed to delete project") && slot == old(slot)
      ensures !old(slot).Corrupt? && !setItemThrows ==>
                r == Ok(()) && slot == Stored(WithoutId(Parsed(old(slot)).value, projectId))
    {
      var projects := Parsed(slot);
      if projects.None? {
        return Failed("Failed to delete project");
      }
      var updatedProjects := WithoutId(projects.value, projectId);
      if setItemThrows {
        return Failed("Failed to delete project");
      }
      slot := Stored(updatedProjects);
      return Ok(());
    }
  }

  // ---------------------------------------------------------------------
  // What the stored array goes through

  /** Saving a project without an id adds exactly one entry, at the end,
      carrying the fresh id; the earlier entries stay as they were. */
  lemma SaveNewAppends(existing: seq<Record>, project: Record, freshId: Value, now: string)
    requires !Truthy(IdOf(project))
    ensures var saved := ProjectToSave(project, freshId, now);
            var t := ProjectsAfterSave(existing, project, saved);
            |t| == |existing| + 1 && t[..|existing|] == existing && IdOf(t[|existing|]) == freshId
  {
    var saved := ProjectToSave(project, freshId, now);
    assert (existing + [saved])[..|existing|] == existing;
  }

  /** Saving a project that has an id keeps the number of entries; when no
      stored entry has that id nothing stored changes. */
  lemma SaveExistingUpserts(existing: seq<Record>, project: Record, freshId: Value, now: string)
    requires Truthy(IdOf(project))
    ensures var t := ProjectsAfterSave(existing, project, ProjectToSave(project, freshId, now));
            |t| == |existing| &&
            ((forall p :: p in existing ==> IdOf(p) != IdOf(project)) ==> t == existing)
  {
    var saved := ProjectToSave(project, freshId, now);
    var t := ProjectsAfterSave(existing, project, saved);
    if forall p :: p in existing ==> IdOf(p) != IdOf(project) {
      forall i | 0 <= i < |existing|
        ensures t[i] == existing[i]
      {
        assert existing[i] in existing;
      }
    }
  }

  /** Looking up the id of a project just saved finds the saved record:
      for an update of a stored project, and for a new project whose fresh
      id no stored project has. */
  lemma SaveThenFind(existing: seq<Record>, project: Record, freshId: Value, now: string)
    requires Truthy(IdOf(project)) ==> exists p :: p in existing && IdOf(p) == IdOf(project)
    requires !Truthy(IdOf(project)) ==> forall p :: p in existing ==> IdOf(p) != freshId
    ensures var saved := ProjectToSave(project, freshId, now);
            FindId(ProjectsAfterSave(existing, project, saved), IdOf(saved)) == Some(saved)
  {
    var saved := ProjectToSave(project, freshId, now);
    if Truthy(IdOf(project)) {
      FindAfterReplace(existing, IdOf(project), saved);
    } else {
      FindAfterAppend(existing, saved);
    }
  }

  /** Appending a record whose id no other record has makes it the one
      found for that id. */
  lemma {:induction false} FindAfterAppend(rs: seq<Record>, r: Record)
    requires forall p :: p in rs ==> IdOf(p) != IdOf(r)
    ensures FindId(rs + [r], IdOf(r)) == Some(r)
  {
    if rs != [] {
      assert (rs + [r])[1..] == rs[1..] + [r];
      assert forall p :: p in rs[1..] ==> p in rs;
      FindAfterAppend(rs[1..], r);
    }
  }
}
