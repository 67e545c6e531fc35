/** The project store: the ordered list of projects, the ordered list of
    listeners, and the rule that every effective change hands each listener,
    in registration order, a copy of the list. */
module States {
  import opened Builtins

  datatype ProjectStatus = Active | Finished

  datatype Project = Project(
    id: string,
    title: string,
    description: string,
    people: int,
    status: ProjectStatus)

  /** A registered listener callback, kept as an opaque handle: what the
      callback does is not part of the store. */
  datatype Listener = Listener(handle: nat)

  /** One listener call: the position of the listener in registration order
      and the copy of the project list it was given. */
  datatype Notification = Notification(listener: nat, snapshot: seq<Project>)

  /** The calls one round of notification makes: each of the first `count`
      listeners once, in registration order, with the same snapshot. */
  function Broadcast(count: nat, snapshot: seq<Project>): (r: seq<Notification>)
    ensures |r| == count
    ensures forall k | 0 <= k < count :: r[k] == Notification(k, snapshot)
  {
    if count == 0 then [] else Broadcast(count - 1, snapshot) + [Notification(count - 1, snapshot)]
  }

  /** `projects.find(p => p.id === id)`, as a position: the first project
      with that id, or none when no project has it. */
  function FindIndex(projects: seq<Project>, id: string): (r: Option<nat>)
    ensures r.Some? ==> r.value < |projects| && projects[r.value].id == id
    ensures r.Some? ==> forall j | 0 <= j < r.value :: projects[j].id != id
    ensures r.None? <==> forall j | 0 <= j < |projects| :: projects[j].id != id
  {
    if projects == [] then None
    else if projects[0].id == id then Some(0)
    else match FindIndex(projects[1..], id)
      case None => None
      case Some(k) => Some(k + 1)
  }

  /** Two lists with the same ids at the same positions. */
  predicate SameIds(a: seq<Project>, b: seq<Project>)
  {
    |a| == |b| && forall j | 0 <= j < |a| :: a[j].id == b[j].id
  }

  lemma {:induction false} FindIndexSameIds(a: seq<Project>, b: seq<Project>, id: string)
    requires SameIds(a, b)
    ensures FindIndex(a, id) == FindIndex(b, id)
  {
    if a != [] && a[0].id != id {
      FindIndexSameIds(a[1..], b[1..], id);
    }
  }

  /** The list after the status write of `moveProject`: the first project
      with the id gets the new status, in the same position and with its
      other fields; every other project stays as it was; an unknown id
      leaves the list as it is. */
  function WithStatus(projects: seq<Project>, id: string, status: ProjectStatus): (r: seq<Project>)
    ensures SameIds(projects, r)
    ensures FindIndex(projects, id).None? ==> r == projects
    ensures forall j | 0 <= j < |r| && FindIndex(projects, id) != Some(j) :: r[j] == projects[j]
    ensures FindIndex(projects, id).Some? ==>
      var i := FindIndex(projects, id).value;
      r[i].status == status && r[i] == projects[i].(status := status)
  {
    match FindIndex(projects, id)
    case None => projects
    case Some(i) => projects[i := projects[i].(status := status)]
  }

  /** The guard of `moveProject`: a project with the id exists and its
      status differs from the requested one. */
  predicate Moves(projects: seq<Project>, id: string, status: ProjectStatus)
  {
    var found := FindIndex(projects, id);
    found.Some? && projects[found.value].status != status
  }

  /** The guard fires exactly when the status write would change the list. */
  lemma MovesIffChanges(projects: seq<Project>, id: string, status: ProjectStatus)
    ensures Moves(projects, id, status) <==> WithStatus(projects, id, status) != projects
  {
    var found := FindIndex(projects, id);
    if found.Some? && !Moves(projects, id, status) {
      assert WithStatus(projects, id, status) == projects;
    }
  }

  /** A second move to the same status finds the same project, changes
      nothing and, behind the guard, notifies nobody. */
  lemma MoveIdempotent(projects: seq<Project>, id: string, status: ProjectStatus)
    ensures var once := WithStatus(projects, id, status);
      WithStatus(once, id, status) == once && !Moves(once, id, status)
  {
    var once := WithStatus(projects, id, status);
    FindIndexSameIds(projects, once, id);
    MovesIffChanges(once, id, status);
  }

  /** No two projects share an id: what the store relies on when it moves
      "the" project with an id. */
  predicate UniqueIds(projects: seq<Project>)
  {
    forall i, j | 0 <= i < j < |projects| :: projects[i].id != projects[j].id
  }

  /** Appending a project whose id is fresh keeps the ids unique, and that
      project is the one a later move finds. */
  lemma AddKeepsUniqueIds(projects: seq<Project>, p: Project)
    requires UniqueIds(projects)
    requires FindIndex(projects, p.id).None?
    ensures UniqueIds(projects + [p])
    ensures FindIndex(projects + [p], p.id) == Some(|projects|)
  {
    var all := projects + [p];
    forall i, j | 0 <= i < j < |all|
      ensures all[i].id != all[j].id
    {
      assert all[i] == projects[i];
      if j < |projects| {
        assert all[j] == projects[j];
      }
    }
    assert all[|projects|].id == p.id;
  }

  /** A move keeps the ids, so it keeps them unique. */
  lemma MoveKeepsUniqueIds(projects: seq<Project>, id: string, status: ProjectStatus)
    requires UniqueIds(projects)
    ensures UniqueIds(WithStatus(projects, id, status))
  {
    var after := WithStatus(projects, id, status);
    assert SameIds(projects, after);
  }

  /** `ProjectState`: the store. `notifications` records every listener call
      the store has made, oldest first. */
  class ProjectState {
    var projects: seq<Project>
    var listeners: seq<Listener>
    ghost var notifications: seq<Notification>

    constructor ()
      ensures projects == [] && listeners == [] && notifications == []
    {
      projects := [];
      listeners := [];
      notifications := [];
    }

    /** `addListener`: the listener goes last, so it is called after every
        listener registered before it. */
    method AddListener(listener: Listener)
      modifies this
      ensures listeners == old(listeners) + [listener]
      ensures projects == old(projects) && notifications == old(notifications)
    {
      listeners := listeners + [listener];
    }

    /** `addProject`: appends an `Active` project built from the arguments,
        then notifies. `id` stands for the value of `Math.random().toString()`. */
    method AddProject(id: string, title: string, description: string, people: int)
      modifies this
      ensures projects == old(projects) + [Project(id, title, description, people, Active)]
      ensures listeners == old(listeners)
      ensures notifications == old(notifications) + Broadcast(|listeners|, projects)
    {
      var newProject := Project(id, title, description, people, Active);
      projects := projects + [newProject];
      InvokeStateChangeListeners();
    }

    /** `moveProject` as in src/states/project.ts: the first project with the
        id takes the new status, and listeners hear of it, only when that
        status differs from the current one. */
    method MoveProject(projectId: string, newStatus: ProjectStatus)
      modifies this
      ensures projects == WithStatus(old(projects), projectId, newStatus)
      ensures listeners == old(listeners)
      ensures notifications == old(notifications)
        + if Moves(old(projects), projectId, newStatus) then Broadcast(|listeners|, projects) else []
    {
      var found := FindIndex(projects, projectId);
      if found.Some? && projects[found.value].status != newStatus {
        var i := found.value;
        projects := projects[i := projects[i].(status := newStatus)];
        InvokeStateChangeListeners();
      } else {
        MovesIffChanges(projects, projectId, newStatus);
      }
    }

    /** `moveProject` as in src/app.ts: no guard on the current status, so a
        known id always causes a round of notification. */
    method MoveProjectUnguarded(projectId: string, newStatus: ProjectStatus)
      modifies this
      ensures projects == WithStatus(old(projects), projectId, newStatus)
      ensures listeners == old(listeners)
      ensures notifications == old(notifications)
        + if FindIndex(old(projects), projectId).Some? then Broadcast(|listeners|, projects) else []
    {
      var found := FindIndex(projects, projectId);
      if found.Some? {
        var i := found.value;
        projects := projects[i := projects[i].(status := newStatus)];
        InvokeStateChangeListeners();
      }
    }

    /** `invokeStateChangeListeners`: calls each listener in turn with a copy
        of the current list. */
    method InvokeStateChangeListeners()
      modifies this`notifications
      ensures notifications == old(notifications) + Broadcast(|listeners|, projects)
    {
      for i := 0 to |listeners|
        invariant notifications == old(notifications) + Broadcast(i, projects)
      {
        notifications := notifications + [Notification(i, projects[..])];
      }
    }
  }

  /** Two moves in a row to the same status leave the store, and the
      notifications, as one move does. */
  method MoveProjectTwice(store: ProjectState, projectId: string, newStatus: ProjectStatus)
    modifies store
    ensures store.projects == WithStatus(old(store.projects), projectId, newStatus)
    ensures store.listeners == old(store.listeners)
    ensures store.notifications == old(store.notifications)
      + if Moves(old(store.projects), projectId, newStatus) then Broadcast(|store.listeners|, store.projects) else []
  {
    store.MoveProject(projectId, newStatus);
    MoveIdempotent(old(store.projects), projectId, newStatus);
    store.MoveProject(projectId, newStatus);
  }

  /** The copy without the guard is idempotent on the list but not on the
      notifications: a second move to the same status notifies again. */
  method MoveProjectUnguardedTwice(store: ProjectState, projectId: string, newStatus: ProjectStatus)
    modifies store
    ensures store.projects == WithStatus(old(store.projects), projectId, newStatus)
    ensures store.listeners == old(store.listeners)
    ensures FindIndex(old(store.projects), projectId).Some? ==>
      store.notifications == old(store.notifications)
        + Broadcast(|store.listeners|, store.projects) + Broadcast(|store.listeners|, store.projects)
    ensures FindIndex(old(store.projects), projectId).None? ==>
      store.notifications == old(store.notifications)
  {
    store.MoveProjectUnguarded(projectId, newStatus);
    ghost var once := store.projects;
    MoveIdempotent(old(store.projects), projectId, newStatus);
    FindIndexSameIds(old(store.projects), once, projectId);
    store.MoveProjectUnguarded(projectId, newStatus);
  }

  /** The class-level `instance` slot behind `ProjectState.getInstance`. */
  class ProjectStateHolder {
    var instance: ProjectState?

    constructor ()
      ensures instance == null
    {
      instance := null;
    }

    /** `getInstance`: creates the store on the first call and returns that
        same store on every call. */
    method GetInstance() returns (state: ProjectState)
      modifies this
      ensures instance == state
      ensures old(instance) != null ==> state == old(instance)
      ensures old(instance) == null ==>
        fresh(state) && state.projects == [] && state.listeners == [] && state.notifications == []
    {
      if instance != null {
        return instance;
      }
      state := new ProjectState();
      instance := state;
    }
  }

  /** Every call of `getInstance` yields the same store. */
  method GetInstanceTwice(holder: ProjectStateHolder) returns (first: ProjectState, second: ProjectState)
    modifies holder
    ensures first == second && holder.instance == first
  {
    first := holder.GetInstance();
    second := holder.GetInstance();
  }
}
