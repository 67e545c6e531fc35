/** The two project lists: each is a drop target that asks the store to move
    the dragged project to the list's status, and each keeps, from every
    snapshot the store sends, the projects with its status. */
module ListComponent {
  import opened Builtins
  import opened States

  /** The list's `type`: `'active'` or `'finished'`. */
  datatype ListType = ActiveList | FinishedList

  /** The drop handler's mapping from the list to the status it requests. */
  function DropStatus(listType: ListType): (status: ProjectStatus)
    ensures status == Active <==> listType == ActiveList
  {
    if listType == ActiveList then Active else Finished
  }

  /** The filter callback of the list's listener. */
  predicate Keeps(listType: ListType, project: Project)
  {
    if listType == ActiveList then project.status == Active else project.status == Finished
  }

  /** `projects.filter(...)` with that callback: the projects of the
      snapshot that belong in the list, and only those. */
  function Relevant(snapshot: seq<Project>, listType: ListType): (r: seq<Project>)
    ensures |r| <= |snapshot|
    ensures forall i | 0 <= i < |r| :: Keeps(listType, r[i]) && r[i] in snapshot
  {
    if snapshot == [] then []
    else if Keeps(listType, snapshot[0]) then [snapshot[0]] + Relevant(snapshot[1..], listType)
    else Relevant(snapshot[1..], listType)
  }

  /** Every project of the snapshot that belongs in the list is in it. */
  lemma {:induction false} RelevantComplete(snapshot: seq<Project>, listType: ListType, project: Project)
    requires project in snapshot && Keeps(listType, project)
    ensures project in Relevant(snapshot, listType)
  {
    if snapshot[0] != project {
      RelevantComplete(snapshot[1..], listType, project);
    }
  }

  /** The filter keeps snapshot order: filtering two consecutive parts and
      joining the results is filtering the whole. */
  lemma {:induction false} RelevantKeepsOrder(front: seq<Project>, back: seq<Project>, listType: ListType)
    ensures Relevant(front + back, listType) == Relevant(front, listType) + Relevant(back, listType)
  {
    if front == [] {
      assert front + back == back;
    } else {
      assert (front + back)[1..] == front[1..] + back;
      RelevantKeepsOrder(front[1..], back, listType);
    }
  }

  /** The active and the finished list split the snapshot: together they
      hold each project exactly as often as the snapshot does. */
  lemma {:induction false} ListsPartitionSnapshot(snapshot: seq<Project>)
    ensures multiset(Relevant(snapshot, ActiveList)) + multiset(Relevant(snapshot, FinishedList)) == multiset(snapshot)
  {
    if snapshot != [] {
      var first, rest := snapshot[0], snapshot[1..];
      assert snapshot == [first] + rest;
      ListsPartitionSnapshot(rest);
      if first.status == Active {
        assert Relevant(snapshot, ActiveList) == [first] + Relevant(rest, ActiveList);
        assert Relevant(snapshot, FinishedList) == Relevant(rest, FinishedList);
      } else {
        assert Relevant(snapshot, ActiveList) == Relevant(rest, ActiveList);
        assert Relevant(snapshot, FinishedList) == [first] + Relevant(rest, FinishedList);
      }
    }
  }

  /** No project is in both lists. */
  lemma ListsDisjoint(snapshot: seq<Project>, project: Project)
    ensures !(project in Relevant(snapshot, ActiveList) && project in Relevant(snapshot, FinishedList))
  {
    var active, finished := Relevant(snapshot, ActiveList), Relevant(snapshot, FinishedList);
    if project in active {
      var i :| 0 <= i < |active| && active[i] == project;
      assert project.status == Active;
    }
  }

  /** The drag-over test: a drop is enabled only when the drag carries data
      whose first type is `text/plain`. `dataTransfer` is `None` when the
      event has no data. */
  function AcceptsDrag(dataTransfer: Option<seq<string>>): (r: bool)
    ensures r <==> dataTransfer.Some? && |dataTransfer.value| > 0 && dataTransfer.value[0] == "text/plain"
  {
    match dataTransfer
    case None => false
    case Some(types) => |types| > 0 && types[0] == "text/plain"
  }

  /** A project dropped on a list shows up in that list, and not in the
      other one, at the next notification. */
  lemma DropLandsInTargetList(projects: seq<Project>, id: string, listType: ListType)
    requires FindIndex(projects, id).Some?
    ensures var after := WithStatus(projects, id, DropStatus(listType));
      var moved := after[FindIndex(projects, id).value];
      && moved in Relevant(after, listType)
      && moved !in Relevant(after, if listType == ActiveList then FinishedList else ActiveList)
  {
    var after := WithStatus(projects, id, DropStatus(listType));
    var moved := after[FindIndex(projects, id).value];
    RelevantComplete(after, listType, moved);
  }

  /** `ProjectList`: one of the two lists and the projects it shows. */
  class ProjectList {
    const listType: ListType
    /** The handle under which the list's listener is registered. */
    const listener: Listener
    var assignedProjects: seq<Project>

    /** A new list shows nothing yet and has registered its listener with
        the store (`configure`). */
    constructor (listType: ListType, listener: Listener, store: ProjectState)
      modifies store
      ensures this.listType == listType && this.listener == listener
      ensures assignedProjects == []
      ensures store.listeners == old(store.listeners) + [listener]
      ensures store.projects == old(store.projects) && store.notifications == old(store.notifications)
    {
      this.listType := listType;
      this.listener := listener;
      assignedProjects := [];
      new;
      Configure(store);
    }

    /** `configure`: registers the list's listener with the store. */
    method Configure(store: ProjectState)
      modifies store
      ensures store.listeners == old(store.listeners) + [listener]
      ensures store.projects == old(store.projects) && store.notifications == old(store.notifications)
    {
      store.AddListener(listener);
    }

    /** The listener's body: keeps the projects of the snapshot that belong
        in this list. */
    method OnStateChange(snapshot: seq<Project>)
      modifies this
      ensures assignedProjects == Relevant(snapshot, listType)
    {
      var relevantProjects := Relevant(snapshot, listType);
      assignedProjects := relevantProjects;
    }

    /** `dropHandler`: asks the store to move the project whose id the drag
        carries to this list's status. */
    method DropHandler(store: ProjectState, projectId: string)
      modifies store
      ensures store.projects == WithStatus(old(store.projects), projectId, DropStatus(listType))
      ensures store.listeners == old(store.listeners)
      ensures store.notifications == old(store.notifications)
        + if Moves(old(store.projects), projectId, DropStatus(listType))
          then Broadcast(|store.listeners|, store.projects) else []
    {
      var newStatus := DropStatus(listType);
      store.MoveProject(projectId, newStatus);
    }
  }
}
