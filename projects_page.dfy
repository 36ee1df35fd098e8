/**
 * The project workspace page (WebInterface/src/pages/Projects.jsx): the
 * presence heartbeat that keeps the user's collaboration record in a project
 * up to date, the collaborator list it reads, and the project creation
 * form. The heartbeat keeps one record per user and project when it works
 * on the fetched list, but not when it beats before that list arrives. The remote store is a sequence of records; a heartbeat is
 * one update or one create on it.
 */
module ProjectsPage {
  import opened Wrappers
  import opened Seqs

  /** A `ProjectCollaboration` record. Timestamps are ordered integers standing for ISO strings. */
  datatype Collaborator = Collaborator(
    id: nat, projectId: string, userEmail: string, userName: string,
    lastSeen: int, currentView: string, status: string)

  datatype User = User(email: string, fullName: string)

  // ---------------------------------------------------------------- the list the page reads

  /** The records of one project, in store order. */
  function OfProject(store: seq<Collaborator>, projectId: string): (r: seq<Collaborator>)
    ensures forall c :: c in r <==> c in store && c.projectId == projectId
    ensures multiset(r) <= multiset(store)
  {
    if store == [] then []
    else
      assert store == [store[0]] + store[1..];
      (if store[0].projectId == projectId then [store[0]] else []) + OfProject(store[1..], projectId)
  }

  function LastSeen(c: Collaborator): int {
    c.lastSeen
  }

  /** `ProjectCollaboration.filter({ project_id }, '-last_seen')`. */
  function FetchCollaborators(store: seq<Collaborator>, projectId: string): (r: seq<Collaborator>)
    ensures Descending(r, LastSeen)
    ensures forall c :: c in r <==> c in store && c.projectId == projectId
  {
    var mine := OfProject(store, projectId);
    var r := SortDescending(mine, LastSeen);
    assert forall c :: c in r <==> c in multiset(r);
    r
  }

  // ---------------------------------------------------------------- the heartbeat

  /** The heartbeat runs only with a project selected (a non-empty id) and a user loaded. */
  predicate HeartbeatRuns(selectedProjectId: Option<string>, currentUser: Option<User>) {
    selectedProjectId.Some? && selectedProjectId.value != "" && currentUser.Some?
  }

  /** `collaborators.find(c => c.user_email === currentUser.email)`. */
  function FindByEmail(cs: seq<Collaborator>, email: string): (r: Option<Collaborator>)
    ensures r.Some? ==> r.value in cs && r.value.userEmail == email
    ensures r.None? <==> forall c :: c in cs ==> c.userEmail != email
  {
    if cs == [] then None
    else if cs[0].userEmail == email then Some(cs[0])
    else
      assert cs == [cs[0]] + cs[1..];
      FindByEmail(cs[1..], email)
  }

  /** The single write a heartbeat makes. */
  datatype PresenceWrite =
    | Touch(id: nat, lastSeen: int, currentView: string)   // update: last_seen, current_view, status "active"
    | Join(record: Collaborator)                          // create

  /**
   * `updatePresence`: the user's record in the fetched list is touched;
   * without one, an active record is created for the user in this project.
   */
  function Presence(collaborators: seq<Collaborator>, projectId: string, user: User,
                    view: string, now: int, newId: nat): (w: PresenceWrite)
    ensures w.Touch? <==> exists c :: c in collaborators && c.userEmail == user.email
    ensures w.Touch? ==> exists c :: c in collaborators && c.userEmail == user.email && c.id == w.id
    ensures w.Touch? ==> w.lastSeen == now && w.currentView == view
    ensures w.Join? ==> w.record == Collaborator(newId, projectId, user.email, user.fullName, now, view, "active")
  {
    match FindByEmail(collaborators, user.email)
    case Some(existing) => Touch(existing.id, now, view)
    case None => Join(Collaborator(newId, projectId, user.email, user.fullName, now, view, "active"))
  }

  /** `ProjectCollaboration.update(id, { last_seen, current_view, status: 'active' })` on one record. */
  function TouchRecord(c: Collaborator, id: nat, lastSeen: int, view: string): (r: Collaborator)
    ensures r.id == c.id && r.projectId == c.projectId && r.userEmail == c.userEmail && r.userName == c.userName
    ensures c.id == id ==> r.lastSeen == lastSeen && r.currentView == view && r.status == "active"
    ensures c.id != id ==> r == c
  {
    if c.id == id then c.(lastSeen := lastSeen, currentView := view, status := "active") else c
  }

  /** The store after a write; a created record is appended. */
  function Apply(store: seq<Collaborator>, w: PresenceWrite): (r: seq<Collaborator>)
    ensures w.Join? ==> r == store + [w.record]
    ensures w.Touch? ==> (|r| == |store|
      && forall i :: 0 <= i < |store| ==> r[i] == TouchRecord(store[i], w.id, w.lastSeen, w.currentView))
  {
    match w
    case Join(record) => store + [record]
    case Touch(id, lastSeen, view) => seq(|store|, i requires 0 <= i < |store| => TouchRecord(store[i], id, lastSeen, view))
  }

  /**
   * One heartbeat of the effect, from the list the page last fetched. The
   * write is not awaited; `failed` is a write the store refused, which
   * leaves the store as it was.
   */
  function Heartbeat(store: seq<Collaborator>, collaborators: seq<Collaborator>,
                     selectedProjectId: Option<string>, currentUser: Option<User>,
                     view: string, now: int, newId: nat, failed: bool): (r: seq<Collaborator>)
    ensures !HeartbeatRuns(selectedProjectId, currentUser) || failed ==> r == store
    ensures HeartbeatRuns(selectedProjectId, currentUser) && !failed ==>
      r == Apply(store, Presence(collaborators, selectedProjectId.value, currentUser.value, view, now, newId))
  {
    if HeartbeatRuns(selectedProjectId, currentUser) && !failed then
      Apply(store, Presence(collaborators, selectedProjectId.value, currentUser.value, view, now, newId))
    else store
  }

  // ---------------------------------------------------------------- store invariants

  predicate UniqueIds(store: seq<Collaborator>) {
    forall i, j :: 0 <= i < j < |store| ==> store[i].id != store[j].id
  }

  /** At most one record per user in each project. */
  predicate OnePerUser(store: seq<Collaborator>) {
    forall i, j :: 0 <= i < j < |store| ==>
      !(store[i].projectId == store[j].projectId && store[i].userEmail == store[j].userEmail)
  }

  predicate FreshId(store: seq<Collaborator>, newId: nat) {
    forall c :: c in store ==> c.id != newId
  }

  /** A touch changes only last_seen, current_view and status, and only of the record it names. */
  lemma TouchKeepsOthers(store: seq<Collaborator>, id: nat, lastSeen: int, view: string, i: nat)
    requires i < |store|
    ensures var r := Apply(store, Touch(id, lastSeen, view));
      && r[i].id == store[i].id && r[i].projectId == store[i].projectId
      && r[i].userEmail == store[i].userEmail && r[i].userName == store[i].userName
      && (store[i].id != id ==> r[i] == store[i])
  {
  }

  /**
   * Heartbeats on a freshly fetched list never duplicate a user: the store
   * keeps at most one record per user and project and keeps its ids unique,
   * and after a write that goes through it holds exactly the user's one
   * active record with the new view.
   */
  lemma HeartbeatNoDuplicate(store: seq<Collaborator>, projectId: string, user: User,
                             view: string, now: int, newId: nat, failed: bool)
    requires UniqueIds(store) && OnePerUser(store) && FreshId(store, newId)
    ensures var r := Heartbeat(store, FetchCollaborators(store, projectId), Some(projectId), Some(user), view, now, newId, failed);
      projectId != "" ==>
        && UniqueIds(r) && OnePerUser(r)
        && (!failed ==>
              exists i :: 0 <= i < |r| && r[i].projectId == projectId && r[i].userEmail == user.email
                && r[i].currentView == view && r[i].lastSeen == now && r[i].status == "active")
  {
    if projectId != "" && !failed {
      var fetched := FetchCollaborators(store, projectId);
      var w := Presence(fetched, projectId, user, view, now, newId);
      var r := Apply(store, w);
      assert Heartbeat(store, fetched, Some(projectId), Some(user), view, now, newId, false) == r;
      if w.Touch? {
        var c :| c in fetched && c.userEmail == user.email && c.id == w.id;
        assert w == Touch(c.id, now, view);
        TouchPreserves(store, c, view, now);
      } else {
        JoinPreserves(store, projectId, user, view, now, newId);
        assert r[|store|] == w.record;
      }
    }
  }

  /** Touching an existing record of the project keeps both invariants and leaves it current. */
  lemma TouchPreserves(store: seq<Collaborator>, c: Collaborator, view: string, now: int)
    requires UniqueIds(store) && OnePerUser(store) && c in store
    ensures var r := Apply(store, Touch(c.id, now, view));
      && UniqueIds(r) && OnePerUser(r)
      && exists i :: 0 <= i < |r| && r[i].projectId == c.projectId && r[i].userEmail == c.userEmail
           && r[i].currentView == view && r[i].lastSeen == now && r[i].status == "active"
  {
    var r := Apply(store, Touch(c.id, now, view));
    var k :| 0 <= k < |store| && store[k] == c;
    assert r[k].projectId == c.projectId && r[k].userEmail == c.userEmail;
    forall i, j | 0 <= i < j < |r|
      ensures r[i].id != r[j].id
      ensures !(r[i].projectId == r[j].projectId && r[i].userEmail == r[j].userEmail)
    {
      TouchKeepsOthers(store, c.id, now, view, i);
      TouchKeepsOthers(store, c.id, now, view, j);
    }
  }

  /** Creating a record for a user the project lacks keeps both invariants. */
  lemma JoinPreserves(store: seq<Collaborator>, projectId: string, user: User, view: string, now: int, newId: nat)
    requires UniqueIds(store) && OnePerUser(store) && FreshId(store, newId)
    requires forall c :: c in store && c.projectId == projectId ==> c.userEmail != user.email
    ensures var r := store + [Collaborator(newId, projectId, user.email, user.fullName, now, view, "active")];
      UniqueIds(r) && OnePerUser(r)
  {
    var r := store + [Collaborator(newId, projectId, user.email, user.fullName, now, view, "active")];
    forall i, j | 0 <= i < j < |r|
      ensures r[i].id != r[j].id
      ensures !(r[i].projectId == r[j].projectId && r[i].userEmail == r[j].userEmail)
    {
      if j == |store| {
        assert r[i] == store[i] && store[i] in store;
      }
    }
  }

  // ---------------------------------------------------------------- the list before it arrives

  /** The collaborator query: not yet answered (or disabled), failed, or fetched. */
  datatype CollaboratorQuery = Pending | Failed | Fetched(list: seq<Collaborator>)

  /** `const { data: collaborators = [] }`: the list the effect sees; no data reads as the empty list. */
  function ShownCollaborators(q: CollaboratorQuery): (cs: seq<Collaborator>)
    ensures q.Fetched? ==> cs == q.list
    ensures !q.Fetched? ==> cs == []
  {
    if q.Fetched? then q.list else []
  }

  /**
   * As written, the effect also beats while the query has no data: on the
   * empty default a user who already has a record in the project is given a
   * second one.
   */
  lemma PendingHeartbeatDuplicates(store: seq<Collaborator>, q: CollaboratorQuery, projectId: string,
                                   user: User, view: string, now: int, newId: nat)
    requires !q.Fetched? && projectId != ""
    requires exists c :: c in store && c.projectId == projectId && c.userEmail == user.email
    ensures !OnePerUser(Heartbeat(store, ShownCollaborators(q), Some(projectId), Some(user), view, now, newId, false))
  {
    var c :| c in store && c.projectId == projectId && c.userEmail == user.email;
    var k :| 0 <= k < |store| && store[k] == c;
    var r := Heartbeat(store, ShownCollaborators(q), Some(projectId), Some(user), view, now, newId, false);
    assert r == store + [Collaborator(newId, projectId, user.email, user.fullName, now, view, "active")];
    assert r[k] == c && r[|store|].projectId == projectId && r[|store|].userEmail == user.email;
  }

  /** One record for a@x in project p; the page beats before its list arrives and a@x now has two. */
  lemma LoadingDuplicateExample()
    ensures var store := [Collaborator(1, "p", "a@x", "A", 0, "mixing", "active")];
      && UniqueIds(store) && OnePerUser(store) && FreshId(store, 2)
      && !OnePerUser(Heartbeat(store, ShownCollaborators(Pending), Some("p"), Some(User("a@x", "A")), "mixing", 5, 2, false))
  {
    var store := [Collaborator(1, "p", "a@x", "A", 0, "mixing", "active")];
    assert store[0] in store;
    PendingHeartbeatDuplicates(store, Pending, "p", User("a@x", "A"), "mixing", 5, 2);
  }

  /** The heartbeat as intended: nothing is written until the list has been fetched. */
  function LoadedHeartbeat(store: seq<Collaborator>, q: CollaboratorQuery,
                           selectedProjectId: Option<string>, currentUser: Option<User>,
                           view: string, now: int, newId: nat, failed: bool): (r: seq<Collaborator>)
    ensures !q.Fetched? ==> r == store
    ensures q.Fetched? ==> r == Heartbeat(store, q.list, selectedProjectId, currentUser, view, now, newId, failed)
  {
    if q.Fetched? then Heartbeat(store, q.list, selectedProjectId, currentUser, view, now, newId, failed)
    else store
  }

  /**
   * With that guard a heartbeat keeps ids unique and one record per user and
   * project whatever state the query is in, as long as fetched data is the
   * store's current list.
   */
  lemma LoadedHeartbeatNoDuplicate(store: seq<Collaborator>, q: CollaboratorQuery, projectId: string,
                                   user: User, view: string, now: int, newId: nat, failed: bool)
    requires UniqueIds(store) && OnePerUser(store) && FreshId(store, newId)
    requires q.Fetched? ==> q.list == FetchCollaborators(store, projectId)
    ensures var r := LoadedHeartbeat(store, q, Some(projectId), Some(user), view, now, newId, failed);
      UniqueIds(r) && OnePerUser(r)
  {
    if q.Fetched? {
      HeartbeatNoDuplicate(store, projectId, user, view, now, newId, failed);
    }
  }

  /** A heartbeat with no project or no user leaves the store alone. */
  lemma NoHeartbeatWithoutUser(store: seq<Collaborator>, collaborators: seq<Collaborator>,
                               selectedProjectId: Option<string>, view: string, now: int, newId: nat)
    ensures Heartbeat(store, collaborators, selectedProjectId, None, view, now, newId, false) == store
    ensures Heartbeat(store, collaborators, None, None, view, now, newId, false) == store
  {
  }

  // ---------------------------------------------------------------- the create form

  /** The create-project form's fields. */
  datatype ProjectForm = ProjectForm(name: string, description: string, sampleRate: string,
                                     bitDepth: string, tempo: int, tracksCount: int)

  /** The empty form: 48000 Hz, 24-bit, 120 BPM, 16 tracks. */
  const BlankForm: ProjectForm := ProjectForm("", "", "48000", "24", 120, 16)

  /** A `Project` record as created from the form. */
  datatype ProjectRecord = ProjectRecord(form: ProjectForm, lastOpened: int)

  /**
   * `Project.create({ ...data, last_opened })`. Only `onSuccess` closes the
   * form and resets it; when the create fails (`failed`) nothing is stored
   * and the form keeps what was typed and stays as shown.
   */
  function CreateProject(form: ProjectForm, now: int, shown: bool, failed: bool): (r: (Option<ProjectRecord>, ProjectForm, bool))
    ensures failed <==> r.0.None?
    ensures !failed ==> r.0.value.form == form && r.0.value.lastOpened == now
    ensures !failed ==> r.1 == BlankForm && !r.2
    ensures !failed ==> r.1.sampleRate == "48000" && r.1.bitDepth == "24" && r.1.tempo == 120 && r.1.tracksCount == 16
    ensures failed ==> r.1 == form && r.2 == shown
  {
    if failed then (None, form, shown) else (Some(ProjectRecord(form, now)), BlankForm, false)
  }

}
