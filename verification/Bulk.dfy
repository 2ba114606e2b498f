/** Trash, restore, removal and moves of a selection (internal/api/bulk.go), and what they do to every user's view. */
module Bulk {
  import opened Access
  import opened Decimals
  import opened Options
  import ManagedFolders

  /** `folder` is the text of the request without the spaces around it. */
  datatype Action = TrashItems | RestoreItems | DeleteItems | MoveItems(folder: string)

  datatype Reply = Done | BadRequest | Forbidden | Conflict

  /** The predicate that each item of a selection has to satisfy. */
  predicate Allowed(s: State, u: User, id: nat, action: Action)
  {
    && id in s.assets && s.assets[id].library in s.enabled
    && match action
       case TrashItems => Visible(s, u, id)
       case RestoreItems => Trash(s, u, id)
       case DeleteItems => Trash(s, u, id)
       case MoveItems(_) => Manage(s, u, id)
  }

  predicate Movable(s: State, id: nat, action: Action)
  {
    action.MoveItems? && id in s.assets ==> s.assets[id].trashedAt <= 0
  }

  /** The folder names that a move accepts. */
  predicate FolderOk(u: User, action: Action)
    requires u.id >= 1
  {
    action.MoveItems? ==> ManagedFolders.UploadPath(u.id, action.folder).Some?
  }

  function Destination(u: User, folder: string): string
    requires u.id >= 1
  {
    if folder == "" then UserRoot(u.id) else UserRoot(u.id) + "/" + folder
  }

  /** The rows of a user for the items of a selection that are not their own. */
  function Borrowed(s: State, u: User, ids: seq<nat>): set<(int, nat)>
  {
    set id | id in ids && !Manage(s, u, id) :: (u.id, id)
  }

  function WithRows(personal: map<(int, nat), bool>, keys: set<(int, nat)>): map<(int, nat), bool>
  {
    personal + map k | k in keys :: false
  }

  /** What an accepted selection does, all of it at once. */
  function After(s: State, u: User, ids: seq<nat>, action: Action): State
    requires u.id >= 1
  {
    match action
    case TrashItems =>
      s.(assets := map id | id in s.assets :: if id in ids && Manage(s, u, id) then s.assets[id].(trashedAt := s.now) else s.assets[id],
         personal := WithRows(s.personal, Borrowed(s, u, ids)))
    case RestoreItems =>
      s.(assets := map id | id in s.assets :: if id in ids && Manage(s, u, id) then s.assets[id].(trashedAt := 0) else s.assets[id],
         personal := s.personal - Borrowed(s, u, ids))
    case DeleteItems =>
      s.(deletions := s.deletions + (set id | id in ids && Manage(s, u, id)),
         personal := map k | k in s.personal :: if k.0 == u.id && k.1 in ids && !Manage(s, u, k.1) then true else s.personal[k])
    case MoveItems(folder) =>
      s.(assets := map id | id in s.assets :: if id in ids then s.assets[id].(folder := Destination(u, folder)) else s.assets[id],
         grants := if ids == [] then s.grants else s.grants + {Grant(u.id, UPLOADS, UserRoot(u.id))})
  }

  /** The statement for one item; `owned` was read when the selection was checked. */
  function Effect(s: State, u: User, id: nat, owned: bool, action: Action): State
    requires u.id >= 1 && id in s.assets
  {
    match action
    case TrashItems =>
      if owned then s.(assets := s.assets[id := s.assets[id].(trashedAt := s.now)])
      else s.(personal := s.personal[(u.id, id) := false])
    case RestoreItems =>
      if owned then s.(assets := s.assets[id := s.assets[id].(trashedAt := 0)])
      else s.(personal := s.personal - {(u.id, id)})
    case DeleteItems =>
      if owned then s.(deletions := s.deletions + {id})
      else if (u.id, id) in s.personal then s.(personal := s.personal[(u.id, id) := true])
      else s
    case MoveItems(folder) =>
      s.(grants := s.grants + {Grant(u.id, UPLOADS, UserRoot(u.id))},
         assets := s.assets[id := s.assets[id].(folder := Destination(u, folder))])
  }

  lemma NoneYet(s: State, u: User, action: Action)
    requires u.id >= 1
    ensures After(s, u, [], action) == s
  {
    var t := After(s, u, [], action);
    assert t.assets == s.assets && t.personal == s.personal && t.deletions == s.deletions;
  }

  lemma OneMoreRow(personal: map<(int, nat), bool>, keys: set<(int, nat)>, key: (int, nat))
    ensures WithRows(personal, keys + {key}) == WithRows(personal, keys)[key := false]
  {
  }

  lemma TrashOneMore(s: State, u: User, before: seq<nat>, after: seq<nat>, id: nat)
    requires u.id >= 1 && id in s.assets && forall k :: k in after <==> k in before || k == id
    ensures After(s, u, after, TrashItems) == Effect(After(s, u, before, TrashItems), u, id, Manage(s, u, id), TrashItems)
  {
    hide Manage;
    hide WithRows;
    var r, e := After(s, u, after, TrashItems), Effect(After(s, u, before, TrashItems), u, id, Manage(s, u, id), TrashItems);
    assert r.assets == e.assets;
    if Manage(s, u, id) {
      assert Borrowed(s, u, after) == Borrowed(s, u, before);
    } else {
      assert Borrowed(s, u, after) == Borrowed(s, u, before) + {(u.id, id)};
      OneMoreRow(s.personal, Borrowed(s, u, before), (u.id, id));
    }
  }

  lemma RestoreOneMore(s: State, u: User, before: seq<nat>, after: seq<nat>, id: nat)
    requires u.id >= 1 && id in s.assets && forall k :: k in after <==> k in before || k == id
    ensures After(s, u, after, RestoreItems) == Effect(After(s, u, before, RestoreItems), u, id, Manage(s, u, id), RestoreItems)
  {
    hide Manage;
    var r, e := After(s, u, after, RestoreItems), Effect(After(s, u, before, RestoreItems), u, id, Manage(s, u, id), RestoreItems);
    assert r.assets == e.assets && r.personal == e.personal;
  }

  lemma DeleteOneMore(s: State, u: User, before: seq<nat>, after: seq<nat>, id: nat)
    requires u.id >= 1 && id in s.assets && forall k :: k in after <==> k in before || k == id
    ensures After(s, u, after, DeleteItems) == Effect(After(s, u, before, DeleteItems), u, id, Manage(s, u, id), DeleteItems)
  {
    hide Manage;
    var r, e := After(s, u, after, DeleteItems), Effect(After(s, u, before, DeleteItems), u, id, Manage(s, u, id), DeleteItems);
    assert r.deletions == e.deletions && r.personal == e.personal;
  }

  lemma MoveOneMore(s: State, u: User, before: seq<nat>, after: seq<nat>, id: nat, folder: string)
    requires u.id >= 1 && id in s.assets && forall k :: k in after <==> k in before || k == id
    ensures After(s, u, after, MoveItems(folder)) == Effect(After(s, u, before, MoveItems(folder)), u, id, Manage(s, u, id), MoveItems(folder))
  {
    hide Manage;
    var r, e := After(s, u, after, MoveItems(folder)), Effect(After(s, u, before, MoveItems(folder)), u, id, Manage(s, u, id), MoveItems(folder));
    assert r.assets == e.assets && r.grants == e.grants;
  }

  predicate DistinctIds(ids: seq<nat>)
  {
    forall i, j | 0 <= i < j < |ids| :: ids[i] != ids[j]
  }

  /** Taken one by one, the statements do what the selection does all at once. */
  lemma AfterOneMore(s: State, u: User, ids: seq<nat>, i: nat, action: Action)
    requires u.id >= 1 && DistinctIds(ids) && i < |ids| && ids[i] in s.assets
    ensures ids[i] in After(s, u, ids[..i], action).assets
    ensures After(s, u, ids[..i + 1], action) == Effect(After(s, u, ids[..i], action), u, ids[i], Manage(s, u, ids[i]), action)
  {
    var id, before, after := ids[i], ids[..i], ids[..i + 1];
    assert forall k :: k in after <==> k in before || k == id by { assert after == before + [id]; }
    match action
    case TrashItems => TrashOneMore(s, u, before, after, id);
    case RestoreItems => RestoreOneMore(s, u, before, after, id);
    case DeleteItems => DeleteOneMore(s, u, before, after, id);
    case MoveItems(folder) => MoveOneMore(s, u, before, after, id, folder);
  }

  /** When a selection is accepted: every item of it has to be. */
  ghost predicate Accepted(s: State, u: User, ids: seq<nat>, action: Action)
  {
    && u.id >= 1 && u.publicAlbum == 0 && 1 <= |ids| <= 240 && DistinctIds(ids) && FolderOk(u, action)
    && forall id | id in ids :: id >= 1 && Allowed(s, u, id, action) && Movable(s, id, action)
  }

  // ---- Trash and restore ----

  /** Whether an asset is visible depends on nothing but its own row and the sharing tables. */
  lemma SameBase(s: State, t: State, u: User, id: nat)
    requires id in s.assets && id in t.assets && t.assets[id] == s.assets[id]
    requires t.grants == s.grants && t.accounts == s.accounts && t.albums == s.albums && t.members == s.members
    requires t.shared == s.shared && t.now == s.now
    ensures VisibleBase(t, u, id) <==> VisibleBase(s, u, id)
  {
    forall user
      ensures Granted(t, user, t.assets[id]) <==> Granted(s, user, s.assets[id])
    {
    }
    forall album | album in s.albums
      ensures AlbumVisible(t, u, album) <==> AlbumVisible(s, u, album)
    {
    }
  }

  /** Restoring a selection right after it was trashed is accepted, and restores the whole database. */
  lemma RestoreUndoesTrash(s: State, u: User, ids: seq<nat>)
    requires Accepted(s, u, ids, TrashItems) && s.now > 0
    ensures Accepted(After(s, u, ids, TrashItems), u, ids, RestoreItems)
    ensures After(After(s, u, ids, TrashItems), u, ids, RestoreItems) == s
  {
    var t := After(s, u, ids, TrashItems);
    forall id
      ensures Manage(t, u, id) <==> Manage(s, u, id)
    {
    }
    forall id | id in ids
      ensures Allowed(t, u, id, RestoreItems)
    {
      assert Visible(s, u, id);
      if !Manage(s, u, id) {
        SameBase(s, t, u, id);
      }
    }
    var r := After(t, u, ids, RestoreItems);
    forall id | id in ids
      ensures (u.id, id) !in s.personal
    {
      assert Visible(s, u, id);
    }
    assert r.assets == s.assets;
    forall k | k in r.personal
      ensures k in s.personal && r.personal[k] == s.personal[k]
    {
    }
    assert r.personal == s.personal;
  }

  // ---- Other users ----

  /**
   What a user trashes, restores or removes without managing it stays for
   everybody else as it was, in every list and public album, whatever else is in
   the selection; so does everything outside the selection.
   */
  lemma OthersUnaffected(s: State, u: User, ids: seq<nat>, action: Action, v: User, id: nat)
    requires u.id >= 1 && u.publicAlbum == 0 && !action.MoveItems?
    requires id !in ids || !Manage(s, u, id)
    requires v.id != u.id || v.publicAlbum != 0
    ensures var t := After(s, u, ids, action);
            && (Visible(t, v, id) <==> Visible(s, v, id)) && (Trash(t, v, id) <==> Trash(s, v, id))
            && (Manage(t, v, id) <==> Manage(s, v, id)) && (ReadFile(t, v, id) <==> ReadFile(s, v, id))
            && (id in t.assets <==> id in s.assets) && (id in s.assets ==> t.assets[id] == s.assets[id])
            && (id in t.deletions <==> id in s.deletions)
  {
    var t := After(s, u, ids, action);
    if id in s.assets {
      assert t.assets[id] == s.assets[id];
      SameBase(s, t, v, id);
    }
    assert v.publicAlbum == 0 ==> ((v.id, id) in t.personal <==> (v.id, id) in s.personal);
    assert v.publicAlbum == 0 && (v.id, id) in s.personal ==> t.personal[(v.id, id)] == s.personal[(v.id, id)];
  }

  // ---- Removal for good ----

  /** A user removed an asset that is not theirs for good. */
  predicate Removed(s: State, u: User, id: nat)
  {
    && u.id >= 1 && u.publicAlbum == 0 && id in s.assets
    && (u.id, id) in s.personal && s.personal[(u.id, id)]
    && !(s.assets[id].library == UPLOADS && UserRoot(u.id) + "/" <= s.assets[id].path)
  }

  lemma RemovalHides(s: State, u: User, id: nat)
    requires Removed(s, u, id)
    ensures !Visible(s, u, id) && !Trash(s, u, id) && !Manage(s, u, id) && !ReadFile(s, u, id)
  {
  }

  lemma DeleteRemoves(s: State, u: User, ids: seq<nat>, id: nat)
    requires Accepted(s, u, ids, DeleteItems) && id in ids && !Manage(s, u, id)
    ensures Removed(After(s, u, ids, DeleteItems), u, id)
  {
    assert Allowed(s, u, id, DeleteItems);
  }

  /**
   One request of anybody, any change of sharing, accounts and the clock, a new
   asset, or the end of a deletion, which takes along what refers to the row.
   */
  datatype Step =
    | Request(reader: User, ids: seq<nat>, action: Action)
    | Sharing(grants: set<Grant>, accounts: map<int, Account>, albums: map<int, int>, members: set<Member>, shared: set<Shared>,
              enabled: set<string>, now: int)
    | Arrive(id: nat, asset: Asset)
    | Complete(id: nat)

  function Completed(s: State, id: nat): State
  {
    if id in s.deletions then
      s.(assets := s.assets - {id}, deletions := s.deletions - {id},
         personal := map k | k in s.personal && k.1 != id :: s.personal[k], shared := set x | x in s.shared && x.asset != id)
    else s
  }

  ghost function Apply(s: State, x: Step): State
  {
    match x
    case Request(reader, ids, action) => if Accepted(s, reader, ids, action) then After(s, reader, ids, action) else s
    case Sharing(grants, accounts, albums, members, shared, enabled, now) =>
      s.(grants := grants, accounts := accounts, albums := albums, members := members, shared := shared, enabled := enabled, now := now)
    case Arrive(id, asset) => if id in s.assets then s else s.(assets := s.assets[id := asset])
    case Complete(id) => Completed(s, id)
  }

  ghost function Run(s: State, steps: seq<Step>): State
  {
    if steps == [] then s else Apply(Run(s, steps[..|steps| - 1]), steps[|steps| - 1])
  }

  /** The row is gone, or the user's removal of it stands. */
  predicate RemovedOrGone(s: State, u: User, id: nat) { id !in s.assets || Removed(s, u, id) }

  lemma SameReader(s: State, u: User, v: User, id: nat)
    requires u.id == v.id && u.publicAlbum == v.publicAlbum && Removed(s, u, id)
    ensures !Visible(s, v, id) && !Trash(s, v, id) && !Manage(s, v, id)
  {
  }

  lemma RemovedStays(s: State, x: Step, u: User, id: nat)
    requires RemovedOrGone(s, u, id) && !(x.Arrive? && x.id == id)
    ensures RemovedOrGone(Apply(s, x), u, id)
  {
    if id in s.assets {
      RemovalHides(s, u, id);
      if x.Request? && Accepted(s, x.reader, x.ids, x.action) && x.reader.id == u.id && id in x.ids {
        assert Allowed(s, x.reader, id, x.action);
        SameReader(s, u, x.reader, id);
      }
    }
  }

  /** A permanent removal outlives every later request and every change of sharing; ids are not used again. */
  lemma {:induction false} RemovalIsPermanent(s: State, steps: seq<Step>, u: User, id: nat)
    requires RemovedOrGone(s, u, id) && forall x | x in steps :: !(x.Arrive? && x.id == id)
    ensures RemovedOrGone(Run(s, steps), u, id) && !ReadFile(Run(s, steps), u, id)
  {
    if steps != [] {
      RemovalIsPermanent(s, steps[..|steps| - 1], u, id);
      RemovedStays(Run(s, steps[..|steps| - 1]), steps[|steps| - 1], u, id);
    }
    if id in Run(s, steps).assets {
      RemovalHides(Run(s, steps), u, id);
    }
  }

  /** What a user deletes without managing it is gone for that user, whatever comes after. */
  lemma DeletedForGood(s: State, u: User, ids: seq<nat>, id: nat, steps: seq<Step>)
    requires Accepted(s, u, ids, DeleteItems) && id in ids && !Manage(s, u, id)
    requires forall x | x in steps :: !(x.Arrive? && x.id == id)
    ensures !ReadFile(Run(After(s, u, ids, DeleteItems), steps), u, id)
  {
    DeleteRemoves(s, u, ids, id);
    RemovalIsPermanent(After(s, u, ids, DeleteItems), steps, u, id);
  }

  predicate DeletedOrGone(s: State, id: nat) { id !in s.assets || id in s.deletions }

  lemma DeletedStays(s: State, x: Step, id: nat)
    requires DeletedOrGone(s, id) && !(x.Arrive? && x.id == id)
    ensures DeletedOrGone(Apply(s, x), id)
    ensures id in s.assets && id !in Apply(s, x).assets ==> x == Complete(id)
  {
  }

  /** A recorded deletion hides an upload from everybody until it is completed, which alone removes the row, and ever after. */
  lemma {:induction false} DeletionIsPermanent(s: State, steps: seq<Step>, id: nat)
    requires id in s.assets && id in s.deletions && forall x | x in steps :: !(x.Arrive? && x.id == id)
    ensures var t := Run(s, steps);
            && DeletedOrGone(t, id) && (id !in t.assets ==> Complete(id) in steps)
            && forall u :: !Visible(t, u, id) && !Trash(t, u, id) && !Manage(t, u, id) && !ReadFile(t, u, id)
  {
    hide Apply;
    if steps != [] {
      var mid := Run(s, steps[..|steps| - 1]);
      DeletionIsPermanent(s, steps[..|steps| - 1], id);
      DeletedStays(mid, steps[|steps| - 1], id);
    }
    var t := Run(s, steps);
    forall u ensures !Visible(t, u, id) && !Trash(t, u, id) && !Manage(t, u, id) && !ReadFile(t, u, id) {
      if id in t.deletions { DeletionHides(t, u, id); }
    }
  }

  // ---- What an accepted selection did ----

  /** Stored in the user's own directory. */
  predicate Mine(s: State, u: User, id: nat)
    requires u.id >= 1
  {
    id in s.assets && s.assets[id].library == "arkiv-uploads" && "user-" + Decimal(u.id) + "/" <= s.assets[id].path
  }

  /** What the action means for one item of the selection. */
  ghost predicate ItemChanged(s: State, t: State, u: User, id: nat, action: Action)
    requires u.id >= 1
  {
    && id in s.assets && id in t.assets
    && match action
       case TrashItems =>
         if Mine(s, u, id) then t.assets[id] == s.assets[id].(trashedAt := s.now)
         else t.assets[id] == s.assets[id] && (u.id, id) in t.personal && !t.personal[(u.id, id)]
       case RestoreItems =>
         if Mine(s, u, id) then t.assets[id] == s.assets[id].(trashedAt := 0)
         else t.assets[id] == s.assets[id] && (u.id, id) !in t.personal
       case DeleteItems =>
         t.assets[id] == s.assets[id] && if Mine(s, u, id) then id in t.deletions else (u.id, id) in t.personal && t.personal[(u.id, id)]
       case MoveItems(folder) =>
         && ManagedFolders.UploadPath(u.id, folder).Some? && Mine(s, u, id)
         && t.assets[id] == s.assets[id].(folder := ManagedFolders.UploadPath(u.id, folder).value)
  }

  /** Every item of the selection changes as the action says, and nothing else does. */
  ghost predicate Changed(s: State, t: State, u: User, ids: seq<nat>, action: Action)
  {
    && u.id >= 1 && (forall id | id in ids :: ItemChanged(s, t, u, id, action))
    && t.assets.Keys == s.assets.Keys && (forall id | id in s.assets && id !in ids :: t.assets[id] == s.assets[id])
    && (forall id | id !in ids :: id in t.deletions <==> id in s.deletions)
    && (forall id | id in ids && !(action.DeleteItems? && Mine(s, u, id)) :: id in t.deletions <==> id in s.deletions)
    && (forall v, id | v != u.id || id !in ids || Mine(s, u, id) || action.MoveItems? ::
          ((v, id) in t.personal <==> (v, id) in s.personal) && ((v, id) in s.personal ==> t.personal[(v, id)] == s.personal[(v, id)]))
    && t.grants == (if action.MoveItems? then s.grants + {Grant(u.id, "arkiv-uploads", "user-" + Decimal(u.id))} else s.grants)
    && t.accounts == s.accounts && t.albums == s.albums && t.members == s.members && t.shared == s.shared && t.enabled == s.enabled
  }

  /** A signed-in user, distinct existing items of enabled libraries, and for each of them what the action asks for. */
  ghost predicate MayChange(s: State, u: User, ids: seq<nat>, action: Action)
  {
    && u.id >= 1 && u.publicAlbum == 0 && 1 <= |ids| <= 240 && (forall i, j | 0 <= i < j < |ids| :: ids[i] != ids[j])
    && (forall id | id in ids :: id >= 1 && id in s.assets && s.assets[id].library in s.enabled && id !in s.deletions)
    && match action
       case TrashItems => forall id | id in ids :: Visible(s, u, id)
       case RestoreItems => forall id | id in ids :: Trash(s, u, id)
       case DeleteItems => forall id | id in ids :: Trash(s, u, id)
       case MoveItems(folder) =>
         ManagedFolders.UploadPath(u.id, folder).Some? && forall id | id in ids :: Mine(s, u, id) && s.assets[id].trashedAt <= 0
  }

  lemma OneAllowed(s: State, u: User, id: nat, action: Action)
    requires u.id >= 1 && u.publicAlbum == 0
    ensures Allowed(s, u, id, action) && Movable(s, id, action) <==>
              && id in s.assets && s.assets[id].library in s.enabled && id !in s.deletions
              && match action
                 case TrashItems => Visible(s, u, id)
                 case RestoreItems => Trash(s, u, id)
                 case DeleteItems => Trash(s, u, id)
                 case MoveItems(_) => Mine(s, u, id) && s.assets[id].trashedAt <= 0
  {
  }

  lemma AcceptedMeans(s: State, u: User, ids: seq<nat>, action: Action)
    ensures Accepted(s, u, ids, action) <==> MayChange(s, u, ids, action)
  {
    hide Allowed;
    hide Movable;
    hide Visible;
    hide Trash;
    hide Mine;
    if u.id >= 1 && u.publicAlbum == 0 {
      forall id { OneAllowed(s, u, id, action); }
    }
  }

  lemma MineIsManaged(s: State, u: User, id: nat)
    requires u.id >= 1 && u.publicAlbum == 0 && id !in s.deletions
    ensures Mine(s, u, id) <==> Manage(s, u, id)
  {
  }

  lemma AllowedIsThere(s: State, u: User, id: nat, action: Action)
    requires Allowed(s, u, id, action)
    ensures id in s.assets && id !in s.deletions
  {
  }

  lemma DestinationIs(u: User, folder: string)
    requires u.id >= 1 && ManagedFolders.UploadPath(u.id, folder).Some?
    ensures Destination(u, folder) == ManagedFolders.UploadPath(u.id, folder).value
  {
  }

  lemma AllowedMeans(s: State, u: User, ids: seq<nat>, action: Action)
    requires Accepted(s, u, ids, action)
    ensures action.MoveItems? ==> forall id | id in ids :: Manage(s, u, id)
    ensures action.DeleteItems? ==> forall id | id in ids && !Manage(s, u, id) :: (u.id, id) in s.personal
  {
    assert forall id | id in ids :: Allowed(s, u, id, action);
  }

  lemma SelectionFacts(s: State, u: User, ids: seq<nat>, action: Action)
    requires Accepted(s, u, ids, action)
    ensures forall id | id in ids :: id in s.assets && id !in s.deletions && (Mine(s, u, id) <==> Manage(s, u, id))
  {
    hide Allowed;
    hide Manage;
    hide Mine;
    forall id | id in ids ensures id in s.assets && id !in s.deletions && (Mine(s, u, id) <==> Manage(s, u, id)) {
      AllowedIsThere(s, u, id, action);
      MineIsManaged(s, u, id);
    }
  }

  lemma ItemHere(s: State, u: User, ids: seq<nat>, action: Action, id: nat)
    requires Accepted(s, u, ids, action) && id in ids
    ensures ItemChanged(s, After(s, u, ids, action), u, id, action)
  {
    hide Allowed;
    hide Manage;
    hide Mine;
    hide DistinctIds;
    hide Movable;
    AllowedMeans(s, u, ids, action);
    SelectionFacts(s, u, ids, action);
    if action.MoveItems? { DestinationIs(u, action.folder); }
  }

  lemma ChangedHere(s: State, u: User, ids: seq<nat>, action: Action)
    requires Accepted(s, u, ids, action)
    ensures Changed(s, After(s, u, ids, action), u, ids, action)
  {
    hide Allowed;
    hide Manage;
    hide Mine;
    hide ItemChanged;
    hide DistinctIds;
    hide Movable;
    SelectionFacts(s, u, ids, action);
    forall id | id in ids ensures ItemChanged(s, After(s, u, ids, action), u, id, action) { ItemHere(s, u, ids, action, id); }
  }

  /** What is trashed leaves the list of the user and is in their trash, where it may still be read. */
  lemma TrashedIsInTrash(s: State, u: User, ids: seq<nat>, id: nat)
    requires Accepted(s, u, ids, TrashItems) && id in ids && s.now > 0
    ensures var t := After(s, u, ids, TrashItems); !Visible(t, u, id) && Trash(t, u, id) && ReadFile(t, u, id)
  {
    var t := After(s, u, ids, TrashItems);
    if !Manage(s, u, id) {
      assert (u.id, id) in Borrowed(s, u, ids);
      assert t.assets[id] == s.assets[id];
      SameBase(s, t, u, id);
    }
  }

  // ---- The transaction ----

  class Media {
    var assets: map<nat, Asset>
    var deletions: set<nat>
    var personal: map<(int, nat), bool>
    var grants: set<Grant>
    var accounts: map<int, Account>
    var albums: map<int, int>
    var members: set<Member>
    var shared: set<Shared>
    var enabled: set<string>
    var now: int

    function Tables(): State
      reads this
    {
      State(assets, deletions, personal, grants, accounts, albums, members, shared, enabled, now)
    }

    method ChangeItem(u: User, id: nat, owned: bool, action: Action)
      requires u.id >= 1 && id in assets
      modifies this
      ensures Tables() == Effect(old(Tables()), u, id, owned, action)
    {
      match action
      case TrashItems =>
        if owned {
          assets := assets[id := assets[id].(trashedAt := now)];
        } else {
          personal := personal[(u.id, id) := false];
        }
      case RestoreItems =>
        if owned {
          assets := assets[id := assets[id].(trashedAt := 0)];
        } else {
          personal := personal - {(u.id, id)};
        }
      case DeleteItems =>
        if owned {
          deletions := deletions + {id};
        } else if (u.id, id) in personal {
          personal := personal[(u.id, id) := true];
        }
      case MoveItems(folder) =>
        grants := grants + {Grant(u.id, UPLOADS, UserRoot(u.id))};
        assets := assets[id := assets[id].(folder := Destination(u, folder))];
    }

    method Change(u: User, ids: seq<nat>, action: Action, owned: set<nat>)
      requires u.id >= 1 && DistinctIds(ids) && forall id | id in ids :: id in assets
      requires action.DeleteItems? ==> forall id | id in ids && id !in owned :: (u.id, id) in personal
      requires owned == set id | id in ids && Manage(Tables(), u, id)
      modifies this
      ensures Tables() == After(old(Tables()), u, ids, action)
    {
      ghost var s := Tables();
      NoneYet(s, u, action);
      for i := 0 to |ids|
        invariant Tables() == After(s, u, ids[..i], action)
      {
        AfterOneMore(s, u, ids, i, action);
        ChangeItem(u, ids[i], ids[i] in owned, action);
      }
      assert ids[..|ids|] == ids;
    }

    /** `bulkAssets`: the whole selection is checked first; then every item is changed, in one transaction. */
    method BulkAssets(u: User, ids: seq<nat>, action: Action, confirm: bool) returns (r: Reply)
      modifies this
      ensures r == Done <==> Accepted(old(Tables()), u, ids, action) && (action.DeleteItems? ==> confirm)
      ensures Tables() == if r == Done then After(old(Tables()), u, ids, action) else old(Tables())
      ensures r == Done <==> MayChange(old(Tables()), u, ids, action) && (action.DeleteItems? ==> confirm)
      ensures r == Done ==> Changed(old(Tables()), Tables(), u, ids, action)
    {
      AcceptedMeans(Tables(), u, ids, action);
      if u.id < 1 || u.publicAlbum != 0 {
        return Forbidden;
      }
      if |ids| == 0 || |ids| > 240 || (action.DeleteItems? && !confirm) {
        return BadRequest;
      }
      if action.MoveItems? && ManagedFolders.UploadPath(u.id, action.folder) == None {
        return BadRequest;
      }
      var seen: set<nat>, owned: set<nat> := {}, {};
      for i := 0 to |ids|
        invariant seen == set id | id in ids[..i]
        invariant owned == set id | id in ids[..i] && Manage(Tables(), u, id)
        invariant DistinctIds(ids[..i])
        invariant forall id | id in ids[..i] :: id >= 1 && Allowed(Tables(), u, id, action) && Movable(Tables(), id, action)
      {
        var id := ids[i];
        if id < 1 || id in seen {
          assert ids[i] in ids;
          assert id in seen ==> exists j :: 0 <= j < i && ids[j] == ids[i];
          return BadRequest;
        }
        seen := seen + {id};
        if !Allowed(Tables(), u, id, action) {
          return Forbidden;
        }
        if Manage(Tables(), u, id) {
          owned := owned + {id};
        }
        if action.MoveItems? && assets[id].trashedAt > 0 {
          return Conflict;
        }
        assert ids[..i + 1] == ids[..i] + [id];
      }
      assert ids[..|ids|] == ids;
      Change(u, ids, action, owned);
      ChangedHere(old(Tables()), u, ids, action);
      return Done;
    }
  }
}
