/**
 * The note and folder operations of the dashboard (class `Dashboard` in
 * app/defs/dashboard/defs.py). Every operation is scoped to its owner:
 * a row is read, changed or deleted only when both its id and its
 * `user_id` match. `id` parameters of the create operations are the
 * UUIDs the database generates.
 */
module DashboardDefs {
  import opened Wrappers
  import opened Schema
  import opened Http
  import Store
  import PyText

  const NO_SUCH_USER: string := "По зарегистрированному email пользователь не найден."
  const INTERNAL_ERROR: string := "Internal Server Error"
  const NOTE_NOT_FOUND: string := "Note not found"
  const NOTE_MISSING: string := "Note does not exists"
  const FOLDER_NOT_FOUND: string := "Folder not found"
  const FOLDER_UPDATED: string := "Folder successfully updated"
  const FOLDER_DELETED: string := "Folder successfully deleted"

  /** The title `new_note` stores: the given one if truthy, else the first 50 characters of the body. */
  function DefaultTitle(title: Option<string>, body: string): (t: string)
    ensures PyText.Truthy(title) ==> t == title.value
    ensures !PyText.Truthy(title) ==> t <= body && |t| == if |body| < TITLE_MAX then |body| else TITLE_MAX
  {
    if PyText.Truthy(title) then title.value else PyText.Head(body, TITLE_MAX)
  }

  /** The `values` dict of `update_note`: one column per truthy argument, `body` going to `content`. */
  function NotePatch(title: Option<string>, body: Option<string>, folderId: Option<Uuid>): (values: map<string, string>)
    ensures values.Keys <= {"title", "content", "folder_id"}
    ensures "title" in values <==> PyText.Truthy(title)
    ensures "content" in values <==> PyText.Truthy(body)
    ensures "folder_id" in values <==> PyText.Truthy(folderId)
    ensures "title" in values ==> values["title"] == title.value
    ensures "content" in values ==> values["content"] == body.value
    ensures "folder_id" in values ==> values["folder_id"] == folderId.value
  {
    var v0: map<string, string> := map[];
    var v1 := if PyText.Truthy(title) then v0["title" := title.value] else v0;
    var v2 := if PyText.Truthy(body) then v1["content" := body.value] else v1;
    if PyText.Truthy(folderId) then v2["folder_id" := folderId.value] else v2
  }

  /** `UPDATE notes SET <values>` applied to one note row. */
  function ApplyPatch(n: Note, values: map<string, string>): (m: Note)
    ensures m.userId == n.userId
    ensures m.title == if "title" in values then Some(values["title"]) else n.title
    ensures m.content == if "content" in values then values["content"] else n.content
    ensures m.folderId == if "folder_id" in values then Some(values["folder_id"]) else n.folderId
  {
    Note(if "title" in values then Some(values["title"]) else n.title,
         if "content" in values then values["content"] else n.content,
         n.userId,
         if "folder_id" in values then Some(values["folder_id"]) else n.folderId)
  }

  /** The note `id` exists and belongs to user `uid`. */
  predicate OwnsNote(db: Db, id: Uuid, uid: int) {
    id in db.notes && db.notes[id].userId == uid
  }

  /** The folder `id` exists and belongs to user `uid`. */
  predicate OwnsFolder(db: Db, id: Uuid, uid: int) {
    id in db.folders && db.folders[id].userId == uid
  }

  /** The folder `update_folder` writes: truthy `title` and `parent_id` replace the old values. */
  function FolderEdit(f: Folder, title: Option<string>, parentId: Option<Uuid>): (g: Folder)
    ensures g.userId == f.userId
    ensures g.title == if PyText.Truthy(title) then title else f.title
    ensures g.parentId == if PyText.Truthy(parentId) then parentId else f.parentId
  {
    f.(title := if PyText.Truthy(title) then title else f.title,
       parentId := if PyText.Truthy(parentId) then parentId else f.parentId)
  }

  class Dashboard {
    const db: Store.Store

    constructor (db: Store.Store)
      ensures this.db == db
    {
      this.db := db;
    }

    /** `new_note(user_id, title, body, folder_id)`: the note goes to the user found by id. */
    method NewNote(id: Uuid, userId: int, title: Option<string>, body: string, folderId: Option<Uuid>) returns (r: Reply)
      requires db.Valid()
      modifies db
      ensures db.Valid()
      ensures FindIndex(old(db.users), ById(userId)).None? ==> r == Error(403, NO_SUCH_USER) && db.notes == old(db.notes)
      ensures FindIndex(old(db.users), ById(userId)).Some? ==>
        var n := Note(Some(DefaultTitle(title, body)), body, userId, folderId);
        if id !in old(db.notes) && NoteOk(old(db.Tables()), n) then
          r == NoteCreated(id, n) && db.notes == old(db.notes)[id := n]
        else r == ServerError && db.notes == old(db.notes)
      ensures db.users == old(db.users) && db.folders == old(db.folders) && db.outbox == old(db.outbox) && db.nextUserId == old(db.nextUserId)
    {
      match FindIndex(db.users, ById(userId))
      case None =>
        return Error(403, NO_SUCH_USER);
      case Some(i) =>
        var user := db.users[i];
        var n := Note(Some(DefaultTitle(title, body)), body, user.id, folderId);
        var ok := db.InsertNote(id, n);
        if !ok {
          return ServerError;
        }
        return NoteCreated(id, n);
    }

    /**
     * `update_note(user, source_id, title=, body=, folder_id=)`. The
     * statement runs inside the handler's `try`: an over-long title or a
     * folder that does not exist become a 500 with "Internal Server
     * Error"; a note that is missing or not the caller's is 404. An empty
     * `values` dict still sets `updated_at` (its `onupdate`), so it
     * succeeds on the caller's own note and leaves the modelled columns
     * as they were.
     */
    method UpdateNote(user: User, sourceId: Uuid, title: Option<string>, body: Option<string>, folderId: Option<Uuid>)
      returns (r: Reply)
      requires db.Valid()
      modifies db
      ensures db.Valid()
      ensures var values := NotePatch(title, body, folderId);
        if !OwnsNote(old(db.Tables()), sourceId, user.id) then r == Error(404, NOTE_NOT_FOUND) && db.notes == old(db.notes)
        else
          var m := ApplyPatch(old(db.notes)[sourceId], values);
          if NoteOk(old(db.Tables()), m) then
            r == Json([("status", "ok"), ("message", "Note successfully updated")]) && db.notes == old(db.notes)[sourceId := m]
          else r == Error(500, INTERNAL_ERROR) && db.notes == old(db.notes)
      ensures NotePatch(title, body, folderId) == map[] && OwnsNote(old(db.Tables()), sourceId, user.id) ==>
        r == Json([("status", "ok"), ("message", "Note successfully updated")]) && db.notes == old(db.notes)
      ensures db.users == old(db.users) && db.folders == old(db.folders) && db.outbox == old(db.outbox) && db.nextUserId == old(db.nextUserId)
    {
      var values := NotePatch(title, body, folderId);
      if !OwnsNote(db.Tables(), sourceId, user.id) {
        return Error(404, NOTE_NOT_FOUND);
      }
      var m := ApplyPatch(db.notes[sourceId], values);
      var ok := db.UpdateNote(sourceId, m);
      if !ok {
        return Error(500, INTERNAL_ERROR);
      }
      return Json([("status", "ok"), ("message", "Note successfully updated")]);
    }

    /** `delete_note(user, source_id)`: a missing or foreign note is 400. */
    method DeleteNote(user: User, sourceId: Uuid) returns (r: Reply)
      requires db.Valid()
      modifies db
      ensures db.Valid()
      ensures OwnsNote(old(db.Tables()), sourceId, user.id) ==>
        r == Json([("status", "ok"), ("message", "Note successfully deleted")]) && db.notes == old(db.notes) - {sourceId}
      ensures !OwnsNote(old(db.Tables()), sourceId, user.id) ==> r == Error(400, NOTE_MISSING) && db.notes == old(db.notes)
      ensures db.users == old(db.users) && db.folders == old(db.folders) && db.outbox == old(db.outbox) && db.nextUserId == old(db.nextUserId)
    {
      if !OwnsNote(db.Tables(), sourceId, user.id) {
        return Error(400, NOTE_MISSING);
      }
      db.DeleteNote(sourceId);
      return Json([("status", "ok"), ("message", "Note successfully deleted")]);
    }

    /** `new_folder(user, title=, folder_id=)`: the `folder_id` argument is the parent. */
    method NewFolder(id: Uuid, user: User, title: Option<string>, folderId: Option<Uuid>) returns (r: Reply)
      requires db.Valid()
      modifies db
      ensures db.Valid()
      ensures var f := Folder(title, folderId, user.id);
        if id !in old(db.folders) && FolderOk(old(db.Tables()).(folders := old(db.folders)[id := f]), f) then
          r == FolderCreated(id, f) && db.folders == old(db.folders)[id := f]
        else r == ServerError && db.folders == old(db.folders)
      ensures db.users == old(db.users) && db.notes == old(db.notes) && db.outbox == old(db.outbox) && db.nextUserId == old(db.nextUserId)
    {
      var f := Folder(title, folderId, user.id);
      var ok := db.PutFolder(id, f, true);
      if !ok {
        return ServerError;
      }
      return FolderCreated(id, f);
    }

    /**
     * `update_folder(folder_id, user, title=, parent_id=)`. Only the foreign
     * key is checked: a folder may be moved under a folder of another user
     * or under itself.
     */
    method UpdateFolder(folderId: Uuid, user: User, title: Option<string>, parentId: Option<Uuid>) returns (r: Reply)
      requires db.Valid()
      modifies db
      ensures db.Valid()
      ensures !OwnsFolder(old(db.Tables()), folderId, user.id) ==> r == Error(400, FOLDER_NOT_FOUND) && db.folders == old(db.folders)
      ensures OwnsFolder(old(db.Tables()), folderId, user.id) ==>
        var g := FolderEdit(old(db.folders)[folderId], title, parentId);
        if FolderOk(old(db.Tables()).(folders := old(db.folders)[folderId := g]), g) then
          r == Msg(FOLDER_UPDATED) && db.folders == old(db.folders)[folderId := g]
        else r == ServerError && db.folders == old(db.folders)
      ensures db.users == old(db.users) && db.notes == old(db.notes) && db.outbox == old(db.outbox) && db.nextUserId == old(db.nextUserId)
    {
      if !OwnsFolder(db.Tables(), folderId, user.id) {
        return Error(400, FOLDER_NOT_FOUND);
      }
      var g := FolderEdit(db.folders[folderId], title, parentId);
      var ok := db.PutFolder(folderId, g, false);
      if !ok {
        return ServerError;
      }
      return Msg(FOLDER_UPDATED);
    }

    /**
     * `delete_folder(folder_id, user)`. The `DELETE` runs, with its
     * cascades, inside the request's transaction, which is never committed:
     * the reply says the folder is gone while the stored tables are
     * unchanged. `pending` is what the transaction saw before it was
     * discarded.
     */
    method DeleteFolder(folderId: Uuid, user: User) returns (r: Reply, pending: Db)
      requires db.Valid()
      ensures OwnsFolder(db.Tables(), folderId, user.id) ==>
        r == Msg(FOLDER_DELETED) && pending == DeleteFolderCascade(db.Tables(), folderId)
      ensures !OwnsFolder(db.Tables(), folderId, user.id) ==> r == Error(400, FOLDER_NOT_FOUND) && pending == db.Tables()
    {
      if !OwnsFolder(db.Tables(), folderId, user.id) {
        return Error(400, FOLDER_NOT_FOUND), db.Tables();
      }
      return Msg(FOLDER_DELETED), DeleteFolderCascade(db.Tables(), folderId);
    }
  }

  // ---------------------------------------------------------------------
  // Properties

  /** A generated title always fits the 50-character column. */
  lemma DefaultTitleFits(body: string)
    ensures TitleFits(Some(DefaultTitle(None, body)))
    ensures TitleFits(Some(DefaultTitle(Some(""), body)))
  {
  }

  /** With every argument falsy the patch is empty. */
  lemma EmptyPatch(title: Option<string>, body: Option<string>, folderId: Option<Uuid>)
    requires !PyText.Truthy(title) && !PyText.Truthy(body) && !PyText.Truthy(folderId)
    ensures NotePatch(title, body, folderId) == map[]
  {
  }

  /** A patch changes the fields it names and no others; the owner never changes. */
  lemma{:induction false} PatchTouchesOnlyNamedFields(n: Note, title: Option<string>, body: Option<string>, folderId: Option<Uuid>)
    ensures var m := ApplyPatch(n, NotePatch(title, body, folderId));
      && m.userId == n.userId
      && (PyText.Truthy(title) ==> m.title == title) && (!PyText.Truthy(title) ==> m.title == n.title)
      && (PyText.Truthy(body) ==> m.content == body.value) && (!PyText.Truthy(body) ==> m.content == n.content)
      && (PyText.Truthy(folderId) ==> m.folderId == folderId) && (!PyText.Truthy(folderId) ==> m.folderId == n.folderId)
  {
  }

  /** Deleting an owned folder removes it and its subtree from the transaction's view, with every note filed there. */
  lemma{:induction false} PendingDeleteRemovesSubtree(db: Db, fid: Uuid, uid: int)
    requires Consistent(db) && OwnsFolder(db, fid, uid)
    ensures var p := DeleteFolderCascade(db, fid);
      && Consistent(p) && fid !in p.folders
      && (forall m | m in p.notes :: !InFolders(p.notes[m], {fid}))
  {
    DeleteFolderCascadeOk(db, fid);
    var gone := FolderSubtree(db, fid);
    assert fid in gone;
  }
}
