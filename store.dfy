/**
 * The committed state the handlers share: the three tables, the next value
 * of the users' id sequence, and the outbox of mail jobs queued with
 * `background_tasks.add_task`. Each write method is one `commit()`: the
 * database checks its constraints, and a write that breaks one is rolled
 * back and reported.
 */
module Store {
  import opened Wrappers
  import opened Hasher
  import opened Schema
  import Mail

  class Store {
    var users: seq<User>
    var folders: map<Uuid, Folder>
    var notes: map<Uuid, Note>
    var nextUserId: int
    var outbox: seq<Mail.Job>

    function Tables(): Db
      reads this
    {
      Db(users, folders, notes)
    }

    ghost predicate Valid()
      reads this
    {
      Consistent(Tables()) && forall u | u in users :: u.id < nextUserId
    }

    constructor ()
      ensures Valid()
      ensures Tables() == Db([], map[], map[]) && outbox == []
    {
      users, folders, notes := [], map[], map[];
      nextUserId := 1;
      outbox := [];
    }

    /** The row `INSERT INTO users` would write next; `is_active` takes its column default. */
    function Candidate(username: string, email: string, fullName: string, hashed: Digest, isVerified: bool): User
      reads this
    {
      User(nextUserId, username, email, fullName, hashed, true, isVerified)
    }

    /**
     * `db.add(User(...)); await db.commit()`. A missing `full_name`
     * ("NOT NULL"), a value too long for its column, or a username or email
     * already present makes the commit fail: nothing changes.
     */
    method InsertUser(username: string, email: string, fullName: Option<string>, hashed: Digest, isVerified: bool)
      returns (created: Option<User>)
      requires Valid()
      modifies this
      ensures Valid()
      ensures created.Some? <==>
        fullName.Some? && CanInsert(old(users), old(Candidate(username, email, fullName.value, hashed, isVerified)))
      ensures created.Some? ==> created.value == old(Candidate(username, email, fullName.value, hashed, isVerified))
      ensures created.Some? ==> users == old(users) + [created.value] && nextUserId == old(nextUserId) + 1
      ensures created.None? ==> users == old(users) && nextUserId == old(nextUserId)
      ensures folders == old(folders) && notes == old(notes) && outbox == old(outbox)
    {
      if fullName.None? {
        return None;
      }
      var row := Candidate(username, email, fullName.value, hashed, isVerified);
      if !CanInsert(users, row) {
        return None;
      }
      InsertKeepsConsistent(Tables(), row);
      users := users + [row];
      nextUserId := nextUserId + 1;
      created := Some(row);
    }

    /** Overwrite non-key columns of row `i` and commit; a value too long for its column fails the commit. */
    method UpdateUser(i: nat, row: User) returns (ok: bool)
      requires Valid() && i < |users| && SameKeys(users[i], row)
      modifies this
      ensures Valid()
      ensures ok <==> UserFits(row)
      ensures users == if ok then old(users)[i := row] else old(users)
      ensures folders == old(folders) && notes == old(notes) && outbox == old(outbox) && nextUserId == old(nextUserId)
    {
      ok := UserFits(row);
      if ok {
        UpdateKeepsConsistent(Tables(), i, row);
        forall u | u in users[i := row] ensures u.id < nextUserId {
          var k :| 0 <= k < |users[i := row]| && users[i := row][k] == u;
          assert users[k] in users;
        }
        users := users[i := row];
      }
    }

    /** `db.add(Note(...)); commit()` under a server-generated id. */
    method InsertNote(id: Uuid, n: Note) returns (ok: bool)
      requires Valid()
      modifies this
      ensures Valid()
      ensures ok <==> id !in old(notes) && NoteOk(old(Tables()), n)
      ensures notes == if ok then old(notes)[id := n] else old(notes)
      ensures users == old(users) && folders == old(folders) && outbox == old(outbox) && nextUserId == old(nextUserId)
    {
      ok := id !in notes && NoteOk(Tables(), n);
      if ok {
        PutNoteKeepsConsistent(Tables(), id, n);
        notes := notes[id := n];
      }
    }

    /** `UPDATE notes SET ... WHERE id = id` and commit. */
    method UpdateNote(id: Uuid, n: Note) returns (ok: bool)
      requires Valid() && id in notes
      modifies this
      ensures Valid()
      ensures ok <==> NoteOk(old(Tables()), n)
      ensures notes == if ok then old(notes)[id := n] else old(notes)
      ensures users == old(users) && folders == old(folders) && outbox == old(outbox) && nextUserId == old(nextUserId)
    {
      ok := NoteOk(Tables(), n);
      if ok {
        PutNoteKeepsConsistent(Tables(), id, n);
        notes := notes[id := n];
      }
    }

    /** `DELETE FROM notes WHERE id = id` and commit. */
    method DeleteNote(id: Uuid)
      requires Valid()
      modifies this
      ensures Valid()
      ensures notes == old(notes) - {id}
      ensures users == old(users) && folders == old(folders) && outbox == old(outbox) && nextUserId == old(nextUserId)
    {
      notes := notes - {id};
    }

    /**
     * Write folder row `id` and commit. The foreign key on `parent_id` is
     * checked against the table the row is in, so a folder may name itself.
     */
    method PutFolder(id: Uuid, f: Folder, isNew: bool) returns (ok: bool)
      requires Valid() && (!isNew ==> id in folders)
      modifies this
      ensures Valid()
      ensures ok <==> (isNew ==> id !in old(folders)) && FolderOk(old(Tables()).(folders := old(folders)[id := f]), f)
      ensures folders == if ok then old(folders)[id := f] else old(folders)
      ensures users == old(users) && notes == old(notes) && outbox == old(outbox) && nextUserId == old(nextUserId)
    {
      var after := Tables().(folders := folders[id := f]);
      ok := (isNew ==> id !in folders) && FolderOk(after, f);
      if ok {
        PutFolderKeepsConsistent(Tables(), id, f);
        folders := folders[id := f];
      }
    }

    /** `background_tasks.add_task(...)`: the job runs after the response. */
    method Enqueue(job: Mail.Job)
      modifies this
      ensures outbox == old(outbox) + [job]
      ensures users == old(users) && folders == old(folders) && notes == old(notes) && nextUserId == old(nextUserId)
    {
      outbox := outbox + [job];
    }
  }
}
