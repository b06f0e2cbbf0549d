/**
 * The tables of the application (app/models/database.py): users, folders
 * and notes, the column constraints the database enforces, the queries the
 * handlers run, and the cascading deletes the foreign keys declare.
 */
module Schema {
  import opened Wrappers
  import opened Hasher

  /** A folder or note primary key (a UUID). */
  type Uuid = string

  const USERNAME_MAX: nat := 50
  const EMAIL_MAX: nat := 255
  const FULL_NAME_MAX: nat := 100
  const TITLE_MAX: nat := 50

  datatype User = User(
    id: int,
    username: string,
    email: string,
    fullName: string,
    hashedPassword: Digest,
    isActive: bool,
    isVerified: bool)

  /** A folder; `parentId` is `None` for a top-level folder. */
  datatype Folder = Folder(title: Option<string>, parentId: Option<Uuid>, userId: int)

  /** A note; `folderId` is `None` for a note outside any folder. */
  datatype Note = Note(title: Option<string>, content: string, userId: int, folderId: Option<Uuid>)

  datatype Db = Db(users: seq<User>, folders: map<Uuid, Folder>, notes: map<Uuid, Note>)

  // ---------------------------------------------------------------------
  // Column constraints

  /** `String(50)` / `String(255)` / `String(100)` on the user columns. */
  predicate UserFits(u: User) {
    |u.username| <= USERNAME_MAX && |u.email| <= EMAIL_MAX && |u.fullName| <= FULL_NAME_MAX
  }

  /** `String(50)` on a nullable title column. */
  predicate TitleFits(t: Option<string>) {
    t.None? || |t.value| <= TITLE_MAX
  }

  /** Two rows differ on the primary key and on both unique columns. */
  predicate Differ(u: User, v: User) {
    u.id != v.id && u.username != v.username && u.email != v.email
  }

  /** The primary key and the two unique columns of `users`. */
  ghost predicate KeysUnique(users: seq<User>) {
    forall i, j | 0 <= i < j < |users| :: Differ(users[i], users[j])
  }

  function UserIds(users: seq<User>): set<int> {
    set u | u in users :: u.id
  }

  /** A folder row obeys its constraints and foreign keys. */
  predicate FolderOk(db: Db, f: Folder) {
    TitleFits(f.title) && f.userId in UserIds(db.users)
    && (f.parentId.Some? ==> f.parentId.value in db.folders)
  }

  /** A note row obeys its constraints and foreign keys. */
  predicate NoteOk(db: Db, n: Note) {
    TitleFits(n.title) && n.userId in UserIds(db.users)
    && (n.folderId.Some? ==> n.folderId.value in db.folders)
  }

  /** Everything the database guarantees about committed rows. */
  ghost predicate Consistent(db: Db) {
    && KeysUnique(db.users)
    && (forall u | u in db.users :: UserFits(u))
    && (forall f | f in db.folders :: FolderOk(db, db.folders[f]))
    && (forall n | n in db.notes :: NoteOk(db, db.notes[n]))
  }

  // ---------------------------------------------------------------------
  // Queries on `users`

  /** A `WHERE` clause over `users`. */
  datatype Key =
    | ById(id: int)
    | ByUsername(username: string)
    | ByEmail(email: string)
    | ByEmailOrUsername(email: string, name: string)

  predicate Matches(u: User, k: Key) {
    match k
    case ById(i) => u.id == i
    case ByUsername(n) => u.username == n
    case ByEmail(e) => u.email == e
    case ByEmailOrUsername(e, n) => u.email == e || u.username == n
  }

  /** A key on a single unique column. */
  predicate SingleColumn(k: Key) {
    !k.ByEmailOrUsername?
  }

  /** The index of the first row the key selects. */
  function FindIndex(rows: seq<User>, k: Key): (r: Option<nat>)
    ensures r.Some? ==> r.value < |rows| && Matches(rows[r.value], k)
    ensures r.Some? ==> forall j | 0 <= j < r.value :: !Matches(rows[j], k)
    ensures r.None? <==> forall j | 0 <= j < |rows| :: !Matches(rows[j], k)
  {
    if rows == [] then None
    else if Matches(rows[0], k) then Some(0)
    else match FindIndex(rows[1..], k)
      case None => None
      case Some(i) => Some(i + 1)
  }

  /** The first row the key selects. */
  function Find(rows: seq<User>, k: Key): (r: Option<User>)
    ensures r.Some? <==> FindIndex(rows, k).Some?
    ensures r.Some? ==> r.value == rows[FindIndex(rows, k).value] && Matches(r.value, k)
  {
    match FindIndex(rows, k)
    case None => None
    case Some(i) => Some(rows[i])
  }

  /** What `scalar_one_or_none()` makes of a query: no row, one row, or an error for several. */
  datatype Row = NoRow | OneRow(index: nat) | ManyRows

  function ScalarOneOrNone(rows: seq<User>, k: Key): (r: Row)
    ensures r.NoRow? <==> forall j | 0 <= j < |rows| :: !Matches(rows[j], k)
    ensures r.OneRow? ==> r.index < |rows| && Matches(rows[r.index], k)
    ensures r.OneRow? ==> forall j | 0 <= j < |rows| && j != r.index :: !Matches(rows[j], k)
    ensures r.ManyRows? <==> exists i, j | 0 <= i < j < |rows| :: Matches(rows[i], k) && Matches(rows[j], k)
  {
    match FindIndex(rows, k)
    case None => NoRow
    case Some(i) =>
      var rest := FindIndex(rows[i + 1..], k);
      if rest.Some? then
        assert Matches(rows[i + 1 + rest.value], k);
        ManyRows
      else
        assert forall j | i < j < |rows| :: !Matches(rows[j], k) by {
          forall j | i < j < |rows| ensures !Matches(rows[j], k) {
            assert rows[i + 1..][j - i - 1] == rows[j];
          }
        }
        OneRow(i)
  }

  /** On a unique column, `scalar_one_or_none()` never raises: it returns the first match, if any. */
  lemma UniqueColumnLookup(rows: seq<User>, k: Key)
    requires KeysUnique(rows) && SingleColumn(k)
    ensures ScalarOneOrNone(rows, k) == (match FindIndex(rows, k) case None => NoRow case Some(i) => OneRow(i))
  {
  }

  /** On a unique column the first match is the one row that matches. */
  lemma FindTheRow(users: seq<User>, i: nat, k: Key)
    requires KeysUnique(users) && i < |users| && SingleColumn(k) && Matches(users[i], k)
    ensures FindIndex(users, k) == Some(i)
  {
    var j := FindIndex(users, k).value;
    assert j < i ==> Differ(users[j], users[i]);
  }

  /**
   * The query `email == e OR username == n` returns several rows exactly when
   * one row has the email and a different row has the username.
   */
  lemma {:induction false} EmailOrUsernameMany(rows: seq<User>, e: string, n: string)
    requires KeysUnique(rows)
    ensures ScalarOneOrNone(rows, ByEmailOrUsername(e, n)).ManyRows?
        <==> exists i, j | 0 <= i < |rows| && 0 <= j < |rows| :: i != j && rows[i].email == e && rows[j].username == n
  {
    var k := ByEmailOrUsername(e, n);
    if ScalarOneOrNone(rows, k).ManyRows? {
      var i, j :| 0 <= i < j < |rows| && Matches(rows[i], k) && Matches(rows[j], k);
      if rows[i].email == e {
        assert rows[j].username == n;
      } else {
        assert rows[j].email == e;
      }
    }
    if exists i, j | 0 <= i < |rows| && 0 <= j < |rows| :: i != j && rows[i].email == e && rows[j].username == n {
      var i, j :| 0 <= i < |rows| && 0 <= j < |rows| && i != j && rows[i].email == e && rows[j].username == n;
      if i < j {
        assert Matches(rows[i], k) && Matches(rows[j], k);
      } else {
        assert Matches(rows[j], k) && Matches(rows[i], k);
      }
    }
  }

  // ---------------------------------------------------------------------
  // Writes that keep the constraints

  /** The checks the database makes when a new user row is inserted. */
  predicate CanInsert(users: seq<User>, u: User) {
    && UserFits(u)
    && FindIndex(users, ById(u.id)).None?
    && FindIndex(users, ByUsername(u.username)).None?
    && FindIndex(users, ByEmail(u.email)).None?
  }

  lemma InsertKeepsConsistent(db: Db, u: User)
    requires Consistent(db) && CanInsert(db.users, u)
    ensures Consistent(db.(users := db.users + [u]))
    ensures UserIds(db.users + [u]) == UserIds(db.users) + {u.id}
  {
    var users' := db.users + [u];
    assert UserIds(users') == UserIds(db.users) + {u.id} by {
      assert forall v :: v in users' <==> v in db.users || v == u;
    }
    forall i, j | 0 <= i < j < |users'| ensures Differ(users'[i], users'[j]) {
      if j == |db.users| {
        assert !Matches(db.users[i], ById(u.id)) && !Matches(db.users[i], ByUsername(u.username)) && !Matches(db.users[i], ByEmail(u.email));
      }
    }
  }

  /** Two rows agree on the primary key and on both unique columns. */
  predicate SameKeys(u: User, v: User) {
    u.id == v.id && u.username == v.username && u.email == v.email
  }

  lemma UpdateKeepsConsistent(db: Db, i: nat, v: User)
    requires Consistent(db) && i < |db.users| && SameKeys(db.users[i], v) && UserFits(v)
    ensures Consistent(db.(users := db.users[i := v]))
    ensures UserIds(db.users[i := v]) == UserIds(db.users)
  {
    var users' := db.users[i := v];
    assert UserIds(users') == UserIds(db.users) by {
      forall x | x in UserIds(db.users) ensures x in UserIds(users') {
        var u :| u in db.users && u.id == x;
        var k :| 0 <= k < |db.users| && db.users[k] == u;
        assert users'[k].id == x;
      }
      forall x | x in UserIds(users') ensures x in UserIds(db.users) {
        var u :| u in users' && u.id == x;
        var k :| 0 <= k < |users'| && users'[k] == u;
        assert db.users[k].id == x;
      }
    }
    forall u | u in users' ensures UserFits(u) {
      var k :| 0 <= k < |users'| && users'[k] == u;
      if k != i { assert db.users[k] in db.users; }
    }
  }

  /** Putting a note row that obeys its constraints. */
  lemma PutNoteKeepsConsistent(db: Db, id: Uuid, n: Note)
    requires Consistent(db) && NoteOk(db, n)
    ensures Consistent(db.(notes := db.notes[id := n]))
  {
  }

  /** Putting a folder row that obeys its constraints in the table it ends up in. */
  lemma PutFolderKeepsConsistent(db: Db, id: Uuid, f: Folder)
    requires Consistent(db) && FolderOk(db.(folders := db.folders[id := f]), f)
    ensures Consistent(db.(folders := db.folders[id := f]))
  {
    var db' := db.(folders := db.folders[id := f]);
    forall g | g in db'.folders ensures FolderOk(db', db'.folders[g]) {
      if g != id { assert FolderOk(db, db.folders[g]); }
    }
    forall m | m in db'.notes ensures NoteOk(db', db'.notes[m]) {
      assert NoteOk(db, db.notes[m]);
    }
  }

  // ---------------------------------------------------------------------
  // Cascading deletes (`ondelete="CASCADE"` on every foreign key)

  /** Folder `g` is a direct child of a folder in `c`. */
  predicate ChildOf(folders: map<Uuid, Folder>, g: Uuid, c: set<Uuid>)
    requires g in folders
  {
    folders[g].parentId.Some? && folders[g].parentId.value in c
  }

  /** Every child of a folder in `c` is in `c`. */
  ghost predicate ClosedUnderChildren(folders: map<Uuid, Folder>, c: set<Uuid>) {
    forall g | g in folders && ChildOf(folders, g, c) :: g in c
  }

  lemma {:induction false} SubsetNoLarger<T>(a: set<T>, b: set<T>)
    requires a <= b
    ensures |a| <= |b|
  {
    if a != {} {
      var y :| y in a;
      SubsetNoLarger(a - {y}, b - {y});
    }
  }

  lemma StrictSubsetSmaller<T>(a: set<T>, b: set<T>)
    requires a < b
    ensures |a| < |b|
  {
    var x :| x in b && x !in a;
    SubsetNoLarger(a, b - {x});
  }

  /**
   * The folders `roots` and all their descendants: the least set that holds
   * `roots` and every child of its members.
   */
  function Subtree(folders: map<Uuid, Folder>, roots: set<Uuid>): (c: set<Uuid>)
    requires roots <= folders.Keys
    ensures roots <= c <= folders.Keys
    ensures ClosedUnderChildren(folders, c)
    ensures forall t | roots <= t && ClosedUnderChildren(folders, t) :: c <= t
    decreases |folders.Keys - roots|
  {
    var next := roots + set g | g in folders && ChildOf(folders, g, roots);
    if next == roots then roots
    else
      StrictSubsetSmaller(folders.Keys - next, folders.Keys - roots);
      Subtree(folders, next)
  }

  /** The note is filed in one of the folders `s`. */
  predicate InFolders(n: Note, s: set<Uuid>) {
    n.folderId.Some? && n.folderId.value in s
  }

  /** The folders a delete of folder `fid` removes: `fid` and its descendants. */
  function FolderSubtree(db: Db, fid: Uuid): set<Uuid> {
    Subtree(db.folders, if fid in db.folders then {fid} else {})
  }

  /** `DELETE FROM folders WHERE id = fid` with the cascades applied. */
  function DeleteFolderCascade(db: Db, fid: Uuid): (r: Db)
    ensures r.users == db.users
    ensures fid !in r.folders
    ensures forall g | g in r.folders :: g in db.folders && r.folders[g] == db.folders[g]
    ensures forall m | m in r.notes :: m in db.notes && r.notes[m] == db.notes[m]
  {
    var gone := FolderSubtree(db, fid);
    Db(db.users,
       map g | g in db.folders && g !in gone :: db.folders[g],
       map m | m in db.notes && !InFolders(db.notes[m], gone) :: db.notes[m])
  }

  /**
   * Deleting a folder removes it, every folder below it and every note filed
   * in any of them, keeps every other row as it was, and leaves a consistent
   * database.
   */
  lemma DeleteFolderCascadeOk(db: Db, fid: Uuid)
    requires Consistent(db)
    ensures var r := DeleteFolderCascade(db, fid);
      && Consistent(r)
      && r.users == db.users
      && fid !in r.folders
      && (forall g | g in db.folders && ChildOf(db.folders, g, {fid}) :: g !in r.folders)
      && (forall g | g in db.folders :: g in r.folders <==> g !in FolderSubtree(db, fid))
      && (forall g | g in r.folders :: r.folders[g] == db.folders[g])
      && (forall m | m in db.notes :: m in r.notes <==> !InFolders(db.notes[m], FolderSubtree(db, fid)))
      && (forall m | m in r.notes :: r.notes[m] == db.notes[m])
  {
    var r := DeleteFolderCascade(db, fid);
    var gone := FolderSubtree(db, fid);
    forall g | g in r.folders ensures FolderOk(r, r.folders[g]) {
      var f := db.folders[g];
      assert FolderOk(db, f);
    }
    forall m | m in r.notes ensures NoteOk(r, r.notes[m]) {
      assert NoteOk(db, db.notes[m]);
    }
  }

  /** The user rows other than those with id `uid`, in order. */
  function RemoveUser(users: seq<User>, uid: int): (r: seq<User>)
    ensures forall u :: u in r <==> u in users && u.id != uid
  {
    if users == [] then []
    else if users[0].id == uid then RemoveUser(users[1..], uid)
    else [users[0]] + RemoveUser(users[1..], uid)
  }

  lemma TailKeysUnique(users: seq<User>)
    requires KeysUnique(users) && users != []
    ensures KeysUnique(users[1..])
    ensures forall v | v in users[1..] :: Differ(users[0], v)
  {
    var tail := users[1..];
    forall i, j | 0 <= i < j < |tail| ensures Differ(tail[i], tail[j]) {
      assert tail[i] == users[i + 1] && tail[j] == users[j + 1];
    }
    forall v | v in tail ensures Differ(users[0], v) {
      var k :| 0 <= k < |tail| && tail[k] == v;
      assert users[k + 1] == v;
    }
  }

  lemma ConsKeysUnique(a: User, t: seq<User>)
    requires KeysUnique(t) && forall v | v in t :: Differ(a, v)
    ensures KeysUnique([a] + t)
  {
    var r := [a] + t;
    forall i, j | 0 <= i < j < |r| ensures Differ(r[i], r[j]) {
      if i == 0 {
        assert r[j] == t[j - 1] && r[j] in t;
      } else {
        assert r[i] == t[i - 1] && r[j] == t[j - 1];
      }
    }
  }

  lemma {:induction false} RemoveUserKeepsKeys(users: seq<User>, uid: int)
    requires KeysUnique(users)
    ensures KeysUnique(RemoveUser(users, uid))
    ensures UserIds(RemoveUser(users, uid)) == UserIds(users) - {uid}
  {
    var r := RemoveUser(users, uid);
    assert UserIds(r) == UserIds(users) - {uid} by {
      assert forall u :: u in r <==> u in users && u.id != uid;
    }
    if users != [] {
      TailKeysUnique(users);
      RemoveUserKeepsKeys(users[1..], uid);
      if users[0].id != uid {
        ConsKeysUnique(users[0], RemoveUser(users[1..], uid));
      }
    }
  }

  /** The folders a user's deletion removes: the user's own and every folder below them. */
  function UserSubtree(db: Db, uid: int): set<Uuid> {
    Subtree(db.folders, set g | g in db.folders && db.folders[g].userId == uid)
  }

  /** `DELETE FROM users WHERE id = uid` with the cascades applied. */
  function DeleteUserCascade(db: Db, uid: int): (r: Db)
    ensures forall u | u in r.users :: u in db.users && u.id != uid
    ensures forall g | g in r.folders :: g in db.folders && r.folders[g] == db.folders[g]
    ensures forall m | m in r.notes :: m in db.notes && r.notes[m] == db.notes[m] && r.notes[m].userId != uid
  {
    var gone := UserSubtree(db, uid);
    Db(RemoveUser(db.users, uid),
       map g | g in db.folders && g !in gone :: db.folders[g],
       map m | m in db.notes && db.notes[m].userId != uid && !InFolders(db.notes[m], gone) :: db.notes[m])
  }

  /**
   * Deleting a user removes the user's row, all of the user's folders and
   * notes, and whatever was filed below those folders, and leaves a consistent
   * database.
   */
  lemma DeleteUserCascadeOk(db: Db, uid: int)
    requires Consistent(db)
    ensures var r := DeleteUserCascade(db, uid);
      && Consistent(r)
      && uid !in UserIds(r.users)
      && (forall u :: u in r.users <==> u in db.users && u.id != uid)
      && (forall g | g in db.folders :: g in r.folders <==> g !in UserSubtree(db, uid))
      && (forall g | g in r.folders :: r.folders[g] == db.folders[g] && r.folders[g].userId != uid)
      && (forall m | m in db.notes ::
            m in r.notes <==> db.notes[m].userId != uid && !InFolders(db.notes[m], UserSubtree(db, uid)))
      && (forall m | m in r.notes :: r.notes[m] == db.notes[m] && r.notes[m].userId != uid)
  {
    var r := DeleteUserCascade(db, uid);
    var owned := set g | g in db.folders && db.folders[g].userId == uid;
    var gone := UserSubtree(db, uid);
    RemoveUserKeepsKeys(db.users, uid);
    forall g | g in r.folders ensures FolderOk(r, r.folders[g]) && r.folders[g].userId != uid {
      var f := db.folders[g];
      assert FolderOk(db, f);
      assert g !in owned;
    }
    forall m | m in r.notes ensures NoteOk(r, r.notes[m]) {
      assert NoteOk(db, db.notes[m]);
    }
  }
}
