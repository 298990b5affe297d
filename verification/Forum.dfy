/**
 The forum's stored posts and the forest of posts it delivers. Rows are listed in insertion order.
 */
module Forum {
  import opened GameTypes

  datatype UserRow = UserRow(id: nat, name: string, password: string, kind: string)
  datatype User = User(id: nat, name: string, kind: string)
  datatype Row = Row(id: nat, parent: Option<nat>, posterId: nat, time: int, subject: string, body: string)

  /** One post of the delivered forest. */
  datatype Json = Json(id: nat, subject: string, body: string, time: int, posterName: string, posterId: nat,
                       children: seq<Json>)

  // ----- the tables

  /** The user with this id, as the users table has it. */
  function UserById(users: seq<UserRow>, id: nat): Option<User> {
    if users == [] then None
    else if users[0].id == id then Some(User(id, users[0].name, users[0].kind))
    else UserById(users[1..], id)
  }

  ghost predicate UsersOk(users: seq<UserRow>) {
    forall i, j :: 0 <= i < j < |users| ==> users[i].id != users[j].id && users[i].name != users[j].name
  }

  /** What every history of insertions leaves: growing ids, parents stored earlier, known posters. */
  ghost predicate PostsOk(users: seq<UserRow>, rows: seq<Row>) {
    && (forall i, j :: 0 <= i < j < |rows| ==> rows[i].id < rows[j].id)
    && (forall i :: 0 <= i < |rows| && rows[i].parent.Some? ==> HasId(rows[..i], rows[i].parent.value))
    && (forall i :: 0 <= i < |rows| ==> UserById(users, rows[i].posterId).Some?)
  }

  ghost predicate HasId(rows: seq<Row>, id: nat) {
    exists i :: 0 <= i < |rows| && rows[i].id == id
  }

  lemma {:induction false} MoreUsers(users: seq<UserRow>, user: UserRow, id: nat)
    requires UserById(users, id).Some? || user.id != id
    ensures UserById(users + [user], id) == UserById(users, id)
  {
    if users == [] {
      assert users + [user] == [user] && [user][1..] == [];
      assert UserById([user], id) == None;
    } else {
      assert (users + [user])[1..] == users[1..] + [user];
      if users[0].id != id { MoreUsers(users[1..], user, id); }
    }
  }

  lemma {:induction false} NewUserFound(users: seq<UserRow>, user: UserRow)
    requires UserById(users, user.id) == None
    ensures UserById(users + [user], user.id) == Some(User(user.id, user.name, user.kind))
  {
    if users == [] {
      assert users + [user] == [user];
    } else {
      assert (users + [user])[1..] == users[1..] + [user];
      NewUserFound(users[1..], user);
    }
  }

  lemma {:induction false} UserByIdFinds(users: seq<UserRow>, i: nat)
    requires UsersOk(users) && i < |users|
    ensures UserById(users, users[i].id) == Some(User(users[i].id, users[i].name, users[i].kind))
  {
    if i > 0 {
      assert users[0].id != users[i].id;
      assert forall k :: 0 <= k < |users[1..]| ==> users[1..][k] == users[k + 1];
      UserByIdFinds(users[1..], i - 1);
    }
  }

  lemma {:induction false} UserByIdOnly(users: seq<UserRow>, id: nat)
    requires forall i :: 0 <= i < |users| ==> users[i].id != id
    ensures UserById(users, id) == None
  {
    if users != [] { UserByIdOnly(users[1..], id); }
  }

  /** The two tables, changed only by insertions. */
  class Store {
    var users: seq<UserRow>
    var posts: seq<Row>

    ghost predicate Valid()
      reads this
    {
      UsersOk(users) && PostsOk(users, posts)
    }

    constructor ()
      ensures Valid() && users == [] && posts == []
    {
      users, posts := [], [];
    }

    /** The INSERT of `addUser`: `id` is the next auto-increment value, names are unique. */
    method InsertUser(id: nat, name: string, password: string) returns (ok: bool)
      requires Valid() && forall i :: 0 <= i < |users| ==> users[i].id < id
      modifies this`users
      ensures Valid()
      ensures ok <==> forall i :: 0 <= i < |old(users)| ==> old(users)[i].name != name
      ensures users == if ok then old(users) + [UserRow(id, name, password, "user")] else old(users)
      ensures ok ==> UserById(users, id) == Some(User(id, name, "user"))
    {
      ok := forall i | 0 <= i < |users| :: users[i].name != name;
      if ok {
        var user := UserRow(id, name, password, "user");
        forall i | 0 <= i < |posts| ensures UserById(users + [user], posts[i].posterId).Some? {
          MoreUsers(users, user, posts[i].posterId);
        }
        UserByIdOnly(users, id);
        NewUserFound(users, user);
        users := users + [user];
      }
    }

    /**
     `addPost`: `id` and `time` are what the database fills in. The parent, when there is one, is a
     post fetched from the table and the poster is a user fetched from it.
     */
    method AddPost(id: nat, time: int, subject: string, body: string, posterId: nat, parent: Option<nat>)
      requires Valid() && forall i :: 0 <= i < |posts| ==> posts[i].id < id
      requires UserById(users, posterId).Some? && (parent.Some? ==> HasId(posts, parent.value))
      modifies this`posts
      ensures Valid() && posts == old(posts) + [Row(id, parent, posterId, time, subject, body)]
    {
      var row := Row(id, parent, posterId, time, subject, body);
      assert forall i :: 0 <= i <= |posts| ==> (posts + [row])[..i] == posts[..i];
      assert posts[..|posts|] == posts;
      posts := posts + [row];
    }
  }

  // ----- climbing from a post to its ancestors

  function Find(rows: seq<Row>, id: nat): Option<Row> {
    if rows == [] then None
    else if rows[|rows| - 1].id == id then Some(rows[|rows| - 1])
    else Find(rows[..|rows| - 1], id)
  }

  lemma {:induction false} FindAt(users: seq<UserRow>, rows: seq<Row>, i: nat)
    requires PostsOk(users, rows) && i < |rows|
    ensures Find(rows, rows[i].id) == Some(rows[i])
    decreases |rows|
  {
    var n := |rows| - 1;
    if i < n {
      assert rows[i].id < rows[n].id;
      PrefixOk(users, rows, n);
      FindAt(users, rows[..n], i);
    }
  }

  lemma PrefixOk(users: seq<UserRow>, rows: seq<Row>, n: nat)
    requires PostsOk(users, rows) && n <= |rows|
    ensures PostsOk(users, rows[..n])
  {
    forall i | 0 <= i < n && rows[..n][i].parent.Some? ensures HasId(rows[..n][..i], rows[..n][i].parent.value) {
      assert rows[..n][..i] == rows[..i];
    }
  }

  lemma {:induction false} FindIn(rows: seq<Row>, id: nat)
    ensures Find(rows, id).Some? <==> HasId(rows, id)
    ensures Find(rows, id).Some? ==> Find(rows, id).value in rows && Find(rows, id).value.id == id
  {
    if rows != [] {
      var n := |rows| - 1;
      FindIn(rows[..n], id);
      if HasId(rows[..n], id) {
        var i :| 0 <= i < n && rows[..n][i].id == id;
        assert rows[i].id == id;
      }
      if HasId(rows, id) && rows[n].id != id {
        var i :| 0 <= i < |rows| && rows[i].id == id;
        assert rows[..n][i].id == id;
      }
    }
  }

  /** A parent's id is smaller than its child's. */
  lemma ParentSmaller(users: seq<UserRow>, rows: seq<Row>, row: Row)
    requires PostsOk(users, rows) && row in rows && row.parent.Some?
    ensures row.parent.value < row.id && Find(rows, row.parent.value).Some?
  {
    var i :| 0 <= i < |rows| && rows[i] == row;
    var j :| 0 <= j < |rows[..i]| && rows[..i][j].id == row.parent.value;
    assert rows[j].id < rows[i].id;
    FindAt(users, rows, j);
  }

  /** `a` is `k` itself or one of its ancestors. */
  predicate Above(rows: seq<Row>, a: nat, k: nat)
    decreases k
  {
    a == k ||
    match Find(rows, k)
    case Some(row) => row.parent.Some? && row.parent.value < k && Above(rows, a, row.parent.value)
    case None => false
  }

  lemma {:induction false} AboveIsSmaller(rows: seq<Row>, a: nat, k: nat)
    requires Above(rows, a, k)
    ensures a <= k
    decreases k
  {
    if a != k { AboveIsSmaller(rows, a, Find(rows, k).value.parent.value); }
  }

  lemma {:induction false} AboveIsAChain(rows: seq<Row>, a: nat, b: nat, k: nat)
    requires Above(rows, a, k) && Above(rows, b, k)
    ensures Above(rows, a, b) || Above(rows, b, a)
    decreases k
  {
    if a != k && b != k { AboveIsAChain(rows, a, b, Find(rows, k).value.parent.value); }
  }

  lemma {:induction false} AboveStep(rows: seq<Row>, a: nat, b: nat, k: nat)
    requires Above(rows, a, b) && Above(rows, b, k)
    ensures Above(rows, a, k)
    decreases k
  {
    if b != k { AboveStep(rows, a, b, Find(rows, k).value.parent.value); }
  }

  /** Two different posts under the same parent, or both at the top, have no descendant in common. */
  lemma SiblingsApart(users: seq<UserRow>, rows: seq<Row>, a: Row, b: Row, k: nat)
    requires PostsOk(users, rows) && a in rows && b in rows && a.id != b.id && a.parent == b.parent
    ensures !(Above(rows, a.id, k) && Above(rows, b.id, k))
  {
    if Above(rows, a.id, k) && Above(rows, b.id, k) {
      AboveIsAChain(rows, a.id, b.id, k);
      if Above(rows, a.id, b.id) { NotAboveSibling(users, rows, a, b); }
      if Above(rows, b.id, a.id) { NotAboveSibling(users, rows, b, a); }
    }
  }

  lemma NotAboveSibling(users: seq<UserRow>, rows: seq<Row>, a: Row, b: Row)
    requires PostsOk(users, rows) && a in rows && b in rows && a.id != b.id && a.parent == b.parent
    ensures !Above(rows, a.id, b.id)
  {
    var i :| 0 <= i < |rows| && rows[i] == b;
    FindAt(users, rows, i);
    if Above(rows, a.id, b.id) {
      ParentSmaller(users, rows, a);
      AboveIsSmaller(rows, a.id, b.parent.value);
    }
  }

  // ----- what a delivered tree must be

  /** The node shows a stored post: its fields are the row's, its poster is the one in the users table. */
  predicate Shows(users: seq<UserRow>, row: Row, json: Json) {
    && json.id == row.id && json.subject == row.subject && json.body == row.body && json.time == row.time
    && json.posterId == row.posterId
    && UserById(users, row.posterId) == Some(User(row.posterId, json.posterName, PosterKind(users, row.posterId)))
  }

  function PosterKind(users: seq<UserRow>, id: nat): string {
    match UserById(users, id)
    case Some(user) => user.kind
    case None => ""
  }

  /** The nodes are different stored posts, all of them directly under `parent`. */
  ghost predicate Siblings(users: seq<UserRow>, rows: seq<Row>, parent: Option<nat>, nodes: seq<Json>) {
    && (forall i :: 0 <= i < |nodes| ==>
          Find(rows, nodes[i].id).Some? && Find(rows, nodes[i].id).value.parent == parent
          && Shows(users, Find(rows, nodes[i].id).value, nodes[i]))
    && (forall i, j :: 0 <= i < j < |nodes| ==> nodes[i].id != nodes[j].id)
  }

  ghost predicate Covers(nodes: seq<Json>, rows: seq<Row>, parent: Option<nat>) {
    forall k :: 0 <= k < |rows| && rows[k].parent == parent ==> exists i :: 0 <= i < |nodes| && nodes[i].id == rows[k].id
  }

  /**
   The node's whole subtree: at every post the children are different posts stored under it, in the
   order of their times, and no post among the first `known` rows is missing.
   */
  ghost predicate TreeOk(users: seq<UserRow>, rows: seq<Row>, known: nat, json: Json)
    requires known <= |rows|
  {
    && Siblings(users, rows, Some(json.id), json.children)
    && Covers(json.children, rows[..known], Some(json.id))
    && (forall i, j :: 0 <= i < j < |json.children| ==> json.children[i].time <= json.children[j].time)
    && (forall i :: 0 <= i < |json.children| ==> TreeOk(users, rows, known, json.children[i]))
  }

  ghost predicate ForestOk(users: seq<UserRow>, rows: seq<Row>, known: nat, parent: Option<nat>, nodes: seq<Json>)
    requires known <= |rows|
  {
    Siblings(users, rows, parent, nodes) && forall i :: 0 <= i < |nodes| ==> TreeOk(users, rows, known, nodes[i])
  }

  // ----- counting

  /** How often a post occurs in a tree. */
  function Occurs(json: Json, id: nat): nat
    decreases json, 0
  {
    (if json.id == id then 1 else 0) + OccursIn(json.children, id)
  }

  function OccursIn(nodes: seq<Json>, id: nat): nat
    decreases nodes, 1
  {
    if nodes == [] then 0 else Occurs(nodes[0], id) + OccursIn(nodes[1..], id)
  }

  lemma {:induction false} SiblingsTail(users: seq<UserRow>, rows: seq<Row>, parent: Option<nat>, nodes: seq<Json>)
    requires Siblings(users, rows, parent, nodes) && nodes != []
    ensures Siblings(users, rows, parent, nodes[1..])
  {
    forall i | 0 <= i < |nodes[1..]| ensures nodes[1..][i] == nodes[i + 1] {}
  }

  /** What occurs in a tree is stored below its root. */
  lemma {:induction false} OccursBelow(users: seq<UserRow>, rows: seq<Row>, known: nat, json: Json, id: nat)
    requires PostsOk(users, rows) && known <= |rows| && TreeOk(users, rows, known, json)
    requires Find(rows, json.id).Some? && Occurs(json, id) > 0
    ensures Above(rows, json.id, id) && Find(rows, id).Some?
    decreases json, 0
  {
    if json.id != id {
      var i := OccursInSome(users, rows, known, Some(json.id), json.children, id);
      var child := json.children[i];
      FindIn(rows, child.id);
      ParentSmaller(users, rows, Find(rows, child.id).value);
      assert Above(rows, json.id, child.id);
      AboveStep(rows, json.id, child.id, id);
    }
  }

  lemma {:induction false} OccursInSome(users: seq<UserRow>, rows: seq<Row>, known: nat, parent: Option<nat>,
                                        nodes: seq<Json>, id: nat) returns (i: nat)
    requires PostsOk(users, rows) && known <= |rows| && ForestOk(users, rows, known, parent, nodes)
    requires OccursIn(nodes, id) > 0
    ensures i < |nodes| && Above(rows, nodes[i].id, id) && Find(rows, id).Some?
    decreases nodes, 1
  {
    if Occurs(nodes[0], id) > 0 {
      OccursBelow(users, rows, known, nodes[0], id);
      i := 0;
    } else {
      SiblingsTail(users, rows, parent, nodes);
      var k := OccursInSome(users, rows, known, parent, nodes[1..], id);
      i := k + 1;
    }
  }

  /** No post occurs twice in a tree ... */
  lemma {:induction false} OccursOnce(users: seq<UserRow>, rows: seq<Row>, known: nat, json: Json, id: nat)
    requires PostsOk(users, rows) && known <= |rows| && TreeOk(users, rows, known, json)
    requires Find(rows, json.id).Some?
    ensures Occurs(json, id) <= 1
    decreases json, 0
  {
    OccursInOnce(users, rows, known, Some(json.id), json.children, id);
    if json.id == id && OccursIn(json.children, id) > 0 {
      var i := OccursInSome(users, rows, known, Some(json.id), json.children, id);
      FindIn(rows, json.children[i].id);
      ParentSmaller(users, rows, Find(rows, json.children[i].id).value);
      AboveIsSmaller(rows, json.children[i].id, id);
    }
  }

  /** ... nor in a forest of siblings. */
  lemma {:induction false} OccursInOnce(users: seq<UserRow>, rows: seq<Row>, known: nat, parent: Option<nat>,
                                        nodes: seq<Json>, id: nat)
    requires PostsOk(users, rows) && known <= |rows| && ForestOk(users, rows, known, parent, nodes)
    ensures OccursIn(nodes, id) <= 1
    decreases nodes, 1
  {
    if nodes != [] {
      OccursOnce(users, rows, known, nodes[0], id);
      SiblingsTail(users, rows, parent, nodes);
      OccursInOnce(users, rows, known, parent, nodes[1..], id);
      if Occurs(nodes[0], id) > 0 && OccursIn(nodes[1..], id) > 0 {
        OccursBelow(users, rows, known, nodes[0], id);
        var i := OccursInSome(users, rows, known, parent, nodes[1..], id);
        FindIn(rows, nodes[0].id);
        FindIn(rows, nodes[i + 1].id);
        SiblingsApart(users, rows, Find(rows, nodes[0].id).value, Find(rows, nodes[i + 1].id).value, id);
      }
    }
  }

  lemma {:induction false} OccursAt(nodes: seq<Json>, i: nat, id: nat)
    requires i < |nodes|
    ensures OccursIn(nodes, id) >= Occurs(nodes[i], id)
  {
    if i > 0 { OccursAt(nodes[1..], i - 1, id); }
  }

  /** A known reply occurs wherever its parent does. */
  lemma {:induction false} ReplyOccurs(users: seq<UserRow>, rows: seq<Row>, known: nat, json: Json, reply: nat)
    requires known <= |rows| && TreeOk(users, rows, known, json)
    requires reply < known && rows[reply].parent.Some? && Occurs(json, rows[reply].parent.value) > 0
    ensures Occurs(json, rows[reply].id) > 0
    decreases json, 0
  {
    var parent := rows[reply].parent.value;
    if json.id == parent {
      assert rows[..known][reply] == rows[reply];
      var i :| 0 <= i < |json.children| && json.children[i].id == rows[reply].id;
      OccursAt(json.children, i, rows[reply].id);
    } else {
      ReplyOccursIn(users, rows, known, Some(json.id), json.children, reply);
    }
  }

  lemma {:induction false} ReplyOccursIn(users: seq<UserRow>, rows: seq<Row>, known: nat, parent: Option<nat>,
                                         nodes: seq<Json>, reply: nat)
    requires known <= |rows| && forall i :: 0 <= i < |nodes| ==> TreeOk(users, rows, known, nodes[i])
    requires reply < known && rows[reply].parent.Some? && OccursIn(nodes, rows[reply].parent.value) > 0
    ensures OccursIn(nodes, rows[reply].id) > 0
    decreases nodes, 1
  {
    if Occurs(nodes[0], rows[reply].parent.value) > 0 {
      ReplyOccurs(users, rows, known, nodes[0], reply);
    } else {
      ReplyOccursIn(users, rows, known, parent, nodes[1..], reply);
    }
  }

  /** The top post a stored post hangs under. */
  function Root(rows: seq<Row>, id: nat): nat
    decreases id
  {
    match Find(rows, id)
    case Some(row) => if row.parent.Some? && row.parent.value < id then Root(rows, row.parent.value) else id
    case None => id
  }

  ghost predicate Among(nodes: seq<Json>, id: nat) {
    exists i :: 0 <= i < |nodes| && nodes[i].id == id
  }

  /**
   The main result: in a page of top posts with everything below them, every post known when the
   request began occurs exactly once when its top post is on the page, and not at all otherwise.
   */
  lemma {:induction false} EveryPostOnce(users: seq<UserRow>, rows: seq<Row>, known: nat, page: seq<Json>, n: nat)
    requires PostsOk(users, rows) && known <= |rows| && ForestOk(users, rows, known, None, page)
    requires n < known
    ensures OccursIn(page, rows[n].id) == if Among(page, Root(rows, rows[n].id)) then 1 else 0
    decreases n
  {
    var row := rows[n];
    FindAt(users, rows, n);
    OccursInOnce(users, rows, known, None, page, row.id);
    if OccursIn(page, row.id) > 0 {
      var i := OccursInSome(users, rows, known, None, page, row.id);
      RootAbove(users, rows, page[i].id, row.id);
      assert page[i].id == Root(rows, row.id);
    }
    if Among(page, Root(rows, row.id)) {
      if row.parent == None {
        var i :| 0 <= i < |page| && page[i].id == row.id;
        OccursAt(page, i, row.id);
      } else {
        ParentSmaller(users, rows, row);
        var m :| 0 <= m < |rows[..n]| && rows[..n][m].id == row.parent.value;
        assert rows[m].id == row.parent.value;
        EveryPostOnce(users, rows, known, page, m);
        ReplyOccursIn(users, rows, known, None, page, n);
      }
    }
  }

  /** A top post above a post is its root. */
  lemma {:induction false} RootAbove(users: seq<UserRow>, rows: seq<Row>, a: nat, k: nat)
    requires PostsOk(users, rows) && Above(rows, a, k)
    requires Find(rows, a).Some? && Find(rows, a).value.parent == None
    ensures Root(rows, k) == a
    decreases k
  {
    if a != k { RootAbove(users, rows, a, Find(rows, k).value.parent.value); }
  }

  /** With all top posts on the page, every known post occurs exactly once. */
  lemma WholeForest(users: seq<UserRow>, rows: seq<Row>, known: nat, page: seq<Json>, n: nat)
    requires PostsOk(users, rows) && known <= |rows| && ForestOk(users, rows, known, None, page)
    requires Covers(page, rows[..known], None) && n < known
    ensures OccursIn(page, rows[n].id) == 1
  {
    EveryPostOnce(users, rows, known, page, n);
    RootOnPage(users, rows, known, page, n);
  }

  lemma {:induction false} RootOnPage(users: seq<UserRow>, rows: seq<Row>, known: nat, page: seq<Json>, n: nat)
    requires PostsOk(users, rows) && known <= |rows| && Covers(page, rows[..known], None) && n < known
    ensures Among(page, Root(rows, rows[n].id))
    decreases n
  {
    FindAt(users, rows, n);
    if rows[n].parent == None {
      assert rows[..known][n] == rows[n];
    } else {
      ParentSmaller(users, rows, rows[n]);
      var m :| 0 <= m < |rows[..n]| && rows[..n][m].id == rows[n].parent.value;
      RootOnPage(users, rows, known, page, m);
    }
  }
}
