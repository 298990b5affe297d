/**
 One request against the forum's database: the per-request user cache and the building of the forest
 of posts. Other requests may insert posts while this one runs, so every query sees some state of the
 posts table between what was stored when the request began and what is stored when it ends.
 */
module ForumRequest {
  import opened GameTypes
  import opened Forum
  import opened Sequences

  // ----- what a query may answer

  function Under(rows: seq<Row>, parent: Option<nat>): seq<Row> {
    if rows == [] then []
    else Under(rows[..|rows| - 1], parent) + if rows[|rows| - 1].parent == parent then [rows[|rows| - 1]] else []
  }

  /** `a` may come before `b`: by time, upwards or downwards. */
  predicate Before(a: Row, b: Row, up: bool) {
    if up then a.time <= b.time else a.time >= b.time
  }

  predicate InOrder(rows: seq<Row>, up: bool) {
    forall i, j | 0 <= i < j < |rows| :: Before(rows[i], rows[j], up)
  }

  lemma {:induction false} UnderMembers(rows: seq<Row>, parent: Option<nat>)
    ensures forall row :: row in Under(rows, parent) <==> row in rows && row.parent == parent
  {
    if rows != [] {
      UnderMembers(rows[..|rows| - 1], parent);
      assert rows == rows[..|rows| - 1] + [rows[|rows| - 1]];
    }
  }

  lemma {:induction false} UnderDistinct(users: seq<UserRow>, rows: seq<Row>, parent: Option<nat>)
    requires PostsOk(users, rows)
    ensures forall i, j :: 0 <= i < j < |Under(rows, parent)| ==> Under(rows, parent)[i].id < Under(rows, parent)[j].id
  {
    if rows != [] {
      var n := |rows| - 1;
      PrefixOk(users, rows, n);
      UnderDistinct(users, rows[..n], parent);
      UnderMembers(rows[..n], parent);
      var before := Under(rows[..n], parent);
      forall i | 0 <= i < |before| ensures before[i].id < rows[n].id {
        assert before[i] in rows[..n];
      }
    }
  }

  /** An answer: distinct rows that are stored under the parent, none that was known is missing. */
  ghost predicate IsAnswer(rows: seq<Row>, known: nat, parent: Option<nat>, answer: seq<Row>)
    requires known <= |rows|
  {
    && (forall i :: 0 <= i < |answer| ==> answer[i] in rows && answer[i].parent == parent)
    && (forall i, j :: 0 <= i < j < |answer| ==> answer[i].id != answer[j].id)
    && (forall k :: 0 <= k < known && rows[k].parent == parent ==> rows[k] in answer)
  }

  lemma {:induction false} MultisetDistinct(a: seq<Row>, b: seq<Row>)
    requires multiset(a) == multiset(b)
    requires forall i, j :: 0 <= i < j < |b| ==> b[i].id < b[j].id
    ensures forall i, j :: 0 <= i < j < |a| ==> a[i].id != a[j].id
  {
    forall i, j | 0 <= i < j < |a| ensures a[i].id != a[j].id {
      assert a[i] in multiset(b) && a[j] in multiset(b);
      if a[i].id == a[j].id {
        SameIdSame(b, a[i], a[j]);
        TwiceCounted(a, i, j);
        var k :| 0 <= k < |b| && b[k] == a[i];
        OnceCounted(b, a[i], k);
      }
    }
  }

  lemma SameIdSame(b: seq<Row>, x: Row, y: Row)
    requires forall i, j :: 0 <= i < j < |b| ==> b[i].id < b[j].id
    requires x in b && y in b && x.id == y.id
    ensures x == y
  {
  }

  lemma AnswerOf(users: seq<UserRow>, rows: seq<Row>, known: nat, seen: nat, parent: Option<nat>, answer: seq<Row>)
    requires PostsOk(users, rows) && known <= seen <= |rows|
    requires multiset(answer) == multiset(Under(rows[..seen], parent))
    ensures IsAnswer(rows, known, parent, answer)
  {
    hide PostsOk, Under;
    PrefixOk(users, rows, seen);
    UnderMembers(rows[..seen], parent);
    UnderDistinct(users, rows[..seen], parent);
    MultisetDistinct(answer, Under(rows[..seen], parent));
    forall i | 0 <= i < |answer| ensures answer[i] in rows && answer[i].parent == parent {
      assert answer[i] in multiset(Under(rows[..seen], parent));
    }
    forall k | 0 <= k < known && rows[k].parent == parent ensures rows[k] in answer {
      assert rows[..seen][k] == rows[k];
      assert rows[k] in multiset(Under(rows[..seen], parent));
    }
  }

  // ----- posts as objects

  class Post {
    const row: Row
    const poster: User
    var children: seq<Post>
    ghost var repr: set<Post>
    ghost var json: Json

    constructor (row: Row, poster: User)
      ensures this.row == row && this.poster == poster && children == [] && repr == {this}
    {
      this.row, this.poster, children := row, poster, [];
      repr := {this};
    }

    /** The fields of the node that are not its children. */
    function Header(kids: seq<Json>): Json {
      Json(row.id, row.subject, row.body, row.time, poster.name, poster.id, kids)
    }

    /** The object and everything below it form the tree `json`. */
    ghost predicate Valid()
      reads this, repr
      decreases repr
    {
      && this in repr
      && json == Header(json.children)
      && |json.children| == |children|
      && forall i :: 0 <= i < |children| ==>
           && children[i] in repr && children[i].repr <= repr && this !in children[i].repr
           && children[i].Valid() && children[i].json == json.children[i]
    }
  }

  /** `post_to_json` */
  function PostToJson(post: Post): (json: Json)
    requires post.Valid()
    reads post, post.repr
    ensures json == post.json
    ensures json.id == post.row.id && json.time == post.row.time
    ensures json.subject == post.row.subject && json.body == post.row.body
    ensures json.posterName == post.poster.name && json.posterId == post.poster.id
    decreases post.repr, 0
  {
    post.Header(PostsToJson(post.children, post.repr - {post}))
  }

  /** `posts_to_json`; all posts live in `within`. */
  function PostsToJson(posts: seq<Post>, ghost within: set<Post>): (out: seq<Json>)
    requires forall i :: 0 <= i < |posts| ==> posts[i] in within && posts[i].repr <= within && posts[i].Valid()
    reads within
    ensures |out| == |posts| && forall i :: 0 <= i < |posts| ==> out[i] == posts[i].json
    decreases within, |posts|
  {
    if posts == [] then [] else [PostToJson(posts[0])] + PostsToJson(posts[1..], within)
  }

  // ----- the request

  class Database {
    const users: seq<UserRow>   // the users table
    const rows: seq<Row>        // the posts table as it is when the request ends
    var seen: nat               // how many of its rows are stored so far
    var userCache: seq<User>

    /** Every cached user is the users table's user with that id. */
    ghost predicate Valid()
      reads this
    {
      && UsersOk(users) && PostsOk(users, rows) && seen <= |rows|
      && forall i :: 0 <= i < |userCache| ==> UserById(users, userCache[i].id) == Some(userCache[i])
    }

    constructor (users: seq<UserRow>, rows: seq<Row>, seen: nat)
      requires UsersOk(users) && PostsOk(users, rows) && seen <= |rows|
      ensures Valid() && this.users == users && this.rows == rows && this.seen == seen
    {
      this.users, this.rows, this.seen := users, rows, seen;
      userCache := [];
    }

    method SearchUserCacheById(id: nat) returns (user: Option<User>)
      requires Valid()
      ensures user.Some? ==> user == UserById(users, id)
      ensures user == None ==> forall i :: 0 <= i < |userCache| ==> userCache[i].id != id
    {
      var i := 0;
      while i < |userCache|
        invariant i <= |userCache| && forall k :: 0 <= k < i ==> userCache[k].id != id
      {
        if userCache[i].id == id {
          return Some(userCache[i]);
        }
        i := i + 1;
      }
      user := None;
    }

    /** With or without the cache, the answer is the users table's. */
    method GetUserById(id: nat) returns (user: Option<User>)
      requires Valid()
      modifies this`userCache
      ensures Valid() && user == UserById(users, id)
      ensures old(userCache) <= userCache
    {
      user := SearchUserCacheById(id);
      if user == None {
        user := SelectUser(id);
        if user.Some? {
          SelectedId(users, id);
          userCache := userCache + [user.value];
        }
      }
    }

    /** SELECT name, type FROM users WHERE id=:id */
    method SelectUser(id: nat) returns (user: Option<User>)
      requires UsersOk(users)
      ensures user == UserById(users, id)
    {
      var i := 0;
      while i < |users|
        invariant i <= |users| && forall k :: 0 <= k < i ==> users[k].id != id
      {
        if users[i].id == id {
          UserByIdFinds(users, i);
          return Some(User(id, users[i].name, users[i].kind));
        }
        i := i + 1;
      }
      UserByIdOnly(users, id);
      user := None;
    }

    /** A successful log-in caches the user it found. */
    method Authenticate(name: string, password: string) returns (result: Option<User>)
      requires Valid()
      modifies this`userCache
      ensures Valid()
      ensures result.Some? ==> exists i :: 0 <= i < |users| && users[i].name == name && users[i].password == password
                                && result == UserById(users, users[i].id)
      ensures result == None ==> forall i :: 0 <= i < |users| ==> !(users[i].name == name && users[i].password == password)
    {
      var i := 0;
      while i < |users|
        invariant i <= |users|
        invariant forall k :: 0 <= k < i ==> !(users[k].name == name && users[k].password == password)
      {
        if users[i].name == name && users[i].password == password {
          UserByIdFinds(users, i);
          var user := User(users[i].id, name, users[i].kind);
          userCache := userCache + [user];
          return Some(user);
        }
        i := i + 1;
      }
      result := None;
    }

    /** The rows under a parent, by time, in whatever order the database breaks ties. */
    method SelectUnder(parent: Option<nat>, up: bool, ghost known: nat) returns (answer: seq<Row>)
      requires Valid() && known <= seen
      modifies this`seen
      ensures Valid() && old(seen) <= seen
      ensures IsAnswer(rows, known, parent, answer) && InOrder(answer, up)
    {
      var now: nat :| seen <= now <= |rows|;
      seen := now;
      ghost var one := SortExists(Under(rows[..seen], parent), (row: Row) => if up then row.time else -row.time);
      assert InOrder(one, up);
      answer :| multiset(answer) == multiset(Under(rows[..seen], parent)) && InOrder(answer, up);
      AnswerOf(users, rows, known, seen, parent, answer);
    }

    /** The post object for a row, with its poster. */
    method MakePost(row: Row) returns (post: Post)
      requires Valid() && row in rows
      modifies this`userCache
      ensures Valid() && fresh(post) && post.row == row && post.children == [] && post.repr == {post}
      ensures forall kids :: Shows(users, row, post.Header(kids))
    {
      var poster := GetUserById(row.posterId);
      SelectedId(users, row.posterId);
      post := new Post(row, poster.value);
    }

    /**
     `populatePost`: fills in everything stored below the post. It ends because the rows below a post
     come after it in the table.
     */
    method PopulatePost(post: Post, ghost at: nat, ghost known: nat)
      requires Valid() && known <= seen
      requires at < |rows| && rows[at] == post.row && post.children == [] && post.repr == {post}
      requires forall kids :: Shows(users, post.row, post.Header(kids))
      modifies this`userCache, this`seen, post
      ensures Valid() && old(seen) <= seen
      ensures post.Valid() && fresh(post.repr - {post})
      ensures TreeOk(users, rows, known, post.json)
      decreases |rows| - at
    {
      hide PostsOk, UsersOk, TreeOk, IsAnswer, InOrder;
      var answer := SelectUnder(Some(post.row.id), true, known);
      ghost var kids: seq<Json> := [];
      ghost var below: set<Post> := {};
      var n := 0;
      while n < |answer|
        invariant n <= |answer| && |post.children| == |kids| == n && post.repr == {post}
        invariant Valid() && old(seen) <= seen
        invariant fresh(below)
        invariant forall i :: 0 <= i < n ==> Populated(post.children[i], below, answer[i], kids[i], known)
      {
        ghost var deeper := RowBelow(at, answer[n]);
        var child := MakePost(answer[n]);
        post.children := post.children + [child];
        PopulatePost(child, deeper, known);
        kids := kids + [child.json];
        below := below + child.repr;
        n := n + 1;
      }
      post.repr := {post} + below;
      post.json := post.Header(kids);
      TreeBuilt(at, known, answer, post.json);
    }

    /**
     The posts number `index` to `index + count` of some answer to the query for top posts: all that were
     known when the request began are in the answer, newest first and with ties in any order.
     */
    ghost predicate IsPage(known: nat, index: nat, count: nat, page: seq<Json>)
      requires known <= |rows|
    {
      exists all :: IsAnswer(rows, known, None, all) && InOrder(all, false) && IsSlice(all, index, count, page)
    }

    ghost predicate IsSlice(all: seq<Row>, index: nat, count: nat, page: seq<Json>) {
      var from := Min(index, |all|);
      |page| == Min(count, |all| - from) && forall i :: 0 <= i < |page| ==> page[i].id == all[from + i].id
    }

    /**
     `getTopPosts`: the asked page of top posts, each with everything below it. A page that is long
     enough for all of them covers every top post known when the request began.
     */
    method GetTopPosts(index: nat, count: nat) returns (result: seq<Post>, ghost below: set<Post>)
      requires Valid()
      modifies this`userCache, this`seen
      ensures Valid() && fresh(below) && |result| <= count
      ensures forall i :: 0 <= i < |result| ==> result[i] in below && result[i].repr <= below && result[i].Valid()
      ensures var page := PostsToJson(result, below);
              && ForestOk(users, rows, old(seen), None, page) && IsPage(old(seen), index, count, page)
              && (index == 0 && count >= |Under(rows, None)| ==> Covers(page, rows[..old(seen)], None))
              && (forall i, j :: 0 <= i < j < |page| ==> page[i].time >= page[j].time)
    {
      hide PostsOk, UsersOk, TreeOk, ForestOk, InOrder, IsPage, Under;
      ghost var known := seen;
      var all := SelectUnder(None, false, known);
      AnswerFits(all, known);
      var from := Min(index, |all|);
      var to := from + Min(count, |all| - from);
      var answer := all[from..to];
      ghost var kids: seq<Json> := [];
      below := {};
      result := [];
      var n := 0;
      while n < |answer|
        invariant n <= |answer| && |result| == |kids| == n
        invariant Valid() && known <= seen && fresh(below)
        invariant forall i :: 0 <= i < n ==> Populated(result[i], below, answer[i], kids[i], known)
      {
        assert answer[n] == all[from + n];
        ghost var at :| 0 <= at < |rows| && rows[at] == answer[n];
        var post := MakePost(answer[n]);
        PopulatePost(post, at, known);
        kids := kids + [post.json];
        below := below + post.repr;
        result := result + [post];
        n := n + 1;
      }
      PageBuilt(known, all, from, to, kids);
      PageIs(known, all, index, count, kids);
      assert PostsToJson(result, below) == kids;
    }

    /**
     The 'get_posts' action. Every post known when the request began is delivered exactly once when
     its top post is on the page and not at all otherwise; no post is delivered twice.
     */
    method GetPosts(index: nat, count: nat) returns (page: seq<Json>)
      requires Valid()
      modifies this`userCache, this`seen
      ensures Valid()
      ensures IsPage(old(seen), index, count, page) && ForestOk(users, rows, old(seen), None, page)
      ensures forall n :: 0 <= n < old(seen) ==>
        OccursIn(page, rows[n].id) == if Among(page, Root(rows, rows[n].id)) then 1 else 0
      ensures index == 0 && count >= |Under(rows, None)| ==>
        forall n :: 0 <= n < old(seen) ==> OccursIn(page, rows[n].id) == 1
      ensures forall id :: OccursIn(page, id) <= 1
    {
      hide PostsOk, UsersOk, ForestOk, IsPage, Under, Root;
      ghost var known := seen;
      var result, below := GetTopPosts(index, count);
      page := PostsToJson(result, below);
      forall n | 0 <= n < known
        ensures OccursIn(page, rows[n].id) == if Among(page, Root(rows, rows[n].id)) then 1 else 0
      {
        EveryPostOnce(users, rows, known, page, n);
      }
      if index == 0 && count >= |Under(rows, None)| {
        forall n | 0 <= n < known ensures OccursIn(page, rows[n].id) == 1 {
          WholeForest(users, rows, known, page, n);
        }
      }
      forall id ensures OccursIn(page, id) <= 1 {
        OccursInOnce(users, rows, known, None, page, id);
      }
    }

    /** No answer is longer than the list of all top posts. */
    lemma AnswerFits(answer: seq<Row>, known: nat)
      requires known <= |rows| && IsAnswer(rows, known, None, answer)
      ensures |answer| <= |Under(rows, None)|
    {
      UnderMembers(rows, None);
      forall i, j | 0 <= i < j < |answer| ensures answer[i] != answer[j] {
        assert answer[i].id != answer[j].id;
      }
      Pigeonhole(answer, Under(rows, None));
    }

    lemma PageIs(known: nat, all: seq<Row>, index: nat, count: nat, page: seq<Json>)
      requires known <= |rows| && IsAnswer(rows, known, None, all) && InOrder(all, false)
      requires var from := Min(index, |all|);
               |page| == Min(count, |all| - from) && forall i :: 0 <= i < |page| ==> page[i].id == all[from..][i].id
      ensures IsPage(known, index, count, page)
    {
      assert IsSlice(all, index, count, page);
    }

    lemma PageBuilt(known: nat, all: seq<Row>, from: nat, to: nat, page: seq<Json>)
      requires PostsOk(users, rows) && known <= |rows| && from <= to <= |all|
      requires IsAnswer(rows, known, None, all) && InOrder(all, false) && |page| == to - from
      requires forall i :: 0 <= i < |page| ==> Shows(users, all[from..to][i], page[i]) && TreeOk(users, rows, known, page[i])
      ensures ForestOk(users, rows, known, None, page)
      ensures from == 0 && to == |all| ==> Covers(page, rows[..known], None)
      ensures forall i, j :: 0 <= i < j < |page| ==> page[i].time >= page[j].time
      ensures forall i :: 0 <= i < |page| ==> page[i].id == all[from..][i].id
    {
      var answer := all[from..to];
      assert forall i :: 0 <= i < |answer| ==> answer[i] == all[from + i];
      if from == 0 && to == |all| {
        assert answer == all;
        SiblingsBuilt(known, None, all, page);
      }
      forall i | 0 <= i < |page| ensures Find(rows, page[i].id) == Some(answer[i]) {
        var k :| 0 <= k < |rows| && rows[k] == answer[i];
        FindAt(users, rows, k);
      }
      forall i, j | 0 <= i < j < |page| ensures page[i].time >= page[j].time && page[i].id != page[j].id {
        assert Before(all[from + i], all[from + j], false);
      }
    }

    /** The object is the finished tree of `row`, built from objects in `within`. */
    ghost predicate Populated(child: Post, within: set<Post>, row: Row, json: Json, known: nat)
      requires known <= |rows|
      reads child, child.repr
    {
      && child in within && child.repr <= within && child.Valid() && child.json == json
      && Shows(users, row, json) && TreeOk(users, rows, known, json)
    }

    lemma IdOrder(i: nat, j: nat)
      requires PostsOk(users, rows) && i < |rows| && j < |rows|
      ensures i < j <==> rows[i].id < rows[j].id
    {
      if j < i { assert rows[j].id < rows[i].id; }
    }

    /** The position of a row stored below the row at `at`. */
    lemma RowBelow(at: nat, row: Row) returns (deeper: nat)
      requires PostsOk(users, rows) && at < |rows| && row in rows && row.parent == Some(rows[at].id)
      ensures at < deeper < |rows| && rows[deeper] == row
    {
      deeper :| 0 <= deeper < |rows| && rows[deeper] == row;
      ParentSmaller(users, rows, row);
      IdOrder(at, deeper);
    }

    lemma TreeBuilt(at: nat, known: nat, answer: seq<Row>, json: Json)
      requires PostsOk(users, rows) && known <= |rows| && at < |rows| && json.id == rows[at].id
      requires IsAnswer(rows, known, Some(json.id), answer) && InOrder(answer, true) && |json.children| == |answer|
      requires forall i :: 0 <= i < |answer| ==>
        Shows(users, answer[i], json.children[i]) && TreeOk(users, rows, known, json.children[i])
      ensures TreeOk(users, rows, known, json)
    {
      SiblingsBuilt(known, Some(json.id), answer, json.children);
    }

    lemma SiblingsBuilt(known: nat, parent: Option<nat>, answer: seq<Row>, nodes: seq<Json>)
      requires PostsOk(users, rows) && known <= |rows|
      requires IsAnswer(rows, known, parent, answer) && |nodes| == |answer|
      requires forall i :: 0 <= i < |answer| ==> Shows(users, answer[i], nodes[i])
      ensures Siblings(users, rows, parent, nodes) && Covers(nodes, rows[..known], parent)
    {
      forall i | 0 <= i < |nodes| ensures Find(rows, nodes[i].id) == Some(answer[i]) {
        var k :| 0 <= k < |rows| && rows[k] == answer[i];
        FindAt(users, rows, k);
      }
      forall k | 0 <= k < known && rows[..known][k].parent == parent
        ensures exists i :: 0 <= i < |nodes| && nodes[i].id == rows[..known][k].id
      {
        assert rows[k] in answer;
        var i :| 0 <= i < |answer| && answer[i] == rows[k];
        assert nodes[i].id == rows[k].id;
      }
    }
  }

  lemma {:induction false} SelectedId(users: seq<UserRow>, id: nat)
    requires UserById(users, id).Some?
    ensures UserById(users, id).value.id == id
  {
    if users[0].id != id { SelectedId(users[1..], id); }
  }
}
