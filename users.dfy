/** The `users` and `podcasts` tables and the five handlers over them in
    convex/users.ts: the queries `getUserById` and
    `getTopUserByPodcastCount` as functions of a snapshot of the tables, the
    mutations `createUser`, `updateUser` and `deleteUser` as methods of a
    `Database` object that holds the tables. */
module Users {
  import opened Outcomes
  import opened Seqs

  /** A document's system `_id`. */
  type Id = nat

  datatype User = User(id: Id, clerkId: string, email: string, imageUrl: string, name: string)

  /** The podcast fields these handlers read or write. */
  datatype Podcast = Podcast(id: Id, podcastTitle: string, authorId: string, authorImageUrl: string, views: int)

  /** What a lookup by `clerkId` throws. */
  datatype UserError =
    | UserNotFound  // ConvexError('User not found'): no document matched
    | NotUnique     // `.unique()` throws when more than one document matches

  function HasClerkId(clerkId: string): User -> bool
  {
    (u: User) => u.clerkId == clerkId
  }

  function OtherThan(clerkId: string): User -> bool
  {
    (u: User) => u.clerkId != clerkId
  }

  function IsByAuthor(clerkId: string): Podcast -> bool
  {
    (p: Podcast) => p.authorId == clerkId
  }

  // ---------------------------------------------------------------------
  // getUserById: `.filter(clerkId == args.clerkId).unique()`, then
  // "User not found" when nothing matched.

  lemma MatchCount(users: seq<User>, clerkId: string)
    ensures |Filter(users, HasClerkId(clerkId))| == 0
        <==> forall i :: 0 <= i < |users| ==> users[i].clerkId != clerkId
    ensures |Filter(users, HasClerkId(clerkId))| >= 2
        <==> exists i, j :: 0 <= i < j < |users| && users[i].clerkId == clerkId && users[j].clerkId == clerkId
  {
    var p := Positions(users, HasClerkId(clerkId));
    FilterLength(users, HasClerkId(clerkId));
    AtLeastTwo(p);
    if exists i :: 0 <= i < |users| && users[i].clerkId == clerkId {
      var i :| 0 <= i < |users| && users[i].clerkId == clerkId;
      assert i in p;
    }
    if exists i, j :: 0 <= i < j < |users| && users[i].clerkId == clerkId && users[j].clerkId == clerkId {
      var i, j :| 0 <= i < j < |users| && users[i].clerkId == clerkId && users[j].clerkId == clerkId;
      assert i in p && j in p;
    }
  }

  /** The one user whose `clerkId` is `clerkId`; "User not found" when there
      is none, and the error of `.unique()` when there are several. */
  function GetUserById(users: seq<User>, clerkId: string): (r: Result<User, UserError>)
    ensures r == Failure(UserNotFound)
        <==> forall i :: 0 <= i < |users| ==> users[i].clerkId != clerkId
    ensures r == Failure(NotUnique)
        <==> exists i, j :: 0 <= i < j < |users| && users[i].clerkId == clerkId && users[j].clerkId == clerkId
    ensures r.Success? ==> r.value in users && r.value.clerkId == clerkId
  {
    var matches := Filter(users, HasClerkId(clerkId));
    MatchCount(users, clerkId);
    if |matches| == 0 then Failure(UserNotFound)
    else if |matches| == 1 then Success(matches[0])
    else Failure(NotUnique)
  }

  /** A successful lookup found the user at the only index that matches. */
  lemma UniqueMatch(users: seq<User>, clerkId: string, u: User) returns (m: nat)
    requires GetUserById(users, clerkId) == Success(u)
    ensures m < |users| && users[m] == u
    ensures forall j :: 0 <= j < |users| && users[j].clerkId == clerkId ==> j == m
  {
    m :| 0 <= m < |users| && users[m] == u;
    assert users[m].clerkId == clerkId;
  }

  // ---------------------------------------------------------------------
  // getTopUserByPodcastCount

  /** `{ podcastTitle, podcastId }` of one podcast in a report entry. */
  datatype PodcastRef = PodcastRef(podcastTitle: string, podcastId: Id)

  /** `{ ...u, totalPodcasts, podcast }`: a user with the podcasts they authored. */
  datatype TopUser = TopUser(user: User, totalPodcasts: nat, podcast: seq<PodcastRef>)

  function Views(p: Podcast): int { p.views }

  function RefOf(p: Podcast): PodcastRef { PodcastRef(p.podcastTitle, p.id) }

  function TotalPodcasts(e: TopUser): int { e.totalPodcasts }

  function UserOf(e: TopUser): User { e.user }

  /** The podcasts whose author is `clerkId`, most viewed first. */
  function AuthorPodcasts(podcasts: seq<Podcast>, clerkId: string): (r: seq<Podcast>)
    ensures forall p :: multiset(r)[p] == if p.authorId == clerkId then multiset(podcasts)[p] else 0
    ensures SortedDesc(r, Views)
  {
    FilterMultiset(podcasts, IsByAuthor(clerkId));
    SortDesc(Filter(podcasts, IsByAuthor(clerkId)), Views)
  }

  /** The report entry of one user. */
  function Entry(u: User, podcasts: seq<Podcast>): (e: TopUser)
    ensures e.user == u
    ensures e.totalPodcasts == |e.podcast| == |Positions(podcasts, IsByAuthor(u.clerkId))|
    ensures multiset(e.podcast) == multiset(Map(Filter(podcasts, IsByAuthor(u.clerkId)), RefOf))
    ensures e.podcast == Map(AuthorPodcasts(podcasts, u.clerkId), RefOf)
  {
    var authored := Filter(podcasts, IsByAuthor(u.clerkId));
    var sorted := AuthorPodcasts(podcasts, u.clerkId);
    FilterMultiset(podcasts, IsByAuthor(u.clerkId));
    assert multiset(sorted) == multiset(authored);
    FilterLength(podcasts, IsByAuthor(u.clerkId));
    MapPreservesMultiset(sorted, authored, RefOf);
    assert |sorted| == |multiset(sorted)| == |multiset(authored)| == |authored|;
    TopUser(u, |sorted|, Map(sorted, RefOf))
  }

  /** The entries in the order of the users table, before the final sort. */
  function Entries(users: seq<User>, podcasts: seq<Podcast>): (r: seq<TopUser>)
    ensures |r| == |users|
    ensures forall i :: 0 <= i < |users| ==> r[i] == Entry(users[i], podcasts)
  {
    Map(users, u => Entry(u, podcasts))
  }

  /** One entry per stored user, users with the most podcasts first. */
  function TopUsers(users: seq<User>, podcasts: seq<Podcast>): (r: seq<TopUser>)
    ensures |r| == |users|
    ensures multiset(Map(r, UserOf)) == multiset(users)
    ensures forall e :: e in r ==> e == Entry(e.user, podcasts)
    ensures SortedDesc(r, TotalPodcasts)
  {
    var entries := Entries(users, podcasts);
    var r := SortDesc(entries, TotalPodcasts);
    MapPreservesMultiset(r, entries, UserOf);
    assert Map(entries, UserOf) == users;
    assert |r| == |multiset(r)| == |multiset(entries)| == |entries|;
    assert forall e :: e in r ==> e in multiset(entries);
    r
  }

  /** Users with equally many podcasts keep the order of the users table. */
  lemma {:induction false} TopUsersTiesKeepTableOrder(users: seq<User>, podcasts: seq<Podcast>, k: int)
    ensures Filter(TopUsers(users, podcasts), HasKey(TotalPodcasts, k))
         == Filter(Entries(users, podcasts), HasKey(TotalPodcasts, k))
  {
    SortDescStable(Entries(users, podcasts), TotalPodcasts, k);
  }

  /** Every entry of the report belongs to a stored user. */
  lemma TopUserIsStored(users: seq<User>, podcasts: seq<Podcast>, e: TopUser)
    requires e in TopUsers(users, podcasts)
    ensures e.user in users
  {
    var r := TopUsers(users, podcasts);
    var k :| 0 <= k < |r| && r[k] == e;
    var owners := Map(r, UserOf);
    assert owners[k] == e.user;
    assert e.user in multiset(owners);
  }

  lemma AuthorPositions(podcasts: seq<Podcast>, clerkId: string)
    ensures Positions(podcasts, IsByAuthor(clerkId))
         == set i | 0 <= i < |podcasts| && podcasts[i].authorId == clerkId
  {
  }

  /** The number of podcasts a user has is the number of podcasts whose
      `authorId` is that user's `clerkId`. */
  lemma TotalIsPodcastCount(users: seq<User>, podcasts: seq<Podcast>, e: TopUser)
    requires e in TopUsers(users, podcasts)
    ensures e.user in users
    ensures e.totalPodcasts == |set i | 0 <= i < |podcasts| && podcasts[i].authorId == e.user.clerkId|
  {
    TopUserIsStored(users, podcasts, e);
    AuthorPositions(podcasts, e.user.clerkId);
  }

  // ---------------------------------------------------------------------
  // The mutations' effect on the tables, stated by clerkId.

  /** updateUser's patch: new `imageUrl` and `email` for the user with that
      `clerkId`; `id`, `clerkId` and `name` of every user unchanged, every
      other user unchanged. */
  function WithProfile(users: seq<User>, clerkId: string, imageUrl: string, email: string): (r: seq<User>)
    ensures |r| == |users|
    ensures forall i :: 0 <= i < |r| ==>
      r[i].id == users[i].id && r[i].clerkId == users[i].clerkId && r[i].name == users[i].name
    ensures forall i :: 0 <= i < |r| ==>
      if users[i].clerkId == clerkId then r[i].imageUrl == imageUrl && r[i].email == email
      else r[i] == users[i]
  {
    seq(|users|, i requires 0 <= i < |users| =>
      if users[i].clerkId == clerkId then users[i].(imageUrl := imageUrl, email := email) else users[i])
  }

  /** updateUser's cascade: every podcast by that author shows the new
      image; nothing else of any podcast changes. */
  function WithAuthorImage(podcasts: seq<Podcast>, clerkId: string, imageUrl: string): (r: seq<Podcast>)
    ensures |r| == |podcasts|
    ensures forall i :: 0 <= i < |r| ==>
      r[i].authorImageUrl == (if podcasts[i].authorId == clerkId then imageUrl else podcasts[i].authorImageUrl)
    ensures forall i :: 0 <= i < |r| ==> r[i].(authorImageUrl := podcasts[i].authorImageUrl) == podcasts[i]
  {
    seq(|podcasts|, i requires 0 <= i < |podcasts| =>
      if podcasts[i].authorId == clerkId then podcasts[i].(authorImageUrl := imageUrl) else podcasts[i])
  }

  /** deleteUser's effect: the users table without that user. */
  function WithoutUser(users: seq<User>, clerkId: string): (r: seq<User>)
    ensures forall x: User :: multiset(r)[x] == if x.clerkId == clerkId then 0 else multiset(users)[x]
  {
    FilterMultiset(users, OtherThan(clerkId));
    Filter(users, OtherThan(clerkId))
  }

  /** A new user is found by its `clerkId` when no user had it before. */
  lemma CreateThenGet(users: seq<User>, u: User)
    requires GetUserById(users, u.clerkId) == Failure(UserNotFound)
    ensures GetUserById(users + [u], u.clerkId) == Success(u)
  {
    var after := users + [u];
    assert forall i :: 0 <= i < |users| ==> after[i] == users[i] && after[i].clerkId != u.clerkId;
    assert after[|users|] == u;
    assert forall x :: x in after && x.clerkId == u.clerkId ==> x == u;
  }

  /** createUser does not check for an existing `clerkId`: inserting a
      second user with it makes every later lookup of that `clerkId` throw. */
  lemma CreateDuplicateBreaksLookup(users: seq<User>, u: User)
    requires GetUserById(users, u.clerkId).Success?
    ensures GetUserById(users + [u], u.clerkId) == Failure(NotUnique)
  {
    var after := users + [u];
    var v := GetUserById(users, u.clerkId).value;
    var m :| 0 <= m < |users| && users[m] == v;
    assert after[m] == v && after[|users|] == u;
    assert 0 <= m < |users| < |after| && after[m].clerkId == u.clerkId && after[|users|].clerkId == u.clerkId;
  }

  /** After updateUser, the lookup finds the same user with the new image
      and email. */
  lemma UpdateThenGet(users: seq<User>, clerkId: string, imageUrl: string, email: string, u: User)
    requires GetUserById(users, clerkId) == Success(u)
    ensures GetUserById(WithProfile(users, clerkId, imageUrl, email), clerkId)
         == Success(u.(imageUrl := imageUrl, email := email))
  {
    var after := WithProfile(users, clerkId, imageUrl, email);
    var m := UniqueMatch(users, clerkId, u);
    assert forall i :: 0 <= i < |users| ==> (after[i].clerkId == clerkId <==> i == m);
    assert after[m] == u.(imageUrl := imageUrl, email := email);
    assert forall x :: x in after && x.clerkId == clerkId ==> x == after[m];
  }

  /** The found user occurs once in the table, and no other user has that
      `clerkId`. */
  lemma FoundUserOccursOnce(users: seq<User>, clerkId: string, u: User)
    requires GetUserById(users, clerkId) == Success(u)
    ensures forall x: User :: x.clerkId == clerkId ==> multiset(users)[x] == if x == u then 1 else 0
  {
    var matches := Filter(users, HasClerkId(clerkId));
    assert matches == [u] by {
      MatchCount(users, clerkId);
    }
    FilterMultiset(users, HasClerkId(clerkId));
  }

  /** deleteUser removes exactly the user it found, and nothing else. */
  lemma DeleteRemovesExactlyOne(users: seq<User>, clerkId: string, u: User)
    requires GetUserById(users, clerkId) == Success(u)
    ensures multiset(WithoutUser(users, clerkId)) == multiset(users) - multiset{u}
    ensures |WithoutUser(users, clerkId)| == |users| - 1
  {
    var without := WithoutUser(users, clerkId);
    FoundUserOccursOnce(users, clerkId, u);
    FilterMultiset(users, OtherThan(clerkId));
    forall x: User
      ensures multiset(without)[x] == (multiset(users) - multiset{u})[x]
    {
      if x.clerkId == clerkId {
        assert multiset(without)[x] == 0;
      } else {
        assert x != u;
      }
    }
    assert multiset(without) == multiset(users) - multiset{u};
    assert u in multiset(users);
    assert |without| == |multiset(without)| == |multiset(users)| - 1;
  }

  /** After deleteUser, the lookup of that `clerkId` reports "User not
      found". */
  lemma DeleteThenGet(users: seq<User>, clerkId: string)
    requires GetUserById(users, clerkId).Success?
    ensures GetUserById(WithoutUser(users, clerkId), clerkId) == Failure(UserNotFound)
  {
    var after := WithoutUser(users, clerkId);
    forall i | 0 <= i < |after|
      ensures after[i].clerkId != clerkId
    {
      assert after[i] in after;
    }
  }

  // ---------------------------------------------------------------------
  // The database and its mutations.

  predicate UserIdsDistinct(users: seq<User>)
  {
    forall i, j :: 0 <= i < j < |users| ==> users[i].id != users[j].id
  }

  predicate PodcastIdsDistinct(podcasts: seq<Podcast>)
  {
    forall i, j :: 0 <= i < j < |podcasts| ==> podcasts[i].id != podcasts[j].id
  }

  /** An id larger than every id in `users`. */
  function FreshUserId(users: seq<User>): (n: Id)
    ensures forall u :: u in users ==> u.id < n
  {
    if users == [] then 0
    else
      var rest := FreshUserId(users[1..]);
      assert forall u :: u in users ==> u == users[0] || u in users[1..];
      if users[0].id < rest then rest else users[0].id + 1
  }

  /** `ctx.db.patch(id, { imageUrl, email })` on the users table. */
  function PatchProfile(users: seq<User>, id: Id, imageUrl: string, email: string): (r: seq<User>)
    ensures |r| == |users|
    ensures forall i :: 0 <= i < |r| ==>
      r[i].id == users[i].id && r[i].clerkId == users[i].clerkId && r[i].name == users[i].name
    ensures forall i :: 0 <= i < |r| ==>
      if users[i].id == id then r[i].imageUrl == imageUrl && r[i].email == email
      else r[i] == users[i]
  {
    seq(|users|, i requires 0 <= i < |users| =>
      if users[i].id == id then users[i].(imageUrl := imageUrl, email := email) else users[i])
  }

  /** `ctx.db.patch(id, { authorImageUrl })` on the podcasts table. */
  function PatchAuthorImage(podcasts: seq<Podcast>, id: Id, imageUrl: string): (r: seq<Podcast>)
    ensures |r| == |podcasts|
    ensures forall i :: 0 <= i < |r| ==>
      r[i].authorImageUrl == (if podcasts[i].id == id then imageUrl else podcasts[i].authorImageUrl)
    ensures forall i :: 0 <= i < |r| ==> r[i].(authorImageUrl := podcasts[i].authorImageUrl) == podcasts[i]
  {
    seq(|podcasts|, i requires 0 <= i < |podcasts| =>
      if podcasts[i].id == id then podcasts[i].(authorImageUrl := imageUrl) else podcasts[i])
  }

  /** `ctx.db.delete(id)` keeps the users whose id differs. */
  function IdIsNot(id: Id): User -> bool
  {
    (u: User) => u.id != id
  }

  function IdsOf(podcasts: seq<Podcast>): set<Id>
  {
    set p | p in podcasts :: p.id
  }

  /** Patching the found user by `_id` is patching by `clerkId`. */
  lemma ProfilePatchIsByClerkId(users: seq<User>, clerkId: string, u: User, imageUrl: string, email: string)
    requires UserIdsDistinct(users)
    requires GetUserById(users, clerkId) == Success(u)
    ensures PatchProfile(users, u.id, imageUrl, email) == WithProfile(users, clerkId, imageUrl, email)
  {
    var m := UniqueMatch(users, clerkId, u);
    assert forall j :: 0 <= j < |users| && users[j].id == users[m].id ==> j == m;
    assert forall j :: 0 <= j < |users| ==> (users[j].id == u.id <==> users[j].clerkId == clerkId);
  }

  /** Deleting the found user by `_id` is deleting by `clerkId`. */
  lemma DeleteIsByClerkId(users: seq<User>, clerkId: string, u: User)
    requires UserIdsDistinct(users)
    requires GetUserById(users, clerkId) == Success(u)
    ensures Filter(users, IdIsNot(u.id)) == WithoutUser(users, clerkId)
  {
    var m := UniqueMatch(users, clerkId, u);
    assert forall j :: 0 <= j < |users| && users[j].id == users[m].id ==> j == m;
    forall x | x in users
      ensures IdIsNot(u.id)(x) == OtherThan(clerkId)(x)
    {
      var j :| 0 <= j < |users| && users[j] == x;
    }
    FilterCongruent(users, IdIsNot(u.id), OtherThan(clerkId));
  }

  /** In a table with distinct ids, the ids of an author's podcasts pick out
      exactly that author's podcasts. */
  lemma AuthorIds(podcasts: seq<Podcast>, clerkId: string, j: nat)
    requires PodcastIdsDistinct(podcasts)
    requires j < |podcasts|
    ensures podcasts[j].id in IdsOf(Filter(podcasts, IsByAuthor(clerkId))) <==> podcasts[j].authorId == clerkId
  {
    var authored := Filter(podcasts, IsByAuthor(clerkId));
    FilterMultiset(podcasts, IsByAuthor(clerkId));
    if podcasts[j].authorId == clerkId {
      assert multiset(authored)[podcasts[j]] == multiset(podcasts)[podcasts[j]] > 0;
      assert podcasts[j] in authored;
    }
    if podcasts[j].id in IdsOf(authored) {
      var q :| q in authored && q.id == podcasts[j].id;
      var m :| 0 <= m < |podcasts| && podcasts[m] == q;
      assert podcasts[m].id == podcasts[j].id;
    }
  }

  lemma IdsOfSnoc(podcasts: seq<Podcast>, p: Podcast)
    ensures IdsOf(podcasts + [p]) == IdsOf(podcasts) + {p.id}
  {
    assert forall q :: q in podcasts + [p] <==> q in podcasts || q == p;
  }

  /** updateUser changes no `_id`. */
  lemma PatchesKeepIds(users: seq<User>, podcasts: seq<Podcast>, clerkId: string, imageUrl: string, email: string, n: Id)
    requires UserIdsDistinct(users) && PodcastIdsDistinct(podcasts)
    requires forall u :: u in users ==> u.id < n
    ensures UserIdsDistinct(WithProfile(users, clerkId, imageUrl, email))
    ensures forall u :: u in WithProfile(users, clerkId, imageUrl, email) ==> u.id < n
    ensures PodcastIdsDistinct(WithAuthorImage(podcasts, clerkId, imageUrl))
  {
    var after := WithProfile(users, clerkId, imageUrl, email);
    forall u | u in after
      ensures u.id < n
    {
      var i :| 0 <= i < |after| && after[i] == u;
      assert users[i] in users;
    }
  }

  /** The podcasts whose id is in `ids` carry the new image; every other
      podcast is as in `before`. */
  predicate PatchedFor(podcasts: seq<Podcast>, before: seq<Podcast>, ids: set<Id>, imageUrl: string)
  {
    && |podcasts| == |before|
    && forall j :: 0 <= j < |podcasts| ==>
         podcasts[j] == if before[j].id in ids then before[j].(authorImageUrl := imageUrl) else before[j]
  }

  /** One more `ctx.db.patch(id, { authorImageUrl })` adds `id` to the
      patched ids. */
  lemma PatchOneMore(podcasts: seq<Podcast>, before: seq<Podcast>, ids: set<Id>, id: Id, imageUrl: string)
    requires PatchedFor(podcasts, before, ids, imageUrl)
    ensures PatchedFor(PatchAuthorImage(podcasts, id, imageUrl), before, ids + {id}, imageUrl)
  {
    assert forall j :: 0 <= j < |podcasts| ==> podcasts[j].id == before[j].id;
  }

  /** Patching the ids of the author's podcasts is giving that author's
      podcasts the new image. */
  lemma PatchedAuthorsAreByClerkId(podcasts: seq<Podcast>, before: seq<Podcast>, clerkId: string, imageUrl: string)
    requires PodcastIdsDistinct(before)
    requires PatchedFor(podcasts, before, IdsOf(Filter(before, IsByAuthor(clerkId))), imageUrl)
    ensures podcasts == WithAuthorImage(before, clerkId, imageUrl)
  {
    forall j | 0 <= j < |before|
      ensures before[j].id in IdsOf(Filter(before, IsByAuthor(clerkId))) <==> before[j].authorId == clerkId
    {
      AuthorIds(before, clerkId, j);
    }
  }

  lemma FilterKeepsIdsDistinct(users: seq<User>, keep: User -> bool)
    requires UserIdsDistinct(users)
    ensures UserIdsDistinct(Filter(users, keep))
  {
    if users != [] {
      var init, last := users[..|users| - 1], users[|users| - 1];
      FilterKeepsIdsDistinct(init, keep);
      forall x | x in Filter(init, keep)
        ensures x.id != last.id
      {
        var a :| 0 <= a < |init| && init[a] == x;
        assert users[a] == x;
      }
    }
  }

  /** The two tables of the deployment. */
  class Database {
    var users: seq<User>
    var podcasts: seq<Podcast>
    /** The `_id` the next inserted user receives. */
    var nextId: Id

    ghost predicate Valid()
      reads this
    {
      && UserIdsDistinct(users)
      && PodcastIdsDistinct(podcasts)
      && forall u :: u in users ==> u.id < nextId
    }

    constructor (users: seq<User>, podcasts: seq<Podcast>)
      requires UserIdsDistinct(users) && PodcastIdsDistinct(podcasts)
      ensures Valid()
      ensures this.users == users && this.podcasts == podcasts
    {
      this.users := users;
      this.podcasts := podcasts;
      nextId := FreshUserId(users);
    }

    /** createUser: inserts one user document with the given fields. */
    method CreateUser(clerkId: string, email: string, imageUrl: string, name: string)
      requires Valid()
      modifies this
      ensures Valid()
      ensures users == old(users) + [User(old(nextId), clerkId, email, imageUrl, name)]
      ensures podcasts == old(podcasts)
      ensures nextId == old(nextId) + 1
    {
      users := users + [User(nextId, clerkId, email, imageUrl, name)];
      nextId := nextId + 1;
    }

    /** updateUser: patches the user's image and email, then gives each of
        the author's podcasts the new image. */
    method UpdateUser(clerkId: string, imageUrl: string, email: string) returns (outcome: Outcome<UserError>)
      requires Valid()
      modifies this
      ensures Valid() && nextId == old(nextId)
      ensures match GetUserById(old(users), clerkId)
        case Failure(e) =>
          outcome == Fail(e) && users == old(users) && podcasts == old(podcasts)
        case Success(_) =>
          && outcome == Pass
          && users == WithProfile(old(users), clerkId, imageUrl, email)
          && podcasts == WithAuthorImage(old(podcasts), clerkId, imageUrl)
    {
      var found := GetUserById(users, clerkId);
      if found.Failure? {
        return Fail(found.error);
      }
      var user := found.value;
      ProfilePatchIsByClerkId(users, clerkId, user, imageUrl, email);
      users := PatchProfile(users, user.id, imageUrl, email);

      var authored := Filter(podcasts, IsByAuthor(clerkId));
      ghost var before := podcasts;
      var k := 0;
      while k < |authored|
        invariant 0 <= k <= |authored|
        invariant users == WithProfile(old(users), clerkId, imageUrl, email) && nextId == old(nextId)
        invariant PatchedFor(podcasts, before, IdsOf(authored[..k]), imageUrl)
      {
        assert authored[..k + 1] == authored[..k] + [authored[k]];
        IdsOfSnoc(authored[..k], authored[k]);
        PatchOneMore(podcasts, before, IdsOf(authored[..k]), authored[k].id, imageUrl);
        podcasts := PatchAuthorImage(podcasts, authored[k].id, imageUrl);
        k := k + 1;
      }
      assert authored[..k] == authored;
      PatchedAuthorsAreByClerkId(podcasts, before, clerkId, imageUrl);
      PatchesKeepIds(old(users), before, clerkId, imageUrl, email, nextId);
      outcome := Pass;
    }

    /** deleteUser: removes the user document with that `clerkId`. */
    method DeleteUser(clerkId: string) returns (outcome: Outcome<UserError>)
      requires Valid()
      modifies this
      ensures Valid() && nextId == old(nextId) && podcasts == old(podcasts)
      ensures match GetUserById(old(users), clerkId)
        case Failure(e) => outcome == Fail(e) && users == old(users)
        case Success(_) => outcome == Pass && users == WithoutUser(old(users), clerkId)
    {
      var found := GetUserById(users, clerkId);
      if found.Failure? {
        return Fail(found.error);
      }
      DeleteIsByClerkId(users, clerkId, found.value);
      FilterKeepsIdsDistinct(users, IdIsNot(found.value.id));
      users := Filter(users, IdIsNot(found.value.id));
      outcome := Pass;
    }
  }
}
