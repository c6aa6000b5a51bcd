// The RealWorld repositories: users indexed by email and by id, the session
// tokens, and the articles by slug. Each is an object whose maps the methods
// update in place; users are shared objects, so a token written on a user is
// seen through both of its indexes.
module RealWorldRepos {
  import opened Outcomes
  import opened MapIteration
  import opened RealWorldText

  /** entities.User as a value: what a copy of the struct holds. */
  datatype UserValue = UserValue(id: string, email: string, username: string, password: string,
                                 bio: string, image: string, createdAt: int, updatedAt: int,
                                 token: string, following: bool)

  const ZeroUser := UserValue("", "", "", "", "", "", 0, 0, "", false)

  /** entities.User behind a pointer. Only the token is ever written after
      the user is built; an update builds a new user. */
  class User {
    const id: string
    const email: string
    const username: string
    const password: string
    const bio: string
    const image: string
    const createdAt: int
    const updatedAt: int
    var token: string
    const following: bool

    constructor (value: UserValue)
      ensures Value() == value
    {
      id := value.id;
      email := value.email;
      username := value.username;
      password := value.password;
      bio := value.bio;
      image := value.image;
      createdAt := value.createdAt;
      updatedAt := value.updatedAt;
      token := value.token;
      following := value.following;
    }

    /** *user: a copy of the fields. */
    function Value(): UserValue
      reads this
    {
      UserValue(id, email, username, password, bio, image, createdAt, updatedAt, token, following)
    }
  }

  /** The user under the key, or nil. */
  function Lookup<K>(m: map<K, User>, key: K): (r: Option<User>)
    ensures r.Some? <==> key in m
    ensures r.Some? ==> r.value == m[key]
  {
    if key in m then Some(m[key]) else None
  }

  /** UpdateUser on one index: the old key goes, then the new user is
      stored under the new key. */
  function Reindex(m: map<string, User>, oldKey: string, newKey: string, u: User): map<string, User> {
    (m - {oldKey})[newKey := u]
  }

  /** After reindexing, the new key holds the new user, the old key is gone
      unless it is the new key too, and every other key is untouched. */
  lemma ReindexMeaning(m: map<string, User>, oldKey: string, newKey: string, u: User)
    ensures var r := Reindex(m, oldKey, newKey, u);
            && newKey in r && r[newKey] == u
            && (oldKey != newKey ==> oldKey !in r)
            && (forall k :: k != oldKey && k != newKey ==> (k in r <==> k in m) && (k in m ==> r[k] == m[k]))
  {
  }

  class UserDbRepository {
    var users: map<string, User>
    var usersById: map<string, User>

    constructor ()
      ensures users == map[] && usersById == map[]
    {
      users := map[];
      usersById := map[];
    }

    /** AddUser: a new user, with the id and the two clock readings given,
        stored under its email and under its id. */
    method AddUser(email: string, username: string, password: string, id: string, createdAt: int, updatedAt: int)
      returns (user: User)
      modifies this
      ensures fresh(user)
      ensures user.Value() == ZeroUser.(id := id, email := email, username := username, password := password,
                                        createdAt := createdAt, updatedAt := updatedAt)
      ensures users == old(users)[email := user] && usersById == old(usersById)[id := user]
    {
      user := new User(ZeroUser.(id := id, email := email, username := username, password := password,
                                 createdAt := createdAt, updatedAt := updatedAt));
      users := users[user.email := user];
      usersById := usersById[user.id := user];
    }

    method GetUserByEmail(email: string) returns (user: Option<User>)
      ensures user == Lookup(users, email)
    {
      if email in users {
        return Some(users[email]);
      }
      return None;
    }

    method GetUserById(id: string) returns (user: Option<User>)
      ensures user == Lookup(usersById, id)
    {
      if id in usersById {
        return Some(usersById[id]);
      }
      return None;
    }

    method IsUserExists(email: string) returns (found: bool)
      ensures found <==> email in users
    {
      found := email in users;
    }

    /** UpdateUser: the old user's email and id keys go, and the new user
        is stored under its own. */
    method UpdateUser(oldUser: User, newUser: User)
      modifies this
      ensures users == Reindex(old(users), oldUser.email, newUser.email, newUser)
      ensures usersById == Reindex(old(usersById), oldUser.id, newUser.id, newUser)
    {
      users := users - {oldUser.email};
      usersById := usersById - {oldUser.id};
      users := users[newUser.email := newUser];
      usersById := usersById[newUser.id := newUser];
    }
  }

  /** The user id bound to the token, "" for an unknown token. */
  function SessionUser(sessions: map<string, string>, token: string): (userId: string)
    ensures token in sessions ==> userId == sessions[token]
    ensures token !in sessions ==> userId == ""
  {
    if token in sessions then sessions[token] else ""
  }

  class SessionManager {
    var sessions: map<string, string>

    constructor ()
      ensures sessions == map[]
    {
      sessions := map[];
    }

    /** AddSession: the token made of the random bytes is bound to the
        user id and returned. */
    method AddSession(userId: string, random: seq<Byte>) returns (token: string)
      requires |random| == 32
      modifies this
      ensures token == Token(random)
      ensures sessions == old(sessions)[token := userId]
    {
      token := Token(random);
      sessions := sessions[token := userId];
    }

    method GetAuthenticatedUser(token: string) returns (userId: string)
      ensures userId == SessionUser(sessions, token)
    {
      if token in sessions {
        return sessions[token];
      }
      return "";
    }

    method UpdateSession(token: string, userId: string)
      modifies this
      ensures sessions == old(sessions)[token := userId]
    {
      sessions := sessions[token := userId];
    }

    method DeleteSession(token: string)
      modifies this
      ensures sessions == old(sessions) - {token}
    {
      sessions := sessions - {token};
    }
  }

  /** A session added under a fresh token leaves every other binding as it
      was; deleting one removes only that binding. */
  lemma SessionsAddDelete(sessions: map<string, string>, token: string, userId: string)
    ensures forall t :: t != token ==> SessionUser(sessions[token := userId], t) == SessionUser(sessions, t)
    ensures SessionUser(sessions[token := userId], token) == userId
    ensures SessionUser(sessions - {token}, token) == ""
    ensures forall t :: t != token ==> SessionUser(sessions - {token}, t) == SessionUser(sessions, t)
  {
  }

  /** entities.Article, fields as the repository sets them. */
  datatype Article = Article(slug: string, title: string, description: string, body: string,
                             tagList: seq<string>, createdAt: int, updatedAt: int, author: UserValue)

  /** The article AddArticle builds at time `now`: slug from the title,
      created and updated at the same instant, and an author copy that keeps
      only the username and the bio. */
  function NewArticle(title: string, description: string, body: string, tagList: seq<string>,
                      author: UserValue, now: int): (a: Article)
    ensures a.slug == Slug(title) && a.title == title && a.description == description
    ensures a.body == body && a.tagList == tagList
    ensures a.createdAt == a.updatedAt == now
    ensures a.author.username == author.username && a.author.bio == author.bio
    ensures a.author.(username := "", bio := "") == ZeroUser
  {
    Article(Slug(title), title, description, body, tagList, now, now,
            ZeroUser.(bio := author.bio, username := author.username))
  }

  /** GetArticles' filter: a non-empty author must be the username, a
      non-empty tag must be in the tag list. */
  predicate Matches(a: Article, author: string, tag: string) {
    (|author| == 0 || a.author.username == author) && (|tag| == 0 || tag in a.tagList)
  }

  /** The matching articles, visiting the slugs in `order`. */
  function Selected(articles: map<string, Article>, order: seq<string>, author: string, tag: string): seq<Article>
    requires forall i :: 0 <= i < |order| ==> order[i] in articles
  {
    if |order| == 0 then []
    else
      var before := Selected(articles, order[..|order| - 1], author, tag);
      var a := articles[order[|order| - 1]];
      if Matches(a, author, tag) then before + [a] else before
  }

  /** An article is listed exactly when it is stored under a visited slug
      and matches the filters. */
  lemma {:induction false} SelectedMeaning(articles: map<string, Article>, order: seq<string>, author: string, tag: string)
    requires forall i :: 0 <= i < |order| ==> order[i] in articles
    ensures forall a :: a in Selected(articles, order, author, tag) <==>
              Matches(a, author, tag) && exists i :: 0 <= i < |order| && articles[order[i]] == a
    decreases |order|
  {
    if |order| > 0 {
      var prefix := order[..|order| - 1];
      SelectedMeaning(articles, prefix, author, tag);
      assert forall i :: 0 <= i < |prefix| ==> prefix[i] == order[i];
    }
  }

  /** With both filters empty every visited article is listed, in order. */
  lemma {:induction false} SelectedAll(articles: map<string, Article>, order: seq<string>)
    requires forall i :: 0 <= i < |order| ==> order[i] in articles
    ensures |Selected(articles, order, "", "")| == |order|
    ensures forall i :: 0 <= i < |order| ==> Selected(articles, order, "", "")[i] == articles[order[i]]
    decreases |order|
  {
    if |order| > 0 {
      SelectedAll(articles, order[..|order| - 1]);
    }
  }

  class ArticlesDbRepository {
    var articles: map<string, Article>

    constructor ()
      ensures articles == map[]
    {
      articles := map[];
    }

    /** AddArticle: the new article is stored under its slug, replacing any
        article with the same slug. */
    method AddArticle(title: string, description: string, body: string, tagList: seq<string>,
                      author: UserValue, now: int) returns (article: Article)
      modifies this
      ensures article == NewArticle(title, description, body, tagList, author, now)
      ensures articles == old(articles)[article.slug := article]
    {
      var slug := Slug(title);
      article := Article(slug, title, description, body, tagList, now, now,
                         ZeroUser.(bio := author.bio, username := author.username));
      articles := articles[slug := article];
    }

    /** The scan of an article's tags for the requested one. */
    static method TagListed(tags: seq<string>, tag: string) returns (found: bool)
      ensures found <==> tag in tags
    {
      found := false;
      var i := 0;
      while i < |tags|
        invariant 0 <= i <= |tags|
        invariant found <==> tag in tags[..i]
      {
        if tags[i] == tag {
          found := true;
          break;
        }
        i := i + 1;
      }
      assert found || tags[..i] == tags;
    }

    /** GetArticles: the stored articles that match, in the map's order. */
    method GetArticles(author: string, tag: string) returns (list: seq<Article>, ghost order: seq<string>)
      ensures Enumerates(order, articles.Keys)
      ensures list == Selected(articles, order, author, tag)
    {
      list := [];
      order := [];
      var rest := articles.Keys;
      while rest != {}
        invariant rest <= articles.Keys
        invariant forall i :: 0 <= i < |order| ==> order[i] in articles && order[i] !in rest
        invariant forall k :: k in articles ==> k in rest || k in order
        invariant forall i, j :: 0 <= i < j < |order| ==> order[i] != order[j]
        invariant list == Selected(articles, order, author, tag)
        decreases |rest|
      {
        var slug := Pick(rest);
        var article := articles[slug];
        ghost var before := order;
        order := order + [slug];
        rest := rest - {slug};
        assert order[..|before|] == before;
        assert Selected(articles, order, author, tag) ==
          Selected(articles, before, author, tag) + (if Matches(article, author, tag) then [article] else []);
        if |author| != 0 && article.author.username != author {
          continue;
        }
        if |tag| != 0 {
          var found := TagListed(article.tagList, tag);
          if !found {
            continue;
          }
        }
        list := list + [article];
      }
    }
  }
}
