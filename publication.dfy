/**
 * The publication dashboard of a channel: the list of egress processes, the
 * viewer and bandwidth counters, the start/stop/restart orders, the route of
 * a service's edit page, and the Facebook live comments and reaction
 * counters fetched for an egress on demand.
 *
 * Every answer of the restreamer API and of the Facebook SDK is a parameter:
 * the model covers one step of the dashboard, not the timers that repeat it.
 */
module Publication {
  import opened Wrappers
  import opened JsBuiltins

  // ---------------------------------------------------------------------
  // Egress list and session counters
  // ---------------------------------------------------------------------

  datatype Progress = Progress(state: string, order: string, reconnect: int)

  /** A process as the API lists it; `other` stands for any further fields it carries. */
  datatype Process = Process(
    id: string, name: string, service: string, index: int, progress: Progress,
    socialLiveVideoId: Option<string>, profileId: Option<string>, other: map<string, string>)

  /** The dashboard's record of one egress. */
  datatype Egress = Egress(
    id: string, name: string, service: string, index: int, progress: Progress,
    socialLiveVideoId: Option<string>, profileId: Option<string>)

  /** The `for…of` loop of `update`: one record per process, in the same order, copying seven fields. */
  method EgressesOf(processes: seq<Process>) returns (egresses: seq<Egress>)
    ensures |egresses| == |processes|
    ensures forall i :: 0 <= i < |processes| ==>
      var p, e := processes[i], egresses[i];
      && e.id == p.id && e.name == p.name && e.service == p.service && e.index == p.index
      && e.progress == p.progress && e.socialLiveVideoId == p.socialLiveVideoId
      && e.profileId == p.profileId
  {
    egresses := [];
    for i := 0 to |processes|
      invariant |egresses| == i
      invariant forall j :: 0 <= j < i ==>
        var p, e := processes[j], egresses[j];
        && e.id == p.id && e.name == p.name && e.service == p.service && e.index == p.index
        && e.progress == p.progress && e.socialLiveVideoId == p.socialLiveVideoId
        && e.profileId == p.profileId
    {
      var p := processes[i];
      egresses := egresses + [Egress(p.id, p.name, p.service, p.index, p.progress, p.socialLiveVideoId, p.profileId)];
    }
  }

  /** What `CurrentSessions` answers. */
  datatype CurrentSessions = CurrentSessions(sessions: int, bitrateKbit: int)

  datatype SessionStats = SessionStats(viewer: int, bandwidth: int)

  // ---------------------------------------------------------------------
  // Orders
  // ---------------------------------------------------------------------

  /** A call into the restreamer API. */
  datatype Call = StartEgress(channelId: string, egressId: string) | StopEgress(channelId: string, egressId: string)

  // ---------------------------------------------------------------------
  // Live comments
  // ---------------------------------------------------------------------

  datatype PictureData = PictureData(url: Option<string>)
  datatype Picture = Picture(data: Option<PictureData>)
  datatype Author = Author(name: string, id: string, picture: Option<Picture>)

  /** A comment as the Graph API returns it; `createdMs` is `created_time` in milliseconds. */
  datatype RawComment = RawComment(id: string, message: string, from: Option<Author>, createdMs: int)

  /** A stored comment: the fetched one together with its author's picture URL. */
  datatype Comment = Comment(raw: RawComment, picture: string)


  /** `item.from?.picture?.data?.url || ''` */
  function PictureUrl(c: RawComment): (url: string)
    ensures url != "" ==>
      && c.from.Some? && c.from.value.picture.Some? && c.from.value.picture.value.data.Some?
      && c.from.value.picture.value.data.value.url == Some(url)
    ensures c.from.Some? && c.from.value.picture.Some? && c.from.value.picture.value.data.Some?
            && c.from.value.picture.value.data.value.url.Some? ==>
      url == c.from.value.picture.value.data.value.url.value
  {
    match c.from
    case None => ""
    case Some(author) =>
      match author.picture
      case None => ""
      case Some(picture) =>
        match picture.data
        case None => ""
        case Some(data) =>
          match data.url
          case None => ""
          case Some(u) => u
  }

  /** The `map` over the fetched comments: each one keeps its fields and gains `picture`. */
  function WithPictures(items: seq<RawComment>): (r: seq<Comment>)
    ensures |r| == |items|
    ensures forall i :: 0 <= i < |items| ==> r[i].raw == items[i] && r[i].picture == PictureUrl(items[i])
  {
    seq(|items|, i requires 0 <= i < |items| => Comment(items[i], PictureUrl(items[i])))
  }

  /** A comment page: `data` and `summary?.total_count`; an error answer is `{data: []}` with no summary. */
  datatype CommentPage = CommentPage(data: seq<RawComment>, totalCount: Option<int>)

  /** A reaction page: `summary?.total_count`. */
  datatype ReactionPage = ReactionPage(totalCount: Option<int>)

  datatype ReactionStatistic = ReactionStatistic(likes: int, comments: int)

  /** `total || 0`: an absent count, like a zero one, reads as 0. */
  function CountOrZero(total: Option<int>): (n: int)
    ensures total.Some? ==> n == total.value
    ensures total.None? ==> n == 0
  {
    match total
    case Some(t) => t
    case None => 0
  }

  /**
   * The `since` cursor: 0 when nothing is stored, otherwise one second past
   * the creation second of the last stored comment.
   */
  function Cursor(stored: seq<Comment>): (since: int)
    ensures stored == [] ==> since == 0
    ensures stored != [] ==>
      (since - 1) * 1000 <= stored[|stored| - 1].raw.createdMs < since * 1000
  {
    if stored == [] then 0 else stored[|stored| - 1].raw.createdMs / 1000 + 1
  }

  // ---------------------------------------------------------------------
  // The comment store `$comments`: video id -> comments, in insertion order
  // ---------------------------------------------------------------------

  datatype Thread = Thread(videoId: string, comments: seq<Comment>)

  /** The properties of the `$comments` object, in property order. */
  type Store = seq<Thread>

  /** `Object.keys($comments)` */
  function KeysOf(st: Store): (keys: seq<string>)
    ensures |keys| == |st|
    ensures forall i :: 0 <= i < |st| ==> keys[i] == st[i].videoId
  {
    seq(|st|, i requires 0 <= i < |st| => st[i].videoId)
  }

  /** An object has each property once. */
  ghost predicate UniqueKeys(st: Store) {
    forall i, j :: 0 <= i < j < |st| ==> st[i].videoId != st[j].videoId
  }

  /** `$comments[key]`: the first property of that name, if any. */
  function Lookup(st: Store, key: string): (r: Option<seq<Comment>>)
    ensures r.Some? <==> key in KeysOf(st)
    ensures r.Some? ==> exists i :: 0 <= i < |st| && st[i].videoId == key && st[i].comments == r.value
  {
    if st == [] then None
    else if st[0].videoId == key then Some(st[0].comments)
    else Lookup(st[1..], key)
  }

  /** `$comments[key] || []` */
  function StoredComments(st: Store, key: string): (r: seq<Comment>)
    ensures Lookup(st, key).Some? ==> r == Lookup(st, key).value
    ensures Lookup(st, key).None? ==> r == []
  {
    match Lookup(st, key)
    case Some(c) => c
    case None => []
  }

  /**
   * `{...$comments, [key]: value}`: an existing property keeps its place and
   * takes the new value, a new one goes last; no other property changes.
   */
  function Put(st: Store, key: string, value: seq<Comment>): (r: Store)
    ensures Lookup(r, key) == Some(value)
  {
    if st == [] then [Thread(key, value)]
    else if st[0].videoId == key then [Thread(key, value)] + st[1..]
    else [st[0]] + Put(st[1..], key, value)
  }

  /** No other property changes. */
  lemma {:induction false} PutOthers(st: Store, key: string, value: seq<Comment>, k: string)
    requires k != key
    ensures Lookup(Put(st, key, value), k) == Lookup(st, k)
  {
    if st != [] && st[0].videoId != key {
      PutOthers(st[1..], key, value, k);
      assert Put(st, key, value)[1..] == Put(st[1..], key, value);
    } else if st != [] {
      assert Put(st, key, value)[1..] == st[1..];
    }
  }

  /** An existing property keeps its place, a new one goes last. */
  lemma {:induction false} PutKeys(st: Store, key: string, value: seq<Comment>)
    ensures KeysOf(Put(st, key, value)) == if key in KeysOf(st) then KeysOf(st) else KeysOf(st) + [key]
  {
    var r := Put(st, key, value);
    if st == [] {
      assert KeysOf(r) == [key];
    } else if st[0].videoId == key {
      assert r[0].videoId == key && r[1..] == st[1..];
      assert KeysOf(st)[0] == key;
    } else {
      var p := Put(st[1..], key, value);
      var ks := KeysOf(st[1..]);
      PutKeys(st[1..], key, value);
      assert r[0] == st[0] && r[1..] == p;
      KeysOfCons(r);
      KeysOfCons(st);
      var x := st[0].videoId;
      InCons(x, ks, key);
      if key in ks {
        assert KeysOf(p) == ks;
        assert KeysOf(r) == KeysOf(st);
      } else {
        assert KeysOf(p) == ks + [key];
        ConsSnoc(x, ks, key);
      }
    }
  }

  lemma ConsSnoc<T>(x: T, xs: seq<T>, y: T)
    ensures [x] + (xs + [y]) == ([x] + xs) + [y]
  {
  }

  lemma InCons(x: string, ks: seq<string>, key: string)
    requires x != key
    ensures key in [x] + ks <==> key in ks
  {
  }

  lemma KeysOfCons(st: Store)
    requires st != []
    ensures KeysOf(st) == [st[0].videoId] + KeysOf(st[1..])
  {
  }

  /** Storing keeps each property unique. */
  lemma PutKeepsUniqueKeys(st: Store, key: string, value: seq<Comment>)
    requires UniqueKeys(st)
    ensures UniqueKeys(Put(st, key, value))
  {
    var r := Put(st, key, value);
    PutKeys(st, key, value);
    forall i, j | 0 <= i < j < |r| ensures r[i].videoId != r[j].videoId {
      assert KeysOf(r)[i] == r[i].videoId && KeysOf(r)[j] == r[j].videoId;
      if key !in KeysOf(st) && j == |st| {
        assert KeysOf(st)[i] == st[i].videoId;
      } else {
        assert KeysOf(st)[i] == st[i].videoId && KeysOf(st)[j] == st[j].videoId;
      }
    }
  }

  /** `Object.values($comments).filter((items) => items.length)`: the threads shown, in store order. */
  function NonEmptyThreads(st: Store): (r: seq<seq<Comment>>)
    ensures |r| <= |st|
    ensures forall l :: l in r ==> l != []
    ensures forall i :: 0 <= i < |st| && st[i].comments != [] ==> st[i].comments in r
    ensures forall l :: l in r ==> exists i :: 0 <= i < |st| && st[i].comments == l
  {
    if st == [] then []
    else (if st[0].comments != [] then [st[0].comments] else []) + NonEmptyThreads(st[1..])
  }

  /** Filtering keeps the store's order. */
  lemma {:induction false} NonEmptyThreadsAppend(a: Store, b: Store)
    ensures NonEmptyThreads(a + b) == NonEmptyThreads(a) + NonEmptyThreads(b)
  {
    if a == [] {
      assert a + b == b;
    } else {
      var ab := a + b;
      assert ab != [] && ab[0] == a[0] && ab[1..] == a[1..] + b;
      var head := if a[0].comments != [] then [a[0].comments] else [];
      assert NonEmptyThreads(ab) == head + NonEmptyThreads(a[1..] + b);
      NonEmptyThreadsAppend(a[1..], b);
      AppendAssoc(head, NonEmptyThreads(a[1..]), NonEmptyThreads(b));
    }
  }

  lemma AppendAssoc<T>(x: seq<T>, y: seq<T>, z: seq<T>)
    ensures x + (y + z) == (x + y) + z
  {
  }

  /**
   * Storing `value` under `key` changes the number of threads shown by one
   * at most: the old thread leaves the view if it was shown, the new one
   * enters it unless empty.
   */
  lemma {:induction false} PutShownCount(st: Store, key: string, value: seq<Comment>)
    requires UniqueKeys(st)
    ensures |NonEmptyThreads(Put(st, key, value))|
         == |NonEmptyThreads(st)| - (if StoredComments(st, key) != [] then 1 else 0) + (if value != [] then 1 else 0)
  {
    if st != [] && st[0].videoId != key {
      assert UniqueKeys(st[1..]) by {
        forall i, j | 0 <= i < j < |st[1..]| ensures st[1..][i].videoId != st[1..][j].videoId {
          assert st[1..][i] == st[i + 1] && st[1..][j] == st[j + 1];
        }
      }
      PutShownCount(st[1..], key, value);
      assert StoredComments(st, key) == StoredComments(st[1..], key);
      assert Put(st, key, value)[1..] == Put(st[1..], key, value);
    } else if st != [] {
      assert Put(st, key, value)[1..] == st[1..];
    }
  }

  /**
   * A fetch that brings nothing (the error answer `{data: []}` included)
   * leaves every thread as it was and the view unchanged.
   */
  lemma {:induction false} EmptyFetchKeepsView(st: Store, key: string)
    ensures forall k :: StoredComments(Put(st, key, StoredComments(st, key) + WithPictures([])), k) == StoredComments(st, k)
    ensures NonEmptyThreads(Put(st, key, StoredComments(st, key) + WithPictures([]))) == NonEmptyThreads(st)
  {
    var v := StoredComments(st, key) + WithPictures([]);
    assert v == StoredComments(st, key);
    forall k ensures StoredComments(Put(st, key, v), k) == StoredComments(st, k) {
      if k != key {
        PutOthers(st, key, v, k);
      }
    }
    PutSameView(st, key);
  }

  lemma {:induction false} PutSameView(st: Store, key: string)
    ensures NonEmptyThreads(Put(st, key, StoredComments(st, key))) == NonEmptyThreads(st)
  {
    if st == [] {
    } else if st[0].videoId == key {
      assert Put(st, key, StoredComments(st, key)) == st;
    } else {
      PutSameView(st[1..], key);
      assert StoredComments(st, key) == StoredComments(st[1..], key);
      assert Put(st, key, StoredComments(st, key))[1..] == Put(st[1..], key, StoredComments(st[1..], key));
    }
  }

  /** What one call of the fetch handler did. */
  datatype FetchOutcome =
    | Skipped
    | Cleared
    | LoginFailed
    | Fetched(loginRequested: bool, since: int)

  // ---------------------------------------------------------------------
  // The dashboard
  // ---------------------------------------------------------------------

  const PlayerService := "player"

  /** The segments of a service's edit route. */
  function RouteSegments(channelId: string, service: string, index: int): (parts: seq<string>)
    ensures |parts| == if service != PlayerService then 5 else 4
    ensures parts[..4] == ["", channelId, "publication", service]
    ensures service != PlayerService ==> parts[4] == IntToString(index)
  {
    ["", channelId, "publication", service] + (if service != PlayerService then [IntToString(index)] else [])
  }

  class Dashboard {
    const channelId: string
    var egresses: seq<Egress>
    var comments: Store
    var reactionStatistic: ReactionStatistic
    var session: SessionStats

    ghost predicate Valid()
      reads this
    {
      UniqueKeys(comments)
    }

    constructor (channelId: string)
      ensures Valid()
      ensures this.channelId == channelId
      ensures egresses == [] && comments == []
      ensures reactionStatistic == ReactionStatistic(0, 0) && session == SessionStats(0, 0)
    {
      this.channelId := channelId;
      egresses := [];
      comments := [];
      reactionStatistic := ReactionStatistic(0, 0);
      session := SessionStats(0, 0);
    }

    /** `update`, given what `ListIngestEgresses` answers. */
    method Update(processes: seq<Process>)
      modifies this`egresses
      ensures |egresses| == |processes|
      ensures forall i :: 0 <= i < |processes| ==>
        var p, e := processes[i], egresses[i];
        && e.id == p.id && e.name == p.name && e.service == p.service && e.index == p.index
        && e.progress == p.progress && e.socialLiveVideoId == p.socialLiveVideoId
        && e.profileId == p.profileId
    {
      egresses := EgressesOf(processes);
    }

    /** `sessions`, given what `CurrentSessions` answers. */
    method Sessions(current: CurrentSessions)
      modifies this`session
      ensures session == SessionStats(current.sessions, current.bitrateKbit)
    {
      session := SessionStats(current.sessions, current.bitrateKbit);
    }

    /**
     * `handleServiceEdit`: the route of a service's edit page; every service
     * but the player carries its index as a last segment.
     */
    method EditRoute(service: string, index: int) returns (target: string)
      ensures target == Join(RouteSegments(channelId, service, index), '/')
      ensures '/' !in channelId && '/' !in service ==>
        Split(target, '/') == RouteSegments(channelId, service, index)
    {
      target := "/" + channelId + "/publication/" + service;
      if service != PlayerService {
        target := target + "/" + IntToString(index);
      }
      var parts := RouteSegments(channelId, service, index);
      RouteJoin(channelId, service, index);
      if '/' !in channelId && '/' !in service {
        IntToStringHasNoSlash(index);
        SplitJoin(parts, '/');
      }
    }

    /**
     * `handleOrderChange`: the API calls an order makes, in order, given the
     * answers of `StopEgress` and `StartEgress`, and the result reported.
     */
    method OrderChange(id: string, order: string, stopAnswer: bool, startAnswer: bool)
      returns (res: bool, calls: seq<Call>)
      ensures order == "start" ==> calls == [StartEgress(channelId, id)] && res == startAnswer
      ensures order == "stop" ==> calls == [StopEgress(channelId, id)] && res == stopAnswer
      ensures order == "restart" ==>
        && calls == [StopEgress(channelId, id)] + (if stopAnswer then [StartEgress(channelId, id)] else [])
        && res == (stopAnswer && startAnswer)
      ensures order !in {"start", "stop", "restart"} ==> calls == [] && !res
      ensures StartEgress(channelId, id) in calls ==> order == "start" || (order == "restart" && stopAnswer)
    {
      res := false;
      calls := [];
      if order == "start" {
        calls := calls + [StartEgress(channelId, id)];
        res := startAnswer;
      } else if order == "restart" {
        calls := calls + [StopEgress(channelId, id)];
        res := stopAnswer;
        if res {
          calls := calls + [StartEgress(channelId, id)];
          res := startAnswer;
        }
      } else if order == "stop" {
        calls := calls + [StopEgress(channelId, id)];
        res := stopAnswer;
      }
    }

    /**
     * `handleFetchComments(socialLiveVideoId, profileId)(reset)`.  The SDK's
     * answers are parameters: whether the user is logged in, whether
     * accounts are known, whether a login asked for succeeds (a rejected
     * login ends the handler before any state is set), the access token
     * `GetFbAccountAccessToken` gives after it, and the pages
     * `getLiveComment` and `getLiveReactions` answer.
     */
    method FetchComments(
      socialLiveVideoId: Option<string>, profileId: Option<string>, reset: bool,
      isLogged: bool, hasAccounts: bool, loginSucceeds: bool,
      accessTokenFor: string -> string,
      getLiveComment: (string, string, int) -> CommentPage,
      getLiveReactions: (string, string) -> ReactionPage)
      returns (outcome: FetchOutcome)
      requires Valid()
      modifies this`comments, this`reactionStatistic
      ensures Valid()
      ensures !Truthy(socialLiveVideoId) || !Truthy(profileId) ==>
        outcome == Skipped && comments == old(comments) && reactionStatistic == old(reactionStatistic)
      ensures Truthy(socialLiveVideoId) && Truthy(profileId) && reset ==>
        && outcome == Cleared
        && comments == Put(old(comments), socialLiveVideoId.value, [])
        && reactionStatistic == old(reactionStatistic)
      ensures Truthy(socialLiveVideoId) && Truthy(profileId) && !reset && (!isLogged || !hasAccounts) && !loginSucceeds ==>
        outcome == LoginFailed && comments == old(comments) && reactionStatistic == old(reactionStatistic)
      ensures Truthy(socialLiveVideoId) && Truthy(profileId) && !reset && ((isLogged && hasAccounts) || loginSucceeds) ==>
        var vid := socialLiveVideoId.value;
        var token := accessTokenFor(profileId.value);
        var stored := StoredComments(old(comments), vid);
        var page := getLiveComment(vid, token, Cursor(stored));
        && outcome == Fetched(!isLogged || !hasAccounts, Cursor(stored))
        && comments == Put(old(comments), vid, stored + WithPictures(page.data))
        && reactionStatistic == ReactionStatistic(
             CountOrZero(getLiveReactions(vid, token).totalCount), CountOrZero(page.totalCount))
    {
      if !Truthy(socialLiveVideoId) || !Truthy(profileId) {
        return Skipped;
      }
      var vid := socialLiveVideoId.value;
      if reset {
        PutKeepsUniqueKeys(comments, vid, []);
        comments := Put(comments, vid, []);
        return Cleared;
      }
      var loginRequested := !isLogged || !hasAccounts;
      if loginRequested && !loginSucceeds {
        return LoginFailed;
      }
      var token := accessTokenFor(profileId.value);
      var current := StoredComments(comments, vid);
      var since := Cursor(current);
      var result := getLiveComment(vid, token, since);
      var reactions := getLiveReactions(vid, token);
      var fetched := WithPictures(result.data);
      PutKeepsUniqueKeys(comments, vid, current + fetched);
      comments := Put(comments, vid, current + fetched);
      reactionStatistic := ReactionStatistic(CountOrZero(reactions.totalCount), CountOrZero(result.totalCount));
      outcome := Fetched(loginRequested, since);
    }
  }

  lemma RouteJoin(channelId: string, service: string, index: int)
    ensures Join(RouteSegments(channelId, service, index), '/')
         == "/" + channelId + "/publication/" + service
            + (if service != PlayerService then "/" + IntToString(index) else "")
  {
    var parts := RouteSegments(channelId, service, index);
    var tail := if service != PlayerService then "/" + IntToString(index) else "";
    assert Join(parts[3..], '/') == service + tail by {
      if service != PlayerService {
        assert parts[3..][1..] == [IntToString(index)];
      } else {
        assert parts[3..] == [service];
      }
    }
    assert parts[2..][1..] == parts[3..];
    assert Join(parts[2..], '/') == "publication" + "/" + service + tail;
    assert parts[1..][1..] == parts[2..];
    assert Join(parts[1..], '/') == channelId + "/" + "publication" + "/" + service + tail;
  }

  lemma IntToStringHasNoSlash(i: int)
    ensures '/' !in IntToString(i)
  {
  }
}
