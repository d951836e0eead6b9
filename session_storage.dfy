/**
 * Session storage backends (agent/session_storage.py): an S3 bucket of `<prefix><id>.jsonl`
 * objects and a local directory of `<id>.jsonl` files, both read through the transcript helpers
 * of module Transcript. The bucket and the directory are maps held by the backend objects; the
 * clock is a `now` parameter, timestamps are abstract integers, and a listing's pages are
 * handed in as the responses the bucket returned.
 */
module SessionStorage {
  import opened Wrappers
  import opened Text
  import Json
  import Transcript
  import Config

  const SessionSuffix: string := ".jsonl"
  const DefaultPrefix: string := "sessions/"

  /** `prefix.rstrip("/") + "/" if prefix else ""`: trailing slashes become exactly one. */
  function NormalizePrefix(prefix: string): (p: string)
    ensures p == [] <==> prefix == []
    ensures p != [] ==> p[|p| - 1] == '/' && (|p| == 1 || p[|p| - 2] != '/')
    ensures p != [] ==> |p| - 1 <= |prefix| && p[..|p| - 1] == prefix[..|p| - 1]
    ensures p != [] ==> forall i :: |p| - 1 <= i < |prefix| ==> prefix[i] == '/'
  {
    if prefix == [] then [] else TrimRightChar(prefix, '/') + "/"
  }

  /** Normalising an already normalised prefix changes nothing. */
  lemma NormalizePrefixIdempotent(prefix: string)
    ensures NormalizePrefix(NormalizePrefix(prefix)) == NormalizePrefix(prefix)
  {
    var p := NormalizePrefix(prefix);
    if p != [] {
      var t := p[..|p| - 1];
      assert p == t + "/";
      assert p[..|p| - 1] == t;
      assert TrimRightChar(t, '/') == t;
    }
  }

  /** `_get_key`. */
  function GetKey(prefix: string, id: string): (key: string)
    ensures StartsWith(key, prefix) && EndsWith(key, SessionSuffix)
  {
    prefix + id + SessionSuffix
  }

  /** The session id `list_sessions` reads off an object key: drop the prefix, cut at the last ".jsonl". */
  function IdFromKey(prefix: string, key: string): (id: string)
    ensures |id| <= |key|
  {
    var filename := if StartsWith(key, prefix) then key[|prefix|..] else key;
    BeforeLast(filename, SessionSuffix)
  }

  /** Listing recovers the id a session was stored under, whatever the id and the prefix contain. */
  lemma KeyRoundTrip(prefix: string, id: string)
    ensures IdFromKey(prefix, GetKey(prefix, id)) == id
  {
    var key := GetKey(prefix, id);
    assert key[|prefix|..] == id + SessionSuffix;
    BeforeLastOfSuffix(id, SessionSuffix);
  }

  /** Different sessions never share an object. */
  lemma GetKeyInjective(prefix: string, id1: string, id2: string)
    requires GetKey(prefix, id1) == GetKey(prefix, id2)
    ensures id1 == id2
  {
    KeyRoundTrip(prefix, id1);
    KeyRoundTrip(prefix, id2);
  }

  /** `title or session_id[:8] + "..."`: the title a listing shows. */
  function ListingTitle(title: Option<string>, id: string): (t: string)
    ensures t != []
    ensures title.Some? && title.value != [] ==> t == title.value
    ensures (title.None? || title.value == []) ==>
      && |t| == (if |id| < 8 then |id| else 8) + 3
      && t[..|t| - 3] == id[..|t| - 3] && t[|t| - 3..] == "..."
  {
    if title.Some? && title.value != [] then title.value else Take(id, 8) + "..."
  }

  datatype SessionData = SessionData(
    sessionId: string,
    messages: seq<Json.Value>,
    title: Option<string>,
    createdAt: Option<int>,
    modifiedAt: Option<int>,
    rawContent: string)

  datatype SessionInfo = SessionInfo(
    sessionId: string,
    title: string,
    createdAt: Option<int>,
    modifiedAt: Option<int>,
    storagePath: string)

  /**
   * The `SessionData` built from a transcript: its messages (whose parse may raise), then its
   * title with the default length.
   */
  function SessionDataOf(id: string, content: string, created: Option<int>, modified: Option<int>,
                         decode: Transcript.Decoder): Result<SessionData, Transcript.ParseError>
  {
    match Transcript.MessagesOf(content, decode)
    case Failure(e) => Failure(e)
    case Success(messages) =>
      Success(SessionData(id, messages, Transcript.TitleOf(content, Transcript.DefaultTitleLength, decode),
                          created, modified, content))
  }

  method ReadSessionData(id: string, content: string, created: Option<int>, modified: Option<int>,
                         decode: Transcript.Decoder) returns (r: Result<SessionData, Transcript.ParseError>)
    ensures r.Success? <==> Transcript.MessagesOf(content, decode).Success?
    ensures r.Success? ==>
      && r.value.messages == Transcript.MessagesOf(content, decode).value
      && r.value.title == Transcript.TitleOf(content, Transcript.DefaultTitleLength, decode)
      && r.value.sessionId == id && r.value.rawContent == content
      && r.value.createdAt == created && r.value.modifiedAt == modified
    ensures r == SessionDataOf(id, content, created, modified, decode)
  {
    var messages := Transcript.ParseMessagesFromContent(content, decode);
    if messages.Failure? {
      return Failure(messages.error);
    }
    var title := Transcript.ExtractTitleFromContent(content, Transcript.DefaultTitleLength, decode);
    return Success(SessionData(id, messages.value, title, created, modified, content));
  }

  /** A getter's result: a missing session is `None`, a transcript that makes parsing raise is a failure. */
  function Found(r: Result<SessionData, Transcript.ParseError>): Result<Option<SessionData>, Transcript.ParseError> {
    match r
    case Success(d) => Success(Some(d))
    case Failure(e) => Failure(e)
  }

  // ---------------------------------------------------------------------------------------------
  // Listing order

  /** `a` sorts no later than `b` under "most recent first"; a missing time sorts last. */
  predicate NewerOrSame(a: Option<int>, b: Option<int>) {
    b.None? || (a.Some? && a.value >= b.value)
  }

  predicate NewestFirst(s: seq<SessionInfo>) {
    forall i, j :: 0 <= i < j < |s| ==> NewerOrSame(s[i].modifiedAt, s[j].modifiedAt)
  }

  /** Puts `x` in front of the first entry that is not newer than it, so ties keep `x` first. */
  function InsertNewestFirst(x: SessionInfo, s: seq<SessionInfo>): (r: seq<SessionInfo>)
    ensures |r| == |s| + 1
  {
    if s == [] || NewerOrSame(x.modifiedAt, s[0].modifiedAt) then [x] + s
    else [s[0]] + InsertNewestFirst(x, s[1..])
  }

  lemma {:induction false} InsertPermutation(x: SessionInfo, s: seq<SessionInfo>)
    ensures multiset(InsertNewestFirst(x, s)) == multiset(s) + multiset{x}
  {
    if s != [] && !NewerOrSame(x.modifiedAt, s[0].modifiedAt) {
      InsertPermutation(x, s[1..]);
      assert s == [s[0]] + s[1..];
    }
  }

  lemma {:induction false} InsertSorted(x: SessionInfo, s: seq<SessionInfo>)
    requires NewestFirst(s)
    ensures NewestFirst(InsertNewestFirst(x, s))
  {
    if s != [] && !NewerOrSame(x.modifiedAt, s[0].modifiedAt) {
      var rest := InsertNewestFirst(x, s[1..]);
      InsertSorted(x, s[1..]);
      InsertPermutation(x, s[1..]);
      var r := [s[0]] + rest;
      forall j | 0 <= j < |rest|
        ensures NewerOrSame(s[0].modifiedAt, rest[j].modifiedAt)
      {
        assert rest[j] in multiset(s[1..]) + multiset{x};
        if rest[j] != x {
          assert rest[j] in s[1..];
        }
      }
      ConsNewestFirst(s[0], rest);
    }
  }

  lemma ConsNewestFirst(a: SessionInfo, s: seq<SessionInfo>)
    requires NewestFirst(s)
    requires forall j :: 0 <= j < |s| ==> NewerOrSame(a.modifiedAt, s[j].modifiedAt)
    ensures NewestFirst([a] + s)
  {
    var r := [a] + s;
    forall i, j | 0 <= i < j < |r|
      ensures NewerOrSame(r[i].modifiedAt, r[j].modifiedAt)
    {
      assert r[j] == s[j - 1];
      if i > 0 {
        assert r[i] == s[i - 1];
      }
    }
  }

  /**
   * `sessions.sort(key=modified, reverse=True)` on the list built so far, as a value: Python's
   * sort is stable, so sessions with the same time keep their order.
   */
  function SortNewestFirst(s: seq<SessionInfo>): (r: seq<SessionInfo>)
    ensures |r| == |s|
  {
    if s == [] then [] else InsertNewestFirst(s[0], SortNewestFirst(s[1..]))
  }

  /** Sorting neither drops nor duplicates a session. */
  lemma {:induction false} SortPermutation(s: seq<SessionInfo>)
    ensures multiset(SortNewestFirst(s)) == multiset(s)
  {
    if s != [] {
      SortPermutation(s[1..]);
      InsertPermutation(s[0], SortNewestFirst(s[1..]));
      assert s == [s[0]] + s[1..];
    }
  }

  /** After sorting, the most recently modified session comes first and undated ones last. */
  lemma {:induction false} SortSorted(s: seq<SessionInfo>)
    ensures NewestFirst(SortNewestFirst(s))
  {
    if s != [] {
      SortSorted(s[1..]);
      InsertSorted(s[0], SortNewestFirst(s[1..]));
    }
  }

  /** The sessions of `s` modified at time `t`, in their order in `s`. */
  function WithTime(s: seq<SessionInfo>, t: Option<int>): (r: seq<SessionInfo>)
    ensures |r| <= |s|
  {
    if s == [] then []
    else (if s[0].modifiedAt == t then [s[0]] else []) + WithTime(s[1..], t)
  }

  /** Inserting `x` puts it ahead of every session with the same time. */
  lemma {:induction false} WithTimeInsert(x: SessionInfo, s: seq<SessionInfo>, t: Option<int>)
    ensures WithTime(InsertNewestFirst(x, s), t) == (if x.modifiedAt == t then [x] else []) + WithTime(s, t)
  {
    if s == [] || NewerOrSame(x.modifiedAt, s[0].modifiedAt) {
      WithTimeCons(x, s, t);
    } else {
      WithTimeInsert(x, s[1..], t);
      WithTimeCons(s[0], InsertNewestFirst(x, s[1..]), t);
      assert s[0].modifiedAt != x.modifiedAt;
    }
  }

  lemma WithTimeCons(x: SessionInfo, s: seq<SessionInfo>, t: Option<int>)
    ensures WithTime([x] + s, t) == (if x.modifiedAt == t then [x] else []) + WithTime(s, t)
  {
    assert ([x] + s)[1..] == s;
  }

  /**
   * Stability: for every time, the sessions modified at that time keep their listing order.
   * With SortPermutation and SortSorted this fixes the sorted listing completely.
   */
  lemma {:induction false} SortStable(s: seq<SessionInfo>, t: Option<int>)
    ensures WithTime(SortNewestFirst(s), t) == WithTime(s, t)
  {
    if s != [] {
      SortStable(s[1..], t);
      WithTimeInsert(s[0], SortNewestFirst(s[1..]), t);
    }
  }

  // ---------------------------------------------------------------------------------------------
  // S3 backend

  /** An object in the bucket: its body, its `created_at` metadata and its LastModified time. */
  datatype S3Object = S3Object(content: string, createdAt: Option<int>, lastModified: int)

  /** One entry of a `list_objects_v2` page. */
  datatype ListedObject = ListedObject(key: string, lastModified: Option<int>)

  /** The entries of all pages in order. */
  function Flatten(pages: seq<seq<ListedObject>>): seq<ListedObject> {
    if pages == [] then [] else Flatten(pages[..|pages| - 1]) + pages[|pages| - 1]
  }

  lemma FlattenPrefix(pages: seq<seq<ListedObject>>, p: nat)
    requires p < |pages|
    ensures Flatten(pages[..p + 1]) == Flatten(pages[..p]) + pages[p]
  {
    assert pages[..p + 1][..p] == pages[..p];
  }

  predicate IsSessionKey(key: string) {
    EndsWith(key, SessionSuffix)
  }

  /** The entries that name sessions, in listing order. */
  function SessionObjects(objs: seq<ListedObject>): (r: seq<ListedObject>)
    ensures |r| <= |objs|
    ensures forall o :: o in r <==> o in objs && IsSessionKey(o.key)
  {
    if objs == [] then []
    else
      var init := objs[..|objs| - 1];
      var last := objs[|objs| - 1];
      assert objs == init + [last];
      if IsSessionKey(last.key) then SessionObjects(init) + [last] else SessionObjects(init)
  }

  /** The bucket after `put_object` of a new body with `created_at` metadata `created`. */
  function Put(objects: map<string, S3Object>, key: string, content: string, created: int, now: int): (r: map<string, S3Object>)
    ensures r.Keys == objects.Keys + {key}
    ensures r[key].content == content && r[key].lastModified == now && r[key].createdAt == Some(created)
    ensures forall k :: k in objects && k != key ==> r[k] == objects[k]
  {
    objects[key := S3Object(content, Some(created), now)]
  }

  /** `update_session`'s creation time: the stored `created_at` if there is one, else `now`. */
  function PreservedCreation(objects: map<string, S3Object>, key: string, now: int): (c: int)
    ensures key in objects && objects[key].createdAt.Some? ==> c == objects[key].createdAt.value
    ensures !(key in objects && objects[key].createdAt.Some?) ==> c == now
  {
    if key in objects && objects[key].createdAt.Some? then objects[key].createdAt.value else now
  }

  class S3SessionStorage {
    const bucketName: string
    const prefix: string
    const decode: Transcript.Decoder
    var objects: map<string, S3Object>

    /** The backend over a bucket that holds `objects`; the prefix is normalised. */
    constructor (bucketName: string, prefix: string, decode: Transcript.Decoder, objects: map<string, S3Object>)
      ensures this.bucketName == bucketName && this.prefix == NormalizePrefix(prefix)
      ensures this.decode == decode && this.objects == objects
    {
      this.bucketName := bucketName;
      this.prefix := NormalizePrefix(prefix);
      this.decode := decode;
      this.objects := objects;
    }

    /** What `get_session` returns for `id` in the current bucket. */
    function Lookup(id: string): Result<Option<SessionData>, Transcript.ParseError>
      reads this
    {
      var key := GetKey(prefix, id);
      if key !in objects then Success(None)
      else
        var o := objects[key];
        Found(SessionDataOf(id, o.content, Some(o.createdAt.GetOr(o.lastModified)), Some(o.lastModified), decode))
    }

    /** `create_session`: writes the object with `created_at = now`, then parses it. */
    method CreateSession(id: string, content: string, now: int) returns (r: Result<SessionData, Transcript.ParseError>)
      modifies this
      ensures objects == Put(old(objects), GetKey(prefix, id), content, now, now)
      ensures r == SessionDataOf(id, content, Some(now), Some(now), decode)
      ensures r.Success? ==> Lookup(id) == Success(Some(r.value))
    {
      var key := GetKey(prefix, id);
      objects := objects[key := S3Object(content, Some(now), now)];
      r := ReadSessionData(id, content, Some(now), Some(now), decode);
    }

    /** `get_session`: None when the key is missing; `created_at` falls back to LastModified. */
    method GetSession(id: string) returns (r: Result<Option<SessionData>, Transcript.ParseError>)
      ensures GetKey(prefix, id) !in objects ==> r == Success(None)
      ensures GetKey(prefix, id) in objects ==>
        var o := objects[GetKey(prefix, id)];
        && (r.Success? <==> Transcript.MessagesOf(o.content, decode).Success?)
        && (r.Success? ==>
              && r.value.Some? && r.value.value.rawContent == o.content
              && r.value.value.sessionId == id
              && r.value.value.modifiedAt == Some(o.lastModified)
              && r.value.value.createdAt == (if o.createdAt.Some? then o.createdAt else Some(o.lastModified)))
      ensures r == Lookup(id)
    {
      var key := GetKey(prefix, id);
      if key !in objects {
        return Success(None);
      }
      var o := objects[key];
      var created := if o.createdAt.Some? then o.createdAt.value else o.lastModified;
      var data := ReadSessionData(id, o.content, Some(created), Some(o.lastModified), decode);
      if data.Failure? {
        return Failure(data.error);
      }
      return Success(Some(data.value));
    }

    /** `update_session`: overwrites the object, keeping its `created_at` when it has one. */
    method UpdateSession(id: string, content: string, now: int) returns (r: Result<SessionData, Transcript.ParseError>)
      modifies this
      ensures objects == Put(old(objects), GetKey(prefix, id), content, PreservedCreation(old(objects), GetKey(prefix, id), now), now)
      ensures r == SessionDataOf(id, content, Some(PreservedCreation(old(objects), GetKey(prefix, id), now)), Some(now), decode)
      ensures r.Success? ==> Lookup(id) == Success(Some(r.value))
    {
      var key := GetKey(prefix, id);
      var created: Option<int> := None;
      if key in objects {
        created := objects[key].createdAt;
      }
      var createdAt := if created.Some? then created.value else now;
      objects := objects[key := S3Object(content, Some(createdAt), now)];
      r := ReadSessionData(id, content, Some(createdAt), Some(now), decode);
    }

    /** `delete_session`: true exactly when the object existed; it is gone afterwards. */
    method DeleteSession(id: string) returns (deleted: bool)
      modifies this
      ensures deleted <==> GetKey(prefix, id) in old(objects)
      ensures objects == old(objects) - {GetKey(prefix, id)}
      ensures Lookup(id) == Success(None)
    {
      var key := GetKey(prefix, id);
      if key !in objects {
        return false;
      }
      objects := objects - {key};
      return true;
    }

    /**
     * The `SessionInfo` of one listed session object. Reading the object may fail (it is gone):
     * then there is no title and no `created_at` metadata.
     */
    function InfoOf(o: ListedObject): (info: SessionInfo)
      reads this
      ensures info.modifiedAt == o.lastModified
      ensures info.sessionId == IdFromKey(prefix, o.key)
    {
      var id := IdFromKey(prefix, o.key);
      var title := if o.key in objects then Transcript.TitleOf(objects[o.key].content, Transcript.DefaultTitleLength, decode) else None;
      var created := if o.key in objects then objects[o.key].createdAt else None;
      SessionInfo(id, ListingTitle(title, id), if created.Some? then created else o.lastModified,
                  o.lastModified, "s3://" + bucketName + "/" + o.key)
    }

    /** The sessions of a listing before sorting: one per session object, in listing order. */
    function Listing(objs: seq<ListedObject>): seq<SessionInfo>
      reads this
    {
      if objs == [] then []
      else
        var init := objs[..|objs| - 1];
        var last := objs[|objs| - 1];
        if IsSessionKey(last.key) then Listing(init) + [InfoOf(last)] else Listing(init)
    }

    /** Listing gives one entry per session object, in listing order; other keys are skipped. */
    lemma {:induction false} ListingShape(objs: seq<ListedObject>)
      ensures |Listing(objs)| == |SessionObjects(objs)|
      ensures forall i :: 0 <= i < |Listing(objs)| ==> Listing(objs)[i] == InfoOf(SessionObjects(objs)[i])
    {
      if objs != [] {
        ListingShape(objs[..|objs| - 1]);
      }
    }

    lemma ListingAppend(objs: seq<ListedObject>, o: ListedObject)
      ensures Listing(objs + [o]) == Listing(objs) + (if IsSessionKey(o.key) then [InfoOf(o)] else [])
    {
      assert (objs + [o])[..|objs|] == objs;
    }

    lemma ListingStep(before: seq<ListedObject>, page: seq<ListedObject>, j: nat)
      requires j < |page|
      ensures Listing(before + page[..j + 1]) ==
        Listing(before + page[..j]) + (if IsSessionKey(page[j].key) then [InfoOf(page[j])] else [])
    {
      ListingAppend(before + page[..j], page[j]);
      assert before + page[..j + 1] == (before + page[..j]) + [page[j]];
    }

    /** Reads one listed session object: its title from the body, `created_at` from its metadata. */
    method ReadListedObject(obj: ListedObject) returns (info: SessionInfo)
      ensures info == InfoOf(obj)
    {
      var id := IdFromKey(prefix, obj.key);
      var title: Option<string> := None;
      var created: Option<int> := None;
      if obj.key in objects {
        var stored := objects[obj.key];
        title := Transcript.ExtractTitleFromContent(stored.content, Transcript.DefaultTitleLength, decode);
        created := stored.createdAt;
      }
      info := SessionInfo(id, ListingTitle(title, id), if created.Some? then created else obj.lastModified,
                          obj.lastModified, "s3://" + bucketName + "/" + obj.key);
    }

    /** `list_sessions` over the pages the bucket returned, newest first. */
    method ListSessions(pages: seq<seq<ListedObject>>) returns (sessions: seq<SessionInfo>)
      ensures sessions == SortNewestFirst(Listing(Flatten(pages)))
    {
      sessions := [];
      var p := 0;
      while p < |pages|
        invariant 0 <= p <= |pages|
        invariant sessions == Listing(Flatten(pages[..p]))
      {
        sessions := ListPage(sessions, Flatten(pages[..p]), pages[p]);
        FlattenPrefix(pages, p);
        p := p + 1;
      }
      assert pages[..p] == pages;
      sessions := SortNewestFirst(sessions);
    }

    /** The body of `list_sessions`' loop over one page: one entry per session object on it. */
    method ListPage(sessions: seq<SessionInfo>, ghost before: seq<ListedObject>, page: seq<ListedObject>)
      returns (r: seq<SessionInfo>)
      requires sessions == Listing(before)
      ensures r == Listing(before + page)
    {
      r := sessions;
      var j := 0;
      assert before + page[..j] == before;
      while j < |page|
        invariant 0 <= j <= |page|
        invariant r == Listing(before + page[..j])
      {
        var obj := page[j];
        ListingStep(before, page, j);
        if IsSessionKey(obj.key) {
          var info := ReadListedObject(obj);
          r := r + [info];
        }
        j := j + 1;
      }
      assert page[..j] == page;
    }
  }

  /** Every object the bucket lists under a session key appears in the listing, under its id. */
  lemma ListingHasEverySession(storage: S3SessionStorage, objs: seq<ListedObject>, id: string, lastModified: Option<int>)
    requires ListedObject(GetKey(storage.prefix, id), lastModified) in objs
    ensures exists i :: 0 <= i < |storage.Listing(objs)| && storage.Listing(objs)[i].sessionId == id
  {
    var o := ListedObject(GetKey(storage.prefix, id), lastModified);
    var so := SessionObjects(objs);
    storage.ListingShape(objs);
    assert o in so;
    var i :| 0 <= i < |so| && so[i] == o;
    KeyRoundTrip(storage.prefix, id);
    assert storage.Listing(objs)[i].sessionId == id;
  }

  // ---------------------------------------------------------------------------------------------
  // Local backend

  /** A session file found under the base directory: its content and its ctime and mtime. */
  datatype LocalFile = LocalFile(content: string, changed: int, modified: int)

  class LocalSessionStorage {
    const decode: Transcript.Decoder
    /** The `<id>.jsonl` files below the base directory, by session id. */
    var files: map<string, LocalFile>

    constructor (decode: Transcript.Decoder, files: map<string, LocalFile>)
      ensures this.decode == decode && this.files == files
    {
      this.decode := decode;
      this.files := files;
    }

    /** `create_session`: writes the file (both its times become `now`), then parses it. */
    method CreateSession(id: string, content: string, now: int) returns (r: Result<SessionData, Transcript.ParseError>)
      modifies this
      ensures files == old(files)[id := LocalFile(content, now, now)]
      ensures r == SessionDataOf(id, content, Some(now), Some(now), decode)
    {
      files := files[id := LocalFile(content, now, now)];
      r := ReadSessionData(id, content, Some(now), Some(now), decode);
    }

    /** `get_session`: a missing file and a transcript whose parse raises both give None. */
    method GetSession(id: string) returns (r: Option<SessionData>)
      ensures id !in files ==> r == None
      ensures id in files ==>
        var f := files[id];
        var d := SessionDataOf(id, f.content, Some(f.changed), Some(f.modified), decode);
        r == (if d.Success? then Some(d.value) else None)
      ensures r.Some? ==> id in files && r.value.rawContent == files[id].content
    {
      if id !in files {
        return None;
      }
      var f := files[id];
      var d := ReadSessionData(id, f.content, Some(f.changed), Some(f.modified), decode);
      if d.Failure? {
        return None;
      }
      return Some(d.value);
    }

    /** `update_session`: an existing file is rewritten, a missing one created; the effect is the same. */
    method UpdateSession(id: string, content: string, now: int) returns (r: Result<SessionData, Transcript.ParseError>)
      modifies this
      ensures files == old(files)[id := LocalFile(content, now, now)]
      ensures r == SessionDataOf(id, content, Some(now), Some(now), decode)
    {
      if id !in files {
        r := CreateSession(id, content, now);
        return;
      }
      files := files[id := LocalFile(content, now, now)];
      r := ReadSessionData(id, content, Some(now), Some(now), decode);
    }

    /** `delete_session`: true exactly when a file for the id existed; it is gone afterwards. */
    method DeleteSession(id: string) returns (deleted: bool)
      modifies this
      ensures deleted <==> id in old(files)
      ensures files == old(files) - {id}
    {
      if id !in files {
        return false;
      }
      files := files - {id};
      return true;
    }

    function InfoOf(id: string): (info: SessionInfo)
      requires id in files
      reads this
      ensures info.sessionId == id && info.modifiedAt == Some(files[id].modified)
      ensures info.title != []
    {
      var f := files[id];
      SessionInfo(id, ListingTitle(Transcript.TitleOf(f.content, Transcript.DefaultTitleLength, decode), id),
                  Some(f.changed), Some(f.modified), id + SessionSuffix)
    }

    /** The sessions for the ids the directory walk found, in walk order; unreadable ones are skipped. */
    function Listing(found: seq<string>): (r: seq<SessionInfo>)
      reads this
      ensures |r| <= |found|
      ensures forall i :: 0 <= i < |r| ==> r[i].sessionId in files && r[i] == InfoOf(r[i].sessionId)
    {
      if found == [] then []
      else
        var init := found[..|found| - 1];
        var last := found[|found| - 1];
        if last in files then Listing(init) + [InfoOf(last)] else Listing(init)
    }

    /** The found ids that have a session file, in walk order. */
    function Readable(found: seq<string>): (r: seq<string>)
      reads this
      ensures forall i :: 0 <= i < |r| ==> r[i] in files
    {
      if found == [] then []
      else
        var init := found[..|found| - 1];
        var last := found[|found| - 1];
        if last in files then Readable(init) + [last] else Readable(init)
    }

    /** An id is readable exactly when the walk found it and its file exists. */
    lemma {:induction false} ReadableMembers(found: seq<string>)
      ensures forall id :: id in Readable(found) <==> id in found && id in files
    {
      if found != [] {
        ReadableMembers(found[..|found| - 1]);
        assert found == found[..|found| - 1] + [found[|found| - 1]];
      }
    }

    /** Listing gives one entry per found id that has a file, in walk order. */
    lemma {:induction false} LocalListingShape(found: seq<string>)
      ensures |Listing(found)| == |Readable(found)|
      ensures forall i :: 0 <= i < |Listing(found)| ==> Listing(found)[i] == InfoOf(Readable(found)[i])
    {
      if found != [] {
        LocalListingShape(found[..|found| - 1]);
      }
    }

    /** Every session file the walk finds appears in the listing, under its id. */
    lemma LocalListingHasEverySession(found: seq<string>, id: string)
      requires id in found && id in files
      ensures exists i :: 0 <= i < |Listing(found)| && Listing(found)[i].sessionId == id
    {
      ReadableMembers(found);
      LocalListingShape(found);
      var i :| 0 <= i < |Readable(found)| && Readable(found)[i] == id;
      assert Listing(found)[i].sessionId == id;
    }

    /** `list_sessions`: `found` are the ids of the `*.jsonl` files in the order the walk yields them. */
    method ListSessions(found: seq<string>) returns (sessions: seq<SessionInfo>)
      ensures sessions == SortNewestFirst(Listing(found))
    {
      sessions := [];
      var i := 0;
      while i < |found|
        invariant 0 <= i <= |found|
        invariant sessions == Listing(found[..i])
      {
        assert found[..i + 1][..i] == found[..i];
        var id := found[i];
        if id in files {
          var f := files[id];
          var title := Transcript.ExtractTitleFromContent(f.content, Transcript.DefaultTitleLength, decode);
          sessions := sessions + [SessionInfo(id, ListingTitle(title, id), Some(f.changed), Some(f.modified), id + SessionSuffix)];
        }
        i := i + 1;
      }
      assert found[..i] == found;
      sessions := SortNewestFirst(sessions);
    }
  }

  // ---------------------------------------------------------------------------------------------
  // Backend selection

  datatype Backend =
    | S3Backend(bucketName: string, prefix: string, region: Option<string>)
    | LocalBackend

  /**
   * The backend `get_session_storage` builds: S3 when SESSION_BUCKET_NAME is set and the S3
   * client can be set up (`s3Available`), the local directory otherwise.
   */
  function SelectBackend(env: Config.Env, s3Available: bool): (b: Backend)
    ensures b.S3Backend? <==> Config.IsSet(env, "SESSION_BUCKET_NAME") && s3Available
    ensures b.S3Backend? ==> b.bucketName == env["SESSION_BUCKET_NAME"]
    ensures b.S3Backend? && "SESSION_BUCKET_PREFIX" !in env ==> b.prefix == DefaultPrefix
    ensures b.S3Backend? && "SESSION_BUCKET_PREFIX" in env ==> b.prefix == env["SESSION_BUCKET_PREFIX"]
    ensures b.S3Backend? ==>
      (b.region.Some? <==> Config.IsSet(env, "AWS_REGION") || "AWS_DEFAULT_REGION" in env)
    ensures b.S3Backend? && Config.IsSet(env, "AWS_REGION") ==> b.region == Some(env["AWS_REGION"])
    ensures b.S3Backend? && !Config.IsSet(env, "AWS_REGION") ==> b.region == Config.Get(env, "AWS_DEFAULT_REGION")
  {
    if Config.IsSet(env, "SESSION_BUCKET_NAME") && s3Available then
      var region :=
        if Config.IsSet(env, "AWS_REGION") then Some(env["AWS_REGION"])
        else Config.Get(env, "AWS_DEFAULT_REGION");
      S3Backend(env["SESSION_BUCKET_NAME"], Config.GetOr(env, "SESSION_BUCKET_PREFIX", DefaultPrefix), region)
    else LocalBackend
  }

  /** The module-level `_storage_instance` singleton. */
  class StorageRegistry {
    var instance: Option<Backend>

    constructor ()
      ensures instance == None
    {
      instance := None;
    }

    /** `get_session_storage`: the first call decides the backend, later calls return it unchanged. */
    method GetSessionStorage(env: Config.Env, s3Available: bool) returns (b: Backend)
      modifies this
      ensures old(instance).Some? ==> b == old(instance).value && instance == old(instance)
      ensures old(instance).None? ==> b == SelectBackend(env, s3Available) && instance == Some(b)
    {
      if instance.Some? {
        return instance.value;
      }
      b := SelectBackend(env, s3Available);
      instance := Some(b);
    }

    /** `reset_storage_instance`: the next request decides the backend afresh. */
    method ResetStorageInstance()
      modifies this
      ensures instance == None
    {
      instance := None;
    }
  }
}
