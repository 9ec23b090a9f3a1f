/** The three tables behind `crud/thread.py`, `crud/message.py` and
    `crud/video.py`, held in memory. A table is a sequence in the order the
    database enumerates it; SQL imposes no order, so no result below promises
    one beyond "some enumeration of the matching rows". Primary and foreign
    keys are enforced as PostgreSQL does: an insert that repeats a key or
    names a missing parent fails and changes nothing. */
module Store {
  import opened Models

  datatype DbError = DuplicateKey | ForeignKeyViolation

  function VideoIds(vs: seq<Video>): set<string> {
    set v | v in vs :: v.videoId
  }

  function ThreadIds(ts: seq<Thread>): set<string> {
    set t | t in ts :: t.threadId
  }

  function MessageIds(ms: seq<Message>): set<string> {
    set m | m in ms :: m.messageId
  }

  predicate UniqueVideoIds(vs: seq<Video>) {
    forall i, j :: 0 <= i < j < |vs| ==> vs[i].videoId != vs[j].videoId
  }

  predicate UniqueThreadIds(ts: seq<Thread>) {
    forall i, j :: 0 <= i < j < |ts| ==> ts[i].threadId != ts[j].threadId
  }

  predicate UniqueMessageIds(ms: seq<Message>) {
    forall i, j :: 0 <= i < j < |ms| ==> ms[i].messageId != ms[j].messageId
  }

  /** `select(...).where(...).first()`: the first row the predicate accepts. */
  function FirstWhere<T>(s: seq<T>, p: T -> bool): (r: Option<T>)
    ensures r.Some? <==> exists i :: 0 <= i < |s| && p(s[i])
    ensures r.Some? ==> r.value in s && p(r.value)
  {
    if |s| == 0 then None
    else if p(s[0]) then Some(s[0])
    else FirstWhere(s[1..], p)
  }

  /** The messages of thread `tid`, in table order. */
  function MessagesOf(ms: seq<Message>, tid: string): (r: seq<Message>)
    ensures forall m :: m in r <==> m in ms && m.threadId == tid
  {
    if |ms| == 0 then []
    else (if ms[0].threadId == tid then [ms[0]] else []) + MessagesOf(ms[1..], tid)
  }

  /** The messages of every thread but `tid`, in table order. */
  function MessagesNotOf(ms: seq<Message>, tid: string): (r: seq<Message>)
    ensures forall m :: m in r <==> m in ms && m.threadId != tid
  {
    if |ms| == 0 then []
    else (if ms[0].threadId != tid then [ms[0]] else []) + MessagesNotOf(ms[1..], tid)
  }

  /** The table left after deleting each row of `gone`. */
  function MessagesExcept(ms: seq<Message>, gone: set<Message>): seq<Message>
  {
    if |ms| == 0 then []
    else (if ms[0] in gone then [] else [ms[0]]) + MessagesExcept(ms[1..], gone)
  }

  function ThreadsExcept(ts: seq<Thread>, tid: string): (r: seq<Thread>)
    ensures forall t :: t in r <==> t in ts && t.threadId != tid
  {
    if |ts| == 0 then []
    else (if ts[0].threadId != tid then [ts[0]] else []) + ThreadsExcept(ts[1..], tid)
  }

  lemma {:induction false} MessagesExceptGrow(ms: seq<Message>, gone: set<Message>, m: Message)
    ensures MessagesExcept(MessagesExcept(ms, gone), {m}) == MessagesExcept(ms, gone + {m})
  {
    if |ms| > 0 {
      MessagesExceptGrow(ms[1..], gone, m);
      var rest := MessagesExcept(ms[1..], gone);
      if ms[0] !in gone {
        var s := [ms[0]] + rest;
        assert s[0] == ms[0] && s[1..] == rest;
        assert MessagesExcept(s, {m}) == (if ms[0] == m then [] else [ms[0]]) + MessagesExcept(rest, {m});
      } else {
        assert MessagesExcept(ms, gone) == [] + rest == rest;
      }
    }
  }

  lemma {:induction false} MessagesExceptNothing(ms: seq<Message>)
    ensures MessagesExcept(ms, {}) == ms
  {
    if |ms| > 0 {
      MessagesExceptNothing(ms[1..]);
      assert [ms[0]] + ms[1..] == ms;
    }
  }

  /** Deleting exactly the rows of thread `tid`, one by one, leaves the
      messages of the other threads. */
  lemma {:induction false} MessagesExceptThread(ms: seq<Message>, gone: set<Message>, tid: string)
    requires forall m :: m in ms ==> (m in gone <==> m.threadId == tid)
    ensures MessagesExcept(ms, gone) == MessagesNotOf(ms, tid)
  {
    if |ms| > 0 {
      MessagesExceptThread(ms[1..], gone, tid);
    }
  }

  lemma {:induction false} MessagesNotOfUnique(ms: seq<Message>, tid: string)
    requires UniqueMessageIds(ms)
    ensures UniqueMessageIds(MessagesNotOf(ms, tid))
  {
    if |ms| > 0 {
      MessagesNotOfUnique(ms[1..], tid);
      var rest := MessagesNotOf(ms[1..], tid);
      if ms[0].threadId != tid {
        var r := [ms[0]] + rest;
        forall i, j | 0 <= i < j < |r| ensures r[i].messageId != r[j].messageId {
          if i == 0 {
            assert r[j] in ms[1..];
            var k :| 0 <= k < |ms[1..]| && ms[1..][k] == r[j];
            assert ms[k + 1] == r[j];
          } else {
            assert r[i] == rest[i - 1] && r[j] == rest[j - 1];
          }
        }
      }
    }
  }

  lemma {:induction false} ThreadsExceptUnique(ts: seq<Thread>, tid: string)
    requires UniqueThreadIds(ts)
    ensures UniqueThreadIds(ThreadsExcept(ts, tid))
  {
    if |ts| > 0 {
      ThreadsExceptUnique(ts[1..], tid);
      var rest := ThreadsExcept(ts[1..], tid);
      if ts[0].threadId != tid {
        var r := [ts[0]] + rest;
        forall i, j | 0 <= i < j < |r| ensures r[i].threadId != r[j].threadId {
          if i == 0 {
            assert r[j] in ts[1..];
            var k :| 0 <= k < |ts[1..]| && ts[1..][k] == r[j];
            assert ts[k + 1] == r[j];
          } else {
            assert r[i] == rest[i - 1] && r[j] == rest[j - 1];
          }
        }
      }
    }
  }

  /** Removing a thread together with its messages keeps every key unique
      and every foreign key resolved. */
  lemma DeletionKeepsKeys(vs: seq<Video>, ts: seq<Thread>, ms: seq<Message>, tid: string)
    requires UniqueThreadIds(ts) && UniqueMessageIds(ms)
    requires forall t :: t in ts ==> t.videoId in VideoIds(vs)
    requires forall m :: m in ms ==> m.threadId in ThreadIds(ts)
    ensures UniqueThreadIds(ThreadsExcept(ts, tid)) && UniqueMessageIds(MessagesNotOf(ms, tid))
    ensures forall t :: t in ThreadsExcept(ts, tid) ==> t.videoId in VideoIds(vs)
    ensures forall m :: m in MessagesNotOf(ms, tid) ==> m.threadId in ThreadIds(ThreadsExcept(ts, tid))
  {
    MessagesNotOfUnique(ms, tid);
    ThreadsExceptUnique(ts, tid);
    var rest := ThreadsExcept(ts, tid);
    forall m | m in MessagesNotOf(ms, tid) ensures m.threadId in ThreadIds(rest) {
      var t :| t in ts && t.threadId == m.threadId;
      assert t in rest;
    }
  }

  /** The first video of `vs` with that key. */
  function FindVideo(vs: seq<Video>, videoId: string): (r: Option<Video>)
    ensures r.None? <==> videoId !in VideoIds(vs)
    ensures r.Some? ==> r.value in vs && r.value.videoId == videoId
    ensures UniqueVideoIds(vs) && r.Some? ==> forall v :: v in vs && v.videoId == videoId ==> v == r.value
  {
    var r := FirstWhere(vs, (v: Video) => v.videoId == videoId);
    assert r.None? ==> forall v :: v in vs ==> v.videoId != videoId;
    r
  }

  /** After a row with a new id is appended, looking that id up finds it. */
  lemma FindVideoAfterAdd(vs: seq<Video>, v: Video)
    requires v.videoId !in VideoIds(vs)
    ensures FindVideo(vs + [v], v.videoId) == Some(v)
  {
    var found := FindVideo(vs + [v], v.videoId);
    assert (vs + [v])[|vs|] == v;
    assert found.value in vs + [v] && found.value !in vs;
  }

  class Database {
    var videos: seq<Video>
    var threads: seq<Thread>
    var messages: seq<Message>
    /** Transactions committed so far. */
    var commits: nat

    /** Primary keys are unique and every foreign key names a stored row. */
    ghost predicate Valid()
      reads this
    {
      && UniqueVideoIds(videos)
      && UniqueThreadIds(threads)
      && UniqueMessageIds(messages)
      && (forall t :: t in threads ==> t.videoId in VideoIds(videos))
      && (forall m :: m in messages ==> m.threadId in ThreadIds(threads))
    }

    constructor ()
      ensures Valid()
      ensures videos == [] && threads == [] && messages == [] && commits == 0
    {
      videos, threads, messages, commits := [], [], [], 0;
    }

    /** `get_video_by_id`: the video with that primary key, if stored. */
    function GetVideoById(videoId: string): (r: Option<Video>)
      reads this
      ensures r.None? <==> videoId !in VideoIds(videos)
      ensures r.Some? ==> r.value in videos && r.value.videoId == videoId
      ensures Valid() && r.Some? ==> forall v :: v in videos && v.videoId == videoId ==> v == r.value
    {
      FindVideo(videos, videoId)
    }

    /** `get_video_by_url`: some video stored under that URL, if any. */
    function GetVideoByUrl(url: string): (r: Option<Video>)
      reads this
      ensures r.None? <==> forall v :: v in videos ==> v.url != url
      ensures r.Some? ==> r.value in videos && r.value.url == url
    {
      var r := FirstWhere(videos, (v: Video) => v.url == url);
      assert r.None? ==> forall v :: v in videos ==> v.url != url;
      r
    }

    /** `get_thread_by_id`: the thread with that primary key, if stored. */
    function GetThreadById(threadId: string): (r: Option<Thread>)
      reads this
      ensures r.None? <==> threadId !in ThreadIds(threads)
      ensures r.Some? ==> r.value in threads && r.value.threadId == threadId
      ensures Valid() && r.Some? ==> forall t :: t in threads && t.threadId == threadId ==> t == r.value
    {
      var r := FirstWhere(threads, (t: Thread) => t.threadId == threadId);
      assert r.None? ==> forall t :: t in threads ==> t.threadId != threadId;
      r
    }

    /** `get_all_threads`: every stored thread, each once. */
    function GetAllThreads(): (r: seq<Thread>)
      reads this
      ensures |r| == |threads|
      ensures forall t :: t in r <==> t in threads
    {
      threads
    }

    /** `get_all_message_by_thread`: exactly the stored messages of the
        thread. */
    function GetAllMessagesByThread(threadId: string): (r: seq<Message>)
      reads this
      ensures forall m :: m in r <==> m in messages && m.threadId == threadId
    {
      MessagesOf(messages, threadId)
    }

    /** `create_thread`: adds one thread under a fresh key and commits. The
        key comes from the caller (a UUID in the source). */
    method CreateThread(threadId: string, videoId: string, title: Option<string>) returns (r: Result<Thread, DbError>)
      requires Valid()
      modifies this
      ensures Valid()
      ensures r.Ok? <==> threadId !in ThreadIds(old(threads)) && videoId in VideoIds(old(videos))
      ensures r.Ok? ==> r.value == Thread(threadId, videoId, title)
                        && threads == old(threads) + [r.value] && commits == old(commits) + 1
      ensures r.Err? ==> threads == old(threads) && commits == old(commits)
      ensures videos == old(videos) && messages == old(messages)
    {
      if threadId in ThreadIds(threads) {
        return Err(DuplicateKey);
      }
      if videoId !in VideoIds(videos) {
        return Err(ForeignKeyViolation);
      }
      var t := Thread(threadId, videoId, title);
      threads := threads + [t];
      commits := commits + 1;
      r := Ok(t);
    }

    /** `create_message`: adds exactly the given message and commits. */
    method CreateMessage(m: Message) returns (r: Result<Message, DbError>)
      requires Valid()
      modifies this
      ensures Valid()
      ensures r.Ok? <==> m.messageId !in MessageIds(old(messages)) && m.threadId in ThreadIds(old(threads))
      ensures r.Ok? ==> r.value == m && messages == old(messages) + [m] && commits == old(commits) + 1
      ensures r.Err? ==> messages == old(messages) && commits == old(commits)
      ensures videos == old(videos) && threads == old(threads)
    {
      if m.messageId in MessageIds(messages) {
        return Err(DuplicateKey);
      }
      if m.threadId !in ThreadIds(threads) {
        return Err(ForeignKeyViolation);
      }
      messages := messages + [m];
      commits := commits + 1;
      r := Ok(m);
    }

    /** `session.add(video)` and commit, as ingestion does. */
    method AddVideo(v: Video) returns (r: Result<Video, DbError>)
      requires Valid()
      modifies this
      ensures Valid()
      ensures r.Ok? <==> v.videoId !in VideoIds(old(videos))
      ensures r.Ok? ==> r.value == v && videos == old(videos) + [v] && commits == old(commits) + 1
      ensures r.Err? ==> videos == old(videos) && commits == old(commits)
      ensures threads == old(threads) && messages == old(messages)
    {
      if v.videoId in VideoIds(videos) {
        return Err(DuplicateKey);
      }
      videos := videos + [v];
      commits := commits + 1;
      r := Ok(v);
    }

    /** `delete_thread_with_messages`: deletes each message of the thread,
        then the thread, in one committed transaction. */
    method DeleteThreadWithMessages(threadId: string) returns (deleted: bool)
      requires Valid()
      modifies this
      ensures Valid()
      ensures deleted <==> threadId in ThreadIds(old(threads))
      ensures !deleted ==> threads == old(threads) && messages == old(messages) && commits == old(commits)
      ensures deleted ==> && threads == ThreadsExcept(old(threads), threadId)
                          && messages == MessagesNotOf(old(messages), threadId)
                          && commits == old(commits) + 1
      ensures videos == old(videos)
    {
      var thread := GetThreadById(threadId);
      if thread.None? {
        return false;
      }
      DeleteMessagesOf(threadId);
      DeletionKeepsKeys(videos, threads, old(messages), threadId);
      threads := ThreadsExcept(threads, threadId);
      commits := commits + 1;
      deleted := true;
    }

    /** The loop of `delete_thread_with_messages` that deletes the thread's
        messages one at a time. */
    method DeleteMessagesOf(threadId: string)
      modifies this
      ensures messages == MessagesNotOf(old(messages), threadId)
      ensures threads == old(threads) && videos == old(videos) && commits == old(commits)
    {
      var doomed := GetAllMessagesByThread(threadId);
      ghost var gone: set<Message> := {};
      MessagesExceptNothing(messages);
      var i := 0;
      while i < |doomed|
        invariant 0 <= i <= |doomed|
        invariant forall m :: m in gone <==> m in doomed[..i]
        invariant messages == MessagesExcept(old(messages), gone)
        invariant threads == old(threads) && videos == old(videos) && commits == old(commits)
      {
        MessagesExceptGrow(old(messages), gone, doomed[i]);
        messages := MessagesExcept(messages, {doomed[i]});
        gone := gone + {doomed[i]};
        assert doomed[..i + 1] == doomed[..i] + [doomed[i]];
        i := i + 1;
      }
      assert doomed[..i] == doomed;
      MessagesExceptThread(old(messages), gone, threadId);
    }
  }
}
