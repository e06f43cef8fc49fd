/**
 The live tail of a CI job: the runner's streamer (internal/runner/stream.go), the capped
 buffer on the leader (internal/ci/livelogs.go), and the durable log they approximate
 (storeLog in internal/ci/report.go). A string holds bytes here.
 */
module LiveLogs {
  import opened Wrappers

  const LOG_CAP: nat := 10 * 1024 * 1024
  const LOG_TRUNCATION_MARKER := "\n\n[log truncated: exceeded 10 MiB cap]\n"

  /** The documented bound: a log over the cap is cut there, with a marker. */
  function Trunc(data: string): string {
    if |data| > LOG_CAP then data[..LOG_CAP] + LOG_TRUNCATION_MARKER else data
  }

  /** io.LimitReader at the cap, without a marker. */
  function Cut(body: string): string {
    if |body| > LOG_CAP then body[..LOG_CAP] else body
  }

  function Concat(chunks: seq<string>): string {
    if chunks == [] then "" else Concat(chunks[..|chunks| - 1]) + chunks[|chunks| - 1]
  }

  function CutAll(chunks: seq<string>): (r: seq<string>)
    ensures |r| == |chunks|
  {
    seq(|chunks|, i requires 0 <= i < |chunks| => Cut(chunks[i]))
  }

  lemma ConcatOne(chunks: seq<string>, c: string)
    ensures Concat(chunks + [c]) == Concat(chunks) + c
  {
    assert (chunks + [c])[..|chunks|] == chunks;
  }

  /** Up to ten MiB a log is stored as it is; of a longer one, the first ten MiB and the marker. */
  lemma CappedAt(data: string)
    ensures |data| <= 10_485_760 ==> Trunc(data) == data && Cut(data) == data
    ensures |data| > 10_485_760 ==>
              && Trunc(data) == data[..10_485_760] + "\n\n[log truncated: exceeded 10 MiB cap]\n"
              && Cut(data) == data[..10_485_760]
  {
  }

  /** A longer output only extends what a reader has seen of it. */
  lemma TruncGrows(a: string, b: string)
    requires a <= b
    ensures Trunc(a) <= Trunc(b)
  {
    if |a| > LOG_CAP {
      assert a[..LOG_CAP] == b[..LOG_CAP];
    }
  }

  // ---------- Chunks over the cap ----------

  /** All the output came in one POST, and that one is over the cap. */
  ghost predicate OneOversizedPost(posts: seq<string>) {
    exists i | 0 <= i < |posts| :: |posts[i]| > LOG_CAP && forall j | 0 <= j < |posts| && j != i :: posts[j] == ""
  }

  lemma {:induction false} ConcatEmpty(chunks: seq<string>)
    ensures Concat(chunks) == "" <==> forall c <- chunks :: c == ""
  {
    if chunks != [] {
      var front, last := chunks[..|chunks| - 1], chunks[|chunks| - 1];
      ConcatEmpty(front);
      assert last in chunks;
      forall c <- front ensures c in chunks {
      }
      forall c <- chunks ensures c in front || c == last {
      }
    }
  }

  lemma {:induction false} ConcatSingle(chunks: seq<string>, i: nat)
    requires i < |chunks| && forall j | 0 <= j < |chunks| && j != i :: chunks[j] == ""
    ensures Concat(chunks) == chunks[i]
  {
    var n := |chunks| - 1;
    if i < n {
      ConcatSingle(chunks[..n], i);
    } else {
      ConcatEmpty(chunks[..n]);
    }
  }

  /** What cutting each chunk loses: nothing below the cap, and at most bytes past it otherwise. */
  lemma {:induction false} CutConcat(posts: seq<string>)
    ensures |Concat(CutAll(posts))| <= |Concat(posts)|
    ensures Cut(Concat(CutAll(posts))) == Cut(Concat(posts))
  {
    if posts != [] {
      var front, last := posts[..|posts| - 1], posts[|posts| - 1];
      CutConcat(front);
      assert CutAll(posts)[..|posts| - 1] == CutAll(front);
      CutMore(Concat(CutAll(front)), Concat(front), last);
    }
  }

  lemma CutMore(cut: string, all: string, last: string)
    requires |cut| <= |all| && Cut(cut) == Cut(all)
    ensures Cut(cut + Cut(last)) == Cut(all + last)
  {
    if |cut| < LOG_CAP {
      assert cut == all;
      if |last| > LOG_CAP {
        assert (cut + last[..LOG_CAP])[..LOG_CAP] == (all + last)[..LOG_CAP];
      }
    } else {
      assert cut[..LOG_CAP] == all[..LOG_CAP];
      assert (cut + Cut(last))[..LOG_CAP] == cut[..LOG_CAP];
      assert (all + last)[..LOG_CAP] == all[..LOG_CAP];
    }
  }

  /** Bytes past the cap vanish without a trace only when they all came in one POST. */
  lemma {:induction false} CutHidesOverflow(posts: seq<string>)
    requires |Concat(posts)| > LOG_CAP && |Concat(CutAll(posts))| <= LOG_CAP
    ensures OneOversizedPost(posts)
  {
    var n := |posts| - 1;
    var front, last := posts[..n], posts[n];
    assert CutAll(posts)[..n] == CutAll(front);
    CutConcat(front);
    if |last| > LOG_CAP {
      assert Concat(CutAll(front)) == "";
      ConcatEmpty(front);
      forall j | 0 <= j < |posts| && j != n ensures posts[j] == "" {
        assert posts[j] in front;
      }
    } else {
      CutHidesOverflow(front);
      var i :| 0 <= i < |front| && |front[i]| > LOG_CAP &&
        forall j | 0 <= j < |front| && j != i :: front[j] == "";
      ConcatSingle(CutAll(front), i);
      assert last == "";
      forall j | 0 <= j < |posts| && j != i ensures posts[j] == "" {
        assert j < n ==> posts[j] == front[j];
      }
      assert posts[i] == front[i];
    }
  }

  /** In every case the live buffer shows a prefix of the durable log. */
  lemma LiveBelowDurable(posts: seq<string>)
    ensures Trunc(Concat(CutAll(posts))) <= Trunc(Concat(posts))
  {
    CutConcat(posts);
  }

  /**
   The live buffer of a job that received these POSTs agrees with the durable log of the same
   bytes, unless all of them came in one POST over the cap. Then the live buffer is cut
   without a marker.
   */
  lemma LiveIsDurableIff(posts: seq<string>)
    ensures Trunc(Concat(CutAll(posts))) == Trunc(Concat(posts)) <==> !OneOversizedPost(posts)
  {
    var cut, all := Concat(CutAll(posts)), Concat(posts);
    CutConcat(posts);
    if |all| > LOG_CAP && |cut| <= LOG_CAP {
      CutHidesOverflow(posts);
    }
    if OneOversizedPost(posts) {
      var i :| 0 <= i < |posts| && |posts[i]| > LOG_CAP &&
        forall j | 0 <= j < |posts| && j != i :: posts[j] == "";
      ConcatSingle(posts, i);
      ConcatSingle(CutAll(posts), i);
      assert |Trunc(all)| > LOG_CAP && |Trunc(cut)| == LOG_CAP;
    }
  }

  // ---------- The buffer ----------

  datatype LiveLog = LiveLog(buf: string, finished: bool, truncated: bool, updated: int)

  /** A buffer that has received these bytes. */
  predicate Shows(lg: LiveLog, received: string) {
    lg.buf == Trunc(received) && lg.truncated == (|received| > LOG_CAP)
  }

  class LiveLogs {
    var jobs: map<int, LiveLog>

    constructor ()
      ensures jobs == map[]
    {
      jobs := map[];
    }

    /** An absent buffer has received nothing. */
    predicate Received(job: int, bytes: string)
      reads this
    {
      if job in jobs then Shows(jobs[job], bytes) else bytes == ""
    }

    method Append(job: int, chunk: string, now: int)
      modifies this
      ensures jobs.Keys == old(jobs).Keys + {job}
      ensures forall bytes | old(Received(job, bytes)) :: Received(job, bytes + chunk)
      ensures jobs[job].updated == now && jobs[job].finished == (job in old(jobs) && old(jobs)[job].finished)
      ensures forall other | other in old(jobs) && other != job :: jobs[other] == old(jobs)[other]
    {
      var lg := if job in jobs then jobs[job] else LiveLog("", false, false, now);
      lg := lg.(updated := now);
      if lg.truncated {
        forall bytes | old(Received(job, bytes)) ensures Shows(lg, bytes + chunk) {
          assert (bytes + chunk)[..LOG_CAP] == bytes[..LOG_CAP];
        }
        jobs := jobs[job := lg];
        return;
      }
      var room := LOG_CAP - |lg.buf|;
      if |chunk| > room {
        if room > 0 {
          lg := lg.(buf := lg.buf + chunk[..room]);
        }
        forall bytes | old(Received(job, bytes)) ensures lg.buf == (bytes + chunk)[..LOG_CAP] {
        }
        lg := lg.(buf := lg.buf + LOG_TRUNCATION_MARKER, truncated := true);
        jobs := jobs[job := lg];
        return;
      }
      jobs := jobs[job := lg.(buf := lg.buf + chunk)];
    }

    method Finish(job: int, now: int)
      modifies this
      ensures jobs.Keys == old(jobs).Keys
      ensures job in jobs ==> jobs[job] == old(jobs)[job].(finished := true, updated := now)
      ensures forall other | other in jobs && other != job :: jobs[other] == old(jobs)[other]
    {
      if job in jobs {
        jobs := jobs[job := jobs[job].(finished := true, updated := now)];
      }
    }

    /** The bytes from an offset on, clamped into the buffer, and the offset to go on from. */
    method Read(job: int, offset: int) returns (data: string, next: int, finished: bool, ok: bool)
      ensures ok <==> job in jobs
      ensures !ok ==> data == "" && next == offset && !finished
      ensures ok ==> next == |jobs[job].buf| && finished == jobs[job].finished
      ensures ok && 0 <= offset <= next ==> jobs[job].buf == jobs[job].buf[..offset] + data
      ensures ok && offset < 0 ==> data == jobs[job].buf
      ensures ok && offset > next ==> data == ""
    {
      if job !in jobs {
        return "", offset, false, false;
      }
      var buf := jobs[job].buf;
      var from := if offset < 0 then 0 else if offset > |buf| then |buf| else offset;
      return buf[from..], |buf|, jobs[job].finished, true;
    }

    method Sweep(now: int, ttl: int)
      modifies this
      ensures jobs == map j <- old(jobs) | now - old(jobs)[j].updated <= ttl :: old(jobs)[j]
    {
      var left := jobs.Keys;
      while exists j :: j in left
        invariant left <= old(jobs).Keys
        invariant jobs == map j <- old(jobs) | j in left || now - old(jobs)[j].updated <= ttl :: old(jobs)[j]
        decreases left
      {
        var job :| job in left;
        left := left - {job};
        if now - jobs[job].updated > ttl {
          jobs := jobs - {job};
        }
      }
    }
  }

  method HandleLogChunk(live: LiveLogs, job: int, body: string, now: int)
    modifies live
    ensures live.jobs.Keys == old(live.jobs).Keys + {job}
    ensures forall bytes | old(live.Received(job, bytes)) :: live.Received(job, bytes + Cut(body))
    ensures forall other | other in old(live.jobs) && other != job :: live.jobs[other] == old(live.jobs)[other]
  {
    var chunk := if |body| > LOG_CAP then body[..LOG_CAP] else body;
    live.Append(job, chunk, now);
  }

  /** What storeLog puts into the store. */
  method StoreLog(body: string) returns (data: string)
    ensures data == Trunc(body)
  {
    data := if |body| > LOG_CAP + 1 then body[..LOG_CAP + 1] else body;
    if |data| > LOG_CAP {
      data := data[..LOG_CAP] + LOG_TRUNCATION_MARKER;
    }
  }

  // ---------- The streamer ----------

  class LogStreamer {
    var pending: string

    constructor ()
      ensures pending == ""
    {
      pending := "";
    }

    method Write(p: string) returns (n: nat)
      modifies this
      ensures pending == old(pending) + p && n == |p|
    {
      pending := pending + p;
      return |p|;
    }

    /** The first half of a flush, under the lock. The second half is the POST. */
    method TakePending() returns (chunk: string)
      modifies this
      ensures chunk == old(pending) && pending == ""
    {
      chunk := pending;
      pending := "";
    }
  }

  /**
   What happens around a job: its output is written, the ticker fires, the POST of the flush
   that is under way arrives, the page polls.
   */
  datatype Event = Wrote(p: string) | Ticked | Posted | Polled

  function Written(events: seq<Event>): string {
    if events == [] then ""
    else
      var e := events[|events| - 1];
      Written(events[..|events| - 1]) + if e.Wrote? then e.p else ""
  }

  /** The writes in order, and nothing else that happens, make up the output. */
  lemma WrittenIs(events: seq<Event>, e: Event)
    ensures Written([]) == ""
    ensures Written(events + [e]) == Written(events) + if e.Wrote? then e.p else ""
  {
    assert (events + [e])[..|events|] == events;
  }

  /** The pieces the page has collected in its polls. */
  class Page {
    var offset: int
    var text: string

    constructor ()
      ensures offset == 0 && text == ""
    {
      offset, text := 0, "";
    }

    /** What was collected so far, continued to the end of the buffer. */
    method Poll(live: LiveLogs, job: int)
      requires offset == |text|
      requires if job in live.jobs then text <= live.jobs[job].buf else text == ""
      modifies this
      ensures offset == |text|
      ensures text == if job in live.jobs then live.jobs[job].buf else ""
    {
      var data, next, _, ok := live.Read(job, offset);
      if ok {
        text := text + data;
        offset := next;
      }
    }
  }

  /** One job while it runs: its streamer, the leader's buffers, a page that watches. */
  class Session {
    const job: int
    const live: LiveLogs
    const streamer: LogStreamer
    const page: Page
    /** The chunk that the flush under way has taken and not posted yet; "" for none. */
    var inFlight: string
    ghost var written: string
    ghost var posts: seq<string>

    ghost predicate Valid()
      reads this, live, streamer, page
    {
      && written == Concat(posts) + inFlight + streamer.pending
      && live.Received(job, Concat(CutAll(posts)))
      && page.offset == |page.text|
      && if job in live.jobs then page.text <= live.jobs[job].buf else page.text == ""
    }

    constructor (job: int, live: LiveLogs)
      requires job !in live.jobs
      ensures Valid() && written == "" && posts == [] && this.live == live && this.job == job
      ensures fresh(streamer) && fresh(page)
    {
      this.job, this.live, this.inFlight, this.written, this.posts := job, live, "", "", [];
      streamer := new LogStreamer();
      page := new Page();
    }

    /** The page never shows anything but a prefix of the durable log of the output so far. */
    ghost predicate Honest()
      reads this, page
    {
      page.text <= Trunc(written)
    }

    lemma ValidIsHonest()
      requires Valid()
      ensures Honest()
    {
      LiveBelowDurable(posts);
      TruncGrows(Concat(posts), written);
    }

    /** Posts the chunk in flight, if there is one. */
    method Post()
      requires Valid()
      modifies this`inFlight, this`posts, live
      ensures Valid() && inFlight == "" && old(posts) <= posts
    {
      if |inFlight| > 0 {
        ghost var before := Concat(posts) + inFlight;
        ghost var after := Deliver(live, job, inFlight, posts, page.text);
        assert Concat(after) + "" == before;
        posts := after;
        inFlight := "";
      }
    }

    method Happens(e: Event)
      requires Valid()
      modifies this`inFlight, this`written, this`posts, live, streamer, page
      ensures Valid()
      ensures written == old(written) + if e.Wrote? then e.p else ""
      ensures e.Polled? ==> page.text == if job in live.jobs then live.jobs[job].buf else ""
      ensures old(posts) <= posts
    {
      match e
      case Wrote(p) =>
        assert written + p == Concat(posts) + inFlight + (streamer.pending + p);
        var _ := streamer.Write(p);
        written := written + p;
      case Ticked =>
        if |inFlight| == 0 {
          assert Concat(posts) + inFlight == Concat(posts);
          inFlight := streamer.TakePending();
        }
      case Posted =>
        Post();
      case Polled =>
        page.Poll(live, job);
    }

    /**
     Any split of the output into writes and flushes, polled at any moments, no POST dropped
     and the buffer not swept.
     */
    method Run(events: seq<Event>)
      requires Valid() && written == ""
      modifies this`inFlight, this`written, this`posts, live, streamer, page
      ensures Valid() && Honest()
      ensures written == Written(events)
    {
      for i := 0 to |events|
        invariant Valid()
        invariant written == Written(events[..i])
      {
        assert events[..i + 1][..i] == events[..i];
        Happens(events[i]);
      }
      assert events[..|events|] == events;
      ValidIsHonest();
    }

    /** The final flush. */
    method Flush()
      requires Valid() && inFlight == ""
      modifies this`inFlight, this`posts, live, streamer
      ensures Valid() && Concat(posts) == written && old(posts) <= posts
    {
      assert Concat(posts) + inFlight == Concat(posts);
      inFlight := streamer.TakePending();
      Post();
      assert written == Concat(posts) + "" + "";
    }

    /**
     The runner stops the streamer, which flushes what is left, and the page polls once more.
     It then has the durable log, but for a log that came in one oversized POST.
     */
    method Stop()
      requires Valid()
      modifies this`inFlight, this`posts, live, streamer, page
      ensures Valid() && Concat(posts) == written && old(posts) <= posts
      ensures page.text == Trunc(written) <==> !OneOversizedPost(posts)
      ensures (forall p <- posts :: |p| <= LOG_CAP) ==> page.text == Trunc(written)
    {
      Post();
      Flush();
      page.Poll(live, job);
      LiveIsDurableIff(posts);
    }
  }

  method Deliver(live: LiveLogs, job: int, chunk: string, ghost posts: seq<string>, ghost seen: string)
    returns (ghost posts': seq<string>)
    requires live.Received(job, Concat(CutAll(posts)))
    requires if job in live.jobs then seen <= live.jobs[job].buf else seen == ""
    modifies live
    ensures posts' == posts + [chunk] && Concat(posts') == Concat(posts) + chunk
    ensures live.Received(job, Concat(CutAll(posts'))) && job in live.jobs
    ensures seen <= live.jobs[job].buf
  {
    HandleLogChunk(live, job, chunk, 0);
    posts' := posts + [chunk];
    ConcatOne(posts, chunk);
    ConcatOne(CutAll(posts), Cut(chunk));
    assert CutAll(posts') == CutAll(posts) + [Cut(chunk)];
    TruncGrows(Concat(CutAll(posts)), Concat(CutAll(posts')));
  }
}
