/** The answer to a search request, from the files and the keyword alone, and what
    a client is told of it. As in `Text`, everything is written out: the sizes of
    the fields, the length of a path, the shape of a reported line. */
module Answer {
  import opened Base
  import opened LineSearch
  import opened Text
  import opened Chunking
  import opened Scheduler
  import opened Cluster
  import opened Tables
  import opened Conservation
  import opened EndToEnd
  import opened Results
  import opened History

  // --------------------------------------------------------- the true answer

  /** The keyword as far as it is searched for: 63 bytes, up to the first NUL. */
  function Pattern(keyword: Bytes): Bytes {
    var s := BeforeNul(keyword);
    if |s| <= 63 then s else s[..63]
  }

  /** The lines of a file, which `Contents` makes unique. */
  ghost function Parsed(d: Bytes): (f: TextFile)
    ensures IsText(f) && Contents(f) == d
  {
    EveryText(d);
    var f :| IsText(f) && Contents(f) == d;
    f
  }

  lemma EveryText(d: Bytes)
    ensures exists f :: IsText(f) && Contents(f) == d
  {
    var f := EveryFileIsText(d);
  }

  /** What is reported for one file; nothing when it cannot be measured or its path
      is too long. */
  ghost function AnswerOf(w: World, keyword: Bytes, name: Bytes): seq<Bytes> {
    if name in w.files && |name| <= 255
      then Shown(name, Hits(w.compile(Pattern(keyword)), Lines(Parsed(w.files[name]))))
      else []
  }

  ghost function AnswerTo(w: World, keyword: Bytes, names: seq<Bytes>): seq<Bytes> {
    if names == [] then []
    else AnswerTo(w, keyword, names[..|names| - 1]) + AnswerOf(w, keyword, names[|names| - 1])
  }

  lemma PatternIsField(keyword: Bytes)
    ensures CString(keyword, KEYWORD_FIELD) == Pattern(keyword)
  {
    CStringExact(keyword, KEYWORD_FIELD);
  }

  /** However a file is written as lines of text, its answer is the matching ones. */
  lemma AnswerOnText(w: World, keyword: Bytes, name: Bytes, f: TextFile)
    requires IsText(f) && name in w.files && w.files[name] == Contents(f) && |name| <= 255
    ensures AnswerOf(w, keyword, name) == Shown(name, Hits(w.compile(Pattern(keyword)), Lines(f)))
  {
    var rx := w.compile(Pattern(keyword));
    GrepOfText(rx, f);
    GrepOfText(rx, Parsed(w.files[name]));
  }

  lemma GrepFileIsAnswer(w: World, keyword: Bytes, name: Bytes)
    ensures GrepFile(w, keyword, name) == AnswerOf(w, keyword, name)
  {
    PatternIsField(keyword);
    if name in w.files {
      var rx, f := w.compile(Pattern(keyword)), Parsed(w.files[name]);
      GrepOfText(rx, f);
      ShownIs(name, Hits(rx, Lines(f)));
      if w.files[name] == [] {
        assert Grep(rx, Split([])) == [];
      }
    }
  }

  /** The reference answer is the answer. */
  lemma {:induction false} GrepFilesIsAnswer(w: World, keyword: Bytes, names: seq<Bytes>)
    ensures GrepFiles(w, keyword, names) == AnswerTo(w, keyword, names)
    decreases |names|
  {
    if names != [] {
      GrepFilesIsAnswer(w, keyword, names[..|names| - 1]);
      GrepFileIsAnswer(w, keyword, names[|names| - 1]);
    }
  }

  /** What one task finds in a text. */
  lemma TaskAnswer(w: World, task: Task, f: TextFile)
    requires IsText(f) && task.filename in w.files && w.files[task.filename] == Contents(f)
    ensures TaskMatches(w, task) ==
      Shown(task.filename, Hits(w.compile(task.keyword), Starting(Lines(f), 0, task.start, task.end)))
  {
    var rx := w.compile(task.keyword);
    MatchesOfText(rx, f, task.start, task.end);
    ShownIs(task.filename, Hits(rx, Starting(Lines(f), 0, task.start, task.end)));
  }

  // ------------------------------------------------------------- the tasks

  /** Every field of every task of a file. */
  lemma PlannedChunk(w: World, plan: Plan, searchId: nat, name: Bytes, i: nat)
    requires 0 !in name
    ensures i < |FileTasks(w, plan, searchId, name)| <==>
      name in w.files && |name| <= 255 && i * 5242880 < |w.files[name]|
    ensures i < |FileTasks(w, plan, searchId, name)| ==>
      var start, size := i * 5242880, |w.files[name]|;
      FileTasks(w, plan, searchId, name)[i] ==
        Task(searchId, 0, plan.maxResults, start, if start + 5242880 < size then start + 5242880 else size,
             Pattern(plan.keyword), name)
  {
    PatternIsField(plan.keyword);
    if name in w.files {
      CStringExact(name, FILENAME_FIELD);
      ChunkAt(BaseTask(plan, searchId, name), |w.files[name]|, CHUNK_SIZE, 0, i);
    }
  }

  // -------------------------------------------------------- what a client sees

  /** The end-to-end result in terms of the files alone. */
  lemma DoneMeansAnswered(w: World, trace: seq<State>, k: nat, sid: nat)
    requires WorldFits(w) && IsRun(w, trace) && trace[0] == START && k < |trace|
    requires GetStatus(trace[k].master, sid).Some?
    ensures sid < |trace[k].requests|
    ensures
      var s := trace[k];
      var plan := s.requests[sid];
      var status := GetStatus(s.master, sid).value;
      var answer := AnswerTo(w, plan.keyword, plan.names);
      |PlanTasks(w, plan, sid)| <= 0x7FFF_FFFF && status.done ==>
        && status.totalMatches == |answer| % 0x1_0000_0000_0000_0000
        && status.linesFound == (if |answer| < plan.maxResults then |answer| else plan.maxResults)
        && sid in s.output && |s.output[sid]| == status.linesFound
        && multiset(s.output[sid]) <= multiset(answer)
        && (|answer| <= plan.maxResults ==> multiset(s.output[sid]) == multiset(answer))
  {
    DoneMeansGrep(w, trace, k, sid);
    var plan := trace[k].requests[sid];
    GrepFilesIsAnswer(w, plan.keyword, plan.names);
  }

  /** At any moment a status reports as many scan errors as files failed. */
  lemma ErrorsReported(w: World, trace: seq<State>, k: nat, sid: nat)
    requires WorldFits(w) && IsRun(w, trace) && trace[0] == START && k < |trace|
    requires GetStatus(trace[k].master, sid).Some?
    ensures sid < |trace[k].requests|
    ensures GetStatus(trace[k].master, sid).value.scanErrors == |FailedAt(w, trace[k].requests[sid].names)|
  {
    InvAlways(w, trace, k);
    StatusMeaning(w, trace[k], sid);
    ErrorsAreFailures(w, trace[k].requests[sid].names);
  }

  // ------------------------------------------------------ accepted or refused

  /** A request is published or about to be, or was refused. */
  ghost predicate Decided(s: State, sid: nat) {
    sid in s.master.sessions || Publishing(sid) in s.threads
  }

  ghost predicate AllDecided(w: World, s: State) {
    forall sid: nat :: sid < |s.requests| ==> (Decided(s, sid) <==> !Refused(w, s.requests[sid]))
  }

  lemma DecidedStart(w: World, s: State, plan: Plan)
    requires SearchesOk(w, s) && AllDecided(w, s)
    ensures AllDecided(w, ApplyStart(w, s, plan))
  {
    var s' := ApplyStart(w, s, plan);
    forall sid: nat | sid < |s'.requests|
      ensures Decided(s', sid) <==> !Refused(w, s'.requests[sid])
    {
      if sid < |s.requests| {
        assert Decided(s, sid) <==> !Refused(w, s.requests[sid]);
      } else if Refused(w, plan) {
        assert s'.threads == s.threads && sid !in s.master.sessions;
      } else {
        assert s'.threads[|s.threads|] == Publishing(sid);
      }
    }
  }

  /** Nothing is published, and no handler about to publish comes or goes. */
  lemma DecidedSame(w: World, s: State, s': State)
    requires AllDecided(w, s) && s'.requests == s.requests && s'.master.sessions.Keys == s.master.sessions.Keys
    requires forall sid: nat :: Publishing(sid) in s'.threads <==> Publishing(sid) in s.threads
    ensures AllDecided(w, s')
  {
    forall sid: nat | sid < |s'.requests| ensures Decided(s', sid) <==> Decided(s, sid) {
      assert sid in s'.master.sessions.Keys <==> sid in s.master.sessions.Keys;
    }
  }

  lemma DecidedPublish(w: World, s: State, i: nat, searchId: nat)
    requires SearchesOk(w, s) && AllDecided(w, s) && i < |s.threads| && s.threads[i] == Publishing(searchId)
    ensures AllDecided(w, StepPublish(w, s, i, searchId))
  {
    var s' := StepPublish(w, s, i, searchId);
    forall sid: nat | sid < |s'.requests| ensures Decided(s', sid) <==> Decided(s, sid) {
      if sid == searchId {
        assert sid in s'.master.sessions;
      } else if Publishing(sid) in s.threads {
        var j :| 0 <= j < |s.threads| && s.threads[j] == Publishing(sid);
        assert s'.threads[j] == Publishing(sid);
      }
    }
  }

  lemma SamePublishing(threads: seq<Pc>, i: nat, pc: Pc)
    requires i < |threads| && !threads[i].Publishing? && !pc.Publishing?
    ensures forall sid: nat :: Publishing(sid) in threads[i := pc] <==> Publishing(sid) in threads
  {
    forall sid: nat ensures Publishing(sid) in threads[i := pc] <==> Publishing(sid) in threads {
      if Publishing(sid) in threads {
        var j :| 0 <= j < |threads| && threads[j] == Publishing(sid);
        assert threads[i := pc][j] == Publishing(sid);
      }
    }
  }

  lemma DecidedStep(w: World, s: State, i: nat)
    requires Inv(w, s) && AllDecided(w, s) && i < |s.threads|
    ensures AllDecided(w, StepThread(w, s, i))
  {
    if s.threads[i].Publishing? {
      DecidedPublish(w, s, i, s.threads[i].searchId);
      assert StepThread(w, s, i) == StepPublish(w, s, i, s.threads[i].searchId);
    } else {
      StepKeepsSearches(w, s, i);
      SamePublishing(s.threads, i, StepThread(w, s, i).threads[i]);
      DecidedSame(w, s, StepThread(w, s, i));
    }
  }

  /** A new handler that is not about to publish. */
  lemma DecidedMore(w: World, s: State, s': State, pc: Pc)
    requires AllDecided(w, s) && s'.requests == s.requests && s'.master.sessions == s.master.sessions
    requires s'.threads == s.threads + [pc] && !pc.Publishing?
    ensures AllDecided(w, s')
  {
    DecidedSame(w, s, s');
  }

  lemma DecidedTaskDone(w: World, s: State, client: nat, body: Bytes)
    requires AllDecided(w, s)
    ensures AllDecided(w, ApplyTaskDone(s, client, body))
  {
    var s' := ApplyTaskDone(s, client, body);
    if |s'.threads| > |s.threads| {
      DecidedMore(w, s, s', s'.threads[|s.threads|]);
    }
  }

  lemma DecidedNext(w: World, s: State, e: Event)
    requires Inv(w, s) && AllDecided(w, s) && Enabled(w, s, e)
    ensures AllDecided(w, Apply(w, s, e))
  {
    match e
    case StartSearch(plan) => DecidedStart(w, s, plan);
    case Step(i) => DecidedStep(w, s, i);
    case Hello(client, threads) => DecidedMore(w, s, ApplyHello(s, client, threads), Greeting(client, threads));
    case TaskDone(client, body) => DecidedTaskDone(w, s, client, body);
    case Disconnect(client, order) => DecidedMore(w, s, ApplyDisconnect(s, client, order), Assigning);
  }

  lemma DecidedFollows(w: World, trace: seq<State>, k: nat)
    requires WorldFits(w) && IsRun(w, trace) && trace[0] == START && k + 1 < |trace|
    requires AllDecided(w, trace[k])
    ensures AllDecided(w, trace[k + 1])
  {
    InvAlways(w, trace, k);
    assert StepAt(w, trace, k);
    var e :| Enabled(w, trace[k], e) && trace[k + 1] == Apply(w, trace[k], e);
    DecidedNext(w, trace[k], e);
  }

  lemma NoneToDecide(w: World)
    ensures AllDecided(w, START)
  {
  }

  lemma {:induction false} DecidedAlways(w: World, trace: seq<State>, k: nat)
    requires WorldFits(w) && IsRun(w, trace) && trace[0] == START && k < |trace|
    ensures AllDecided(w, trace[k])
    decreases k
  {
    if k == 0 {
      NoneToDecide(w);
    } else {
      DecidedAlways(w, trace, k - 1);
      DecidedFollows(w, trace, k - 1);
    }
  }

  /** In every state of every run: a request has a session or a handler about to
      publish it, unless nothing of it could be searched and something failed. */
  lemma AcceptedExactly(w: World, trace: seq<State>, k: nat, sid: nat)
    requires WorldFits(w) && IsRun(w, trace) && trace[0] == START && k < |trace| && sid < |trace[k].requests|
    ensures Decided(trace[k], sid) <==> !Unsearchable(w, trace[k].requests[sid].names)
  {
    DecidedAlways(w, trace, k);
    RefusedExactly(w, trace[k].requests[sid]);
  }
}
