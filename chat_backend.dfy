/**
 * The thread catalogue of the chat back end: `retrieve_all_threads` lists
 * every conversation thread found in the checkpoint store, once each, with a
 * title cut from its first message.
 *
 * The store itself is not modelled: its listing is a sequence of checkpoints
 * reduced to the two things the function reads, the thread id and the
 * message list of the checkpoint's state.
 */
module ChatBackend {
  import opened Wrappers
  import opened Text
  import opened ChatTypes

  datatype Checkpoint = Checkpoint(threadId: string, messages: seq<Message>)

  /** `messages[0]` on an empty message list. */
  datatype RetrieveError = IndexError

  /** Titles keep at most this many characters of the first message. */
  const TitleLength: nat := 30

  function TitleOf(c: Checkpoint): (title: string)
    requires |c.messages| > 0
    ensures |title| == Min(|c.messages[0].content|, TitleLength)
    ensures title <= c.messages[0].content
  {
    Prefix(c.messages[0].content, TitleLength)
  }

  function CheckpointIds(cps: seq<Checkpoint>): set<string> {
    set i | 0 <= i < |cps| :: cps[i].threadId
  }

  /** Checkpoint `i` is the first of its thread in the listing. */
  ghost predicate FirstOccurrence(cps: seq<Checkpoint>, i: nat)
    requires i < |cps|
  {
    cps[i].threadId !in CheckpointIds(cps[..i])
  }

  /**
   * The catalogue after reading the listing from the left: a thread not yet
   * seen is added with the title of this checkpoint; a seen one is skipped.
   */
  function Retrieve(cps: seq<Checkpoint>): Result<seq<ThreadInfo>, RetrieveError>
    decreases |cps|
  {
    if cps == [] then Ok([])
    else
      var c := cps[|cps| - 1];
      match Retrieve(cps[..|cps| - 1])
      case Err(e) => Err(e)
      case Ok(ts) =>
        if c.threadId in IdSet(ts) then Ok(ts)
        else if |c.messages| == 0 then Err(IndexError)
        else Ok(ts + [ThreadInfo(c.threadId, TitleOf(c))])
  }

  lemma CheckpointIdsAppend(cps: seq<Checkpoint>)
    requires |cps| > 0
    ensures CheckpointIds(cps) == CheckpointIds(cps[..|cps| - 1]) + {cps[|cps| - 1].threadId}
  {
    var p := cps[..|cps| - 1];
    forall id | id in CheckpointIds(cps) ensures id in CheckpointIds(p) + {cps[|cps| - 1].threadId} {
      var i :| 0 <= i < |cps| && cps[i].threadId == id;
      if i < |p| {
        assert p[i].threadId == id;
      }
    }
    forall id | id in CheckpointIds(p) ensures id in CheckpointIds(cps) {
      var i :| 0 <= i < |p| && p[i].threadId == id;
      assert cps[i].threadId == id;
    }
  }

  /** Reading more checkpoints only extends the catalogue: earlier entries and titles never change. */
  lemma {:induction false} RetrievePrefix(cps: seq<Checkpoint>, n: nat)
    requires n <= |cps|
    requires Retrieve(cps).Ok?
    ensures Retrieve(cps[..n]).Ok? && Retrieve(cps[..n]).value <= Retrieve(cps).value
    decreases |cps|
  {
    if n < |cps| {
      var p := cps[..|cps| - 1];
      assert p[..n] == cps[..n];
      RetrievePrefix(p, n);
    } else {
      assert cps[..n] == cps;
    }
  }

  /** One more checkpoint read after a prefix that succeeded. */
  lemma RetrieveNext(cps: seq<Checkpoint>, n: nat)
    requires n < |cps| && Retrieve(cps[..n]).Ok?
    ensures var ts, c := Retrieve(cps[..n]).value, cps[n];
      Retrieve(cps[..n + 1]) ==
        if c.threadId in IdSet(ts) then Ok(ts)
        else if |c.messages| == 0 then Err(IndexError)
        else Ok(ts + [ThreadInfo(c.threadId, TitleOf(c))])
  {
    assert cps[..n + 1][..n] == cps[..n];
  }

  /** Once a prefix of the listing fails, the whole listing fails. */
  lemma RetrieveErrExtends(cps: seq<Checkpoint>, n: nat)
    requires n <= |cps| && Retrieve(cps[..n]).Err?
    ensures Retrieve(cps) == Err(IndexError)
  {
    match Retrieve(cps)
    case Ok(_) =>
      RetrievePrefix(cps, n);
      assert false;
    case Err(IndexError) =>
  }

  /** The step of `Retrieve` over the last checkpoint, spelled out. */
  lemma RetrieveStep(cps: seq<Checkpoint>)
    requires |cps| > 0 && Retrieve(cps).Ok?
    ensures Retrieve(cps[..|cps| - 1]).Ok?
    ensures var ts', c := Retrieve(cps[..|cps| - 1]).value, cps[|cps| - 1];
      if c.threadId in IdSet(ts') then Retrieve(cps).value == ts'
      else |c.messages| > 0 && Retrieve(cps).value == ts' + [ThreadInfo(c.threadId, TitleOf(c))]
    ensures CheckpointIds(cps) == CheckpointIds(cps[..|cps| - 1]) + {cps[|cps| - 1].threadId}
    ensures forall i :: 0 <= i < |cps| - 1 ==> cps[..i] == cps[..|cps| - 1][..i]
  {
    CheckpointIdsAppend(cps);
  }

  /** Exactly the threads of the listing are catalogued. */
  lemma {:induction false} RetrieveIds(cps: seq<Checkpoint>)
    requires Retrieve(cps).Ok?
    ensures IdSet(Retrieve(cps).value) == CheckpointIds(cps)
    decreases |cps|
  {
    if cps != [] {
      var p, c := cps[..|cps| - 1], cps[|cps| - 1];
      RetrieveStep(cps);
      RetrieveIds(p);
      var ts' := Retrieve(p).value;
      if c.threadId !in IdSet(ts') {
        IdSetAppend(ts', ThreadInfo(c.threadId, TitleOf(c)));
      }
    }
  }

  /** No thread is catalogued twice. */
  lemma {:induction false} RetrieveDistinct(cps: seq<Checkpoint>)
    requires Retrieve(cps).Ok?
    ensures DistinctIds(Retrieve(cps).value)
    decreases |cps|
  {
    if cps != [] {
      RetrieveStep(cps);
      RetrieveDistinct(cps[..|cps| - 1]);
    }
  }

  /** The catalogue is no longer than the listing. */
  lemma {:induction false} RetrieveLength(cps: seq<Checkpoint>)
    requires Retrieve(cps).Ok?
    ensures |Retrieve(cps).value| <= |cps|
    decreases |cps|
  {
    if cps != [] {
      RetrieveStep(cps);
      RetrieveLength(cps[..|cps| - 1]);
    }
  }

  /**
   * Threads are listed in the order they first occur: wherever a later-listed
   * thread occurs, an earlier-listed one has already occurred.
   */
  lemma {:induction false} RetrieveOrder(cps: seq<Checkpoint>)
    requires Retrieve(cps).Ok?
    ensures var ts := Retrieve(cps).value;
      forall j, k, i :: 0 <= j < k < |ts| && 0 <= i < |cps| && cps[i].threadId == ts[k].id
        ==> ts[j].id in CheckpointIds(cps[..i])
    decreases |cps|
  {
    if cps != [] {
      var n := |cps|;
      var p, c := cps[..n - 1], cps[n - 1];
      RetrieveStep(cps);
      RetrieveOrder(p);
      RetrieveIds(p);
      assert cps[..n - 1] == p;
      var ts', ts := Retrieve(p).value, Retrieve(cps).value;
      forall j, k, i | 0 <= j < k < |ts| && 0 <= i < n && cps[i].threadId == ts[k].id
        ensures ts[j].id in CheckpointIds(cps[..i])
      {
        assert ts[j] == ts'[j];
        assert ts'[j].id in IdSet(ts');
        if i < n - 1 {
          assert p[i] == cps[i];
          assert ts[k].id in IdSet(ts');
        }
      }
    }
  }

  /** Each title is cut from the first message of the thread's first checkpoint. */
  ghost predicate TitledByFirst(cps: seq<Checkpoint>, t: ThreadInfo) {
    exists i :: 0 <= i < |cps| && FirstOccurrence(cps, i) && cps[i].threadId == t.id
                && |cps[i].messages| > 0 && t.title == TitleOf(cps[i])
  }

  lemma {:induction false} RetrieveTitles(cps: seq<Checkpoint>)
    requires Retrieve(cps).Ok?
    ensures forall j :: 0 <= j < |Retrieve(cps).value| ==> TitledByFirst(cps, Retrieve(cps).value[j])
    decreases |cps|
  {
    if cps != [] {
      var n := |cps|;
      var p, c := cps[..n - 1], cps[n - 1];
      RetrieveStep(cps);
      RetrieveTitles(p);
      RetrieveIds(p);
      assert cps[..n - 1] == p;
      var ts', ts := Retrieve(p).value, Retrieve(cps).value;
      forall j | 0 <= j < |ts| ensures TitledByFirst(cps, ts[j]) {
        if j < |ts'| {
          assert TitledByFirst(p, ts'[j]);
          var i :| 0 <= i < |p| && FirstOccurrence(p, i) && p[i].threadId == ts'[j].id
                   && |p[i].messages| > 0 && ts'[j].title == TitleOf(p[i]);
          assert p[i] == cps[i] && p[..i] == cps[..i];
          assert FirstOccurrence(cps, i);
        } else {
          assert FirstOccurrence(cps, n - 1);
        }
      }
    }
  }

  /** The catalogue fails exactly when the first checkpoint of some thread has no messages. */
  lemma RetrieveFails(cps: seq<Checkpoint>)
    ensures Retrieve(cps).Err?
        <==> exists i :: 0 <= i < |cps| && FirstOccurrence(cps, i) && |cps[i].messages| == 0
  {
    if Retrieve(cps).Err? {
      RetrieveFailsWitness(cps);
    }
    if exists i :: 0 <= i < |cps| && FirstOccurrence(cps, i) && |cps[i].messages| == 0 {
      var i :| 0 <= i < |cps| && FirstOccurrence(cps, i) && |cps[i].messages| == 0;
      if Retrieve(cps).Ok? {
        RetrievePrefix(cps, i + 1);
        var q := cps[..i + 1];
        assert q[..i] == cps[..i];
        assert Retrieve(q[..i]).Ok? by {
          RetrievePrefix(q, i);
        }
        RetrieveIds(q[..i]);
        assert false;
      }
    }
  }

  lemma {:induction false} RetrieveFailsWitness(cps: seq<Checkpoint>)
    requires Retrieve(cps).Err?
    ensures exists i :: 0 <= i < |cps| && FirstOccurrence(cps, i) && |cps[i].messages| == 0
    decreases |cps|
  {
    var n := |cps|;
    var p := cps[..n - 1];
    if Retrieve(p).Err? {
      RetrieveFailsWitness(p);
      var i :| 0 <= i < |p| && FirstOccurrence(p, i) && |p[i].messages| == 0;
      assert cps[..i] == p[..i];
      assert FirstOccurrence(cps, i);
    } else {
      RetrieveIds(p);
      assert FirstOccurrence(cps, n - 1);
    }
  }

  /**
   * `retrieve_all_threads`: fills a dictionary keyed by thread id in one pass
   * over the listing (`order` is the dictionary's insertion order), then
   * lists its values.
   */
  method RetrieveAllThreads(checkpoints: seq<Checkpoint>) returns (r: Result<seq<ThreadInfo>, RetrieveError>)
    ensures r == Retrieve(checkpoints)
  {
    var allThreads: map<string, ThreadInfo> := map[];
    var order: seq<string> := [];
    ghost var ts: seq<ThreadInfo> := [];
    var i := 0;
    while i < |checkpoints|
      invariant 0 <= i <= |checkpoints|
      invariant Retrieve(checkpoints[..i]) == Ok(ts)
      invariant |order| == |ts|
      invariant allThreads.Keys == IdSet(ts)
      invariant forall k :: 0 <= k < |order| ==> order[k] in allThreads && allThreads[order[k]] == ts[k]
    {
      var c := checkpoints[i];
      RetrieveNext(checkpoints, i);
      if c.threadId !in allThreads {
        if |c.messages| == 0 {
          RetrieveErrExtends(checkpoints, i + 1);
          return Err(IndexError);
        }
        var t := ThreadInfo(c.threadId, TitleOf(c));
        IdSetAppend(ts, t);
        allThreads := allThreads[c.threadId := t];
        order := order + [c.threadId];
        ts := ts + [t];
      }
      i := i + 1;
    }
    assert checkpoints[..i] == checkpoints;
    var result := Values(allThreads, order);
    assert result == ts;
    r := Ok(result);
  }

  /** `[d[k] for k in d]`: the dictionary's values in insertion order. */
  method Values(d: map<string, ThreadInfo>, order: seq<string>) returns (vs: seq<ThreadInfo>)
    requires forall k :: 0 <= k < |order| ==> order[k] in d
    ensures |vs| == |order| && forall k :: 0 <= k < |order| ==> vs[k] == d[order[k]]
  {
    vs := [];
    var j := 0;
    while j < |order|
      invariant 0 <= j <= |order|
      invariant |vs| == j && forall k :: 0 <= k < j ==> vs[k] == d[order[k]]
    {
      vs := vs + [d[order[j]]];
      j := j + 1;
    }
  }
}
