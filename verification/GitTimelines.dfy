/**
  The timeline files of a session: one line per message directory, one file per timeline,
  and `ACTIVE`, which names the timeline of the newest message.
 */
module GitTimelines {
  import opened Text
  import opened Dag
  import opened Merkle
  import opened RoutingTypes
  import opened GitDag
  import opened GitHistory

  function Marks(ds: seq<Delivery>): (marks: seq<string>)
    ensures |marks| == |ds|
  {
    seq(|ds|, i requires 0 <= i < |ds| => TimelineOf(ds[i]))
  }

  /** The names marked `t`, in order. */
  function Marked(names: seq<string>, marks: seq<string>, t: string): seq<string>
    requires |names| == |marks|
  {
    if names == [] then []
    else
      var k := |names| - 1;
      Marked(names[..k], marks[..k], t) + (if marks[k] == t then [names[k]] else [])
  }

  /** The directories of one timeline, in the order they were committed. */
  function Lines(ds: seq<Delivery>, t: string): seq<string> { Marked(Names(ds), Marks(ds), t) }

  lemma LinesAppend(ds: seq<Delivery>, d: Delivery, dir: string, t: string)
    requires dir == DirOf(|ds| + 1, d)
    ensures Lines(ds + [d], t) == Lines(ds, t) + (if TimelineOf(d) == t then [dir] else [])
  {
    var more := ds + [d];
    assert Names(more)[..|ds|] == Names(ds) && Marks(more)[..|ds|] == Marks(ds);
    assert Names(more)[|ds|] == dir && Marks(more)[|ds|] == TimelineOf(d);
  }

  function Timelines(session: Tree): Tree { OrEmpty(SubTree(session, "timelines")) }

  predicate FileHolds(files: Tree, ds: seq<Delivery>, t: string) {
    if Lines(ds, t) == [] then t !in files else t in files && files[t] == Blob(Join(Lines(ds, t), '\n'))
  }

  ghost predicate FilesHold(files: Tree, ds: seq<Delivery>) {
    && (forall t {:trigger FileHolds(files, ds, t)} :: t != "ACTIVE" ==> FileHolds(files, ds, t))
    && (ds != [] ==> "ACTIVE" in files && files["ACTIVE"] == Blob(TimelineOf(ds[|ds| - 1])))
  }

  lemma FilesGrow(files: Tree, ds: seq<Delivery>, d: Delivery, dir: string)
    requires FilesHold(files, ds) && dir == DirOf(|ds| + 1, d)
    ensures FilesHold(NextTimelines(files, TimelineOf(d), dir), ds + [d])
  {
    var next := NextTimelines(files, TimelineOf(d), dir);
    forall t | t != "ACTIVE" ensures FileHolds(next, ds + [d], t) {
      assert FileHolds(files, ds, t);
      LinesAppend(ds, d, dir, t);
      FileGrows(files, Lines(ds, t), TimelineOf(d), dir, t);
    }
  }

  /** One file, by its lines. */
  lemma FileGrows(files: Tree, lines: seq<string>, timeline: string, dir: string, t: string)
    requires t != "ACTIVE" && if lines == [] then t !in files else t in files && files[t] == Blob(Join(lines, '\n'))
    ensures var next, more := NextTimelines(files, timeline, dir), lines + (if timeline == t then [dir] else []);
      if more == [] then t !in next else t in next && next[t] == Blob(Join(more, '\n'))
  {
    if timeline == t && lines != [] {
      JoinAppend(lines, dir, '\n');
      assert "\n" == ['\n'];
    } else if timeline == t {
      assert lines + [dir] == [dir];
    } else {
      assert lines + [] == lines;
    }
  }

  lemma AttemptFiles(root: Tree, sha: Hash, ds: seq<Delivery>, a: Attempt, agent: string, session: string)
    requires agent !in RESERVED && HoldsMessages(SessionTree(root, agent, session), sha, ds)
    requires FilesHold(Timelines(SessionTree(root, agent, session)), ds)
    requires IsFor(a, agent, session) ==> |ds| < LIMIT
    ensures FilesHold(Timelines(SessionTree(After(root, sha, a), agent, session)),
                      if IsFor(a, agent, session) then ds + [a.delivery] else ds)
  {
    var tree := SessionTree(root, agent, session);
    if IsFor(a, agent, session) {
      OwnSessionGrows(root, sha, a.delivery, a.metadata);
      NumberedIs(tree, sha, ds, a.delivery);
      FilesGrow(Timelines(tree), ds, a.delivery, DirOf(|ds| + 1, a.delivery));
    } else if Commits(a) {
      OtherSessionsStay(root, sha, a.delivery, a.metadata, agent, session);
    }
  }

  lemma {:induction false} HeadFiles(sha: Hash, attempts: seq<Attempt>, agent: string, session: string)
    requires agent !in RESERVED && |Mine(attempts, agent, session)| <= LIMIT
    ensures FilesHold(Timelines(SessionTree(Head(sha, attempts), agent, session)), Mine(attempts, agent, session))
  {
    if attempts != [] {
      var k := |attempts| - 1;
      var ds, es := Mine(attempts[..k], agent, session), Mine(attempts, agent, session);
      var a := attempts[k];
      assert es == if IsFor(a, agent, session) then ds + [a.delivery] else ds;
      HeadFiles(sha, attempts[..k], agent, session);
      HeadHolds(sha, attempts[..k], agent, session);
      AttemptFiles(Head(sha, attempts[..k]), sha, ds, a, agent, session);
    }
  }

  // ---------------------------------------------------------------- the partition

  lemma {:induction false} LineOrigin(names: seq<string>, marks: seq<string>, t: string, n: string)
    requires |names| == |marks|
    ensures n in Marked(names, marks, t) <==> exists i :: 0 <= i < |names| && names[i] == n && marks[i] == t
  {
    if names != [] {
      var k := |names| - 1;
      LineOrigin(names[..k], marks[..k], t, n);
      if i :| 0 <= i < k && names[..k][i] == n && marks[..k][i] == t { assert names[i] == n && marks[i] == t; }
      if i :| 0 <= i < |names| && names[i] == n && marks[i] == t {
        if i < k { assert names[..k][i] == n && marks[..k][i] == t; }
      }
    }
  }

  lemma {:induction false} MarkedAscend(names: seq<string>, marks: seq<string>, t: string)
    requires |names| == |marks| && Ascending(names)
    ensures Ascending(Marked(names, marks, t))
  {
    if names != [] {
      var k := |names| - 1;
      var init := names[..k];
      forall i, j | 0 <= i < j < k ensures Precedes(init[i], init[j]) { assert Precedes(names[i], names[j]); }
      MarkedAscend(init, marks[..k], t);
      if marks[k] == t {
        forall n | n in Marked(init, marks[..k], t) ensures Precedes(n, names[k]) {
          LineOrigin(init, marks[..k], t, n);
          var i :| 0 <= i < k && init[i] == n && marks[..k][i] == t;
          assert Precedes(names[i], names[k]);
        }
        AscendingAppend(Marked(init, marks[..k], t), names[k]);
      }
    }
  }

  lemma AscendingAppend(names: seq<string>, last: string)
    requires Ascending(names) && forall n :: n in names ==> Precedes(n, last)
    ensures Ascending(names + [last])
  {
    var all := names + [last];
    forall i, j | 0 <= i < j < |all| ensures Precedes(all[i], all[j]) {
      if j < |names| { assert Precedes(names[i], names[j]); } else { assert names[i] in names; }
    }
  }

  lemma NamesAreDistinct(ds: seq<Delivery>, i: nat, j: nat)
    requires |ds| <= LIMIT && i < |ds| && j < |ds| && Names(ds)[i] == Names(ds)[j]
    ensures i == j
  {
    NumbersSort(i + 1, j + 1, ds[i], ds[j]);
  }

  /** A fork belongs to the branch it opens, every other message to main. */
  predicate GoesTo(d: Delivery, t: string) { if d.message.kind.Fork? then t == d.branch else t == "main" }

  /**
    The timeline files partition the session. After any run, with at most 999 messages: message
    i is a line of timeline t's file exactly when t is its timeline; the lines of a file
    ascend, so none is repeated; splitting the file on newlines gives those lines exactly when
    none of them holds a newline; ACTIVE is not a file of lines but names the newest message's
    timeline, whatever branch may be called ACTIVE.
   */
  lemma TimelinesPartitionTheSession(
      sha: Hash, attempts: seq<Attempt>, agent: string, session: string, t: string, i: nat,
      ds: seq<Delivery>, files: Tree)
    requires ds == Mine(attempts, agent, session) &&
        files == Timelines(SessionTree(Head(sha, attempts), agent, session))
    requires agent !in RESERVED && |ds| <= LIMIT && i < |ds| && t != "ACTIVE"
    ensures Names(ds)[i] in Lines(ds, t) <==> GoesTo(ds[i], t)
    ensures Ascending(Lines(ds, t))
    ensures t in files <==> Lines(ds, t) != []
    ensures t in files ==> files[t] == Blob(Join(Lines(ds, t), '\n'))
    ensures t in files ==> (Split(files[t].text, '\n') == Lines(ds, t) <==> AllFree(Lines(ds, t), '\n'))
    ensures "ACTIVE" in files && files["ACTIVE"].Blob? && GoesTo(ds[|ds| - 1], files["ACTIVE"].text)
  {
    HeadFiles(sha, attempts, agent, session);
    assert FileHolds(files, ds, t);
    NamesAscend(ds);
    MarkedAscend(Names(ds), Marks(ds), t);
    LineOrigin(Names(ds), Marks(ds), t, Names(ds)[i]);
    assert Marks(ds)[i] == TimelineOf(ds[i]);
    if Names(ds)[i] in Lines(ds, t) {
      var j :| 0 <= j < |ds| && Names(ds)[j] == Names(ds)[i] && Marks(ds)[j] == t;
      NamesAreDistinct(ds, i, j);
    }
    if Lines(ds, t) != [] { SplitJoinExact(Lines(ds, t), '\n'); }
  }

  /** The directory `dir` is a line of some timeline's file. */
  predicate Listed(files: Tree, ds: seq<Delivery>, dir: string) {
    exists t :: t in files && t != "ACTIVE" && dir in Lines(ds, t)
  }

  /** A message is listed in some file unless its branch is called ACTIVE: then in none. */
  lemma ListedUnlessActive(
      sha: Hash, attempts: seq<Attempt>, agent: string, session: string, i: nat,
      ds: seq<Delivery>, files: Tree)
    requires ds == Mine(attempts, agent, session) &&
        files == Timelines(SessionTree(Head(sha, attempts), agent, session))
    requires agent !in RESERVED && |ds| <= LIMIT && i < |ds|
    ensures Listed(files, ds, Names(ds)[i]) <==> !GoesTo(ds[i], "ACTIVE")
  {
    var own := TimelineOf(ds[i]);
    if own != "ACTIVE" {
      TimelinesPartitionTheSession(sha, attempts, agent, session, own, i, ds, files);
    } else if t :| t in files && t != "ACTIVE" && Names(ds)[i] in Lines(ds, t) {
      TimelinesPartitionTheSession(sha, attempts, agent, session, t, i, ds, files);
    }
  }
}
