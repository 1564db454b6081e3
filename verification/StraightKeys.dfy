/** The calls of a straight run are distinct, and with collision-free ids their keys tell them apart. */
module StraightKeys {
  import opened StepKeys
  import opened Engine
  import opened Workflow
  import opened PassShape
  import opened Direct

  /** Positions between two numberings. */
  predicate Between(a: map<string, nat>, b: map<string, nat>, c: CallId) {
    Next(a, c.id) <= c.pos < Next(b, c.id)
  }

  ghost predicate Advances(a: map<string, nat>, b: map<string, nat>) {
    forall id :: Next(a, id) <= Next(b, id)
  }

  /** A run's calls have distinct positions, all handed out between its two numberings. */
  ghost predicate WellMade(idx: map<string, nat>, idx': map<string, nat>, made: seq<Made>) {
    && Advances(idx, idx')
    && (forall i :: 0 <= i < |made| ==> Between(idx, idx', made[i].c))
    && (forall i, j :: 0 <= i < j < |made| ==> made[i].c != made[j].c)
  }

  lemma WellMadeBoth(idx: map<string, nat>, idx1: map<string, nat>, idx2: map<string, nat>, a: seq<Made>, b: seq<Made>)
    requires WellMade(idx, idx1, a) && WellMade(idx1, idx2, b)
    ensures WellMade(idx, idx2, a + b)
  {
    forall id ensures Next(idx, id) <= Next(idx2, id) {
      assert Next(idx, id) <= Next(idx1, id) <= Next(idx2, id);
    }
    forall i | 0 <= i < |a + b| ensures Between(idx, idx2, (a + b)[i].c) {
      var c := (a + b)[i].c;
      assert Next(idx, c.id) <= Next(idx1, c.id) <= Next(idx2, c.id);
      if i < |a| { assert Between(idx, idx1, a[i].c); } else { assert Between(idx1, idx2, b[i - |a|].c); }
    }
    forall i, j | 0 <= i < j < |a + b| ensures (a + b)[i].c != (a + b)[j].c {
      if i < |a| { assert Between(idx, idx1, a[i].c); }
      if j >= |a| { assert Between(idx1, idx2, b[j - |a|].c); }
    }
  }

  lemma {:induction false} StraightWellMade(p: Prog, idx: map<string, nat>, w: World)
    ensures var d := Straight(p, idx, w); WellMade(idx, d.indexes, d.made)
    decreases p, 0
  {
    match p
    case Return(_, _) =>
    case Crash(_) =>
    case Call(tool, id, ty, next) =>
      var c := CallId(id, Next(idx, id));
      var idx1 := idx[id := c.pos];
      assert WellMade(idx, idx1, [Made(tool, c, ty)]);
      var decoded := w(tool, c, ty);
      if decoded.Good? && decoded.result in next {
        StraightWellMade(next[decoded.result], idx1, w);
        var rest := Straight(next[decoded.result], idx1, w);
        WellMadeBoth(idx, idx1, rest.indexes, [Made(tool, c, ty)], rest.made);
      }
    case Parallel(branches, join) =>
      StraightAllWellMade(branches, idx, w);
      var all := StraightAll(branches, idx, w);
      if all.failure.None? && all.results in join {
        StraightWellMade(join[all.results], all.indexes, w);
        var rest := Straight(join[all.results], all.indexes, w);
        WellMadeBoth(idx, all.indexes, rest.indexes, all.made, rest.made);
      }
  }

  lemma {:induction false} StraightAllWellMade(bs: seq<Prog>, idx: map<string, nat>, w: World)
    ensures var d := StraightAll(bs, idx, w); WellMade(idx, d.indexes, d.made)
    decreases bs, 0
  {
    if bs != [] {
      StraightWellMade(bs[0], idx, w);
      var first := Straight(bs[0], idx, w);
      StraightAllWellMade(bs[1..], first.indexes, w);
      var rest := StraightAll(bs[1..], first.indexes, w);
      WellMadeBoth(idx, first.indexes, rest.indexes, first.made, rest.made);
    }
  }

  /** A run only makes calls with ids the program uses. */
  lemma {:induction false} MadeIdsUsed(p: Prog, idx: map<string, nat>, w: World)
    ensures forall m :: m in Straight(p, idx, w).made ==> Uses(p, m.c.id)
    decreases p, 0
  {
    match p
    case Return(_, _) =>
    case Crash(_) =>
    case Call(tool, id, ty, next) =>
      var c := CallId(id, Next(idx, id));
      var decoded := w(tool, c, ty);
      if decoded.Good? && decoded.result in next {
        MadeIdsUsed(next[decoded.result], idx[id := c.pos], w);
      }
    case Parallel(branches, join) =>
      MadeIdsUsedAll(branches, idx, w);
      var all := StraightAll(branches, idx, w);
      if all.failure.None? && all.results in join {
        MadeIdsUsed(join[all.results], all.indexes, w);
      }
  }

  lemma {:induction false} MadeIdsUsedAll(bs: seq<Prog>, idx: map<string, nat>, w: World)
    ensures forall m :: m in StraightAll(bs, idx, w).made ==> exists b :: b in bs && Uses(b, m.c.id)
    decreases bs, 0
  {
    if bs != [] {
      MadeIdsUsed(bs[0], idx, w);
      MadeIdsUsedAll(bs[1..], Straight(bs[0], idx, w).indexes, w);
      var first := Straight(bs[0], idx, w).made;
      var rest := StraightAll(bs[1..], Straight(bs[0], idx, w).indexes, w).made;
      forall m: Made | m in first + rest
        ensures exists b :: b in bs && Uses(b, m.c.id)
      {
        if m in first {
          assert bs[0] in bs;
        } else {
          var b :| b in bs[1..] && Uses(b, m.c.id);
          assert b in bs;
        }
      }
    }
  }

  /** The keys of a run's calls determine the calls. */
  ghost predicate KeysApart(made: seq<Made>) {
    forall i, j :: 0 <= i < j < |made| ==> Key(made[i].c) != Key(made[j].c)
  }

  lemma StraightKeysApart(p: Prog, w: World)
    requires CollisionFree(Ids(p))
    ensures KeysApart(Straight(p, map[], w).made)
  {
    StraightWellMade(p, map[], w);
    MadeIdsUsed(p, map[], w);
    var made := Straight(p, map[], w).made;
    forall i, j | 0 <= i < j < |made|
      ensures Key(made[i].c) != Key(made[j].c)
    {
      assert made[i] in made && made[j] in made && made[i].c != made[j].c;
    }
  }

  /** The keys of a run's calls, as a set. */
  function KeysOf(made: seq<Made>): set<string> {
    set i | 0 <= i < |made| :: Key(made[i].c)
  }

  lemma {:induction false} CountKeys(made: seq<Made>)
    requires KeysApart(made)
    ensures |KeysOf(made)| == |made|
  {
    if made != [] {
      var rest := made[..|made| - 1];
      CountKeys(rest);
      var last := Key(made[|made| - 1].c);
      assert KeysOf(made) == KeysOf(rest) + {last};
      assert last !in KeysOf(rest);
    }
  }

  lemma SameCall(made: seq<Made>, m: Made, m': Made)
    requires KeysApart(made) && m in made && m' in made && Key(m.c) == Key(m'.c)
    ensures m == m'
  {
    var i :| 0 <= i < |made| && made[i] == m;
    var j :| 0 <= j < |made| && made[j] == m';
    assert i == j;
  }
}
