/** Opening the store: the migration history must be a prefix of the known migrations, and only
    the rest is applied, each migration in one transaction with its history row. */
module Migrations {
  predicate IsPrefix(versions: seq<int>) { forall i :: 0 <= i < |versions| ==> versions[i] == i + 1 }

  /** One opening by a program that knows `known` migrations; `commits` says, for each of them,
      whether its transaction would go through. */
  datatype Opening = Opening(known: nat, commits: nat -> bool)

  function Opened(versions: seq<int>, o: Opening): seq<int>
    decreases o.known - |versions|
  {
    if !IsPrefix(versions) || |versions| >= o.known || !o.commits(|versions|) then versions
    else Opened(versions + [|versions| + 1], o)
  }

  function AfterOpenings(openings: seq<Opening>): seq<int> {
    if openings == [] then [] else Opened(AfterOpenings(openings[..|openings| - 1]), openings[|openings| - 1])
  }

  lemma {:induction false} OpenedExtends(versions: seq<int>, o: Opening)
    requires IsPrefix(versions)
    ensures IsPrefix(Opened(versions, o)) && versions <= Opened(versions, o)
    ensures |Opened(versions, o)| < o.known ==> !o.commits(|Opened(versions, o)|)
    decreases o.known - |versions|
  {
    if |versions| < o.known && o.commits(|versions|) { OpenedExtends(versions + [|versions| + 1], o); }
  }

  /** Whatever programs opened the store and wherever each of them failed, the history is a gapless
      prefix that only grows, and an opening that meets no failure completes it. */
  lemma {:induction false} HistoryOnlyGrows(openings: seq<Opening>, k: nat)
    requires k <= |openings|
    ensures IsPrefix(AfterOpenings(openings)) && AfterOpenings(openings[..k]) <= AfterOpenings(openings)
    ensures openings != [] ==>
              var o := openings[|openings| - 1];
              (forall i :: 0 <= i < o.known ==> o.commits(i)) ==> |AfterOpenings(openings)| >= o.known
    decreases |openings|
  {
    if openings == [] {
      assert openings[..k] == openings;
    } else {
      var last := |openings| - 1;
      HistoryOnlyGrows(openings[..last], if k <= last then k else last);
      OpenedExtends(AfterOpenings(openings[..last]), openings[last]);
      assert k <= last ==> openings[..last][..k] == openings[..k];
      assert k > last ==> openings[..k] == openings;
    }
  }

  class Store {
    /** The rows of the history table, in order of version. */
    var versions: seq<int>
    /** The migrations whose statements have taken effect, in the order they did. */
    ghost var executed: seq<int>

    constructor ()
      ensures versions == [] && executed == []
    {
      versions, executed := [], [];
    }

    /** A history that is not a prefix, or longer than what the program knows, is refused before
        anything runs; otherwise exactly the missing migrations take effect, once and in order,
        up to the first that fails. */
    method Migrate(o: Opening) returns (err: bool)
      modifies this
      ensures !IsPrefix(old(versions)) || |old(versions)| > o.known ==> err && versions == old(versions)
      ensures versions == Opened(old(versions), o)
      ensures |old(versions)| <= |versions| && executed == old(executed) + versions[|old(versions)|..]
      ensures !err <==> IsPrefix(versions) && |versions| == o.known
    {
      for i := 0 to |versions|
        invariant forall j :: 0 <= j < i ==> versions[j] == j + 1
        invariant i <= o.known
      {
        if versions[i] != i + 1 { return true; }
        if versions[i] > o.known { return true; }
      }
      var v := |versions|;
      if v > o.known { return true; }
      for i := v to o.known
        invariant IsPrefix(versions) && |versions| == i
        invariant Opened(versions, o) == Opened(old(versions), o)
        invariant executed == old(executed) + versions[v..]
      {
        if !o.commits(i) { return true; }
        assert (versions + [i + 1])[v..] == versions[v..] + [i + 1];
        versions := versions + [i + 1];
        executed := executed + [i + 1];
      }
      err := false;
    }
  }
}
